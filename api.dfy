/**
 * The request-level vocabulary shared by the route handlers: who is signed in,
 * which optional fields are present, and which contest day a request names.
 */
module Api {
  import opened Wrappers

  /**
   * A route handler accepts a session only when it carries a non-empty e-mail
   * (`!session || !session.user?.email` rejects a missing session, a missing
   * e-mail and the empty string alike).
   */
  predicate SignedIn(email: Option<string>)
  {
    email.Some? && email.value != ""
  }

  /** A JSON field is "present" when it is truthy: given and not the empty string. */
  predicate Present(field: Option<string>)
  {
    field.Some? && field.value != ""
  }

  /**
   * The day a request resolves: the `date` it names, or else the handler's
   * default day (today for the post listing, yesterday for winner resolution).
   */
  function RequestedDay(dateParam: Option<int>, fallback: int): (d: int)
    ensures dateParam.Some? ==> d == dateParam.value
    ensures dateParam.None? ==> d == fallback
  {
    match dateParam
    case Some(day) => day
    case None => fallback
  }

  /**
   * How a client-side `fetch` ends: with a response whose `ok` flag the
   * handler inspects, or with an exception caught by its `catch`.
   */
  datatype Fetch = Responded(ok: bool) | Threw
}
