/**
 * `/api/posts`: the listing of one day's posts, newest first, and the creation
 * of today's post behind an ordered chain of guards (401, 400, 404, then the
 * one-post-per-day 400).
 */
module PostsRoute {
  import opened Wrappers
  import opened Api
  import opened Ordering
  import opened Store

  /**
   * `GET`: the posts dated on the requested day (today by default), ordered
   * by `createdAt` descending. It only reads.
   */
  function ListPosts(posts: seq<Post>, dateParam: Option<int>, today: int): (r: seq<Post>)
    ensures forall p :: p in r <==> p in posts && p.day == RequestedDay(dateParam, today)
    ensures multiset(r) == multiset(PostsIn(posts, RequestedDay(dateParam, today), RequestedDay(dateParam, today) + 1))
    ensures SortedDesc(r, ByCreatedAt)
  {
    var day := RequestedDay(dateParam, today);
    OrderedPostsIn(posts, day, day + 1, ByCreatedAt)
  }

  datatype CreateError =
    | Unauthorized        // 401 "Unauthorized"
    | MissingFields       // 400 "Missing required fields"
    | UserNotFound        // 404 "User not found"
    | AlreadyPostedToday  // 400 "You have already posted today"

  /** The HTTP status of a refusal: 401 unauthorised, 404 unknown user, 400 otherwise. */
  function Status(e: CreateError): (code: int)
    ensures code == 401 <==> e.Unauthorized?
    ensures code == 404 <==> e.UserNotFound?
    ensures code == 400 <==> e.MissingFields? || e.AlreadyPostedToday?
  {
    match e
    case Unauthorized => 401
    case MissingFields => 400
    case UserNotFound => 404
    case AlreadyPostedToday => 400
  }

  /** The user has a post in today's window. */
  predicate PostedOn(posts: seq<Post>, author: UserId, today: int)
  {
    exists p :: p in posts && p.authorId == author && InWindow(p, today, today + 1)
  }

  /**
   * The guard chain of `POST`, in the source's order; on success, the author
   * the new post will belong to.
   */
  function CheckCreate(users: seq<User>, posts: seq<Post>, sessionEmail: Option<string>,
                       title: Option<string>, imageUrl: Option<string>, today: int): (r: Result<User, CreateError>)
    ensures r == Err(Unauthorized) <==> !SignedIn(sessionEmail)
    ensures r == Err(MissingFields) <==> SignedIn(sessionEmail) && !(Present(title) && Present(imageUrl))
    ensures r == Err(UserNotFound) <==>
      SignedIn(sessionEmail) && Present(title) && Present(imageUrl) &&
      forall u :: u in users ==> u.email != sessionEmail.value
    ensures r == Err(AlreadyPostedToday) <==>
      SignedIn(sessionEmail) && Present(title) && Present(imageUrl) &&
      FindUserByEmail(users, sessionEmail.value).Some? &&
      PostedOn(posts, FindUserByEmail(users, sessionEmail.value).value.id, today)
    ensures r.Ok? ==> r.value in users && r.value.email == sessionEmail.value && !PostedOn(posts, r.value.id, today)
  {
    if !SignedIn(sessionEmail) then Err(Unauthorized)
    else if !(Present(title) && Present(imageUrl)) then Err(MissingFields)
    else
      match FindUserByEmail(users, sessionEmail.value)
      case None => Err(UserNotFound)
      case Some(user) =>
        if PostedOn(posts, user.id, today) then Err(AlreadyPostedToday) else Ok(user)
  }

  /**
   * The status of a refused creation in terms of the request and the store:
   * 401 without a session e-mail; 404 for a complete request from an unknown
   * e-mail; 400 for a signed-in request with a missing field or from a user
   * who already posted today.
   */
  lemma CheckCreateStatus(users: seq<User>, posts: seq<Post>, sessionEmail: Option<string>,
                          title: Option<string>, imageUrl: Option<string>, today: int)
    ensures var r := CheckCreate(users, posts, sessionEmail, title, imageUrl, today);
      (r.Err? && Status(r.error) == 401) <==> !SignedIn(sessionEmail)
    ensures var r := CheckCreate(users, posts, sessionEmail, title, imageUrl, today);
      (r.Err? && Status(r.error) == 404) <==>
        SignedIn(sessionEmail) && Present(title) && Present(imageUrl) &&
        forall u :: u in users ==> u.email != sessionEmail.value
    ensures var r := CheckCreate(users, posts, sessionEmail, title, imageUrl, today);
      (r.Err? && Status(r.error) == 400) <==>
        SignedIn(sessionEmail) &&
        (!(Present(title) && Present(imageUrl)) ||
         (FindUserByEmail(users, sessionEmail.value).Some? &&
          PostedOn(posts, FindUserByEmail(users, sessionEmail.value).value.id, today)))
  {
  }

  /**
   * `POST`: runs the guard chain and, if it passes, appends one post dated
   * today (midnight) for the signed-in user. Every failure leaves the store as it was.
   */
  method CreatePost(db: Db, sessionEmail: Option<string>, title: Option<string>,
                    description: Option<string>, imageUrl: Option<string>,
                    today: int, now: int) returns (r: Result<Post, CreateError>)
    requires db.Valid()
    modifies db`posts
    ensures db.Valid()
    ensures r.Err? ==> db.posts == old(db.posts)
    ensures r.Err? ==> CheckCreate(db.users, old(db.posts), sessionEmail, title, imageUrl, today) == Err(r.error)
    ensures r.Ok? ==> CheckCreate(db.users, old(db.posts), sessionEmail, title, imageUrl, today).Ok?
    ensures r.Ok? ==>
      var author := CheckCreate(db.users, old(db.posts), sessionEmail, title, imageUrl, today).value;
      && db.posts == old(db.posts) + [r.value]
      && r.value.authorId == author.id
      && r.value.day == today
      && r.value.createdAt == now
      && !r.value.isWinner
      && r.value.title == title.value && r.value.imageUrl == imageUrl.value
      && r.value.description == description
      && forall q :: q in old(db.posts) ==> q.id != r.value.id
  {
    var check := CheckCreate(db.users, db.posts, sessionEmail, title, imageUrl, today);
    if check.Err? {
      return Err(check.error);
    }
    var post := db.CreatePost(check.value.id, title.value, description, imageUrl.value, today, now);
    return Ok(post);
  }

  /** After a successful creation, a second one by the same user on the same day is refused. */
  lemma SecondPostSameDayFails(users: seq<User>, posts: seq<Post>, sessionEmail: Option<string>,
                               title: Option<string>, imageUrl: Option<string>, today: int, p: Post)
    requires CheckCreate(users, posts, sessionEmail, title, imageUrl, today).Ok?
    requires p.authorId == CheckCreate(users, posts, sessionEmail, title, imageUrl, today).value.id
    requires p.day == today
    ensures CheckCreate(users, posts + [p], sessionEmail, title, imageUrl, today) == Err(AlreadyPostedToday)
  {
    assert p in posts + [p];
  }
}
