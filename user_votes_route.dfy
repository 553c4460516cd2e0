/**
 * `GET /api/user/votes`: the signed-in user's votes on posts dated today,
 * each reduced to its `id` and `postId`. It only reads.
 */
module UserVotesRoute {
  import opened Wrappers
  import opened Api
  import opened Store

  /** One row of the reply (`select: { id: true, postId: true }`). */
  datatype VoteSummary = VoteSummary(id: nat, postId: PostId)

  datatype VotesError =
    | Unauthorized  // 401 "Unauthorized"
    | UserNotFound  // 404 "User not found"

  /** The HTTP status of a refusal: 401 unauthorised, 404 unknown user. */
  function Status(e: VotesError): (code: int)
    ensures code == 401 <==> e.Unauthorized?
    ensures code == 404 <==> e.UserNotFound?
  {
    if e.Unauthorized? then 401 else 404
  }

  function Summary(v: Vote): VoteSummary
  {
    VoteSummary(v.id, v.postId)
  }

  /** The vote's filter: cast by `user` on a post whose date lies in today's window. */
  predicate CastTodayBy(v: Vote, posts: seq<Post>, user: UserId, today: int)
  {
    v.userId == user && exists p :: p in posts && p.id == v.postId && InWindow(p, today, today + 1)
  }

  /** `rows` holds the projection of every vote cast today by `user`, and nothing else. */
  predicate ExactlyTodays(rows: seq<VoteSummary>, votes: seq<Vote>, posts: seq<Post>, user: UserId, today: int)
  {
    && (forall s :: s in rows ==> exists v :: v in votes && CastTodayBy(v, posts, user, today) && s == Summary(v))
    && (forall v :: v in votes && CastTodayBy(v, posts, user, today) ==> Summary(v) in rows)
  }

  /** The filtered votes, projected, in store order. */
  function TodaysVotes(votes: seq<Vote>, posts: seq<Post>, user: UserId, today: int): (r: seq<VoteSummary>)
    ensures ExactlyTodays(r, votes, posts, user, today)
    ensures |r| <= |votes|
  {
    if votes == [] then []
    else
      var rest := TodaysVotes(votes[1..], posts, user, today);
      if CastTodayBy(votes[0], posts, user, today) then [Summary(votes[0])] + rest else rest
  }

  /** Vote ids are primary keys: no two votes of the store share one. */
  predicate DistinctVoteIds(votes: seq<Vote>)
  {
    forall i, j :: 0 <= i < j < |votes| ==> votes[i].id != votes[j].id
  }

  /** No row occurs twice. */
  predicate NoRepeats(rows: seq<VoteSummary>)
  {
    forall i, j :: 0 <= i < j < |rows| ==> rows[i] != rows[j]
  }

  /**
   * Each of today's votes appears once: with distinct vote ids, the reply
   * has no repeated row, so together with `ExactlyTodays` it lists every
   * matching vote exactly once.
   */
  lemma {:induction false} TodaysVotesAreDistinct(votes: seq<Vote>, posts: seq<Post>, user: UserId, today: int)
    requires DistinctVoteIds(votes)
    ensures NoRepeats(TodaysVotes(votes, posts, user, today))
  {
    if votes != [] {
      var rest := TodaysVotes(votes[1..], posts, user, today);
      assert DistinctVoteIds(votes[1..]) by {
        forall i, j | 0 <= i < j < |votes[1..]|
          ensures votes[1..][i].id != votes[1..][j].id
        {
          assert votes[1..][i] == votes[i + 1] && votes[1..][j] == votes[j + 1];
        }
      }
      TodaysVotesAreDistinct(votes[1..], posts, user, today);
      if CastTodayBy(votes[0], posts, user, today) {
        forall k | 0 <= k < |rest|
          ensures rest[k] != Summary(votes[0])
        {
          assert rest[k] in rest;
          var v :| v in votes[1..] && CastTodayBy(v, posts, user, today) && rest[k] == Summary(v);
          var m :| 0 <= m < |votes[1..]| && votes[1..][m] == v;
          assert v == votes[m + 1];
        }
      }
    }
  }

  /** The handler: 401 without a signed-in e-mail, 404 for an unknown user, else the filter. */
  function GetUserVotes(sessionEmail: Option<string>, users: seq<User>, posts: seq<Post>,
                        votes: seq<Vote>, today: int): (r: Result<seq<VoteSummary>, VotesError>)
    ensures r == Err(Unauthorized) <==> !SignedIn(sessionEmail)
    ensures r == Err(UserNotFound) <==> SignedIn(sessionEmail) && forall u :: u in users ==> u.email != sessionEmail.value
    ensures r.Ok? ==> exists u :: u in users && u.email == sessionEmail.value && ExactlyTodays(r.value, votes, posts, u.id, today)
  {
    if !SignedIn(sessionEmail) then Err(Unauthorized)
    else
      match FindUserByEmail(users, sessionEmail.value)
      case None => Err(UserNotFound)
      case Some(user) => Ok(TodaysVotes(votes, posts, user.id, today))
  }

  /**
   * The status of a refusal in terms of the session and the store: 401
   * without a session e-mail, 404 when no user has that e-mail.
   */
  lemma GetUserVotesStatus(sessionEmail: Option<string>, users: seq<User>, posts: seq<Post>,
                           votes: seq<Vote>, today: int)
    ensures var r := GetUserVotes(sessionEmail, users, posts, votes, today);
      (r.Err? && Status(r.error) == 401) <==> !SignedIn(sessionEmail)
    ensures var r := GetUserVotes(sessionEmail, users, posts, votes, today);
      (r.Err? && Status(r.error) == 404) <==> SignedIn(sessionEmail) && forall u :: u in users ==> u.email != sessionEmail.value
  {
  }
}
