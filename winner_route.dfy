/**
 * The two unguarded winner handlers of `/api/winner`: both pick the most-voted
 * post of the requested day (yesterday by default) with no vote threshold.
 * `GET` writes only when that post is not flagged yet; `POST` writes always.
 */
module WinnerRoute {
  import opened Wrappers
  import opened Api
  import opened Store

  datatype Reply =
    | NoPostsFound      // 404 "No posts found for this date"
    | Found(winner: Post)  // 200, the post as it was read

  /** The HTTP status of the reply: 404 for a day without posts, 200 otherwise. */
  function Status(r: Reply): (code: int)
    ensures code == 404 <==> r.NoPostsFound?
    ensures code == 200 <==> r.Found?
  {
    if r.NoPostsFound? then 404 else 200
  }

  /** The read shared by both handlers: the day's most-voted post, if any. */
  function SelectTop(posts: seq<Post>, votes: seq<Vote>, day: int): (r: Reply)
    ensures r.NoPostsFound? <==> forall p :: p in posts ==> p.day != day
    ensures r.Found? ==> r.winner in posts && r.winner.day == day
    ensures r.Found? ==> forall p :: p in posts && p.day == day ==>
      VoteCount(votes, p.id) <= VoteCount(votes, r.winner.id)
  {
    match TopPost(PostsIn(posts, day, day + 1), votes)
    case None => NoPostsFound
    case Some(top) => Found(top)
  }

  /** The status in terms of the store: 404 exactly when the day has no post, else 200. */
  lemma SelectTopStatus(posts: seq<Post>, votes: seq<Vote>, day: int)
    ensures Status(SelectTop(posts, votes, day)) == 404 <==> forall p :: p in posts ==> p.day != day
    ensures Status(SelectTop(posts, votes, day)) == 200 <==> exists p :: p in posts && p.day == day
  {
  }

  /** `GET`: flags the top post unless it already is a winner. */
  method GetWinner(db: Db, dateParam: Option<int>, today: int) returns (r: Reply)
    requires db.Valid()
    modifies db`posts
    ensures db.Valid()
    ensures r == SelectTop(old(db.posts), db.votes, RequestedDay(dateParam, today - 1))
    ensures r.Found? && !r.winner.isWinner ==> db.posts == SetWinner(old(db.posts), r.winner.id)
    ensures r.NoPostsFound? || r.winner.isWinner ==> db.posts == old(db.posts)
  {
    var day := RequestedDay(dateParam, today - 1);
    r := SelectTop(db.posts, db.votes, day);
    if r.Found? && !r.winner.isWinner {
      db.UpdateIsWinner(r.winner.id);
    }
  }

  /** `POST`: flags the top post unconditionally, even one with no votes. */
  method PostWinner(db: Db, dateParam: Option<int>, today: int) returns (r: Reply)
    requires db.Valid()
    modifies db`posts
    ensures db.Valid()
    ensures r == SelectTop(old(db.posts), db.votes, RequestedDay(dateParam, today - 1))
    ensures r.Found? ==> db.posts == SetWinner(old(db.posts), r.winner.id)
    ensures r.NoPostsFound? ==> db.posts == old(db.posts)
  {
    var day := RequestedDay(dateParam, today - 1);
    r := SelectTop(db.posts, db.votes, day);
    if r.Found? {
      db.UpdateIsWinner(r.winner.id);
    }
  }

  /**
   * GET's "already a winner" guard only saves a write: both handlers leave
   * the store in the same state, and after either the top post is flagged.
   */
  lemma GetAndPostAgree(posts: seq<Post>, votes: seq<Vote>, day: int)
    requires UniqueIds(posts)
    requires SelectTop(posts, votes, day).Found?
    ensures var w := SelectTop(posts, votes, day).winner;
      (if w.isWinner then posts else SetWinner(posts, w.id)) == SetWinner(posts, w.id)
    ensures var w := SelectTop(posts, votes, day).winner;
      FirstWinnerIn(SetWinner(posts, w.id), day, day + 1).Some?
  {
    var w := SelectTop(posts, votes, day).winner;
    if w.isWinner {
      SetWinnerOnWinner(posts, w);
    }
    var k :| 0 <= k < |posts| && posts[k] == w;
    assert SetWinner(posts, w.id)[k].isWinner;
    assert SetWinner(posts, w.id)[k] in SetWinner(posts, w.id);
  }
}
