/**
 * The idempotent, threshold-guarded winner resolution (the route handler kept
 * in `src/app/winners/page.tsx`): a day that already has a winner is answered
 * with it and left alone; otherwise the day's most-voted post is flagged, but
 * only if it has at least one vote.
 */
module GuardedWinnerRoute {
  import opened Wrappers
  import opened Api
  import opened Store

  datatype Resolution =
    | AlreadyDetermined(winner: Post)  // 200 "A winner has already been determined for this date"
    | NoPostsFound                     // 404 "No posts found for this date"
    | Determined(winner: Post)         // 200 "Winner determined successfully"
    | NoVotedPosts(candidate: Post)    // 200 "No posts with votes found for this date"

  /** The HTTP status of the reply: 404 for a day without posts, 200 otherwise. */
  function Status(r: Resolution): (code: int)
    ensures code == 404 <==> r.NoPostsFound?
    ensures code == 200 <==> !r.NoPostsFound?
  {
    if r.NoPostsFound? then 404 else 200
  }

  /**
   * The read half of the handler: the existing-winner lookup, then the
   * most-voted post of the day and the vote threshold. `Determined` is the
   * only outcome after which the handler writes.
   */
  function Decide(posts: seq<Post>, votes: seq<Vote>, day: int): (r: Resolution)
    ensures r.AlreadyDetermined? <==> exists p :: p in posts && p.day == day && p.isWinner
    ensures r.AlreadyDetermined? ==> r.winner in posts && r.winner.day == day && r.winner.isWinner
    ensures r.NoPostsFound? <==> forall p :: p in posts ==> p.day != day
    ensures r.Determined? <==>
      (forall p :: p in posts && p.day == day ==> !p.isWinner) &&
      (exists p :: p in posts && p.day == day && VoteCount(votes, p.id) > 0)
    ensures r.Determined? ==> r.winner in posts && r.winner.day == day && VoteCount(votes, r.winner.id) > 0
    ensures r.Determined? ==> forall p :: p in posts && p.day == day ==>
      VoteCount(votes, p.id) <= VoteCount(votes, r.winner.id)
    ensures r.NoVotedPosts? ==> r.candidate in posts && r.candidate.day == day
    ensures r.NoVotedPosts? ==> forall p :: p in posts && p.day == day ==> VoteCount(votes, p.id) == 0
  {
    match FirstWinnerIn(posts, day, day + 1)
    case Some(w) => AlreadyDetermined(w)
    case None =>
      var ofDay := PostsIn(posts, day, day + 1);
      match TopPost(ofDay, votes)
      case None => NoPostsFound
      case Some(top) =>
        if VoteCount(votes, top.id) > 0 then Determined(top) else NoVotedPosts(top)
  }

  /**
   * The status in terms of the store: 404 exactly when the day has no post,
   * and 200 whenever it has one, flagged, voted or not.
   */
  lemma DecideStatus(posts: seq<Post>, votes: seq<Vote>, day: int)
    ensures Status(Decide(posts, votes, day)) == 404 <==> forall p :: p in posts ==> p.day != day
    ensures Status(Decide(posts, votes, day)) == 200 <==> exists p :: p in posts && p.day == day
  {
  }

  /**
   * `POST`: resolves the requested day (yesterday when the body names none)
   * and flags the winner when, and only when, the decision is `Determined`.
   * The reply carries the post as it was read, before the write.
   */
  method ResolveWinner(db: Db, dateParam: Option<int>, today: int) returns (r: Resolution)
    requires db.Valid()
    modifies db`posts
    ensures db.Valid()
    ensures r == Decide(old(db.posts), db.votes, RequestedDay(dateParam, today - 1))
    ensures r.Determined? ==> db.posts == SetWinner(old(db.posts), r.winner.id)
    ensures !r.Determined? ==> db.posts == old(db.posts)
  {
    var day := RequestedDay(dateParam, today - 1);
    r := Decide(db.posts, db.votes, day);
    if r.Determined? {
      db.UpdateIsWinner(r.winner.id);
    }
  }

  /**
   * Idempotence: after a call that determined a winner, the next call for the
   * same day finds that post (now flagged) and writes nothing.
   */
  lemma DecideIsIdempotent(posts: seq<Post>, votes: seq<Vote>, day: int)
    requires UniqueIds(posts)
    requires Decide(posts, votes, day).Determined?
    ensures var w := Decide(posts, votes, day).winner;
      Decide(SetWinner(posts, w.id), votes, day) == AlreadyDetermined(w.(isWinner := true))
  {
    var w := Decide(posts, votes, day).winner;
    FirstWinnerAfterMark(posts, w, day, day + 1);
  }

  /** The write flags exactly the winner: every other post keeps its value. */
  lemma DeterminedWritesOnlyWinner(posts: seq<Post>, votes: seq<Vote>, day: int)
    requires UniqueIds(posts)
    requires Decide(posts, votes, day).Determined?
    ensures var w := Decide(posts, votes, day).winner;
      forall i :: 0 <= i < |posts| ==>
        SetWinner(posts, w.id)[i] == if posts[i] == w then w.(isWinner := true) else posts[i]
  {
    var w := Decide(posts, votes, day).winner;
    forall i | 0 <= i < |posts| && posts[i].id == w.id
      ensures posts[i] == w
    {
      var k :| 0 <= k < |posts| && posts[k] == w;
      assert k == i;
    }
  }
}
