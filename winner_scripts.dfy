/**
 * The scheduled script `src/scripts/determine-winner.js`: resolves yesterday,
 * the window [yesterday midnight, today midnight), reading the day's posts in
 * descending vote order and flagging the first one unless it has no votes.
 */
module YesterdayWinnerScript {
  import opened Store
  import opened Ordering

  datatype Outcome =
    | NoPostsYesterday      // "No posts found for yesterday."
    | NoVotesYesterday      // "No votes found for any posts yesterday."
    | Marked(winner: Post)  // "Updated post ... as the daily winner."

  /** The day's posts, most-voted first (`orderBy votes desc`, no `take`). */
  function Ranked(posts: seq<Post>, votes: seq<Vote>, today: int): (r: seq<Post>)
    ensures multiset(r) == multiset(PostsIn(posts, today - 1, today))
    ensures forall p :: p in r <==> p in posts && p.day == today - 1
    ensures SortedDesc(r, ByVotes(votes))
  {
    OrderedPostsIn(posts, today - 1, today, ByVotes(votes))
  }

  /** The read half: `posts[0]` of the ranked list and the zero-vote guard. */
  function Decide(posts: seq<Post>, votes: seq<Vote>, today: int): (r: Outcome)
    ensures r.NoPostsYesterday? <==> forall p :: p in posts ==> p.day != today - 1
    ensures r.NoVotesYesterday? <==>
      (exists p :: p in posts && p.day == today - 1) &&
      (forall p :: p in posts && p.day == today - 1 ==> VoteCount(votes, p.id) == 0)
    ensures r.Marked? ==> r.winner in posts && r.winner.day == today - 1 && VoteCount(votes, r.winner.id) > 0
    ensures r.Marked? ==> forall p :: p in posts && p.day == today - 1 ==>
      VoteCount(votes, p.id) <= VoteCount(votes, r.winner.id)
  {
    var ranked := Ranked(posts, votes, today);
    if |ranked| == 0 then NoPostsYesterday
    else
      HeadIsMaximal(ranked, ByVotes(votes));
      var top := ranked[0];
      if VoteCount(votes, top.id) == 0 then NoVotesYesterday else Marked(top)
  }

  /** `determineWinner()`: at most one write, the flag of the ranked head. */
  method DetermineWinner(db: Db, today: int) returns (r: Outcome)
    requires db.Valid()
    modifies db`posts
    ensures db.Valid()
    ensures r == Decide(old(db.posts), db.votes, today)
    ensures r.Marked? ==> db.posts == SetWinner(old(db.posts), r.winner.id)
    ensures !r.Marked? ==> db.posts == old(db.posts)
  {
    r := Decide(db.posts, db.votes, today);
    if r.Marked? {
      db.UpdateIsWinner(r.winner.id);
    }
  }
}

/**
 * The scheduled script `src/scripts/determine-winner.ts`: resolves the current
 * day, [today midnight, tomorrow midnight), and flags the most-voted post with
 * no vote threshold.
 */
module TodayWinnerScript {
  import opened Wrappers
  import opened Store

  datatype Outcome =
    | NoPostsToday          // "No posts found for today"
    | Marked(winner: Post)  // "Winner determined for ..."

  /** The read half: the most-voted post of today (`take: 1`). */
  function Decide(posts: seq<Post>, votes: seq<Vote>, today: int): (r: Outcome)
    ensures r.NoPostsToday? <==> forall p :: p in posts ==> p.day != today
    ensures r.Marked? ==> r.winner in posts && r.winner.day == today
    ensures r.Marked? ==> forall p :: p in posts && p.day == today ==>
      VoteCount(votes, p.id) <= VoteCount(votes, r.winner.id)
  {
    match TopPost(PostsIn(posts, today, today + 1), votes)
    case None => NoPostsToday
    case Some(top) => Marked(top)
  }

  /** `determineWinner()`: flags the top post whenever today has a post. */
  method DetermineWinner(db: Db, today: int) returns (r: Outcome)
    requires db.Valid()
    modifies db`posts
    ensures db.Valid()
    ensures r == Decide(old(db.posts), db.votes, today)
    ensures r.Marked? ==> db.posts == SetWinner(old(db.posts), r.winner.id)
    ensures r.NoPostsToday? ==> db.posts == old(db.posts)
  {
    r := Decide(db.posts, db.votes, today);
    if r.Marked? {
      db.UpdateIsWinner(r.winner.id);
    }
  }

  /** A day whose every post has zero votes still gets a winner. */
  lemma CrownsZeroVotePost(posts: seq<Post>, votes: seq<Vote>, today: int, p: Post)
    requires p in posts && p.day == today
    requires forall v :: v in votes ==> v.postId != p.id
    requires forall q :: q in posts && q.day == today ==> q == p
    ensures Decide(posts, votes, today) == Marked(p)
    ensures VoteCount(votes, p.id) == 0
  {
  }
}
