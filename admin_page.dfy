/**
 * The admin page `ManageWinnersPage`: an eight-day window of dates, today-7
 * through today, and for each date that has posts, those posts ordered by
 * vote count descending.
 */
module AdminWinnersPage {
  import opened Wrappers
  import opened Api
  import opened Ordering
  import opened Store

  datatype Page =
    | RedirectToSignIn
    | Listing(dates: seq<int>, postsByDate: map<int, seq<Post>>)

  /** Some post is dated `day`. */
  predicate HasPostOn(posts: seq<Post>, day: int)
  {
    exists p :: p in posts && p.day == day
  }

  /** The page shows "No posts found for the past 7 days." instead of any group. */
  predicate ShowsNoPostsNotice(page: Page)
  {
    page.Listing? && |page.postsByDate| == 0
  }

  /** The first loop: pushes today-7 through today, oldest first. */
  method PastEightDays(today: int) returns (dates: seq<int>)
    ensures |dates| == 8 && forall k :: 0 <= k < 8 ==> dates[k] == today - 7 + k
  {
    dates := [];
    var i := 7;
    while i >= 0
      invariant -1 <= i <= 7
      invariant |dates| == 7 - i
      invariant forall k :: 0 <= k < |dates| ==> dates[k] == today - 7 + k
    {
      dates := dates + [today - i];
      i := i - 1;
    }
  }

  /** A date's ordered query is non-empty exactly when some post is dated that day. */
  lemma OrderedNonEmpty(posts: seq<Post>, votes: seq<Vote>, d: int)
    ensures |OrderedPostsIn(posts, d, d + 1, ByVotes(votes))| > 0 <==> HasPostOn(posts, d)
  {
    var ofDay := OrderedPostsIn(posts, d, d + 1, ByVotes(votes));
    if |ofDay| > 0 {
      assert ofDay[0] in ofDay;
    }
  }

  /** Every group holds its date's posts, ordered by descending vote count. */
  predicate GroupedByVotes(postsByDate: map<int, seq<Post>>, posts: seq<Post>, votes: seq<Vote>)
  {
    forall d :: d in postsByDate ==> postsByDate[d] == OrderedPostsIn(posts, d, d + 1, ByVotes(votes))
  }

  /**
   * What a grouping ordered by votes shows: under each date exactly the posts
   * dated that day, each as often as in the store, with non-increasing vote
   * counts.
   */
  lemma GroupsAreOrderedDays(postsByDate: map<int, seq<Post>>, posts: seq<Post>, votes: seq<Vote>, d: int)
    requires GroupedByVotes(postsByDate, posts, votes) && d in postsByDate
    ensures forall p :: p in postsByDate[d] <==> p in posts && p.day == d
    ensures multiset(postsByDate[d]) == multiset(PostsIn(posts, d, d + 1))
    ensures forall i, j :: 0 <= i < j < |postsByDate[d]| ==>
      VoteCount(votes, postsByDate[d][i].id) >= VoteCount(votes, postsByDate[d][j].id)
  {
    var group := postsByDate[d];
    assert SortedDesc(group, ByVotes(votes));
    forall i, j | 0 <= i < j < |group|
      ensures VoteCount(votes, group[i].id) >= VoteCount(votes, group[j].id)
    {
      assert Key(ByVotes(votes), group[i]) >= Key(ByVotes(votes), group[j]);
    }
  }

  /** Recording one more date's ordered query keeps every group ordered by votes. */
  lemma GroupedAfterAdd(postsByDate: map<int, seq<Post>>, posts: seq<Post>, votes: seq<Vote>, date: int)
    requires GroupedByVotes(postsByDate, posts, votes)
    ensures GroupedByVotes(postsByDate[date := OrderedPostsIn(posts, date, date + 1, ByVotes(votes))], posts, votes)
  {
  }

  /**
   * One pass of the second loop: queries `date`'s posts ordered by votes and
   * records them only when the query returned some.
   */
  method AddDate(postsByDate: map<int, seq<Post>>, posts: seq<Post>, votes: seq<Vote>, date: int)
    returns (grouped: map<int, seq<Post>>)
    requires GroupedByVotes(postsByDate, posts, votes)
    ensures GroupedByVotes(grouped, posts, votes)
    ensures forall d :: d in grouped <==> d in postsByDate || (d == date && HasPostOn(posts, d))
  {
    var ofDay := OrderedPostsIn(posts, date, date + 1, ByVotes(votes));
    OrderedNonEmpty(posts, votes, date);
    if |ofDay| > 0 {
      GroupedAfterAdd(postsByDate, posts, votes, date);
      grouped := postsByDate[date := ofDay];
    } else {
      grouped := postsByDate;
    }
  }

  /** The second loop: one group per date that has posts, each ordered by votes. */
  method GroupByDate(dates: seq<int>, posts: seq<Post>, votes: seq<Vote>) returns (postsByDate: map<int, seq<Post>>)
    ensures forall d :: d in postsByDate <==> d in dates && HasPostOn(posts, d)
    ensures GroupedByVotes(postsByDate, posts, votes)
  {
    postsByDate := map[];
    for k := 0 to |dates|
      invariant forall d :: d in postsByDate <==> d in dates[..k] && HasPostOn(posts, d)
      invariant GroupedByVotes(postsByDate, posts, votes)
    {
      postsByDate := AddDate(postsByDate, posts, votes, dates[k]);
      assert dates[..k + 1] == dates[..k] + [dates[k]];
    }
    assert dates[..|dates|] == dates;
  }

  /**
   * Builds the page: redirects without a signed-in e-mail; otherwise groups
   * the posts of the eight dates, keeping only dates that have posts.
   */
  method ManageWinnersPage(sessionEmail: Option<string>, posts: seq<Post>, votes: seq<Vote>, today: int)
    returns (page: Page)
    ensures page.RedirectToSignIn? <==> !SignedIn(sessionEmail)
    ensures page.Listing? ==> |page.dates| == 8 && forall k :: 0 <= k < 8 ==> page.dates[k] == today - 7 + k
    ensures page.Listing? ==> forall d :: d in page.postsByDate <==> today - 7 <= d <= today && HasPostOn(posts, d)
    ensures page.Listing? ==> GroupedByVotes(page.postsByDate, posts, votes)
    ensures page.Listing? ==> (ShowsNoPostsNotice(page) <==> forall p :: p in posts ==> !(today - 7 <= p.day <= today))
  {
    if !SignedIn(sessionEmail) {
      return RedirectToSignIn;
    }
    var dates := PastEightDays(today);
    assert forall d :: d in dates <==> today - 7 <= d <= today by {
      forall d | today - 7 <= d <= today
        ensures d in dates
      {
        assert dates[d - (today - 7)] == d;
      }
    }
    var postsByDate := GroupByDate(dates, posts, votes);
    page := Listing(dates, postsByDate);
    if p :| p in posts && today - 7 <= p.day <= today {
      assert HasPostOn(posts, p.day);
      assert p.day in postsByDate.Keys;
    } else {
      assert forall d :: today - 7 <= d <= today ==> !HasPostOn(posts, d);
      assert forall d :: d !in postsByDate.Keys;
      assert postsByDate.Keys == {};
    }
  }
}
