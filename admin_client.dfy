/**
 * The client half of the admin winners page (`AdminWinnersClient`): a map from
 * date to the id of the post shown as that date's winner, and a map of
 * in-flight flags, one per post button and one per date button.
 */
module AdminWinnersClient {
  import opened Wrappers
  import opened Api
  import opened Store

  /** The keys of the `loading` map: a post id, or the string `date-<date>`. */
  datatype LoadingKey = PostKey(id: PostId) | DateKey(day: int)

  /** `posts[i]` is a winner and no post before it is. */
  predicate FirstWinnerAt(posts: seq<Post>, i: int)
  {
    0 <= i < |posts| && posts[i].isWinner && forall j :: 0 <= j < i ==> !posts[j].isWinner
  }

  /** `posts.find(post => post.isWinner)`: the first post flagged as winner. */
  function FirstWinner(posts: seq<Post>): (r: Option<Post>)
    ensures r.None? <==> forall p :: p in posts ==> !p.isWinner
    ensures r.Some? ==> exists i :: FirstWinnerAt(posts, i) && posts[i] == r.value
  {
    if posts == [] then None
    else if posts[0].isWinner then
      assert FirstWinnerAt(posts, 0);
      Some(posts[0])
    else
      var tail := posts[1..];
      var r := FirstWinner(tail);
      assert posts == [posts[0]] + tail;
      if r.Some? then
        var i :| FirstWinnerAt(tail, i) && tail[i] == r.value;
        assert FirstWinnerAt(posts, i + 1);
        r
      else r
  }

  /** A non-empty set of dates has a member to pick. */
  lemma HasMember(dates: set<int>)
    requires dates != {}
    ensures exists d :: d in dates
  {
    assert (forall d :: d !in dates) ==> dates == {};
  }

  /**
   * The mount effect's `forEach`: every date whose posts include a winner is
   * sent to the id of the first such post; the other dates are absent.
   */
  method InitialWinners(postsByDate: map<int, seq<Post>>) returns (initial: map<int, PostId>)
    ensures forall d :: d in initial <==> d in postsByDate && FirstWinner(postsByDate[d]).Some?
    ensures forall d :: d in initial ==> initial[d] == FirstWinner(postsByDate[d]).value.id
  {
    initial := map[];
    var remaining := postsByDate.Keys;
    while remaining != {}
      invariant remaining <= postsByDate.Keys
      invariant forall d :: d in initial <==> d in postsByDate && d !in remaining && FirstWinner(postsByDate[d]).Some?
      invariant forall d :: d in initial ==> initial[d] == FirstWinner(postsByDate[d]).value.id
      decreases remaining
    {
      HasMember(remaining);
      var date :| date in remaining;
      var winner := FirstWinner(postsByDate[date]);
      if winner.Some? {
        initial := initial[date := winner.value.id];
      }
      remaining := remaining - {date};
    }
  }

  /**
   * The ok branch of `handleMarkWinner`: marking the date's current winner
   * removes the date; marking any other post makes it the date's winner.
   * Every other date keeps its entry.
   */
  function ToggleWinner(winners: map<int, PostId>, date: int, postId: PostId): (r: map<int, PostId>)
    ensures date in winners && winners[date] == postId ==> date !in r
    ensures !(date in winners && winners[date] == postId) ==> date in r && r[date] == postId
    ensures forall d :: d != date ==> (d in r <==> d in winners)
    ensures forall d :: d != date && d in r ==> r[d] == winners[d]
  {
    if date in winners && winners[date] == postId then winners - {date}
    else winners[date := postId]
  }

  /** Marking the same post twice restores the map, unless another post was the date's winner. */
  lemma ToggleTwice(winners: map<int, PostId>, date: int, postId: PostId)
    requires date in winners ==> winners[date] == postId
    ensures ToggleWinner(ToggleWinner(winners, date, postId), date, postId) == winners
  {
    var once := ToggleWinner(winners, date, postId);
    var twice := ToggleWinner(once, date, postId);
    assert twice.Keys == winners.Keys;
  }

  /**
   * The ok branch of `handleDetermineWinner`: the date's entry is set only
   * when the response body carries a `winner`.
   */
  function RecordDetermined(winners: map<int, PostId>, date: int, winnerField: Option<PostId>): (r: map<int, PostId>)
    ensures winnerField.None? ==> r == winners
    ensures winnerField.Some? ==> date in r && r[date] == winnerField.value
    ensures forall d :: d != date ==> (d in r <==> d in winners)
    ensures forall d :: d != date && d in r ==> r[d] == winners[d]
  {
    match winnerField
    case None => winners
    case Some(id) => winners[date := id]
  }

  class AdminWinners {
    const postsByDate: map<int, seq<Post>>
    var winners: map<int, PostId>
    var loading: map<LoadingKey, bool>

    /** Both maps start empty (`useState({})`). */
    constructor (postsByDate: map<int, seq<Post>>)
      ensures this.postsByDate == postsByDate
      ensures winners == map[] && loading == map[]
    {
      this.postsByDate := postsByDate;
      winners := map[];
      loading := map[];
    }

    /** The mount effect: `setWinners(initialWinners)`. */
    method Mount()
      modifies this`winners
      ensures forall d :: d in winners <==> d in postsByDate && FirstWinner(postsByDate[d]).Some?
      ensures forall d :: d in winners ==> winners[d] == FirstWinner(postsByDate[d]).value.id
    {
      winners := InitialWinners(postsByDate);
    }

    /** A post is rendered as its date's winner when the map sends the date to its id. */
    predicate ShownAsWinner(date: int, post: Post)
      reads this
    {
      date in winners && winners[date] == post.id
    }

    /** A button is disabled while its key is flagged in `loading`. */
    predicate Disabled(key: LoadingKey)
      reads this
    {
      key in loading && loading[key]
    }

    /** `handleMarkWinner` before its request: the post's button is flagged. */
    method BeginMarkWinner(postId: PostId)
      modifies this`loading
      ensures loading == old(loading)[PostKey(postId) := true]
      ensures Disabled(PostKey(postId))
    {
      loading := loading[PostKey(postId) := true];
    }

    /**
     * `handleMarkWinner` after its request: an ok response toggles the date's
     * winner; a non-ok response or an exception leaves `winners` alone; in
     * every case the post's flag is cleared (`finally`).
     */
    method CompleteMarkWinner(postId: PostId, date: int, response: Fetch)
      modifies this`winners, this`loading
      ensures response == Responded(true) ==> winners == ToggleWinner(old(winners), date, postId)
      ensures response != Responded(true) ==> winners == old(winners)
      ensures loading == old(loading)[PostKey(postId) := false]
      ensures !Disabled(PostKey(postId))
    {
      if response == Responded(true) {
        winners := ToggleWinner(winners, date, postId);
      }
      loading := loading[PostKey(postId) := false];
    }

    /** `handleDetermineWinner` before its request: the date's button is flagged. */
    method BeginDetermineWinner(date: int)
      modifies this`loading
      ensures loading == old(loading)[DateKey(date) := true]
      ensures Disabled(DateKey(date))
    {
      loading := loading[DateKey(date) := true];
    }

    /**
     * `handleDetermineWinner` after its request: only an ok response whose
     * body has a `winner` changes the date's entry; the date's flag is
     * cleared in every case.
     */
    method CompleteDetermineWinner(date: int, response: Fetch, winnerField: Option<PostId>)
      modifies this`winners, this`loading
      ensures response == Responded(true) ==> winners == RecordDetermined(old(winners), date, winnerField)
      ensures response != Responded(true) ==> winners == old(winners)
      ensures loading == old(loading)[DateKey(date) := false]
      ensures !Disabled(DateKey(date))
    {
      if response == Responded(true) {
        winners := RecordDetermined(winners, date, winnerField);
      }
      loading := loading[DateKey(date) := false];
    }
  }

  /** Two posts with different ids are never both shown as one date's winner. */
  lemma AtMostOneShown(panel: AdminWinners, date: int, a: Post, b: Post)
    requires panel.ShownAsWinner(date, a) && panel.ShownAsWinner(date, b)
    ensures a.id == b.id
  {
  }
}
