/**
 * The heart button (`VoteButton`): whether the viewer has voted, the shown
 * vote count, and an in-flight flag that makes clicks during a request do
 * nothing. `PostCard` flips its own copy of the same pair the same way.
 */
module VoteButton {
  import opened Api
  import opened Store

  /** The pair a successful vote request flips: `voted` and the shown count. */
  datatype Tally = Tally(voted: bool, votes: int)

  /** The votes cast by everyone except the viewer, as the tally shows them. */
  function OthersVotes(t: Tally): int
  {
    if t.voted then t.votes - 1 else t.votes
  }

  /**
   * `setVoted(!voted)` with `setVotes(voted ? votes - 1 : votes + 1)`: the
   * viewer's vote flips and the other voters' count is kept, so the shown
   * count moves by one in the direction of the new `voted`.
   */
  function ToggleVote(t: Tally): (r: Tally)
    ensures r.voted == !t.voted
    ensures OthersVotes(r) == OthersVotes(t)
  {
    Tally(!t.voted, if t.voted then t.votes - 1 else t.votes + 1)
  }

  /** Two successful votes in a row restore `voted` and the count. */
  lemma ToggleTwice(t: Tally)
    ensures ToggleVote(ToggleVote(t)) == t
  {
    var once := ToggleVote(t);
    var twice := ToggleVote(once);
    assert twice.voted == t.voted;
    assert OthersVotes(twice) == OthersVotes(t);
  }

  class VoteButton {
    const postId: PostId
    var voted: bool
    var votes: int
    var isLoading: bool

    /** `useState(initialVoted)`, `useState(initialVotes)`, `useState(false)`. */
    constructor (postId: PostId, initialVoted: bool, initialVotes: int)
      ensures this.postId == postId
      ensures voted == initialVoted && votes == initialVotes && !isLoading
    {
      this.postId := postId;
      voted := initialVoted;
      votes := initialVotes;
      isLoading := false;
    }

    /** The button is disabled exactly while a request is in flight. */
    predicate Disabled()
      reads this
    {
      isLoading
    }

    /** `handleVote` up to its request: a click while loading returns at once. */
    method BeginVote() returns (started: bool)
      modifies this`isLoading
      ensures started <==> !old(Disabled())
      ensures isLoading
    {
      if isLoading {
        return false;
      }
      isLoading := true;
      return true;
    }

    /**
     * `handleVote` after its request: an ok response flips the tally; a
     * non-ok response or an exception leaves it; `isLoading` is cleared.
     */
    method CompleteVote(response: Fetch)
      requires isLoading
      modifies this`voted, this`votes, this`isLoading
      ensures response == Responded(true) ==> Tally(voted, votes) == ToggleVote(Tally(old(voted), old(votes)))
      ensures response != Responded(true) ==> voted == old(voted) && votes == old(votes)
      ensures !isLoading
    {
      if response == Responded(true) {
        var t := ToggleVote(Tally(voted, votes));
        voted, votes := t.voted, t.votes;
      }
      isLoading := false;
    }

    /** A whole click, with the request ending as `response`. */
    method HandleVote(response: Fetch)
      modifies this`voted, this`votes, this`isLoading
      ensures old(isLoading) ==> voted == old(voted) && votes == old(votes) && isLoading
      ensures !old(isLoading) && response == Responded(true) ==>
        Tally(voted, votes) == ToggleVote(Tally(old(voted), old(votes)))
      ensures !old(isLoading) && response != Responded(true) ==> voted == old(voted) && votes == old(votes)
      ensures !old(isLoading) ==> !isLoading
    {
      var started := BeginVote();
      if started {
        CompleteVote(response);
      }
    }
  }
}
