/**
 * One post in the feed (`PostCard`): the viewer's own-post test, the vote
 * handler with its guards, and the delete handler with its guards and
 * confirmation.
 */
module PostCard {
  import opened Wrappers
  import opened Api
  import opened Store
  import opened VoteButton

  /**
   * The client session: present or not, and its user's e-mail if any. Both
   * sign-in routes yield a user with an e-mail (Google supplies one, and the
   * credentials sign-in refuses a request without one), so a session without
   * an e-mail does not arise in this application.
   */
  datatype Session = Session(email: Option<string>)

  /** `session?.user?.email`: absent without a session or without an e-mail. */
  function ViewerEmail(session: Option<Session>): (e: Option<string>)
    ensures session.None? ==> e.None?
    ensures session.Some? ==> e == session.value.email
  {
    match session
    case None => None
    case Some(s) => s.email
  }

  /**
   * `session?.user?.email === post.author.email`. Two absent e-mails are
   * equal (`undefined === undefined`), so a post whose author e-mail is absent
   * counts as the viewer's own when no one is signed in.
   */
  predicate IsOwnPost(session: Option<Session>, authorEmail: Option<string>)
  {
    ViewerEmail(session) == authorEmail
  }

  /**
   * A post with no author e-mail counts as the viewer's own exactly when the
   * viewer has no e-mail either. Signed-in sessions always carry an e-mail,
   * so in this application that means: exactly when there is no session.
   */
  lemma OwnsPostsWithoutEmail(session: Option<Session>)
    ensures IsOwnPost(session, None) <==> ViewerEmail(session).None?
  {
  }

  class PostCard {
    const postId: PostId
    const authorEmail: Option<string>
    const session: Option<Session>
    const hasOnDelete: bool
    var isVoting: bool
    var isDeleting: bool
    var votes: int
    var voted: bool
    var onVoteCalls: nat
    var onDeleteCalls: nat
    var alerts: seq<string>

    /** `useState(false)` twice, `useState(post._count.votes)`, `useState(hasVoted)`. */
    constructor (postId: PostId, authorEmail: Option<string>, session: Option<Session>,
                 hasOnDelete: bool, voteCount: int, hasVoted: bool)
      ensures this.postId == postId && this.authorEmail == authorEmail
      ensures this.session == session && this.hasOnDelete == hasOnDelete
      ensures !isVoting && !isDeleting && votes == voteCount && voted == hasVoted
      ensures onVoteCalls == 0 && onDeleteCalls == 0 && alerts == []
    {
      this.postId := postId;
      this.authorEmail := authorEmail;
      this.session := session;
      this.hasOnDelete := hasOnDelete;
      isVoting := false;
      isDeleting := false;
      votes := voteCount;
      voted := hasVoted;
      onVoteCalls := 0;
      onDeleteCalls := 0;
      alerts := [];
    }

    /** The vote button's `disabled`: no session, a vote in flight, or the viewer's own post. */
    predicate VoteDisabled()
      reads this
    {
      session.None? || isVoting || IsOwnPost(session, authorEmail)
    }

    /** `handleVote` up to its request: returns at once without a session, on an own post, or while voting. */
    method BeginVote() returns (started: bool)
      modifies this`isVoting
      ensures started <==> !old(VoteDisabled())
      ensures started ==> isVoting
      ensures !started ==> isVoting == old(isVoting)
    {
      if session.None? || IsOwnPost(session, authorEmail) {
        return false;
      }
      if isVoting {
        return false;
      }
      isVoting := true;
      return true;
    }

    /**
     * `handleVote` after its request: an ok response flips the tally and
     * calls `onVote` once; otherwise nothing changes and `onVote` is not
     * called; `isVoting` is cleared either way.
     */
    method CompleteVote(response: Fetch)
      requires isVoting
      modifies this`voted, this`votes, this`onVoteCalls, this`isVoting
      ensures response == Responded(true) ==> Tally(voted, votes) == ToggleVote(Tally(old(voted), old(votes)))
      ensures response == Responded(true) ==> onVoteCalls == old(onVoteCalls) + 1
      ensures response != Responded(true) ==>
        voted == old(voted) && votes == old(votes) && onVoteCalls == old(onVoteCalls)
      ensures !isVoting
    {
      if response == Responded(true) {
        var t := ToggleVote(Tally(voted, votes));
        voted, votes := t.voted, t.votes;
        onVoteCalls := onVoteCalls + 1;
      }
      isVoting := false;
    }

    /**
     * `handleDelete` up to its request: it proceeds only with a session, on
     * the viewer's own post, when no delete is in flight and the viewer
     * confirms.
     */
    method BeginDelete(confirmed: bool) returns (started: bool)
      modifies this`isDeleting
      ensures started <==> session.Some? && IsOwnPost(session, authorEmail) && !old(isDeleting) && confirmed
      ensures started ==> isDeleting
      ensures !started ==> isDeleting == old(isDeleting)
    {
      if session.None? || !IsOwnPost(session, authorEmail) || isDeleting {
        return false;
      }
      if !confirmed {
        return false;
      }
      isDeleting := true;
      return true;
    }

    /**
     * `handleDelete` after its request: an ok response calls `onDelete` when
     * one was given; a non-ok response or an exception alerts
     * 'Failed to delete post'; `isDeleting` is cleared either way.
     */
    method CompleteDelete(response: Fetch)
      requires isDeleting
      modifies this`onDeleteCalls, this`alerts, this`isDeleting
      ensures response == Responded(true) ==>
        onDeleteCalls == old(onDeleteCalls) + (if hasOnDelete then 1 else 0) && alerts == old(alerts)
      ensures response != Responded(true) ==>
        onDeleteCalls == old(onDeleteCalls) && alerts == old(alerts) + ["Failed to delete post"]
      ensures !isDeleting
    {
      if response == Responded(true) {
        if hasOnDelete {
          onDeleteCalls := onDeleteCalls + 1;
        }
      } else {
        alerts := alerts + ["Failed to delete post"];
      }
      isDeleting := false;
    }
  }

  /**
   * The listing route sends no author e-mail, so for a viewer signed in with
   * an e-mail no feed card is their own: its delete never starts, whatever the
   * confirmation, and its vote button is disabled only while a vote is in
   * flight.
   */
  lemma SignedInViewerOwnsNoFeedCard(card: PostCard)
    requires card.authorEmail.None?
    requires card.session.Some? && card.session.value.email.Some?
    ensures !IsOwnPost(card.session, card.authorEmail)
    ensures card.VoteDisabled() <==> card.isVoting
  {
    OwnsPostsWithoutEmail(card.session);
  }
}
