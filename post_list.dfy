/**
 * The feed (`PostList`): today's posts as fetched from the listing route,
 * the set of post ids the viewer has voted for, a loading flag and an error
 * message, and the render that picks one of four screens from them.
 */
module PostList {
  import opened Api
  import opened Store
  import opened UserVotesRoute

  const LoadError: string := "Failed to load posts. Please try again later."

  /** `posts.filter(post => post.id !== postId)`. */
  function RemovePost(posts: seq<Post>, id: PostId): (r: seq<Post>)
    ensures forall p :: p in r <==> p in posts && p.id != id
    ensures |r| <= |posts|
  {
    if posts == [] then []
    else if posts[0].id == id then RemovePost(posts[1..], id)
    else [posts[0]] + RemovePost(posts[1..], id)
  }

  /** Removing distributes over concatenation, so the kept posts stay in their order. */
  lemma {:induction false} RemovePostOfConcat(a: seq<Post>, b: seq<Post>, id: PostId)
    ensures RemovePost(a + b, id) == RemovePost(a, id) + RemovePost(b, id)
  {
    if a == [] {
      assert a + b == b;
    } else {
      assert (a + b)[0] == a[0] && (a + b)[1..] == a[1..] + b;
      RemovePostOfConcat(a[1..], b, id);
      if a[0].id != id {
        assert [a[0]] + (RemovePost(a[1..], id) + RemovePost(b, id))
            == ([a[0]] + RemovePost(a[1..], id)) + RemovePost(b, id);
      }
    }
  }

  /** Removing an id no post carries changes nothing. */
  lemma {:induction false} RemoveAbsentPost(posts: seq<Post>, id: PostId)
    requires forall p :: p in posts ==> p.id != id
    ensures RemovePost(posts, id) == posts
  {
    if posts != [] {
      assert forall p :: p in posts[1..] ==> p in posts;
      RemoveAbsentPost(posts[1..], id);
      assert posts == [posts[0]] + posts[1..];
    }
  }

  /** `new Set(data.map(vote => vote.postId))`. */
  function VotedPostIds(data: seq<VoteSummary>): (r: set<PostId>)
    ensures forall v :: v in data ==> v.postId in r
    ensures forall id :: id in r ==> exists v :: v in data && v.postId == id
  {
    set v | v in data :: v.postId
  }

  /** One rendered card: the post and its `hasVoted` prop. */
  datatype Card = Card(post: Post, hasVoted: bool)

  /** `posts.map(post => <PostCard hasVoted={userVotes.has(post.id)} />)`. */
  function Cards(posts: seq<Post>, userVotes: set<PostId>): (r: seq<Card>)
    ensures |r| == |posts|
    ensures forall i :: 0 <= i < |r| ==> r[i].post == posts[i] && (r[i].hasVoted <==> posts[i].id in userVotes)
  {
    if posts == [] then []
    else [Card(posts[0], posts[0].id in userVotes)] + Cards(posts[1..], userVotes)
  }

  /** The four screens of the render. */
  datatype Screen =
    | Spinner
    | ErrorNotice(message: string)
    | NoPostsYet
    | Grid(cards: seq<Card>)

  /** The render's precedence: loading, then error, then no posts, then the grid. */
  function Render(loading: bool, error: string, posts: seq<Post>, userVotes: set<PostId>): (s: Screen)
    ensures s.Spinner? <==> loading
    ensures s.ErrorNotice? <==> !loading && error != ""
    ensures s.ErrorNotice? ==> s.message == error
    ensures s.NoPostsYet? <==> !loading && error == "" && posts == []
    ensures s.Grid? ==> |s.cards| == |posts| && forall i :: 0 <= i < |posts| ==>
      s.cards[i].post == posts[i] && (s.cards[i].hasVoted <==> posts[i].id in userVotes)
  {
    if loading then Spinner
    else if error != "" then ErrorNotice(error)
    else if posts == [] then NoPostsYet
    else Grid(Cards(posts, userVotes))
  }

  class PostList {
    var posts: seq<Post>
    var userVotes: set<PostId>
    var loading: bool
    var error: string

    /** `useState([])`, `useState(new Set())`, `useState(true)`, `useState('')`. */
    constructor ()
      ensures posts == [] && userVotes == {} && loading && error == ""
    {
      posts := [];
      userVotes := {};
      loading := true;
      error := "";
    }

    /** The current screen. */
    function View(): Screen
      reads this
    {
      Render(loading, error, posts, userVotes)
    }

    /** `fetchPosts` before its request. */
    method BeginFetchPosts()
      modifies this`loading
      ensures loading
    {
      loading := true;
    }

    /**
     * `fetchPosts` after its request: an ok response replaces the posts and
     * clears the error; otherwise the error is set and the posts are kept;
     * `loading` ends false either way.
     */
    method CompleteFetchPosts(response: Fetch, data: seq<Post>)
      modifies this`posts, this`error, this`loading
      ensures response == Responded(true) ==> posts == data && error == ""
      ensures response != Responded(true) ==> posts == old(posts) && error == LoadError
      ensures !loading
    {
      if response == Responded(true) {
        posts := data;
        error := "";
      } else {
        error := LoadError;
      }
      loading := false;
    }

    /**
     * `fetchUserVotes`: without a session user it returns at once; an ok
     * response replaces `userVotes` with the voted post ids; a failure only
     * logs.
     */
    method FetchUserVotes(hasSessionUser: bool, response: Fetch, data: seq<VoteSummary>)
      modifies this`userVotes
      ensures hasSessionUser && response == Responded(true) ==> userVotes == VotedPostIds(data)
      ensures !(hasSessionUser && response == Responded(true)) ==> userVotes == old(userVotes)
    {
      if !hasSessionUser {
        return;
      }
      if response == Responded(true) {
        userVotes := VotedPostIds(data);
      }
    }

    /** `handleDelete`: drops every post with the id, keeping the rest in order. */
    method HandleDelete(id: PostId)
      modifies this`posts
      ensures posts == RemovePost(old(posts), id)
    {
      posts := RemovePost(posts, id);
    }
  }
}
