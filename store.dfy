/**
 * The contest's persistent store, reduced to what the handlers read and write:
 * users, posts (each dated to one contest day) and votes. A post's vote count
 * is the number of votes that carry its id (`_count.votes`).
 *
 * Days are integers: a stored `date` is the midnight of its day, so the query
 * window `date >= lo && date < hi` becomes `lo <= day < hi`.
 */
module Store {
  import opened Wrappers

  type UserId = nat
  type PostId = nat

  datatype User = User(id: UserId, email: string)

  datatype Post = Post(
    id: PostId,
    authorId: UserId,
    title: string,
    description: Option<string>,
    imageUrl: string,
    day: int,
    createdAt: int,
    isWinner: bool)

  datatype Vote = Vote(id: nat, userId: UserId, postId: PostId)

  /** The number of votes carrying `id`: the post's vote count. */
  function VoteCount(votes: seq<Vote>, id: PostId): (n: nat)
    ensures n <= |votes|
  {
    if votes == [] then 0
    else (if votes[0].postId == id then 1 else 0) + VoteCount(votes[1..], id)
  }

  /** A post's count is zero exactly when no vote carries its id. */
  lemma {:induction false} VoteCountZero(votes: seq<Vote>, id: PostId)
    ensures VoteCount(votes, id) == 0 <==> forall v :: v in votes ==> v.postId != id
  {
    if votes != [] {
      VoteCountZero(votes[1..], id);
      assert votes == [votes[0]] + votes[1..];
    }
  }

  /** The query condition `date: { gte: lo, lt: hi }`. */
  predicate InWindow(p: Post, lo: int, hi: int)
  {
    lo <= p.day < hi
  }

  /** `findMany({ where: { date: { gte: lo, lt: hi } } })`. */
  function PostsIn(posts: seq<Post>, lo: int, hi: int): (r: seq<Post>)
    ensures forall p :: p in r <==> p in posts && InWindow(p, lo, hi)
    ensures |r| <= |posts|
  {
    if posts == [] then []
    else if InWindow(posts[0], lo, hi) then [posts[0]] + PostsIn(posts[1..], lo, hi)
    else PostsIn(posts[1..], lo, hi)
  }

  /** The window query keeps each post of the window as often as it is stored, and no other post. */
  lemma {:induction false} PostsInCounts(posts: seq<Post>, lo: int, hi: int)
    ensures forall p :: multiset(PostsIn(posts, lo, hi))[p] == if InWindow(p, lo, hi) then multiset(posts)[p] else 0
  {
    if posts != [] {
      PostsInCounts(posts[1..], lo, hi);
      assert posts == [posts[0]] + posts[1..];
    }
  }

  /**
   * A post with the largest vote count (`orderBy votes desc, take: 1`).
   * Which of several tied posts is returned is not part of the contract.
   */
  function TopPost(posts: seq<Post>, votes: seq<Vote>): (r: Option<Post>)
    ensures r.None? <==> posts == []
    ensures r.Some? ==> r.value in posts
    ensures r.Some? ==> forall p :: p in posts ==> VoteCount(votes, p.id) <= VoteCount(votes, r.value.id)
  {
    if posts == [] then None
    else
      match TopPost(posts[1..], votes)
      case None => Some(posts[0])
      case Some(best) =>
        if VoteCount(votes, best.id) > VoteCount(votes, posts[0].id) then Some(best) else Some(posts[0])
  }

  /** `findFirst({ where: { date: { gte: lo, lt: hi }, isWinner: true } })`. */
  function FirstWinnerIn(posts: seq<Post>, lo: int, hi: int): (r: Option<Post>)
    ensures r.Some? ==> r.value in posts && r.value.isWinner && InWindow(r.value, lo, hi)
    ensures r.None? ==> forall p :: p in posts && InWindow(p, lo, hi) ==> !p.isWinner
  {
    if posts == [] then None
    else if posts[0].isWinner && InWindow(posts[0], lo, hi) then Some(posts[0])
    else FirstWinnerIn(posts[1..], lo, hi)
  }

  /** `findUnique({ where: { email } })` on the users. */
  function FindUserByEmail(users: seq<User>, email: string): (r: Option<User>)
    ensures r.Some? ==> r.value in users && r.value.email == email
    ensures r.None? ==> forall u :: u in users ==> u.email != email
  {
    if users == [] then None
    else if users[0].email == email then Some(users[0])
    else FindUserByEmail(users[1..], email)
  }

  /**
   * The store after `update({ where: { id }, data: { isWinner: true } })`:
   * the post with that id is flagged, every other post is left as it was.
   */
  function SetWinner(posts: seq<Post>, id: PostId): (r: seq<Post>)
    ensures |r| == |posts|
    ensures forall i :: 0 <= i < |posts| ==>
      r[i] == if posts[i].id == id then posts[i].(isWinner := true) else posts[i]
  {
    if posts == [] then []
    else
      [if posts[0].id == id then posts[0].(isWinner := true) else posts[0]] + SetWinner(posts[1..], id)
  }

  /** Post ids are primary keys. */
  predicate UniqueIds(posts: seq<Post>)
  {
    forall i, j :: 0 <= i < j < |posts| ==> posts[i].id != posts[j].id
  }

  /** The id the store gives a new post: larger than every id in use. */
  function FreshId(posts: seq<Post>): (id: PostId)
    ensures forall p :: p in posts ==> p.id < id
  {
    if posts == [] then 0
    else
      var rest := FreshId(posts[1..]);
      if posts[0].id < rest then rest else posts[0].id + 1
  }

  /** Writing the flag keeps ids (and so their uniqueness), days and every existing flag. */
  lemma SetWinnerKeepsKeys(posts: seq<Post>, id: PostId)
    ensures forall i :: 0 <= i < |posts| ==>
      SetWinner(posts, id)[i].id == posts[i].id && SetWinner(posts, id)[i].day == posts[i].day
    ensures forall i :: 0 <= i < |posts| && posts[i].isWinner ==> SetWinner(posts, id)[i].isWinner
    ensures UniqueIds(posts) ==> UniqueIds(SetWinner(posts, id))
  {
  }

  /** Flagging a post that is already a winner changes nothing. */
  lemma {:induction false} SetWinnerOnWinner(posts: seq<Post>, w: Post)
    requires UniqueIds(posts) && w in posts && w.isWinner
    ensures SetWinner(posts, w.id) == posts
  {
    var r := SetWinner(posts, w.id);
    forall i | 0 <= i < |posts|
      ensures r[i] == posts[i]
    {
      if posts[i].id == w.id {
        var k :| 0 <= k < |posts| && posts[k] == w;
        assert k == i;
      }
    }
  }

  /**
   * Once a day with no winner has one of its posts flagged, the existing-winner
   * query for that day finds exactly that post.
   */
  lemma {:induction false} FirstWinnerAfterMark(posts: seq<Post>, p: Post, lo: int, hi: int)
    requires UniqueIds(posts) && p in posts && InWindow(p, lo, hi)
    requires FirstWinnerIn(posts, lo, hi).None?
    ensures FirstWinnerIn(SetWinner(posts, p.id), lo, hi) == Some(p.(isWinner := true))
  {
    var r := SetWinner(posts, p.id);
    assert r == [r[0]] + SetWinner(posts[1..], p.id);
    if posts[0].id == p.id {
      var k :| 0 <= k < |posts| && posts[k] == p;
      assert k == 0;
    } else {
      assert posts[0] != p;
      assert !(posts[0].isWinner && InWindow(posts[0], lo, hi));
      assert UniqueIds(posts[1..]) by {
        forall i, j | 0 <= i < j < |posts[1..]|
          ensures posts[1..][i].id != posts[1..][j].id
        {
          assert posts[1..][i] == posts[i + 1] && posts[1..][j] == posts[j + 1];
        }
      }
      FirstWinnerAfterMark(posts[1..], p, lo, hi);
    }
  }

  /** The store: one object whose post list the handlers update in place. */
  class Db {
    var users: seq<User>
    var posts: seq<Post>
    var votes: seq<Vote>

    ghost predicate Valid()
      reads this
    {
      UniqueIds(posts)
    }

    constructor (users: seq<User>, posts: seq<Post>, votes: seq<Vote>)
      requires UniqueIds(posts)
      ensures Valid()
      ensures this.users == users && this.posts == posts && this.votes == votes
    {
      this.users := users;
      this.posts := posts;
      this.votes := votes;
    }

    /** `prisma.post.update({ where: { id }, data: { isWinner: true } })`. */
    method UpdateIsWinner(id: PostId)
      requires Valid()
      modifies this`posts
      ensures Valid()
      ensures posts == SetWinner(old(posts), id)
    {
      SetWinnerKeepsKeys(posts, id);
      posts := SetWinner(posts, id);
    }

    /** `prisma.post.create(...)`: appends a post under a fresh id, not a winner. */
    method CreatePost(authorId: UserId, title: string, description: Option<string>,
                      imageUrl: string, day: int, createdAt: int) returns (p: Post)
      requires Valid()
      modifies this`posts
      ensures Valid()
      ensures forall q :: q in old(posts) ==> q.id != p.id
      ensures p == Post(p.id, authorId, title, description, imageUrl, day, createdAt, false)
      ensures posts == old(posts) + [p]
    {
      p := Post(FreshId(posts), authorId, title, description, imageUrl, day, createdAt, false);
      posts := posts + [p];
    }
  }
}
