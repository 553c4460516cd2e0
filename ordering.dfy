/**
 * Descending orderings of query results (`orderBy: { ... : "desc" }`).
 * Ties are left in whatever order the sort produces: the store promises none.
 */
module Ordering {
  import opened Store

  /** The sort keys the queries use. */
  datatype SortKey =
    | ByVotes(votes: seq<Vote>)   // `orderBy: { votes: { _count: "desc" } }`
    | ByCreatedAt                 // `orderBy: { createdAt: "desc" }`

  /** The value a post is ordered by. */
  function Key(k: SortKey, p: Post): int
  {
    match k
    case ByVotes(votes) => VoteCount(votes, p.id)
    case ByCreatedAt => p.createdAt
  }

  /** Every post's key is at least the key of every post after it. */
  predicate SortedDesc(s: seq<Post>, k: SortKey)
  {
    forall i, j :: 0 <= i < j < |s| ==> Key(k, s[i]) >= Key(k, s[j])
  }

  /** Prepending a key no smaller than the head keeps a list in descending order. */
  lemma ConsSorted(h: Post, s: seq<Post>, k: SortKey)
    requires SortedDesc(s, k)
    requires s != [] ==> Key(k, h) >= Key(k, s[0])
    ensures SortedDesc([h] + s, k)
  {
    var r := [h] + s;
    forall i, j | 0 <= i < j < |r|
      ensures Key(k, r[i]) >= Key(k, r[j])
    {
      if i == 0 && j > 1 {
        assert Key(k, s[0]) >= Key(k, s[j - 1]);
      }
    }
  }

  /**
   * Inserts `x` before the first element whose key is smaller than its own
   * (at the end if there is none); the result is `s` with `x` added.
   */
  function Insert(x: Post, s: seq<Post>, k: SortKey): (r: seq<Post>)
    ensures multiset(r) == multiset(s) + multiset{x}
    ensures |r| == |s| + 1
  {
    if s == [] then [x]
    else if Key(k, x) >= Key(k, s[0]) then [x] + s
    else
      assert s == [s[0]] + s[1..];
      [s[0]] + Insert(x, s[1..], k)
  }

  /** Inserting into a list in descending key order keeps it in that order. */
  lemma {:induction false} InsertSorted(x: Post, s: seq<Post>, k: SortKey)
    requires SortedDesc(s, k)
    ensures SortedDesc(Insert(x, s, k), k)
    ensures Insert(x, s, k)[0] == x || (s != [] && Insert(x, s, k)[0] == s[0])
  {
    if s == [] {
    } else if Key(k, x) >= Key(k, s[0]) {
      ConsSorted(x, s, k);
    } else {
      var rest := Insert(x, s[1..], k);
      InsertSorted(x, s[1..], k);
      if |s| > 1 {
        assert Key(k, s[0]) >= Key(k, s[1]);
      }
      ConsSorted(s[0], rest, k);
    }
  }

  /** Insertion sort by descending key; the result is a permutation of `s`. */
  function SortDesc(s: seq<Post>, k: SortKey): (r: seq<Post>)
    ensures multiset(r) == multiset(s)
    ensures |r| == |s|
  {
    if s == [] then []
    else
      assert s == [s[0]] + s[1..];
      Insert(s[0], SortDesc(s[1..], k), k)
  }

  /** Insertion sort leaves its result in descending key order. */
  lemma {:induction false} SortDescSorted(s: seq<Post>, k: SortKey)
    ensures SortedDesc(SortDesc(s, k), k)
  {
    if s != [] {
      SortDescSorted(s[1..], k);
      InsertSorted(s[0], SortDesc(s[1..], k), k);
    }
  }

  /** The head of a descending list has the largest key of the list. */
  lemma HeadIsMaximal(s: seq<Post>, k: SortKey)
    requires SortedDesc(s, k) && s != []
    ensures forall y :: y in s ==> Key(k, y) <= Key(k, s[0])
  {
    forall y | y in s
      ensures Key(k, y) <= Key(k, s[0])
    {
      var j :| 0 <= j < |s| && s[j] == y;
      if j > 0 {
        assert Key(k, s[0]) >= Key(k, s[j]);
      }
    }
  }

  /** `findMany` over a window with a descending `orderBy`: the window's posts, ordered by `k`. */
  function OrderedPostsIn(posts: seq<Post>, lo: int, hi: int, k: SortKey): (r: seq<Post>)
    ensures multiset(r) == multiset(PostsIn(posts, lo, hi))
    ensures forall p :: p in r <==> p in posts && InWindow(p, lo, hi)
    ensures SortedDesc(r, k)
  {
    var inWindow := PostsIn(posts, lo, hi);
    var r := SortDesc(inWindow, k);
    SortDescSorted(inWindow, k);
    assert forall p :: p in r <==> p in multiset(r);
    assert forall p :: p in inWindow <==> p in multiset(inWindow);
    r
  }
}
