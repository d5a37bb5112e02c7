// The optimistic cache patches of `socialApi.js`: a like, an unlike, a new
// or deleted comment patches the post's counters in every cached feed,
// author wall and search result, and a deleted post is spliced out of them,
// before the server answers.

module SocialCache {
  import opened Wrappers

  /** What a mutation receives: nothing (or another falsy value), a post id, or `{ postId, authorPublicId }`. */
  datatype PostArg = Absent | Id(id: string) | Fields(postId: Option<string>, authorPublicId: Option<string>)

  /** `x || null` on an optional string: the empty string is falsy. */
  function Truthy(s: Option<string>): (r: Option<string>)
    ensures r.Some? <==> s.Some? && s.value != ""
    ensures r.Some? ==> r == s
  {
    if s.Some? && s.value != "" then s else None
  }

  /** `normalizePostArg(arg)`, as the pair `(postId, authorPublicId)`. */
  function NormalizePostArg(arg: PostArg): (r: (Option<string>, Option<string>))
    ensures arg.Absent? ==> r == (None, None)
    ensures arg.Id? ==> r.1 == None && (r.0.Some? <==> arg.id != "") && (r.0.Some? ==> r.0.value == arg.id)
    ensures arg.Fields? ==> r == (Truthy(arg.postId), Truthy(arg.authorPublicId))
    ensures r.0.Some? ==> r.0.value != ""
    ensures r.1.Some? ==> r.1.value != ""
  {
    match arg
    case Absent => (None, None)
    case Id(id) => if id == "" then (None, None) else (Some(id), None)
    case Fields(p, a) => (Truthy(p), Truthy(a))
  }

  /**
   * A cached feed item: the post's id, the `basePostId` the server computed
   * (its original for a repost), the caller's like flag and the two
   * counters, `None` where the field is undefined.
   */
  datatype Item = Item(postId: Option<string>, basePostId: Option<string>, meLiked: bool, likes: Option<int>,
                       comments: Option<int>)

  /** `x?.basePostId || x?.post?.id` */
  function KeyOf(it: Item): Option<string> {
    if it.basePostId.Some? && it.basePostId.value != "" then it.basePostId else it.postId
  }

  /** The four patchers handed to `patchPostAcrossCaches`. */
  datatype Patcher = LikeIt | UnlikeIt | CommentIt | UncommentIt

  function Apply(p: Patcher, it: Item): (r: Item)
    ensures r.postId == it.postId && r.basePostId == it.basePostId
    ensures p == LikeIt ==> r.meLiked && r.likes == Some(it.likes.GetOr(0) + 1) && r.comments == it.comments
    ensures p == UnlikeIt ==> !r.meLiked && r.likes.Some? && r.comments == it.comments
    ensures p == UnlikeIt && it.likes.GetOr(0) > 0 ==> r.likes == Some(it.likes.value - 1)
    ensures p == UnlikeIt && it.likes.GetOr(0) <= 0 ==> r.likes == Some(0)
    ensures p == CommentIt ==> r.comments == Some(it.comments.GetOr(0) + 1) && r.likes == it.likes && r.meLiked == it.meLiked
    ensures p == UncommentIt ==> r.likes == it.likes && r.meLiked == it.meLiked
    ensures p == UncommentIt && it.comments.None? ==> r == it
    ensures p == UncommentIt && it.comments.Some? ==> r.comments == Some(if it.comments.value > 0 then it.comments.value - 1 else 0)
  {
    match p
    case LikeIt => it.(meLiked := true, likes := Some(it.likes.GetOr(0) + 1))
    case UnlikeIt =>
      var cur := it.likes.GetOr(0);
      it.(meLiked := false, likes := Some(if cur - 1 < 0 then 0 else cur - 1))
    case CommentIt => it.(comments := Some(it.comments.GetOr(0) + 1))
    case UncommentIt =>
      if it.comments.Some? then
        var cur := it.comments.value;
        it.(comments := Some(if cur - 1 < 0 then 0 else cur - 1))
      else it
  }

  /**
   * An unlike after a like gives back the counters the item had, with an
   * undefined count read as 0, and a deleted comment after an added one
   * likewise; neither patcher ever leaves a negative count behind.
   */
  lemma PatchersUndo(it: Item)
    requires it.likes.GetOr(0) >= 0 && it.comments.GetOr(0) >= 0
    ensures Apply(UnlikeIt, Apply(LikeIt, it)).likes == Some(it.likes.GetOr(0))
    ensures Apply(UncommentIt, Apply(CommentIt, it)).comments == Some(it.comments.GetOr(0))
    ensures Apply(UnlikeIt, it).likes.value >= 0
    ensures it.comments.Some? ==> Apply(UncommentIt, it).comments.value >= 0
  {
  }

  /** `items.find(...)` and the patcher on what it found: only the first item with the key changes. */
  function PatchFirst(items: seq<Item>, key: Option<string>, p: Patcher): (r: seq<Item>)
    ensures |r| == |items|
    decreases |items|
  {
    if items == [] then []
    else if KeyOf(items[0]) == key then [Apply(p, items[0])] + items[1..]
    else [items[0]] + PatchFirst(items[1..], key, p)
  }

  /** The index of the first item with the key, if any. */
  predicate FirstWithKey(items: seq<Item>, key: Option<string>, j: int) {
    0 <= j < |items| && KeyOf(items[j]) == key && forall k :: 0 <= k < j ==> KeyOf(items[k]) != key
  }

  /** With no item carrying the key nothing changes. */
  lemma {:induction false} PatchFirstMiss(items: seq<Item>, key: Option<string>, p: Patcher)
    requires forall k :: 0 <= k < |items| ==> KeyOf(items[k]) != key
    ensures PatchFirst(items, key, p) == items
    decreases |items|
  {
    if items != [] {
      var rest := items[1..];
      assert forall k :: 0 <= k < |rest| ==> rest[k] == items[k + 1];
      PatchFirstMiss(rest, key, p);
      assert [items[0]] + rest == items;
    }
  }

  /** Exactly the first item carrying the key is patched. */
  lemma {:induction false} PatchFirstHit(items: seq<Item>, key: Option<string>, p: Patcher, j: int)
    requires FirstWithKey(items, key, j)
    ensures PatchFirst(items, key, p) == items[j := Apply(p, items[j])]
    decreases |items|
  {
    var rest := items[1..];
    if j > 0 {
      assert FirstWithKey(rest, key, j - 1) by {
        forall k | 0 <= k < j - 1 ensures KeyOf(rest[k]) != key {
          assert rest[k] == items[k + 1];
        }
      }
      PatchFirstHit(rest, key, p, j - 1);
      assert [items[0]] + rest[j - 1 := Apply(p, rest[j - 1])] == items[j := Apply(p, items[j])];
    }
  }

  /** The `find` and the patch, one item at a time. */
  method PatchFirstIn(items: seq<Item>, key: Option<string>, p: Patcher) returns (patched: seq<Item>)
    ensures patched == PatchFirst(items, key, p)
  {
    var i := 0;
    while i < |items| && KeyOf(items[i]) != key
      invariant 0 <= i <= |items|
      invariant forall k :: 0 <= k < i ==> KeyOf(items[k]) != key
    {
      i := i + 1;
    }
    if i == |items| {
      PatchFirstMiss(items, key, p);
      patched := items;
    } else {
      PatchFirstHit(items, key, p, i);
      patched := items[i := Apply(p, items[i])];
    }
  }

  /** `pid === postId || base === postId` */
  predicate Drops(it: Item, postId: Option<string>) {
    it.postId == postId || KeyOf(it) == postId
  }

  /** The items `removeFromItems` keeps, in their order. */
  function Kept(items: seq<Item>, postId: Option<string>): (r: seq<Item>)
    ensures |r| <= |items|
    decreases |items|
  {
    if items == [] then [] else (if Drops(items[0], postId) then [] else [items[0]]) + Kept(items[1..], postId)
  }

  /** An item stays exactly when it neither is the post nor stands for it. */
  lemma {:induction false} KeptMeaning(items: seq<Item>, postId: Option<string>, it: Item)
    ensures it in Kept(items, postId) <==> it in items && !Drops(it, postId)
    decreases |items|
  {
    if items != [] {
      KeptMeaning(items[1..], postId, it);
      assert items == [items[0]] + items[1..];
    }
  }

  /** Removing twice removes nothing more. */
  lemma {:induction false} KeptIdempotent(items: seq<Item>, postId: Option<string>)
    ensures Kept(Kept(items, postId), postId) == Kept(items, postId)
    decreases |items|
  {
    if items != [] {
      var rest := Kept(items[1..], postId);
      KeptIdempotent(items[1..], postId);
      if !Drops(items[0], postId) {
        var k := [items[0]] + rest;
        assert Kept(items, postId) == k;
        assert k[0] == items[0] && k[1..] == rest;
        assert Kept(k, postId) == [items[0]] + Kept(rest, postId);
      } else {
        assert [] + rest == rest;
        assert Kept(items, postId) == rest;
        assert Kept(rest, postId) == rest;
      }
    }
  }

  /** `Kept` from position `i` on: the item at `i`, unless dropped, then the rest. */
  lemma KeptFrom(items: seq<Item>, postId: Option<string>, i: nat)
    requires i < |items|
    ensures Kept(items[i..], postId) == (if Drops(items[i], postId) then [] else [items[i]]) + Kept(items[i + 1..], postId)
  {
    assert items[i..][1..] == items[i + 1..];
  }

  /** Splicing out the middle element of `a + [x] + k` leaves `a + k`. */
  lemma SpliceMiddle(a: seq<Item>, x: Item, k: seq<Item>)
    ensures var s := a + [x] + k; s[..|a|] + s[|a| + 1..] == a + k
  {
    var s := a + [x] + k;
    assert s[..|a|] == a;
    assert s[|a| + 1..] == k;
  }

  /** A step of the backward loop that splices position `i` out. */
  lemma RemoveStepDrop(items: seq<Item>, postId: Option<string>, i: nat)
    requires i < |items| && Drops(items[i], postId)
    ensures var left := items[..i + 1] + Kept(items[i + 1..], postId);
      left[..i] + left[i + 1..] == items[..i] + Kept(items[i..], postId)
  {
    var a, k := items[..i], Kept(items[i + 1..], postId);
    assert items[..i + 1] == a + [items[i]];
    KeptFrom(items, postId, i);
    SpliceMiddle(a, items[i], k);
  }

  /** A step of the backward loop that keeps position `i`. */
  lemma RemoveStepKeep(items: seq<Item>, postId: Option<string>, i: nat)
    requires i < |items| && !Drops(items[i], postId)
    ensures items[..i + 1] + Kept(items[i + 1..], postId) == items[..i] + Kept(items[i..], postId)
  {
    assert items[..i + 1] == items[..i] + [items[i]];
    KeptFrom(items, postId, i);
  }

  /** The backward `splice` loop of `removeFromItems`. */
  method RemoveFromItems(items: seq<Item>, postId: Option<string>) returns (left: seq<Item>)
    ensures left == Kept(items, postId)
  {
    left := items;
    var i := |items|;
    assert items[..i] == items && items[i..] == [];
    while i > 0
      invariant 0 <= i <= |items|
      invariant left == items[..i] + Kept(items[i..], postId)
    {
      i := i - 1;
      if Drops(items[i], postId) {
        RemoveStepDrop(items, postId, i);
        left := left[..i] + left[i + 1..];
      } else {
        RemoveStepKeep(items, postId, i);
      }
    }
    assert items[0..] == items;
  }

  /** The endpoints whose caches hold post lists. */
  datatype Endpoint = GetFeed | GetUserPosts | SearchPosts | Other

  /**
   * A cached query: its endpoint, the `publicId` of its arguments (falsy as
   * `None`), and its item list, `None` when the draft holds no array.
   */
  datatype Query = Query(endpoint: Endpoint, publicId: Option<string>, items: Option<seq<Item>>)

  /** Which caches `patchPostAcrossCaches` patches: every feed and search, and the walls of the named author. */
  predicate Patches(q: Query, authorPublicId: Option<string>) {
    q.endpoint == GetFeed || q.endpoint == SearchPosts
    || (q.endpoint == GetUserPosts && authorPublicId.Some? && q.publicId.Some? && q.publicId.value != ""
        && q.publicId == authorPublicId)
  }

  function Patched(q: Query, basePostId: Option<string>, authorPublicId: Option<string>, p: Patcher): (r: Query)
    ensures r.endpoint == q.endpoint && r.publicId == q.publicId && r.items.Some? == q.items.Some?
    ensures !Patches(q, authorPublicId) ==> r == q
  {
    if Patches(q, authorPublicId) && q.items.Some? then q.(items := Some(PatchFirst(q.items.value, basePostId, p))) else q
  }

  /** `removePostAcrossCaches` splices feeds, walls and searches alike. */
  function Removed(q: Query, postId: Option<string>): (r: Query)
    ensures r.endpoint == q.endpoint && r.publicId == q.publicId
    ensures q.endpoint == Other ==> r == q
  {
    if q.endpoint != Other && q.items.Some? then q.(items := Some(Kept(q.items.value, postId))) else q
  }

  /**
   * A wall cache is patched only when the mutation names its author: with
   * no `authorPublicId`, or another one, a wall is left as it was, while a
   * feed is patched in either case.
   */
  lemma PatchReachesWalls(q: Query, basePostId: Option<string>, authorPublicId: Option<string>, p: Patcher)
    requires q.endpoint == GetUserPosts && q.items.Some?
    ensures Patched(q, basePostId, authorPublicId, p) != q ==>
      authorPublicId.Some? && q.publicId == authorPublicId
    ensures Patched(q.(endpoint := GetFeed), basePostId, authorPublicId, p).items == Some(PatchFirst(q.items.value, basePostId, p))
  {
  }

  /** The RTK Query cache of the social endpoints, and the first page of comments per post. */
  class ApiCache {
    var queries: map<string, Query>
    var commentPages: map<string, seq<string>>

    constructor (queries: map<string, Query>, commentPages: map<string, seq<string>>)
      ensures this.queries == queries && this.commentPages == commentPages
    {
      this.queries := queries;
      this.commentPages := commentPages;
    }

    /** `patchPostAcrossCaches`: the loop over the cached queries. */
    method PatchPostAcrossCaches(basePostId: Option<string>, authorPublicId: Option<string>, p: Patcher)
      modifies this
      ensures queries == map k | k in old(queries) :: Patched(old(queries)[k], basePostId, authorPublicId, p)
      ensures commentPages == old(commentPages)
    {
      ghost var before := queries;
      var todo := queries.Keys;
      while todo != {}
        invariant todo <= before.Keys && queries.Keys == before.Keys
        invariant commentPages == old(commentPages)
        invariant forall k :: k in queries ==>
          queries[k] == if k in todo then before[k] else Patched(before[k], basePostId, authorPublicId, p)
        decreases |todo|
      {
        var k :| k in todo;
        var q := queries[k];
        if Patches(q, authorPublicId) && q.items.Some? {
          var items := PatchFirstIn(q.items.value, basePostId, p);
          queries := queries[k := q.(items := Some(items))];
        }
        todo := todo - {k};
      }
    }

    /** `removePostAcrossCaches`. */
    method RemovePostAcrossCaches(postId: Option<string>)
      modifies this
      ensures queries == map k | k in old(queries) :: Removed(old(queries)[k], postId)
      ensures commentPages == old(commentPages)
    {
      ghost var before := queries;
      var todo := queries.Keys;
      while todo != {}
        invariant todo <= before.Keys && queries.Keys == before.Keys
        invariant commentPages == old(commentPages)
        invariant forall k :: k in queries ==>
          queries[k] == if k in todo then before[k] else Removed(before[k], postId)
        decreases |todo|
      {
        var k :| k in todo;
        var q := queries[k];
        if q.endpoint != Other && q.items.Some? {
          var items := RemoveFromItems(q.items.value, postId);
          queries := queries[k := q.(items := Some(items))];
        }
        todo := todo - {k};
      }
    }

    /** `likePost.onQueryStarted`: nothing without a post id. */
    method LikePost(arg: PostArg)
      modifies this
      ensures commentPages == old(commentPages)
      ensures NormalizePostArg(arg).0.None? ==> queries == old(queries)
      ensures NormalizePostArg(arg).0.Some? ==>
        queries == map k | k in old(queries) :: Patched(old(queries)[k], NormalizePostArg(arg).0, NormalizePostArg(arg).1, LikeIt)
    {
      var (postId, authorPublicId) := NormalizePostArg(arg);
      if postId.None? {
        return;
      }
      PatchPostAcrossCaches(postId, authorPublicId, LikeIt);
    }

    /** `unlikePost.onQueryStarted`. */
    method UnlikePost(arg: PostArg)
      modifies this
      ensures commentPages == old(commentPages)
      ensures NormalizePostArg(arg).0.None? ==> queries == old(queries)
      ensures NormalizePostArg(arg).0.Some? ==>
        queries == map k | k in old(queries) :: Patched(old(queries)[k], NormalizePostArg(arg).0, NormalizePostArg(arg).1, UnlikeIt)
    {
      var (postId, authorPublicId) := NormalizePostArg(arg);
      if postId.None? {
        return;
      }
      PatchPostAcrossCaches(postId, authorPublicId, UnlikeIt);
    }

    /** `addComment.onQueryStarted`. */
    method AddComment(postId: Option<string>, authorPublicId: Option<string>)
      modifies this
      ensures commentPages == old(commentPages)
      ensures Truthy(postId).None? ==> queries == old(queries)
      ensures Truthy(postId).Some? ==>
        queries == map k | k in old(queries) :: Patched(old(queries)[k], postId, Truthy(authorPublicId), CommentIt)
    {
      if Truthy(postId).None? {
        return;
      }
      PatchPostAcrossCaches(postId, Truthy(authorPublicId), CommentIt);
    }

    /**
     * `deleteComment.onQueryStarted`: the comment leaves the post's first
     * page of comments and the counters drop, without the post-id check
     * the other mutations make.
     */
    method DeleteComment(postId: string, commentId: string, authorPublicId: Option<string>)
      modifies this
      ensures queries == map k | k in old(queries) :: Patched(old(queries)[k], Some(postId), Truthy(authorPublicId), UncommentIt)
      ensures postId in old(commentPages) ==> commentPages == old(commentPages)[postId := WithoutFirst(old(commentPages)[postId], commentId)]
      ensures postId !in old(commentPages) ==> commentPages == old(commentPages)
    {
      if postId in commentPages {
        var page := RemoveComment(commentPages[postId], commentId);
        commentPages := commentPages[postId := page];
      }
      PatchPostAcrossCaches(Some(postId), Truthy(authorPublicId), UncommentIt);
    }

    /** `deletePost.onQueryStarted`. */
    method DeletePost(postId: Option<string>)
      modifies this
      ensures commentPages == old(commentPages)
      ensures queries == map k | k in old(queries) :: Removed(old(queries)[k], postId)
    {
      RemovePostAcrossCaches(postId);
    }
  }

  /** A page without the first comment carrying the id. */
  function WithoutFirst(page: seq<string>, commentId: string): (r: seq<string>)
    decreases |page|
  {
    if page == [] then []
    else if page[0] == commentId then page[1..]
    else [page[0]] + WithoutFirst(page[1..], commentId)
  }

  /** Exactly one copy of the id leaves the page when it is there, and nothing when it is not. */
  lemma {:induction false} WithoutFirstCounts(page: seq<string>, commentId: string)
    ensures commentId in page ==> multiset(WithoutFirst(page, commentId)) == multiset(page) - multiset{commentId}
    ensures commentId !in page ==> WithoutFirst(page, commentId) == page
    decreases |page|
  {
    if page != [] {
      WithoutFirstCounts(page[1..], commentId);
      assert page == [page[0]] + page[1..];
    }
  }

  /** `findIndex` and `splice(idx, 1)`. */
  method RemoveComment(page: seq<string>, commentId: string) returns (r: seq<string>)
    ensures r == WithoutFirst(page, commentId)
  {
    var i := 0;
    while i < |page| && page[i] != commentId
      invariant 0 <= i <= |page|
      invariant commentId !in page[..i]
      invariant WithoutFirst(page, commentId) == page[..i] + WithoutFirst(page[i..], commentId)
    {
      assert page[i..] == [page[i]] + page[i + 1..];
      assert page[..i + 1] == page[..i] + [page[i]];
      i := i + 1;
    }
    if i < |page| {
      assert page[i..] == [page[i]] + page[i + 1..];
      r := page[..i] + page[i + 1..];
    } else {
      assert page[..i] == page;
      r := page;
    }
  }
}
