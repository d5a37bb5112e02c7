// `posts.controller.js`: posts and reposts, likes and comments kept on the
// base post a repost points to, the blacklist filters of the feeds, and the
// cascade that deleting a post runs inside one transaction.

module Posts {
  import opened Wrappers
  import opened Text
  import opened Social

  /** The `type` column: 'POST' or 'REPOST'. */
  datatype PostType = Plain | Repost

  datatype PostRow = PostRow(authorId: string, kind: PostType, originalPostId: Option<string>, text: string,
                             attachedBetId: Option<string>)

  /** A `PostLike` row; the pair is the table's primary key. */
  datatype Like = Like(userId: string, postId: string)

  datatype Comment = Comment(postId: string, authorId: string, body: string)

  /** The tables the post handlers read and write; `shares` maps a message id to its `sharedPostId`. */
  datatype Board = Board(posts: map<string, PostRow>, likes: set<Like>, comments: map<string, Comment>,
                         notices: map<string, Notice>, shares: map<string, Option<string>>)

  /** The post that carries a post's likes and comments, with its author. */
  datatype Base = Base(id: string, authorId: string)

  /**
   * `baseId` and `basePost` of the like and comment handlers: a post is its
   * own base, a repost's base is its original. `None` when the original row
   * is gone, where `basePost.authorId` throws.
   */
  function BaseOf(b: Board, id: string): (r: Option<Base>)
    requires id in b.posts
    ensures b.posts[id].kind == Plain ==> r == Some(Base(id, b.posts[id].authorId))
    ensures r.Some? ==> r.value.id in b.posts && r.value.authorId == b.posts[r.value.id].authorId
    ensures r.Some? && b.posts[id].kind == Repost ==> b.posts[id].originalPostId == Some(r.value.id)
  {
    var p := b.posts[id];
    if p.kind == Plain then Some(Base(id, p.authorId))
    else if p.originalPostId.Some? && p.originalPostId.value in b.posts then
      Some(Base(p.originalPostId.value, b.posts[p.originalPostId.value].authorId))
    else None
  }

  /** `baseId` alone, as `unlikePost` and `deleteComment` compute it: a repost's `originalPostId`, possibly null. */
  function BaseId(b: Board, id: string): Option<string>
    requires id in b.posts
  {
    if b.posts[id].kind == Repost then b.posts[id].originalPostId else Some(id)
  }

  /** `likePost`: the like lands on the base post; a blacklist row with its author forbids it. */
  function LikePost(b: Board, me: string, blocks: set<Edge>, id: string): (r: (int, Board))
    ensures r.0 != Created ==> r.1 == b
    ensures r.0 == Created <==> IsUuid(id) && id in b.posts && BaseOf(b, id).Some?
                                && !BlockedEitherWay(blocks, me, BaseOf(b, id).value.authorId)
    ensures r.0 == Created ==> r.1 == b.(likes := b.likes + {Like(me, BaseOf(b, id).value.id)})
  {
    if !IsUuid(id) then (BadRequest, b)
    else if id !in b.posts then (NotFound, b)
    else match BaseOf(b, id)
      case None => (ServerError, b)
      case Some(base) =>
        if BlockedEitherWay(blocks, me, base.authorId) then (Forbidden, b)
        else (Created, b.(likes := b.likes + {Like(me, base.id)}))
  }

  /** Liking a repost is liking its original, and liking twice leaves one like. */
  lemma LikeGoesToBase(b: Board, me: string, blocks: set<Edge>, repostId: string)
    requires IsUuid(repostId) && repostId in b.posts && b.posts[repostId].kind == Repost
    requires var o := b.posts[repostId].originalPostId; o.Some? && o.value in b.posts && b.posts[o.value].kind == Plain && IsUuid(o.value)
    ensures var o := b.posts[repostId].originalPostId.value;
      LikePost(b, me, blocks, repostId) == LikePost(b, me, blocks, o)
    ensures var once := LikePost(b, me, blocks, repostId);
      LikePost(once.1, me, blocks, repostId) == once
  {
    var once := LikePost(b, me, blocks, repostId);
    if once.0 == Created {
      var o := b.posts[repostId].originalPostId.value;
      assert once.1.likes + {Like(me, o)} == once.1.likes;
    }
  }

  /** `unlikePost`: removes the caller's like of the base post, with no blacklist check. */
  function UnlikePost(b: Board, me: string, id: string): (r: (int, Board))
    ensures r.0 in {Ok, BadRequest, NotFound}
    ensures r.0 != Ok ==> r.1 == b
    ensures r.0 == Ok <==> IsUuid(id) && id in b.posts
    ensures r.0 == Ok && BaseId(b, id).Some? ==> r.1 == b.(likes := b.likes - {Like(me, BaseId(b, id).value)})
    ensures r.0 == Ok && BaseId(b, id).None? ==> r.1 == b
  {
    if !IsUuid(id) then (BadRequest, b)
    else if id !in b.posts then (NotFound, b)
    else match BaseId(b, id)
      case None => (Ok, b)
      case Some(base) => (Ok, b.(likes := b.likes - {Like(me, base)}))
  }

  /** A like followed by an unlike through the same post leaves no like of the caller on the base. */
  lemma LikeThenUnlike(b: Board, me: string, blocks: set<Edge>, id: string)
    requires LikePost(b, me, blocks, id).0 == Created
    ensures var b' := LikePost(b, me, blocks, id).1;
      var b'' := UnlikePost(b', me, id).1;
      b''.likes == b.likes - {Like(me, BaseOf(b, id).value.id)}
  {
  }

  /** `addComment`: a body of 1 to 2000 characters, stored on the base post under a fresh id. */
  function AddComment(b: Board, me: string, blocks: set<Edge>, id: string, body: string, newId: string): (r: (int, Board))
    ensures r.0 != Created ==> r.1 == b
    ensures r.0 == Created <==> && IsUuid(id) && 1 <= |body| <= 2000 && id in b.posts && BaseOf(b, id).Some?
                                 && !BlockedEitherWay(blocks, me, BaseOf(b, id).value.authorId) && newId !in b.comments
    ensures r.0 == Created ==> r.1 == b.(comments := b.comments[newId := Comment(BaseOf(b, id).value.id, me, body)])
  {
    if !IsUuid(id) then (BadRequest, b)
    else if !(1 <= |body| <= 2000) then (ServerError, b)
    else if id !in b.posts then (NotFound, b)
    else match BaseOf(b, id)
      case None => (ServerError, b)
      case Some(base) =>
        if BlockedEitherWay(blocks, me, base.authorId) then (Forbidden, b)
        else if newId in b.comments then (ServerError, b)
        else (Created, b.(comments := b.comments[newId := Comment(base.id, me, body)]))
  }

  /** Whether `me` already has a repost of `original`. */
  predicate HasReposted(b: Board, me: string, original: string) {
    exists r :: r in b.posts && b.posts[r].kind == Repost && b.posts[r].authorId == me && b.posts[r].originalPostId == Some(original)
  }

  /** `repostToProfile`: one repost per user and original, none across a blacklist row. */
  function RepostPost(b: Board, me: string, blocks: set<Edge>, id: string, text: Option<string>, newId: string): (r: (int, Board))
    ensures r.0 != Created ==> r.1 == b
    ensures r.0 == Created <==> && IsUuid(id) && (text.Some? ==> |text.value| <= 5000) && id in b.posts
                                 && !BlockedEitherWay(blocks, me, b.posts[id].authorId)
                                 && !HasReposted(b, me, id) && newId !in b.posts
    ensures r.0 == Created ==> r.1 == b.(posts := b.posts[newId := PostRow(me, Repost, Some(id), text.GetOr(""), None)])
    ensures (&& IsUuid(id) && (text.Some? ==> |text.value| <= 5000) && id in b.posts
             && !BlockedEitherWay(blocks, me, b.posts[id].authorId) && HasReposted(b, me, id)) ==> r.0 == Conflict
  {
    if !IsUuid(id) then (BadRequest, b)
    else if text.Some? && |text.value| > 5000 then (ServerError, b)
    else if id !in b.posts then (NotFound, b)
    else if BlockedEitherWay(blocks, me, b.posts[id].authorId) then (Forbidden, b)
    else if HasReposted(b, me, id) then (Conflict, b)
    else if newId in b.posts then (ServerError, b)
    else (Created, b.(posts := b.posts[newId := PostRow(me, Repost, Some(id), text.GetOr(""), None)]))
  }

  /** No user holds two reposts of the same original. */
  ghost predicate UniqueReposts(b: Board) {
    forall r1, r2 :: r1 in b.posts && r2 in b.posts && b.posts[r1].kind == Repost && b.posts[r2].kind == Repost
      && b.posts[r1].authorId == b.posts[r2].authorId && b.posts[r1].originalPostId == b.posts[r2].originalPostId
      ==> r1 == r2
  }

  /** The duplicate check keeps reposts unique, and a second identical repost is refused with 409. */
  lemma RepostKeepsUnique(b: Board, me: string, blocks: set<Edge>, id: string, text: Option<string>, newId: string, newId2: string)
    requires UniqueReposts(b)
    ensures UniqueReposts(RepostPost(b, me, blocks, id, text, newId).1)
    ensures RepostPost(b, me, blocks, id, text, newId).0 == Created ==>
      RepostPost(RepostPost(b, me, blocks, id, text, newId).1, me, blocks, id, text, newId2).0 == Conflict
  {
    var r := RepostPost(b, me, blocks, id, text, newId);
    if r.0 == Created {
      var b' := r.1;
      assert b'.posts[newId].authorId == me && b'.posts[newId].originalPostId == Some(id);
      assert HasReposted(b', me, id);
      forall r1, r2 | r1 in b'.posts && r2 in b'.posts && b'.posts[r1].kind == Repost && b'.posts[r2].kind == Repost
        && b'.posts[r1].authorId == b'.posts[r2].authorId && b'.posts[r1].originalPostId == b'.posts[r2].originalPostId
        ensures r1 == r2
      {
        if r1 == newId && r2 != newId {
          assert b.posts[r2].authorId == me && b.posts[r2].originalPostId == Some(id);
          assert HasReposted(b, me, id);
        } else if r2 == newId && r1 != newId {
          assert b.posts[r1].authorId == me && b.posts[r1].originalPostId == Some(id);
          assert HasReposted(b, me, id);
        }
      }
    }
  }

  /**
   * `createPost`: a text of 1 to 10000 characters; an attached bet must exist
   * (404) and sit in one of the author's sessions (403). `betOwner` maps a bet
   * id to the owner of its session.
   */
  function CreatePost(b: Board, me: string, betOwner: map<string, string>, text: string, attachedBetId: Option<string>,
                      newId: string): (r: (int, Board))
    ensures r.0 != Created ==> r.1 == b
    ensures attachedBetId.Some? && 1 <= |text| <= 10000 && attachedBetId.value !in betOwner ==> r.0 == NotFound
    ensures (&& attachedBetId.Some? && 1 <= |text| <= 10000 && attachedBetId.value in betOwner
             && betOwner[attachedBetId.value] != me) ==> r.0 == Forbidden
    ensures r.0 == Created ==> (attachedBetId.Some? ==> attachedBetId.value in betOwner && betOwner[attachedBetId.value] == me)
    ensures r.0 == Created <==> 1 <= |text| <= 10000 && newId !in b.posts
                                && (attachedBetId.Some? ==> attachedBetId.value in betOwner && betOwner[attachedBetId.value] == me)
    ensures r.0 == Created ==> r.1 == b.(posts := b.posts[newId := PostRow(me, Plain, None, text, attachedBetId)])
  {
    if !(1 <= |text| <= 10000) then (ServerError, b)
    else if attachedBetId.Some? && attachedBetId.value !in betOwner then (NotFound, b)
    else if attachedBetId.Some? && betOwner[attachedBetId.value] != me then (Forbidden, b)
    else if newId in b.posts then (ServerError, b)
    else (Created, b.(posts := b.posts[newId := PostRow(me, Plain, None, text, attachedBetId)]))
  }

  /** The reposts of a post. */
  function RepostsOf(b: Board, id: string): set<string> {
    set r | r in b.posts && b.posts[r].kind == Repost && b.posts[r].originalPostId == Some(id)
  }

  /** The notification types that refer to a post. */
  const PostNoticeKinds: set<string> := {"LIKE_POST", "COMMENT_POST", "REPOST_POST"}

  /** `sharedPostId: null` on every message that shares one of `gone`. */
  function Unshare(shares: map<string, Option<string>>, gone: set<string>): (r: map<string, Option<string>>)
    ensures r.Keys == shares.Keys
    ensures forall m :: m in r ==> r[m] == if shares[m].Some? && shares[m].value in gone then None else shares[m]
  {
    map m | m in shares :: if shares[m].Some? && shares[m].value in gone then None else shares[m]
  }

  /** The cascade for a post: its reposts, likes, comments, post notifications and message links go. */
  function CascadePost(b: Board, id: string): Board {
    var gone := {id} + RepostsOf(b, id);
    Board(map k | k in b.posts && k !in gone :: b.posts[k],
          set l | l in b.likes && l.postId != id,
          map c | c in b.comments && b.comments[c].postId != id :: b.comments[c],
          map n | n in b.notices && !(b.notices[n].entityId == id && b.notices[n].kind in PostNoticeKinds) :: b.notices[n],
          Unshare(b.shares, gone))
  }

  /** Deleting a repost: only its row goes, and messages sharing it lose the link. */
  function CascadeRepost(b: Board, id: string): Board {
    b.(posts := map k | k in b.posts && k != id :: b.posts[k], shares := Unshare(b.shares, {id}))
  }

  /** `deletePost`: only the author may delete. */
  function DeletePost(b: Board, me: string, id: string): (r: (int, Board))
    ensures r.0 in {Ok, BadRequest, NotFound, Forbidden}
    ensures r.0 != Ok ==> r.1 == b
    ensures r.0 == Ok <==> IsUuid(id) && id in b.posts && b.posts[id].authorId == me
    ensures r.0 == Ok ==> r.1 == if b.posts[id].kind == Plain then CascadePost(b, id) else CascadeRepost(b, id)
  {
    if !IsUuid(id) then (BadRequest, b)
    else if id !in b.posts then (NotFound, b)
    else if b.posts[id].authorId != me then (Forbidden, b)
    else if b.posts[id].kind == Plain then (Ok, CascadePost(b, id))
    else (Ok, CascadeRepost(b, id))
  }

  /**
   * After a post is deleted nothing refers to it: no row of it or its
   * reposts, no like or comment on it, no post notification about it and no
   * message sharing it or a repost of it. Everything else stays.
   */
  lemma CascadePostClears(b: Board, id: string)
    ensures var b' := CascadePost(b, id);
      && id !in b'.posts && RepostsOf(b', id) == {}
      && (forall l :: l in b'.likes ==> l.postId != id)
      && (forall c :: c in b'.comments ==> b'.comments[c].postId != id)
      && (forall n :: n in b'.notices ==> !(b'.notices[n].entityId == id && b'.notices[n].kind in PostNoticeKinds))
      && (forall m :: m in b'.shares && b'.shares[m].Some? ==> b'.shares[m].value != id && b'.shares[m].value !in RepostsOf(b, id))
      && (forall k :: k in b.posts && k != id && k !in RepostsOf(b, id) ==> k in b'.posts && b'.posts[k] == b.posts[k])
      && (forall l :: l in b.likes && l.postId != id ==> l in b'.likes)
      && b'.shares.Keys == b.shares.Keys
  {
  }

  /** Deleting a repost leaves the original, its likes and its comments untouched. */
  lemma CascadeRepostKeepsOriginal(b: Board, id: string)
    requires id in b.posts && b.posts[id].kind == Repost
    ensures var b' := CascadeRepost(b, id);
      && id !in b'.posts && b'.likes == b.likes && b'.comments == b.comments && b'.notices == b.notices
      && (forall k :: k in b.posts && k != id ==> k in b'.posts && b'.posts[k] == b.posts[k])
      && (forall m :: m in b'.shares ==> b'.shares[m] != Some(id))
  {
  }

  /** Deleting keeps reposts unique. */
  lemma DeletePostKeepsUnique(b: Board, me: string, id: string)
    requires UniqueReposts(b)
    ensures UniqueReposts(DeletePost(b, me, id).1)
  {
    var r := DeletePost(b, me, id);
    if r.0 == Ok {
      forall r1, r2 | r1 in r.1.posts && r2 in r.1.posts
        ensures r.1.posts[r1] == b.posts[r1] && r.1.posts[r2] == b.posts[r2]
      {
      }
    }
  }

  /**
   * `deleteComment`: the comment must belong to the base post of the given
   * post (404 otherwise), and only its author or the base post's author may
   * delete it (403). When the base post row is gone, a caller who is not the
   * comment's author hits `basePost.authorId` on null.
   */
  function DeleteComment(b: Board, me: string, postId: string, commentId: string): (r: (int, Board))
    ensures r.0 != Ok ==> r.1 == b
    ensures r.0 == Ok ==> r.1 == b.(comments := b.comments - {commentId})
    ensures r.0 == Ok ==> && commentId in b.comments && postId in b.posts
                          && BaseId(b, postId) == Some(b.comments[commentId].postId)
                          && (b.comments[commentId].authorId == me
                              || (BaseOf(b, postId).Some? && BaseOf(b, postId).value.authorId == me))
    ensures (&& IsUuid(postId) && IsUuid(commentId) && postId in b.posts && commentId in b.comments
             && BaseId(b, postId) == Some(b.comments[commentId].postId)
             && b.comments[commentId].authorId == me) ==> r.0 == Ok
  {
    if !IsUuid(postId) || !IsUuid(commentId) then (BadRequest, b)
    else if postId !in b.posts then (NotFound, b)
    else if commentId !in b.comments then (NotFound, b)
    else if BaseId(b, postId) != Some(b.comments[commentId].postId) then (NotFound, b)
    else if b.comments[commentId].authorId == me then (Ok, b.(comments := b.comments - {commentId}))
    else match BaseOf(b, postId)
      case None => (ServerError, b)
      case Some(base) =>
        if base.authorId != me then (Forbidden, b)
        else (Ok, b.(comments := b.comments - {commentId}))
  }

  /** The authors of the 'following' feed: everyone the viewer follows, and the viewer. */
  function FeedAuthors(me: string, follows: set<Edge>): (authors: set<string>)
    ensures me in authors
    ensures forall a :: a in authors <==> a == me || Edge(me, a) in follows
  {
    {me} + set e | e in follows && e.from == me :: e.to
  }

  /** A post as the feed queries return it, with the author of its original when it is a repost. */
  datatype FeedPost = FeedPost(id: string, authorId: string, kind: PostType, originalPostId: Option<string>,
                               originalAuthorId: Option<string>)

  /** The blacklist test of `feed` and `searchPosts`: neither the content's owner nor the poster may be blocked. */
  predicate Shown(me: string, blocks: set<Edge>, p: FeedPost) {
    var owner := if p.kind == Repost then p.originalAuthorId else Some(p.authorId);
    !(owner.Some? && owner.value != "" && BlockedEitherWay(blocks, me, owner.value))
    && !BlockedEitherWay(blocks, me, p.authorId)
  }

  /** The blacklist test of `userFeedByPublicId`, applied to reposts only (the owner was checked before). */
  predicate ShownOnWall(me: string, blocks: set<Edge>, p: FeedPost) {
    !(p.kind == Repost && p.originalAuthorId.Some? && p.originalAuthorId.value != ""
      && BlockedEitherWay(blocks, me, p.originalAuthorId.value))
  }

  function Filter(posts: seq<FeedPost>, keep: FeedPost -> bool): (r: seq<FeedPost>)
    ensures |r| <= |posts|
    decreases |posts|
  {
    if posts == [] then []
    else
      var n := |posts| - 1;
      Filter(posts[..n], keep) + (if keep(posts[n]) then [posts[n]] else [])
  }

  /** A filter keeps exactly the posts that pass, in their order. */
  lemma {:induction false} FilterMembers(posts: seq<FeedPost>, keep: FeedPost -> bool, p: FeedPost)
    ensures p in Filter(posts, keep) <==> p in posts && keep(p)
    decreases |posts|
  {
    if posts != [] {
      var n := |posts| - 1;
      FilterMembers(posts[..n], keep, p);
      assert posts == posts[..n] + [posts[n]];
    }
  }

  /** The `for (const p of posts)` loop of `feed` and `searchPosts`. */
  method FilterFeed(me: string, blocks: set<Edge>, posts: seq<FeedPost>) returns (filtered: seq<FeedPost>)
    ensures filtered == Filter(posts, p => Shown(me, blocks, p))
  {
    filtered := [];
    var i := 0;
    while i < |posts|
      invariant 0 <= i <= |posts|
      invariant filtered == Filter(posts[..i], p => Shown(me, blocks, p))
    {
      assert posts[..i + 1][..i] == posts[..i];
      var p := posts[i];
      var owner := if p.kind == Repost then p.originalAuthorId else Some(p.authorId);
      if owner.Some? && owner.value != "" && (Edge(me, owner.value) in blocks || Edge(owner.value, me) in blocks) {
      } else if Edge(me, p.authorId) in blocks || Edge(p.authorId, me) in blocks {
      } else {
        filtered := filtered + [p];
      }
      i := i + 1;
    }
    assert posts[..|posts|] == posts;
  }

  /** The `for (const p of posts)` loop of `userFeedByPublicId`. */
  method FilterWall(me: string, blocks: set<Edge>, posts: seq<FeedPost>) returns (filtered: seq<FeedPost>)
    ensures filtered == Filter(posts, p => ShownOnWall(me, blocks, p))
  {
    filtered := [];
    var i := 0;
    while i < |posts|
      invariant 0 <= i <= |posts|
      invariant filtered == Filter(posts[..i], p => ShownOnWall(me, blocks, p))
    {
      assert posts[..i + 1][..i] == posts[..i];
      var p := posts[i];
      if p.kind == Repost && p.originalAuthorId.Some? && p.originalAuthorId.value != ""
         && (Edge(me, p.originalAuthorId.value) in blocks || Edge(p.originalAuthorId.value, me) in blocks) {
      } else {
        filtered := filtered + [p];
      }
      i := i + 1;
    }
    assert posts[..|posts|] == posts;
  }

  /**
   * A feed shows no content of anyone in a blacklist relation with the
   * viewer: neither their posts nor reposts of their posts.
   */
  lemma FeedHidesBlocked(me: string, blocks: set<Edge>, posts: seq<FeedPost>, p: FeedPost)
    requires p in Filter(posts, q => Shown(me, blocks, q))
    ensures p in posts
    ensures !BlockedEitherWay(blocks, me, p.authorId)
    ensures p.kind == Repost && p.originalAuthorId.Some? && p.originalAuthorId.value != ""
            ==> !BlockedEitherWay(blocks, me, p.originalAuthorId.value)
  {
    FilterMembers(posts, q => Shown(me, blocks, q), p);
  }

  /** The post tables, edited in place by the handlers; the blacklist and bet owners are read only. */
  class Wall {
    const blocks: set<Edge>
    const betOwner: map<string, string>
    var posts: map<string, PostRow>
    var likes: set<Like>
    var comments: map<string, Comment>
    var notices: map<string, Notice>
    var shares: map<string, Option<string>>

    function State(): Board
      reads this
    {
      Board(posts, likes, comments, notices, shares)
    }

    constructor (blocks: set<Edge>, betOwner: map<string, string>, b: Board)
      ensures this.blocks == blocks && this.betOwner == betOwner && State() == b
    {
      this.blocks := blocks;
      this.betOwner := betOwner;
      posts := b.posts;
      likes := b.likes;
      comments := b.comments;
      notices := b.notices;
      shares := b.shares;
    }

    method Publish(me: string, text: string, attachedBetId: Option<string>, newId: string) returns (code: int)
      modifies this
      ensures (code, State()) == CreatePost(old(State()), me, betOwner, text, attachedBetId, newId)
    {
      if !(1 <= |text| <= 10000) {
        return ServerError;
      }
      if attachedBetId.Some? {
        if attachedBetId.value !in betOwner {
          return NotFound;
        }
        if betOwner[attachedBetId.value] != me {
          return Forbidden;
        }
      }
      if newId in posts {
        return ServerError;
      }
      posts := posts[newId := PostRow(me, Plain, None, text, attachedBetId)];
      code := Created;
    }

    method Share(me: string, id: string, text: Option<string>, newId: string) returns (code: int)
      modifies this
      ensures (code, State()) == RepostPost(old(State()), me, blocks, id, text, newId)
    {
      if !IsUuid(id) {
        return BadRequest;
      }
      if text.Some? && |text.value| > 5000 {
        return ServerError;
      }
      if id !in posts {
        return NotFound;
      }
      var original := posts[id];
      if Edge(me, original.authorId) in blocks || Edge(original.authorId, me) in blocks {
        return Forbidden;
      }
      if HasReposted(State(), me, id) {
        return Conflict;
      }
      if newId in posts {
        return ServerError;
      }
      posts := posts[newId := PostRow(me, Repost, Some(id), text.GetOr(""), None)];
      code := Created;
    }

    method PutLike(me: string, id: string) returns (code: int)
      modifies this
      ensures (code, State()) == LikePost(old(State()), me, blocks, id)
    {
      if !IsUuid(id) {
        return BadRequest;
      }
      if id !in posts {
        return NotFound;
      }
      var base := BaseOf(State(), id);
      if base.None? {
        return ServerError;
      }
      if Edge(me, base.value.authorId) in blocks || Edge(base.value.authorId, me) in blocks {
        return Forbidden;
      }
      likes := likes + {Like(me, base.value.id)};
      code := Created;
    }

    method TakeLike(me: string, id: string) returns (code: int)
      modifies this
      ensures (code, State()) == UnlikePost(old(State()), me, id)
    {
      if !IsUuid(id) {
        return BadRequest;
      }
      if id !in posts {
        return NotFound;
      }
      var base := BaseId(State(), id);
      if base.Some? {
        likes := likes - {Like(me, base.value)};
      }
      code := Ok;
    }

    method PutComment(me: string, id: string, body: string, newId: string) returns (code: int)
      modifies this
      ensures (code, State()) == AddComment(old(State()), me, blocks, id, body, newId)
    {
      if !IsUuid(id) {
        return BadRequest;
      }
      if !(1 <= |body| <= 2000) {
        return ServerError;
      }
      if id !in posts {
        return NotFound;
      }
      var base := BaseOf(State(), id);
      if base.None? {
        return ServerError;
      }
      if Edge(me, base.value.authorId) in blocks || Edge(base.value.authorId, me) in blocks {
        return Forbidden;
      }
      if newId in comments {
        return ServerError;
      }
      comments := comments[newId := Comment(base.value.id, me, body)];
      code := Created;
    }

    method Delete(me: string, id: string) returns (code: int)
      modifies this
      ensures (code, State()) == DeletePost(old(State()), me, id)
    {
      if !IsUuid(id) {
        return BadRequest;
      }
      if id !in posts {
        return NotFound;
      }
      if posts[id].authorId != me {
        return Forbidden;
      }
      if posts[id].kind == Plain {
        var repostIds := RepostsOf(State(), id);
        var gone := {id} + repostIds;
        shares := Unshare(shares, gone);
        notices := map n | n in notices && !(notices[n].entityId == id && notices[n].kind in PostNoticeKinds) :: notices[n];
        likes := set l | l in likes && l.postId != id;
        comments := map c | c in comments && comments[c].postId != id :: comments[c];
        posts := map k | k in posts && k !in gone :: posts[k];
      } else {
        shares := Unshare(shares, {id});
        posts := map k | k in posts && k != id :: posts[k];
      }
      code := Ok;
    }

    method RemoveComment(me: string, postId: string, commentId: string) returns (code: int)
      modifies this
      ensures (code, State()) == DeleteComment(old(State()), me, postId, commentId)
    {
      if !IsUuid(postId) || !IsUuid(commentId) {
        return BadRequest;
      }
      if postId !in posts || commentId !in comments {
        return NotFound;
      }
      var c := comments[commentId];
      if BaseId(State(), postId) != Some(c.postId) {
        return NotFound;
      }
      if c.authorId != me {
        var base := BaseOf(State(), postId);
        if base.None? {
          return ServerError;
        }
        if base.value.authorId != me {
          return Forbidden;
        }
      }
      comments := comments - {commentId};
      code := Ok;
    }
  }
}
