// `users.controller.js`: the follow and blacklist graph that follow, unfollow,
// block and unblock edit row by row, the blacklist filter of the user search,
// the follower-count and follower-list privacy rules, and the profile patch.
// User records are looked up by public id; the lookup table itself is not
// changed by these handlers.

module Users {
  import opened Wrappers
  import opened Text
  import opened Social

  /** The user record `findUserByPublicId` returns: its id and `Privacy.showFollowers`, if any. */
  datatype UserRow = UserRow(id: string, showFollowers: Option<bool>)

  /** The `Follow` and `Blacklist` tables. */
  datatype Graph = Graph(follows: set<Edge>, blocks: set<Edge>)

  /** The target of a `/:publicId` route: 400 for a malformed id, 404 for an unknown one. */
  datatype Target = Found(user: UserRow) | Missing(code: int)

  function FindTarget(users: map<string, UserRow>, publicId: string): (t: Target)
    ensures t.Missing? ==> t.code in {BadRequest, NotFound}
    ensures t.Found? <==> IsPublicId(publicId) && publicId in users
    ensures t.Found? ==> t.user == users[publicId]
  {
    if !IsPublicId(publicId) then Missing(BadRequest)
    else if publicId !in users then Missing(NotFound)
    else Found(users[publicId])
  }

  /** `followByPublicId`: 409 on oneself, 403 across a blacklist row, else the follow row exists (201). */
  function Follow(g: Graph, users: map<string, UserRow>, me: string, publicId: string): (r: (int, Graph))
    ensures r.0 != Created ==> r.1 == g
    ensures r.0 == Created <==> FindTarget(users, publicId).Found? && users[publicId].id != me
                                && !BlockedEitherWay(g.blocks, me, users[publicId].id)
    ensures r.0 == Created ==> r.1 == g.(follows := g.follows + {Edge(me, users[publicId].id)})
    ensures FindTarget(users, publicId).Found? && users[publicId].id == me ==> r.0 == Conflict
    ensures (&& FindTarget(users, publicId).Found? && users[publicId].id != me
             && BlockedEitherWay(g.blocks, me, users[publicId].id)) ==> r.0 == Forbidden
  {
    match FindTarget(users, publicId)
    case Missing(code) => (code, g)
    case Found(target) =>
      if target.id == me then (Conflict, g)
      else if BlockedEitherWay(g.blocks, me, target.id) then (Forbidden, g)
      else (Created, g.(follows := g.follows + {Edge(me, target.id)}))
  }

  /** Following twice is following once: `findOrCreate` adds no second row. */
  lemma FollowIdempotent(g: Graph, users: map<string, UserRow>, me: string, publicId: string)
    ensures var once := Follow(g, users, me, publicId);
      Follow(once.1, users, me, publicId) == once
  {
    var once := Follow(g, users, me, publicId);
    if once.0 == Created {
      var t := users[publicId].id;
      assert once.1.follows + {Edge(me, t)} == once.1.follows;
    }
  }

  /** `unfollowByPublicId`: removes the caller's follow row towards the target, and nothing else. */
  function Unfollow(g: Graph, users: map<string, UserRow>, me: string, publicId: string): (r: (int, Graph))
    ensures r.0 in {Ok, BadRequest, NotFound}
    ensures r.0 != Ok ==> r.1 == g
    ensures r.0 == Ok <==> FindTarget(users, publicId).Found?
    ensures r.0 == Ok ==> r.1 == g.(follows := g.follows - {Edge(me, users[publicId].id)})
  {
    match FindTarget(users, publicId)
    case Missing(code) => (code, g)
    case Found(target) => (Ok, g.(follows := g.follows - {Edge(me, target.id)}))
  }

  /** Unfollowing keeps the target's own follow towards the caller. */
  lemma UnfollowKeepsReverse(g: Graph, users: map<string, UserRow>, me: string, publicId: string)
    requires FindTarget(users, publicId).Found? && users[publicId].id != me
    requires Edge(users[publicId].id, me) in g.follows
    ensures Edge(users[publicId].id, me) in Unfollow(g, users, me, publicId).1.follows
    ensures Edge(me, users[publicId].id) !in Unfollow(g, users, me, publicId).1.follows
  {
  }

  /** `blockByPublicId`: the block row exists (201) and follow rows in both directions are gone. */
  function Block(g: Graph, users: map<string, UserRow>, me: string, publicId: string): (r: (int, Graph))
    ensures r.0 in {Created, BadRequest, NotFound, Conflict}
    ensures r.0 != Created ==> r.1 == g
    ensures r.0 == Created <==> FindTarget(users, publicId).Found? && users[publicId].id != me
    ensures r.0 == Created ==>
      var t := users[publicId].id;
      r.1 == Graph(g.follows - {Edge(me, t), Edge(t, me)}, g.blocks + {Edge(me, t)})
  {
    match FindTarget(users, publicId)
    case Missing(code) => (code, g)
    case Found(target) =>
      if target.id == me then (Conflict, g)
      else (Created, Graph(g.follows - {Edge(me, target.id), Edge(target.id, me)}, g.blocks + {Edge(me, target.id)}))
  }

  /**
   * After a block neither user follows the other, and neither can follow
   * the other again: both attempts answer 403 and change nothing.
   */
  lemma BlockSeparates(g: Graph, users: map<string, UserRow>, me: string, publicId: string, myPublicId: string)
    requires Block(g, users, me, publicId).0 == Created
    requires myPublicId in users && users[myPublicId].id == me && IsPublicId(myPublicId)
    ensures var g' := Block(g, users, me, publicId).1;
      var t := users[publicId].id;
      && Edge(me, t) !in g'.follows && Edge(t, me) !in g'.follows
      && Follow(g', users, me, publicId) == (Forbidden, g')
      && Follow(g', users, t, myPublicId) == (Forbidden, g')
  {
  }

  /** Blocking twice is blocking once. */
  lemma BlockIdempotent(g: Graph, users: map<string, UserRow>, me: string, publicId: string)
    ensures var once := Block(g, users, me, publicId);
      Block(once.1, users, me, publicId) == once
  {
    var once := Block(g, users, me, publicId);
    if once.0 == Created {
      var t := users[publicId].id;
      assert once.1.blocks + {Edge(me, t)} == once.1.blocks;
      assert once.1.follows - {Edge(me, t), Edge(t, me)} == once.1.follows;
    }
  }

  /** `unblockByPublicId`: removes only the caller's own block row. */
  function Unblock(g: Graph, users: map<string, UserRow>, me: string, publicId: string): (r: (int, Graph))
    ensures r.0 in {Ok, BadRequest, NotFound}
    ensures r.0 != Ok ==> r.1 == g
    ensures r.0 == Ok <==> FindTarget(users, publicId).Found?
    ensures r.0 == Ok ==> r.1 == g.(blocks := g.blocks - {Edge(me, users[publicId].id)})
  {
    match FindTarget(users, publicId)
    case Missing(code) => (code, g)
    case Found(target) => (Ok, g.(blocks := g.blocks - {Edge(me, target.id)}))
  }

  /** A block the target placed on the caller survives the caller's unblock: they stay separated. */
  lemma UnblockKeepsTheirs(g: Graph, users: map<string, UserRow>, me: string, publicId: string)
    requires FindTarget(users, publicId).Found? && users[publicId].id != me
    requires Edge(users[publicId].id, me) in g.blocks
    ensures var g' := Unblock(g, users, me, publicId).1;
      Edge(users[publicId].id, me) in g'.blocks && BlockedEitherWay(g'.blocks, me, users[publicId].id)
  {
  }

  /** `meta` of `getUserByPublicId`: both counts are null when followers are hidden, even to the owner. */
  function MetaCounts(showFollowers: Option<bool>, followers: nat, following: nat): (m: (Option<nat>, Option<nat>))
    ensures showFollowers == Some(false) ==> m == (None, None)
    ensures showFollowers != Some(false) ==> m == (Some(followers), Some(following))
  {
    if showFollowers.GetOr(true) then (Some(followers), Some(following)) else (None, None)
  }

  /**
   * The checks of `followersByPublicId` and `followingByPublicId`: a hidden
   * list answers 403 to everyone but its owner, a blacklist row 404.
   */
  function ListGate(users: map<string, UserRow>, blocks: set<Edge>, me: string, publicId: string): (code: int)
    ensures code in {Ok, BadRequest, NotFound, Forbidden}
    ensures code == Forbidden <==> FindTarget(users, publicId).Found? && !BlockedEitherWay(blocks, me, users[publicId].id)
                                   && users[publicId].showFollowers == Some(false) && users[publicId].id != me
    ensures FindTarget(users, publicId).Found? && users[publicId].id == me && !BlockedEitherWay(blocks, me, me) ==> code == Ok
  {
    match FindTarget(users, publicId)
    case Missing(code) => code
    case Found(target) =>
      if BlockedEitherWay(blocks, me, target.id) then NotFound
      else if !Visible(target.showFollowers, me, target.id) then Forbidden
      else Ok
  }

  /** For the owner the counts may be null while the lists are readable. */
  lemma OwnerSeesListsNotCounts(users: map<string, UserRow>, blocks: set<Edge>, me: string, publicId: string, followers: nat, following: nat)
    requires FindTarget(users, publicId).Found? && users[publicId].id == me && users[publicId].showFollowers == Some(false)
    requires !BlockedEitherWay(blocks, me, me)
    ensures ListGate(users, blocks, me, publicId) == Ok
    ensures MetaCounts(users[publicId].showFollowers, followers, following) == (None, None)
  {
  }

  /** A user the prefix search found. */
  datatype Candidate = Candidate(id: string, publicId: string, username: string)

  /** The ids `searchUsers` puts in `blockedSet` while walking the blacklist rows. */
  function BlockedIds(me: string, rows: seq<Edge>): set<string>
    decreases |rows|
  {
    if rows == [] then {}
    else
      var e := rows[|rows| - 1];
      BlockedIds(me, rows[..|rows| - 1]) + (if e.from == me then {e.to} else {}) + (if e.to == me then {e.from} else {})
  }

  /** An id is collected exactly when a row links it to the caller in either direction. */
  lemma {:induction false} BlockedIdsMeaning(me: string, rows: seq<Edge>, id: string)
    ensures id in BlockedIds(me, rows) <==> BlockedEitherWay((set e | e in rows), me, id)
    decreases |rows|
  {
    if rows != [] {
      var n := |rows| - 1;
      BlockedIdsMeaning(me, rows[..n], id);
      assert (set e | e in rows) == (set e | e in rows[..n]) + {rows[n]} by {
        assert rows == rows[..n] + [rows[n]];
      }
    }
  }

  /** `candidates.filter((u) => !blockedSet.has(u.id))` */
  function Unblocked(candidates: seq<Candidate>, blocked: set<string>): (r: seq<Candidate>)
    ensures |r| <= |candidates|
    decreases |candidates|
  {
    if candidates == [] then []
    else
      var n := |candidates| - 1;
      var rest := Unblocked(candidates[..n], blocked);
      if candidates[n].id in blocked then rest else rest + [candidates[n]]
  }

  /** The filter drops exactly the blocked candidates. */
  lemma {:induction false} UnblockedMembers(candidates: seq<Candidate>, blocked: set<string>, c: Candidate)
    ensures c in Unblocked(candidates, blocked) <==> c in candidates && c.id !in blocked
    decreases |candidates|
  {
    if candidates != [] {
      var n := |candidates| - 1;
      UnblockedMembers(candidates[..n], blocked, c);
      assert candidates == candidates[..n] + [candidates[n]];
    }
  }

  /** The filter keeps the candidates' order: filtering a concatenation filters each part. */
  lemma {:induction false} UnblockedKeepsOrder(a: seq<Candidate>, b: seq<Candidate>, blocked: set<string>)
    ensures Unblocked(a + b, blocked) == Unblocked(a, blocked) + Unblocked(b, blocked)
    decreases |b|
  {
    if b != [] {
      var n := |b| - 1;
      UnblockedKeepsOrder(a, b[..n], blocked);
      var ab := a + b;
      assert ab[..|ab| - 1] == a + b[..n];
      assert ab[|ab| - 1] == b[n];
      var tail := if b[n].id in blocked then [] else [b[n]];
      assert Unblocked(ab, blocked) == Unblocked(a + b[..n], blocked) + tail;
      assert Unblocked(b, blocked) == Unblocked(b[..n], blocked) + tail;
    } else {
      assert a + b == a;
    }
  }

  /**
   * `searchUsers` after the prefix query: an empty query (after trimming)
   * gives no users; otherwise one loop collects the blocked ids and a
   * filter drops those candidates.
   */
  method SearchUsers(me: string, query: string, candidates: seq<Candidate>, rows: seq<Edge>) returns (users: seq<Candidate>)
    ensures Trim(query) == [] ==> users == []
    ensures Trim(query) != [] ==> users == Unblocked(candidates, BlockedIds(me, rows))
  {
    if |Trim(query)| < 1 {
      return [];
    }
    if |candidates| == 0 {
      return [];
    }
    var blockedSet: set<string> := {};
    var i := 0;
    while i < |rows|
      invariant 0 <= i <= |rows|
      invariant blockedSet == BlockedIds(me, rows[..i])
    {
      assert rows[..i + 1][..i] == rows[..i];
      var b := rows[i];
      if b.from == me {
        blockedSet := blockedSet + {b.to};
      }
      if b.to == me {
        blockedSet := blockedSet + {b.from};
      }
      i := i + 1;
    }
    assert rows[..|rows|] == rows;
    users := [];
    var j := 0;
    while j < |candidates|
      invariant 0 <= j <= |candidates|
      invariant users == Unblocked(candidates[..j], blockedSet)
    {
      assert candidates[..j + 1][..j] == candidates[..j];
      if candidates[j].id !in blockedSet {
        users := users + [candidates[j]];
      }
      j := j + 1;
    }
    assert candidates[..|candidates|] == candidates;
  }

  /** A search result holds exactly the candidates with no blacklist row towards or from the caller. */
  lemma SearchUsersMeaning(me: string, candidates: seq<Candidate>, rows: seq<Edge>, c: Candidate)
    ensures c in Unblocked(candidates, BlockedIds(me, rows)) <==>
      c in candidates && !BlockedEitherWay((set e | e in rows), me, c.id)
  {
    BlockedIdsMeaning(me, rows, c.id);
    UnblockedMembers(candidates, BlockedIds(me, rows), c);
  }

  /** A body field of the profile patch: absent, explicitly null, or a value. */
  datatype Field = Undefined | Null | Given(value: string)

  /** `patch.x !== undefined ? patch.x : user.x` */
  function Patched(f: Field, current: Option<string>): (r: Option<string>)
    ensures f.Undefined? ==> r == current
    ensures f.Null? ==> r == None
    ensures f.Given? ==> r == Some(f.value)
  {
    match f
    case Undefined => current
    case Null => None
    case Given(v) => Some(v)
  }

  /** Patching twice with the same body is patching once. */
  lemma PatchedIdempotent(f: Field, current: Option<string>)
    ensures Patched(f, Patched(f, current)) == Patched(f, current)
  {
  }

  /** The profile columns `updateMyProfile` writes. */
  datatype ProfileFields = ProfileFields(bio: Option<string>, avatarUrl: Option<string>)

  /** The tables of the users controller the handlers edit, with the read-only lookup by public id. */
  class Community {
    const users: map<string, UserRow>
    var follows: set<Edge>
    var blocks: set<Edge>
    var profiles: map<string, ProfileFields>

    function State(): Graph
      reads this
    {
      Graph(follows, blocks)
    }

    constructor (users: map<string, UserRow>, g: Graph, profiles: map<string, ProfileFields>)
      ensures this.users == users && State() == g && this.profiles == profiles
    {
      this.users := users;
      follows := g.follows;
      blocks := g.blocks;
      this.profiles := profiles;
    }

    method FollowByPublicId(me: string, publicId: string) returns (code: int)
      modifies this
      ensures (code, State()) == Follow(old(State()), users, me, publicId)
      ensures profiles == old(profiles)
    {
      var t := FindTarget(users, publicId);
      if t.Missing? {
        return t.code;
      }
      if t.user.id == me {
        return Conflict;
      }
      if Edge(me, t.user.id) in blocks || Edge(t.user.id, me) in blocks {
        return Forbidden;
      }
      follows := follows + {Edge(me, t.user.id)};
      code := Created;
    }

    method UnfollowByPublicId(me: string, publicId: string) returns (code: int)
      modifies this
      ensures (code, State()) == Unfollow(old(State()), users, me, publicId)
      ensures profiles == old(profiles)
    {
      var t := FindTarget(users, publicId);
      if t.Missing? {
        return t.code;
      }
      follows := follows - {Edge(me, t.user.id)};
      code := Ok;
    }

    method BlockByPublicId(me: string, publicId: string) returns (code: int)
      modifies this
      ensures (code, State()) == Block(old(State()), users, me, publicId)
      ensures profiles == old(profiles)
    {
      var t := FindTarget(users, publicId);
      if t.Missing? {
        return t.code;
      }
      if t.user.id == me {
        return Conflict;
      }
      blocks := blocks + {Edge(me, t.user.id)};
      follows := follows - {Edge(me, t.user.id), Edge(t.user.id, me)};
      code := Created;
    }

    method UnblockByPublicId(me: string, publicId: string) returns (code: int)
      modifies this
      ensures (code, State()) == Unblock(old(State()), users, me, publicId)
      ensures profiles == old(profiles)
    {
      var t := FindTarget(users, publicId);
      if t.Missing? {
        return t.code;
      }
      blocks := blocks - {Edge(me, t.user.id)};
      code := Ok;
    }

    /**
     * `updateMyProfile`: a bio over 280 characters or an avatar that is not a
     * URL fails the schema (a server error, nothing written); an unknown
     * caller gets 404; otherwise each field is patched.
     */
    method UpdateMyProfile(me: string, bio: Field, avatarUrl: Field, avatarIsUrl: bool) returns (code: int)
      modifies this
      ensures State() == old(State())
      ensures code == Ok <==> (bio.Given? ==> |bio.value| <= 280) && (avatarUrl.Given? ==> avatarIsUrl) && me in old(profiles)
      ensures code != Ok ==> profiles == old(profiles)
      ensures code == Ok ==> profiles == old(profiles)[me := ProfileFields(Patched(bio, old(profiles)[me].bio),
                                                                            Patched(avatarUrl, old(profiles)[me].avatarUrl))]
    {
      if (bio.Given? && |bio.value| > 280) || (avatarUrl.Given? && !avatarIsUrl) {
        return ServerError;
      }
      if me !in profiles {
        return NotFound;
      }
      var user := profiles[me];
      profiles := profiles[me := ProfileFields(Patched(bio, user.bio), Patched(avatarUrl, user.avatarUrl))];
      code := Ok;
    }
  }
}
