// What the social controllers share: HTTP status codes, directed edges of the
// follow and blacklist tables, and the blacklist and privacy-flag tests every
// read of another user's data starts with.

module Social {
  import opened Wrappers

  const Ok: int := 200
  const Created: int := 201
  const BadRequest: int := 400
  const Forbidden: int := 403
  const NotFound: int := 404
  const Conflict: int := 409
  /** What the error middleware answers for an error without a status, such as a failed schema parse. */
  const ServerError: int := 500

  /** A row of `Follow` (follower to followed) or of `Blacklist` (owner to blocked user). */
  datatype Edge = Edge(from: string, to: string)

  /** A `Notification` row, as far as the cascades that delete them look at it. */
  datatype Notice = Notice(kind: string, entityId: string)

  /** `isBlockedEitherWay(a, b)`: a blacklist row in one direction or the other. */
  predicate BlockedEitherWay(blocks: set<Edge>, a: string, b: string) {
    Edge(a, b) in blocks || Edge(b, a) in blocks
  }

  /** The blacklist test does not depend on the order of the two users. */
  lemma BlockedEitherWaySymmetric(blocks: set<Edge>, a: string, b: string)
    ensures BlockedEitherWay(blocks, a, b) <==> BlockedEitherWay(blocks, b, a)
  {
  }

  /**
   * `(flag ?? true) || viewer === owner`: a missing privacy row or column
   * shows the data, and the owner always sees their own.
   */
  predicate Visible(flag: Option<bool>, viewer: string, owner: string) {
    flag.GetOr(true) || viewer == owner
  }

  /** Hidden data is hidden exactly from other users, and only by an explicit `false`. */
  lemma VisibleCases(flag: Option<bool>, viewer: string, owner: string)
    ensures !Visible(flag, viewer, owner) <==> flag == Some(false) && viewer != owner
    ensures Visible(None, viewer, owner) && Visible(flag, owner, owner)
  {
  }
}
