// The pure helpers of `profile.controller.js`: the messaging decision shown on
// a profile card, the relationship flags, the privacy gates of the bets and
// stats views, and its own copy of the statistics loop, which rounds every
// real-valued field to six decimals.

module Profile {
  import opened Wrappers
  import opened JsMath
  import opened Social
  import Stats

  /** `allowMessages` of the privacy row; `None` when the row or the value is missing. */
  function AllowMessagesOf(setting: Option<string>): (a: string)
    ensures setting.None? || setting.value == "" ==> a == "ALL"
    ensures setting.Some? && setting.value != "" ==> a == setting.value
  {
    if setting.Some? && setting.value != "" then setting.value else "ALL"
  }

  /** `canMessageByPrivacy({ allowMessages, isMe, amFollowingFlag, isFollowingMeFlag })` */
  predicate CanMessageByPrivacy(allowMessages: string, isMe: bool, amFollowing: bool, isFollowingMe: bool) {
    if isMe then true
    else if allowMessages == "ALL" then true
    else if allowMessages == "NONE" then false
    else if allowMessages == "FOLLOWERS" then isFollowingMe
    else if allowMessages == "MUTUAL" then amFollowing && isFollowingMe
    else true
  }

  /**
   * The decision by setting: the owner may always write to themselves; 'ALL'
   * and any unknown value allow, 'NONE' forbids, 'FOLLOWERS' needs the owner
   * to follow the viewer and 'MUTUAL' needs both directions.
   */
  lemma CanMessageByPrivacyCases(allowMessages: string, isMe: bool, amFollowing: bool, isFollowingMe: bool)
    ensures isMe ==> CanMessageByPrivacy(allowMessages, isMe, amFollowing, isFollowingMe)
    ensures !isMe ==> (CanMessageByPrivacy(allowMessages, isMe, amFollowing, isFollowingMe) <==>
      match allowMessages
      case "NONE" => false
      case "FOLLOWERS" => isFollowingMe
      case "MUTUAL" => amFollowing && isFollowingMe
      case _ => true)
  {
  }

  /** A stricter setting never allows more: NONE, MUTUAL, FOLLOWERS, ALL, from strict to open. */
  lemma CanMessageByPrivacyOrdered(isMe: bool, amFollowing: bool, isFollowingMe: bool)
    ensures CanMessageByPrivacy("NONE", isMe, amFollowing, isFollowingMe) ==> CanMessageByPrivacy("MUTUAL", isMe, amFollowing, isFollowingMe)
    ensures CanMessageByPrivacy("MUTUAL", isMe, amFollowing, isFollowingMe) ==> CanMessageByPrivacy("FOLLOWERS", isMe, amFollowing, isFollowingMe)
    ensures CanMessageByPrivacy("FOLLOWERS", isMe, amFollowing, isFollowingMe) ==> CanMessageByPrivacy("ALL", isMe, amFollowing, isFollowingMe)
  {
  }

  /** The `relationship` block of the profile card. */
  datatype Relationship = Relationship(isMe: bool, amFollowing: bool, isFollowingMe: bool, isMutual: bool,
                                       iBlocked: bool, blockedMe: bool, canMessage: bool)

  /** The flags `getProfileByPublicId` computes from the follow and blacklist rows between viewer and owner. */
  function RelationshipOf(viewer: string, owner: string, follows: set<Edge>, blocks: set<Edge>,
                          allowMessages: Option<string>): (r: Relationship)
    ensures r.isMutual <==> Edge(viewer, owner) in follows && Edge(owner, viewer) in follows
    ensures r.isMe ==> r.canMessage
    ensures allowMessages.None? && r.isMutual ==> r.canMessage
  {
    var am := Edge(viewer, owner) in follows;
    var fm := Edge(owner, viewer) in follows;
    Relationship(viewer == owner, am, fm, am && fm, Edge(viewer, owner) in blocks, Edge(owner, viewer) in blocks,
                 CanMessageByPrivacy(AllowMessagesOf(allowMessages), viewer == owner, am, fm))
  }

  /**
   * The gate of `profileBetsByPublicId` and `profileStatsByPublicId` once the
   * target is found: a blacklist row either way hides the user (404), a flag
   * set to false hides the view from everyone but the owner (403).
   */
  function ViewGate(viewer: string, target: string, blocks: set<Edge>, flag: Option<bool>): (code: int)
    ensures code in {Ok, Forbidden, NotFound}
    ensures code == NotFound <==> BlockedEitherWay(blocks, viewer, target)
    ensures code == Forbidden <==> !BlockedEitherWay(blocks, viewer, target) && flag == Some(false) && viewer != target
  {
    if BlockedEitherWay(blocks, viewer, target) then NotFound
    else if !Visible(flag, viewer, target) then Forbidden
    else Ok
  }

  /** The owner passes the gate whatever the flag, and so does anyone when the flag is unset. */
  lemma ViewGateDefaults(viewer: string, target: string, blocks: set<Edge>, flag: Option<bool>)
    requires !BlockedEitherWay(blocks, viewer, target)
    ensures viewer == target ==> ViewGate(viewer, target, blocks, flag) == Ok
    ensures ViewGate(viewer, target, blocks, None) == Ok
  {
  }

  /**
   * The profile card reports `!!Privacy?.showBets`, false when the privacy
   * row is missing, while the bets view treats the same missing value as
   * true: the card can say "hidden" for bets any viewer may read.
   */
  lemma CardFlagDisagreesWithGate(viewer: string, target: string)
    requires viewer != target
    ensures var cardShowBets := Option<bool>.None.GetOr(false);
      !cardShowBets && ViewGate(viewer, target, {}, None) == Ok
  {
  }

  /** `Number(x.toFixed(6))` on every real field, the counters and `updatedAt` as they are. */
  function Rounded(s: Stats.Summary): (r: Stats.Summary)
    ensures r.betsTotal == s.betsTotal && r.wins == s.wins && r.losses == s.losses && r.pending == s.pending
    ensures r.updatedAt == s.updatedAt
  {
    s.(winrate := ToFixed6(s.winrate), stakeSum := ToFixed6(s.stakeSum), profitSum := ToFixed6(s.profitSum),
       roi := ToFixed6(s.roi), avgOdds := ToFixed6(s.avgOdds), avgRisk := ToFixed6(s.avgRisk))
  }

  /**
   * `computeStats` of the profile controller: the same loop and guards as
   * the stats controller (its `(wins + losses) ? ...` is the same test as
   * `> 0` on counts), then rounding.
   */
  method ComputeStats(rows: seq<Stats.Row>) returns (s: Stats.Summary)
    ensures s == Rounded(Stats.SummaryOf(rows))
  {
    var raw := Stats.ComputeStats(rows);
    s := Rounded(raw);
  }

  /**
   * The profile statistics keep the counter identity, keep the win rate in
   * [0, 1] after rounding, and differ from the unrounded ones by at most
   * half a millionth in every real field.
   */
  lemma RoundedStatsFacts(rows: seq<Stats.Row>)
    ensures var s := Rounded(Stats.SummaryOf(rows));
      var t := Stats.SummaryOf(rows);
      && s.betsTotal == s.wins + s.losses + s.pending
      && 0.0 <= s.winrate <= 1.0
      && (s.wins + s.losses == 0 ==> s.winrate == 0.0)
      && t.roi - 0.0000005 <= s.roi <= t.roi + 0.0000005
      && t.avgOdds - 0.0000005 <= s.avgOdds <= t.avgOdds + 0.0000005
  {
    Stats.SummaryFacts(rows);
    var t := Stats.SummaryOf(rows);
    assert SixDecimals(0.0) && SixDecimals(1.0) by {
      assert 1.0 * Micro == 1000000.0;
    }
    ToFixed6Within(t.winrate, 0.0, 1.0);
  }
}
