# Allvision Terminal, modelled in Dafny

Allvision Terminal is a betting journal with a social layer. A user opens
bank sessions with an initial bank, places bets on them, settles them and
posts about them. This project models the parts of the Node/Express back
end and the Next.js front end whose behaviour can be stated exactly, and
proves what they promise.

- **The bankroll ledger** (`terminal.controller.js`).
  - `Ledger` gives one pure specification function per handler: create session, add bet, settle, delete bet, close, delete session and recommend. Each returns an HTTP status and the new store.
  - The store keeps sessions, bets and the bets that posts are attached to.
  - `Inv` is the bank identity: `currentBank = initialBank + Σ profit` over the session's settled bets. Every handler preserves it.
  - Placement keeps the pending stakes within the bank, and so does settling.
  - Deleting a settled WIN can break that capacity bound; `Ledger.DeleteBetCanBreakWithinBank` shows it.
  - `TerminalController.Terminal` is the imperative controller. It holds the three tables as fields, and each method is proved to equal its specification function.
- **Three stake recommenders.**
  - The inline `kvantonium v3` formula is `TerminalHelpers`.
  - `recommendation.js` is `RiskAdjusted`.
  - `staking.js` is `Staking`.
  - For each one, the model proves its bounds and monotonicity, and what risk level 1 does.
- **The optimistic cache patches of the terminal** (`terminalApi.js`), as `TerminalPatches`.
- **The analytics folds.**
  - `charts.controller.js` is `Charts`, built on the ordered bucket map of `Buckets`.
  - `charts/calc.js` is `ChartSeries`.
  - `computeStats` and the stats privacy gate are `Stats`. The `parseRange` of `stats.controller.js` has the same code as `parseRangeDays`, so `Charts.ParseRangeDays` models both.
  - The pure helpers of `profile.controller.js` are `Profile`.
- **The social back end.**
  - Follow and block edges, search and profile patching: `Users`.
  - Posts, likes, reposts, comments and the delete cascade: `Posts`.
  - Dialogs, unread counters, edits and deletes: `Messages`.
  - Shared predicates: `Social`.
- **The front-end social cache** (`socialApi.js`), as `SocialCache`.
- **Presence.**
  - The server's online map: `Presence`.
  - The browser's presence store and its listeners: `PresenceStore`.
- **URL helpers.** `toApiUrl` is `BaseUrl`, and `assetUrl` is `AssetUrl`.
- **The auth-redirect rule** of `middleware.js`, as `AuthRedirect`.
- **Shared building blocks** (`Wrappers`, `JsMath`, `Text`, `Seqs`): `Option`, `clamp`, the rounding helpers, string prefixes, and the id formats. The UUID format is the one of section 4.1 of RFC 4122. The public-id alphabet is base64url, from section 5 of RFC 4648.

Handlers with side effects on the database are modelled as methods of a
class whose fields are the tables they change. Each method's
postcondition ties the status it returns and the new tables to a pure
function of the old ones, and the lemmas state what that function keeps.

Where the code and its documentation disagree, the model follows the code:

- The `editMessage` schema rejects an undefined `text`, so the "keep the old text" branch is never reached. Such a request fails validation and answers 500, because the error handler answers `err.status || 500` and validation errors carry no status.
- `canMessage` (messages) and `canMessageByPrivacy` (profile) disagree. With FOLLOWERS, one checks that the sender follows the receiver and the other that the target follows the viewer. An unknown setting is refused by one and allowed by the other. `Messages.CanMessageVersusCard` exhibits both differences.
- The profile card reports a missing `showBets` as false, while the gate treats it as true (`Profile.CardFlagDisagreesWithGate`).
- `profile.controller.js` is not mounted. It imports `db` twice (line 128) and calls an undefined `findUserByPublicId`, so only its pure helpers and gates are modelled.

## Model

| member | source | states |
|---|---|---|
| JsMath.Clamp | backend/src/modules/terminal/terminal.controller.js:52-54 | the result is never below `min`, never above `max` when `min ≤ max`, and equals `x` inside the interval and the nearer end outside it |
| JsMath.RoundHalfUp | backend/src/modules/terminal/staking.js:13 | `Math.round` lands within half a unit of its argument, halves going up |
| JsMath.Round2 | backend/src/modules/terminal/staking.js:13 | rounding to cents moves a value by at most half a cent |
| JsMath.ToFixed6 | backend/src/modules/terminal/recommendation.js:37-38 | six-decimal rounding moves a value by at most 5·10⁻⁷ and keeps its sign |
| JsMath.ToFixed6Within | backend/src/modules/terminal/recommendation.js:37 | rounding to six decimals never leaves an interval whose ends have six decimals |
| JsMath.ToFixed6Monotone | backend/src/modules/terminal/recommendation.js:37 | six-decimal rounding preserves order |
| JsMath.ToFixed6Exact | backend/src/modules/terminal/recommendation.js:37 | a value that already has six decimals is left alone |
| JsMath.FiniteOrNull | frontend/src/shared/lib/api/terminalApi.js:3-6 | a finite number is kept as it is and NaN or Infinity becomes null |
| Text.Trim | backend/src/modules/terminal/terminal.controller.js:19 | the trimmed string is no longer than the input, has no white space at either end, and is empty exactly when the input is all white space |
| Text.IsUuidCaseInsensitive | backend/src/modules/terminal/terminal.controller.js:7-9 | because of the `i` flag, a string and its lower-case spelling are both UUIDs or both not |
| Text.PublicIdPrefix | backend/src/modules/terminal/terminal.controller.js:28-30 | every prefix of an accepted public id that still has at least 8 characters is accepted |
| Staking.OddsFactor | backend/src/modules/terminal/staking.js:21 | the odds multiplier `(odds − 1)/1.5` is clamped into [0.85, 1.10] |
| Staking.SharePct | backend/src/modules/terminal/staking.js:20-24 | for numeric odds the share of the bank always lies between `minPct` 0.25% and `maxPct` 3% |
| Staking.StakeFor | backend/src/modules/terminal/staking.js:26 | the stake is bank × share rounded half-up to cents, so within half a cent of the exact product |
| Staking.CalcRecommendation | backend/src/modules/terminal/staking.js:15-28 | odds that `Number` reads as NaN give a NaN share and stake, and a NaN bank a NaN stake; otherwise the share is in [0.25%, 3%] and the stake is the cent-rounded bank × share; the model name is always `risk_adjusted_v1` |
| Staking.RiskOnePinsCeiling | backend/src/modules/terminal/staking.js:9 | risk 1 is configured as factor 100, so every bo, tier and numeric odds with risk 1 gives the 3% ceiling |
| Staking.PctMonotoneInOdds | backend/src/modules/terminal/staking.js:21-24 | with bo, tier and risk fixed, higher odds never lower the recommended share |
| Staking.MissingKeysFallBack | backend/src/modules/terminal/staking.js:16-18 | a bo, tier or risk absent from `cfg` falls back to factor 1.0 and behaves exactly as bo 3, tier 1, risk 2; nothing is rejected |
| Staking.SameFactorsSameResult | backend/src/modules/terminal/staking.js:16-24 | the result depends on bo, tier and risk only through their factors |
| RiskAdjusted.RiskFactorNonIncreasing | backend/src/modules/terminal/recommendation.js:15-16 | with a risk-1 factor of at least 1.0, a higher risk level never gets a larger factor |
| RiskAdjusted.CorrectedRiskTableMatchesComment | backend/src/modules/terminal/recommendation.js:15 | the corrected risk table runs from 1.2 at risk 1 down to 0.4 at risk 5, as its comment states |
| RiskAdjusted.OddsFactor | backend/src/modules/terminal/recommendation.js:26 | the odds factor `1.08 − (odds − 1)·0.12` is clamped into [0.85, 1.0] |
| RiskAdjusted.SharePct | backend/src/modules/terminal/recommendation.js:28-32 | the product of the 2% base and the four factors is capped into [0.25%, 5%] |
| RiskAdjusted.StakeFor | backend/src/modules/terminal/recommendation.js:34-38 | the stake is bank × share rounded to six decimals, within 5·10⁻⁷ of the exact product |
| RiskAdjusted.CalcRecommendationWith | backend/src/modules/terminal/recommendation.js:1-41 | it returns exactly when bank > 0, odds > 1 and bo, tier, risk are in their tables; otherwise it throws the first failing check's message in source order; a returned share is in [0.25%, 5%], the stake is non-negative and the model is `risk_adjusted_v1` |
| RiskAdjusted.RecommendationFor | backend/src/modules/terminal/recommendation.js:34-40 | the six-decimal rounding keeps the share inside the caps and the stake non-negative |
| RiskAdjusted.ReturnedValues | backend/src/modules/terminal/recommendation.js:32-40 | the returned share and stake are the six-decimal roundings of the clamped share and of bank × share |
| RiskAdjusted.ProductMonotone | backend/src/modules/terminal/recommendation.js:28 | the raw product grows with each of its non-negative factors |
| RiskAdjusted.OutputMonotone | backend/src/modules/terminal/recommendation.js:28-38 | a larger factor product never gives a smaller returned share |
| RiskAdjusted.OddsFactorNonIncreasing | backend/src/modules/terminal/recommendation.js:24-26 | the odds factor never rises with the odds |
| RiskAdjusted.ShareFollowsHeaderComment | backend/src/modules/terminal/recommendation.js:2-4 | higher risk, a weaker tier, a shorter series or higher odds never raise the returned share, for the table as written and for the corrected one |
| RiskAdjusted.RiskOnePinsCap | backend/src/modules/terminal/recommendation.js:16 | as written (risk 1 → factor 5), every valid input with risk 1 returns the 5% cap |
| RiskAdjusted.CorrectedRiskOneBelowCap | backend/src/modules/terminal/recommendation.js:15 | with the commented factor 1.2, risk 1 returns at most 2.52%, below the cap |
| TerminalHelpers.SafeEnum | backend/src/modules/terminal/terminal.controller.js:18-21 | a value is accepted only when its trimmed spelling is in the allowed list, and the accepted value is that trimmed spelling; otherwise null |
| TerminalHelpers.SafeEnumIgnoresPadding | backend/src/modules/terminal/terminal.controller.js:19 | white space of any length before and after the value never changes what `safeEnum` accepts |
| TerminalHelpers.SafeIntEnum | backend/src/modules/terminal/terminal.controller.js:23-26 | a value is accepted exactly when `Number(v)` is an integer listed in `allowed`, and then it is that integer |
| TerminalHelpers.OddsPosition | backend/src/modules/terminal/terminal.controller.js:71-72 | the odds are placed on [0, 1]: 0 at or below 1.2, 1 at or above 3.0 |
| TerminalHelpers.BaseShare | backend/src/modules/terminal/terminal.controller.js:73 | the base share lies between 1.2% and 2.2% for any curve mapping [0, 1] into [0, 1] |
| TerminalHelpers.CalcRecommendation | backend/src/modules/terminal/terminal.controller.js:56-109 | bank ≤ 0 or odds ≤ 1 give share and stake 0; otherwise the share is in [0.1%, 7%] and the stake is share × bank; the model is `kvantonium v3` |
| TerminalHelpers.ClampNeverBinds | backend/src/modules/terminal/terminal.controller.js:96-100 | the [0.1%, 7%] safety clamp never binds: the unclamped product already lies in [0.19%, 2.62%] |
| Ledger.Unlink | backend/src/modules/terminal/terminal.controller.js:750-753 | every post keeps its key; exactly the posts attached to one of the doomed bets lose the attachment, all others keep theirs |
| Ledger.BetsOutside | backend/src/modules/terminal/terminal.controller.js:713 | exactly the bets of other sessions remain, unchanged |
| Ledger.TotalWithoutSession | backend/src/modules/terminal/terminal.controller.js:713 | dropping one session's bets leaves every other session's sums unchanged |
| Ledger.BetsOf | backend/src/modules/terminal/terminal.controller.js:701-704 | the ids are exactly those of the session's bets |
| Ledger.CreateSession | backend/src/modules/terminal/terminal.controller.js:123-143 | 201 exactly when the trimmed title has 1 to 80 characters and `initialBank` is a number > 0; otherwise 400 and nothing changes |
| Ledger.CreateSessionKeepsInv | backend/src/modules/terminal/terminal.controller.js:131-137 | a new session is OPEN, belongs to the caller, has currentBank = initialBank, adds no bets, and the ledger invariant (`currentBank = initialBank + Σ settled profit`) still holds |
| Ledger.ValidateBet | backend/src/modules/terminal/terminal.controller.js:250-272 | the fields pass exactly when game and betType are allowed spellings, tournament and both teams are non-blank, bo, tier and risk are listed integers, odds > 1 and stake > 0; accepted fields carry the caller's odds and stake |
| Ledger.AddBet | backend/src/modules/terminal/terminal.controller.js:227-336 | the answer is one of 201, 400, 404, 409, and every rejection leaves the store unchanged |
| Ledger.PlaceBet | backend/src/modules/terminal/terminal.controller.js:276-291 | 409 exactly when `currentBank − Σ PENDING stakes` is not positive or the stake exceeds it, and then nothing changes |
| Ledger.AddBetRejections | backend/src/modules/terminal/terminal.controller.js:230-272 | rejections come in the controller's order: bad id 400, foreign or missing session 404, non-OPEN session 409 before any field check, invalid field 400, then 409 for no room or a too large stake |
| Ledger.AddBetPlacesWithinBank | backend/src/modules/terminal/terminal.controller.js:276-319 | a placement inserts exactly one new PENDING bet with profit 0 and the caller's stake, changes no other bet, no bank and no post, raises the session's pending sum by the stake, and afterwards Σ PENDING stakes ≤ currentBank |
| Ledger.PlaceBetWithinBank | backend/src/modules/terminal/terminal.controller.js:283-319 | the same facts for the bank check and the insert alone |
| Ledger.AddBetRecommendsOnAvailableBank | backend/src/modules/terminal/terminal.controller.js:293-318 | the stored recommendation is the controller's formula applied to the available bank, with model `kvantonium v3` and a share in [0.1%, 7%] |
| Ledger.AddBetKeepsInv | backend/src/modules/terminal/terminal.controller.js:301-319 | a placement keeps the ledger invariant |
| Ledger.PlaceBetKeepsInv | backend/src/modules/terminal/terminal.controller.js:301-319 | inserting a validated PENDING bet keeps the ledger invariant |
| Ledger.Settle | backend/src/modules/terminal/terminal.controller.js:338-411 | the answer is one of 200, 400, 404, 409, and every rejection leaves the store unchanged |
| Ledger.SettleRejectsClosedOrSettled | backend/src/modules/terminal/terminal.controller.js:369-377 | a bet in a closed session, or one no longer PENDING, answers 409 and changes nothing |
| Ledger.SettleIsNotRepeatable | backend/src/modules/terminal/terminal.controller.js:374-377 | after a successful settle, settling the same bet again changes nothing, whatever the result asked for |
| Ledger.SettleAppliesProfit | backend/src/modules/terminal/terminal.controller.js:379-399 | the bet was PENDING and takes the requested status, profit stake·(odds−1) for WIN or −stake for LOSE, and the settle time; the session's bank rises by exactly that profit; nothing else changes |
| Ledger.SettleKeepsInv | backend/src/modules/terminal/terminal.controller.js:387-399 | settling keeps the ledger invariant |
| Ledger.SettleKeepsWithinBank | backend/src/modules/terminal/terminal.controller.js:379-399 | settling keeps Σ PENDING stakes ≤ currentBank for every session |
| Ledger.SettledKeepsWithinBank | backend/src/modules/terminal/terminal.controller.js:382-399 | settling a pending bet frees its stake and moves the bank by no less than minus that stake |
| Ledger.DeleteBet | backend/src/modules/terminal/terminal.controller.js:724-763 | the answer is 200, 400 or 404, and every rejection leaves the store unchanged |
| Ledger.DeleteBetReversesProfit | backend/src/modules/terminal/terminal.controller.js:743-755 | only that bet is removed; a WIN or LOSE bet's profit is taken back out of its session's bank, a PENDING bet leaves the bank alone; no session changes status; exactly the posts attached to the bet lose the attachment |
| Ledger.DeleteBetIgnoresSessionStatus | backend/src/modules/terminal/terminal.controller.js:730-741 | an owned bet is deleted whether its session is OPEN or CLOSED |
| Ledger.DeleteBetKeepsInv | backend/src/modules/terminal/terminal.controller.js:743-755 | deleting a bet keeps the ledger invariant |
| Ledger.DeleteBetCanBreakWithinBank | backend/src/modules/terminal/terminal.controller.js:743-747 | there is a store where deleting a won bet leaves pending stakes above the bank, so the placement rule is not an invariant of the ledger |
| Ledger.SettleThenDeleteRestoresBank | backend/src/modules/terminal/terminal.controller.js:743-747 | settling a bet and then deleting it puts the session's bank back where it was and removes only the bet |
| Ledger.CloseSession | backend/src/modules/terminal/terminal.controller.js:671-690 | the answer is 200, 400, 404 or 409, and every rejection leaves the store unchanged |
| Ledger.CloseSessionOnce | backend/src/modules/terminal/terminal.controller.js:680-682 | a session moves from OPEN to CLOSED once with its bank and bets unchanged; a second close answers 409 and changes nothing |
| Ledger.CloseSessionKeepsInv | backend/src/modules/terminal/terminal.controller.js:682 | closing keeps the ledger invariant |
| Ledger.DeleteSession | backend/src/modules/terminal/terminal.controller.js:692-722 | the answer is 200, 400 or 404, and every rejection leaves the store unchanged |
| Ledger.DeleteSessionRemovesItsBets | backend/src/modules/terminal/terminal.controller.js:701-714 | the session and exactly its bets are removed, other bets are unchanged, and exactly the posts pointing at one of those bets lose their attachment |
| Ledger.DeleteSessionKeepsInv | backend/src/modules/terminal/terminal.controller.js:701-714 | deleting a session keeps the ledger invariant |
| Ledger.RecommendBet | backend/src/modules/terminal/terminal.controller.js:876-915 | the answer is 200, 400, 404 or 409, and a recommendation is present exactly on 200 |
| Ledger.RecommendBetUsesAvailableBank | backend/src/modules/terminal/terminal.controller.js:886-904 | the bank used is `currentBank − Σ PENDING stakes`; 409 when it is not positive; on 200 the share is in [0.1%, 7%] and the stake is share × bank; the session's status is not consulted |
| TerminalController.SumPendingStakes | backend/src/modules/terminal/terminal.controller.js:276-279 | the loop over the bets returns exactly the sum of the session's PENDING stakes |
| TerminalController.Terminal.constructor | backend/src/modules/terminal/terminal.controller.js:1 | the tables start empty and satisfy the ledger invariant |
| TerminalController.Terminal.CreateSession | backend/src/modules/terminal/terminal.controller.js:123-143 | the code and the new tables are those of `Ledger.CreateSession`, and the ledger invariant is kept |
| TerminalController.Terminal.AddBetToSession | backend/src/modules/terminal/terminal.controller.js:227-336 | the code and the new tables are those of `Ledger.AddBet`, and the ledger invariant is kept |
| TerminalController.Terminal.Place | backend/src/modules/terminal/terminal.controller.js:276-319 | the pending-sum loop, the bank check and the insert give the code and tables of `Ledger.PlaceBet`, keeping the invariant |
| TerminalController.Terminal.SettleBet | backend/src/modules/terminal/terminal.controller.js:338-411 | the code and the new tables are those of `Ledger.Settle`, and the ledger invariant is kept |
| TerminalController.Terminal.Apply | backend/src/modules/terminal/terminal.controller.js:387-399 | the bet update and the session update produce exactly `Ledger.Settled` |
| TerminalController.Terminal.DeleteBet | backend/src/modules/terminal/terminal.controller.js:724-763 | the code and the new tables are those of `Ledger.DeleteBet`, and the ledger invariant is kept |
| TerminalController.Terminal.CloseSession | backend/src/modules/terminal/terminal.controller.js:671-690 | the code and the new tables are those of `Ledger.CloseSession`, and the ledger invariant is kept |
| TerminalController.Terminal.DeleteSession | backend/src/modules/terminal/terminal.controller.js:692-722 | the code and the new tables are those of `Ledger.DeleteSession`, and the ledger invariant is kept |
| TerminalController.Terminal.RecommendBet | backend/src/modules/terminal/terminal.controller.js:876-915 | the answer, computed with a loop over the bets, is `Ledger.RecommendBet` of the current tables, which it does not change |
| TerminalPatches.FirstIndex | frontend/src/shared/lib/api/terminalApi.js:196 | the index is that of the first bet with the id, or −1 exactly when no bet has it |
| TerminalPatches.FindBet | frontend/src/shared/lib/api/terminalApi.js:196 | the search loop returns `FirstIndex` |
| TerminalPatches.FirstIndexIsFirstMatch | frontend/src/shared/lib/api/terminalApi.js:129 | a matching index with no earlier match is the one `find`/`findIndex` reports |
| TerminalPatches.PatchProfit | frontend/src/shared/lib/api/terminalApi.js:137-143 | a profit exists exactly when the stake is numeric and the result is LOSE, or WIN with numeric odds; it is −stake or stake·(odds−1) |
| TerminalPatches.SettleDraft | frontend/src/shared/lib/api/terminalApi.js:124-151 | the patch keeps the session's status and the number of bets, and leaves a non-array list alone |
| TerminalPatches.SettleDraftSkipsSettled | frontend/src/shared/lib/api/terminalApi.js:129-132 | a missing bet, or one already WIN or LOSE, is left exactly as it was |
| TerminalPatches.SettleDraftTouchesOnlyMatch | frontend/src/shared/lib/api/terminalApi.js:129-150 | only the first bet with the id changes |
| TerminalPatches.SettleDraftApplies | frontend/src/shared/lib/api/terminalApi.js:134-149 | a pending bet always gets the result and the time; with a defined profit, the profit is stored in cents and a numeric bank moves by it, rounded to cents; otherwise profit and bank stay |
| TerminalPatches.SettleDraftIgnoresSessionStatus | frontend/src/shared/lib/api/terminalApi.js:124-151 | unlike the server, the patch never consults the session's status |
| TerminalPatches.DeleteDraft | frontend/src/shared/lib/api/terminalApi.js:191-199 | the delete patch keeps the status and the bank, and the list stays an array exactly when it was one |
| TerminalPatches.DeleteDraftRemovesFirst | frontend/src/shared/lib/api/terminalApi.js:196-198 | exactly the first bet with the id is removed, the rest keep their order, nothing changes when no bet matches, and the bank is never adjusted |
| TerminalPatches.SettleThenDeleteKeepsLossInDraft | frontend/src/shared/lib/api/terminalApi.js:142-148 | a lost stake of 10 on a bank of 100 stays out of the cached bank after the bet is deleted (bank 90), where the server restores 100 |
| TerminalPatches.CachedSession.constructor | frontend/src/shared/lib/api/terminalApi.js:124-126 | the cached session starts as the given draft |
| TerminalPatches.CachedSession.SettlePatch | frontend/src/shared/lib/api/terminalApi.js:124-151 | the in-place recipe leaves the cache equal to `SettleDraft` of the old cache |
| TerminalPatches.CachedSession.DeletePatch | frontend/src/shared/lib/api/terminalApi.js:191-199 | the in-place recipe leaves the cache equal to `DeleteDraft` of the old cache |
| Charts.ParseRangeDays | backend/src/modules/charts/charts.controller.js:7-13 | a day count exactly for '7d', '30d' and '90d', and it is one of 7, 30, 90 |
| Charts.ParseRangeDaysValues | backend/src/modules/charts/charts.controller.js:7-13 | '7d', '30d', '90d' give 7, 30, 90; a missing range and 'all' give none |
| Charts.ChartStart | backend/src/modules/charts/charts.controller.js:125-143 | 404 for a named session the caller does not own, 400 for a malformed session id or for mode 'session' without a session; the mode defaults to 'session' with a session and 'total' without; the start is the session's bank in 'session' mode and the sum of all banks otherwise |
| Charts.RunningBanks | backend/src/modules/charts/charts.controller.js:145-151 | the bank after bet i is the start plus the profits of bets 0..i |
| Charts.EquityBuckets | backend/src/modules/charts/charts.controller.js:145-157 | the buckets are those the map ends with when each bet replaces its bucket's value with the running bank |
| Charts.EquityBucketIsLastBank | backend/src/modules/charts/charts.controller.js:147-157 | every bucket holds the bank right after its last bet, and no later bet falls in that bucket |
| Charts.ProfitBuckets | backend/src/modules/charts/charts.controller.js:183-199 | 'period' adds each profit (rounded) into its bucket; any other mode stores the running total in the bucket of the latest bet |
| Charts.RunAddRoundedIsSum | backend/src/modules/charts/charts.controller.js:192-193 | with profits of six decimals at most, rounding each partial sum loses nothing: the result is the exact sum |
| Charts.PeriodProfitIsBucketSum | backend/src/modules/charts/charts.controller.js:191-194 | in 'period' mode a bucket's value is the sum of exactly the profits of its own bets |
| Charts.DeviationMeaning | backend/src/modules/charts/charts.controller.js:251-254 | the deviation is stake minus recommendation; its share times the recommendation is that deviation; with no positive recommendation the share is 0; staking the recommendation gives 0 and twice it gives 1 |
| Charts.PointOf | backend/src/modules/charts/charts.controller.js:226-239 | the point is keyed by the bet's time and has share 0 without a positive recommendation |
| Charts.DeviationPoints | backend/src/modules/charts/charts.controller.js:225-243 | 'bet' mode: one point per bet, in order, each that bet's point |
| Charts.DeviationNext | backend/src/modules/charts/charts.controller.js:247-261 | one loop step extends the fold by bet i |
| Charts.DeviationBuckets | backend/src/modules/charts/charts.controller.js:245-261 | the 'avg' buckets are the fold of the bets' deviations into their buckets |
| Charts.RunAddDeviation | backend/src/modules/charts/charts.controller.js:256-260 | folding deviations into one bucket counts them and sums both deviations |
| Charts.DeviationBucketCounts | backend/src/modules/charts/charts.controller.js:256-268 | each bucket's n is the number of its bets (at least one, so the average never divides by 0) and its sums run over exactly those bets |
| Charts.AveragePointIsMean | backend/src/modules/charts/charts.controller.js:263-268 | each 'avg' point carries its bucket key, the number of its bets (never 0) and the means of exactly their relative and absolute deviations, to six decimals |
| Charts.WindowOf | backend/src/modules/charts/charts.controller.js:286 | a numeric window is clamped into [2, 200] and one already inside is kept |
| Charts.SumOfBits | backend/src/modules/charts/charts.controller.js:299 | the sum of 0/1 results lies between 0 and their count |
| Charts.RollingLength | backend/src/modules/charts/charts.controller.js:296-297 | after bet i the buffer holds between 1 and i + 1 results |
| Charts.RollingLengthIsMin | backend/src/modules/charts/charts.controller.js:296-297 | the buffer holds min(i + 1, floor(window)) results; a NaN window never shifts |
| Charts.WinShareWithin | backend/src/modules/charts/charts.controller.js:299 | the share of wins among 0/1 results lies in [0, 1] |
| Charts.Buffer | backend/src/modules/charts/charts.controller.js:292-297 | the buffer after n bets is empty for n = 0 and otherwise holds RollingLength results |
| Charts.BufferStep | backend/src/modules/charts/charts.controller.js:296-297 | one push and at most one shift turn the buffer before bet i into the one after it |
| Charts.RollingPointMeaning | backend/src/modules/charts/charts.controller.js:290-301 | point i is keyed by bet i's time, counts the last min(i + 1, window) results and holds their share of wins, in [0, 1] |
| Charts.RollingAtShape | backend/src/modules/charts/charts.controller.js:299-300 | point i is keyed by its time and averages the last n results |
| Charts.RollingAtWithin | backend/src/modules/charts/charts.controller.js:299 | every rolling winrate lies in [0, 1] |
| Charts.RollingStep | backend/src/modules/charts/charts.controller.js:294-301 | the loop step turns the buffer and points before bet i into those after it |
| Charts.RollingNext | backend/src/modules/charts/charts.controller.js:294-301 | one loop step keeps the buffer and points equal to their specification |
| Charts.RollingWinrate | backend/src/modules/charts/charts.controller.js:290-304 | 'rolling' mode: exactly one point per bet, each point as specified |
| Charts.Rate | backend/src/modules/charts/charts.controller.js:315-316 | the winrate lies in [0, 1] and is 0 without bets |
| Charts.WinCountBound | backend/src/modules/charts/charts.controller.js:314 | wins never exceed the number of bets |
| Charts.WinPointOf | backend/src/modules/charts/charts.controller.js:316-317 | the point carries the counts it is given and a rate in [0, 1] |
| Charts.CumulativePoints | backend/src/modules/charts/charts.controller.js:313-317 | the point after bet i counts the wins and losses of bets 0..i |
| Charts.CumulativeStep | backend/src/modules/charts/charts.controller.js:313-317 | a 'cumulative' step stores the counts so far in bet i's bucket |
| Charts.PeriodStep | backend/src/modules/charts/charts.controller.js:319-324 | a 'period' step counts one more win or loss in bet i's bucket |
| Charts.WinrateNext | backend/src/modules/charts/charts.controller.js:309-326 | one loop step keeps the running counts (wins + losses = bets seen) and the buckets equal to their fold |
| Charts.WinrateBuckets | backend/src/modules/charts/charts.controller.js:306-326 | 'cumulative' stores the running counts in the latest bet's bucket; every other mode counts wins and losses per bucket |
| Charts.CumulativeBucketCounts | backend/src/modules/charts/charts.controller.js:313-317 | a 'cumulative' bucket counts every bet up to its last one, with a rate in [0, 1] |
| Charts.RunCountOutcome | backend/src/modules/charts/charts.controller.js:320-323 | counting results into one bucket gives the number of wins and of losses |
| Charts.PeriodBucketCounts | backend/src/modules/charts/charts.controller.js:319-324 | a 'period' bucket's wins are the wins among its own bets, wins + losses is its size, the rate in [0, 1] |
| Charts.Peak | backend/src/modules/charts/charts.controller.js:350-357 | the peak is at least the start and at least the current bank |
| Charts.PeakMonotone | backend/src/modules/charts/charts.controller.js:357 | the peak never decreases from one bet to the next |
| Charts.DrawdownOf | backend/src/modules/charts/charts.controller.js:359-368 | with the bank at or below the peak, both drawdowns are at most zero |
| Charts.DrawdownPointsAt | backend/src/modules/charts/charts.controller.js:353-370 | one point per bet; point i is the drawdown after bets 0..i |
| Charts.DrawdownStep | backend/src/modules/charts/charts.controller.js:355-357 | the loop step moves the bank by the profit and raises the peak to it when above |
| Charts.DrawdownNext | backend/src/modules/charts/charts.controller.js:354-370 | one loop step keeps bank, peak and buckets equal to their specification |
| Charts.DrawdownBuckets | backend/src/modules/charts/charts.controller.js:350-370 | the buckets are the fold of the drawdown points into their buckets, the latest winning |
| Charts.DrawdownSeries | backend/src/modules/charts/charts.controller.js:350-370 | along the bets the peak never falls and never lies below the bank, so every drawdown is at most zero and peaks only rise |
| Buckets.OrderedMap.Get | backend/src/modules/charts/charts.controller.js:192 | a value exactly for a present key, and it is that key's value |
| Buckets.OrderedMap.Put | backend/src/modules/charts/charts.controller.js:154 | sets the key's value; a present key keeps its place, a new key goes last; distinct keys stay distinct |
| Buckets.OrderedMap.Values | backend/src/modules/charts/charts.controller.js:157 | one value per key, in key order |
| Buckets.FoldKeys | backend/src/modules/charts/charts.controller.js:148-157 | folding the bets yields distinct keys, and a bucket exactly for each key some bet has |
| Buckets.FoldStep | backend/src/modules/charts/charts.controller.js:149-155 | one loop step sets bet i's bucket from its previous value |
| Buckets.FoldIsRunPerKey | backend/src/modules/charts/charts.controller.js:183-199 | a bucket's value is the fold of exactly its own bets, in order |
| Buckets.Count | backend/src/modules/charts/charts.controller.js:256-257 | the count of a key is 0 exactly when the key is absent |
| Buckets.SelectCount | backend/src/modules/charts/charts.controller.js:256-257 | a bucket holds as many bets as its key occurs |
| Buckets.SelectFrom | backend/src/modules/charts/charts.controller.js:183-199 | a bucket holds only values of the bets |
| Buckets.LastIndex | backend/src/modules/charts/charts.controller.js:154 | the index of the key's last occurrence, after which it does not recur |
| Buckets.SelectLast | backend/src/modules/charts/charts.controller.js:154 | the last value of a bucket is the value of its last bet |
| Buckets.RunReplaceIsLast | backend/src/modules/charts/charts.controller.js:154 | replacing the value at each step leaves the last one |
| Buckets.FoldReplaceKeepsLast | backend/src/modules/charts/charts.controller.js:147-157 | when each bet replaces its bucket's value, every bucket holds the value of its last bet |
| ChartSeries.InsertKeepsOrder | frontend/src/shared/lib/charts/calc.js:22 | inserting a bet into a list ordered by sort key keeps it ordered |
| ChartSeries.InsertKeepsBets | frontend/src/shared/lib/charts/calc.js:22 | inserting a bet adds exactly that bet to the list |
| ChartSeries.SortByKeySorts | frontend/src/shared/lib/charts/calc.js:7-22 | the sorted list is ordered by `createdAt ?? settledAt ?? 0` and is a permutation of the bets |
| ChartSeries.UnsettledAddsNothing | frontend/src/shared/lib/charts/calc.js:11-39 | a bet that is neither WIN nor LOSE moves neither the bank nor the cumulative profit |
| ChartSeries.PendingAddsNothing | frontend/src/shared/lib/charts/calc.js:32-42 | after an unsettled bet the cumulative profit equals the one before it |
| ChartSeries.WalkBets | frontend/src/shared/lib/charts/calc.js:24-49 | one point per bet in each series; point i of profit is the cumulative settled profit of bets 0..i, of equity the start plus that, and the stake series hold each bet's stake and recommendation, null when not finite |
| ChartSeries.RunningPeak | frontend/src/shared/lib/charts/calc.js:52-54 | the running peak is at least the current equity value |
| ChartSeries.DrawdownSeries | frontend/src/shared/lib/charts/calc.js:52-57 | one drawdown point per equity point, each the drawdown below the running peak |
| ChartSeries.RunningPeakMonotone | frontend/src/shared/lib/charts/calc.js:54 | the running peak never decreases |
| ChartSeries.RunningPeakIsMax | frontend/src/shared/lib/charts/calc.js:52-54 | the running peak is the largest equity value so far and is attained by one of them |
| ChartSeries.DrawdownPctBounds | frontend/src/shared/lib/charts/calc.js:55 | below the peak the drawdown is at least 0 percent, and at most 100 percent while equity is not negative |
| ChartSeries.BuildSeries | frontend/src/shared/lib/charts/calc.js:20-67 | the series describe the bets walked in key order from the start bank, one point per bet, and `betsCount` is the number of bets |
| ChartSeries.BuildSessionSeries | frontend/src/shared/lib/charts/calc.js:20-68 | the series of the session's `initialBank` (0 when not finite) and its `Bets` or else `bets` list |
| ChartSeries.TotalStartSkipsNonNumeric | frontend/src/shared/lib/charts/calc.js:71 | a session whose bank is not a finite number adds nothing to the total start |
| ChartSeries.BuildTotalSeries | frontend/src/shared/lib/charts/calc.js:70-106 | the series of the summed banks and the given bets (none when missing), without `betsCount` |
| ChartSeries.EquityIsStartPlusProfit | frontend/src/shared/lib/charts/calc.js:37-42 | every equity point is the start bank plus the cumulative profit at the same x |
| ChartSeries.PendingPointIsFlat | frontend/src/shared/lib/charts/calc.js:35-42 | an unsettled bet repeats the previous equity and profit values |
| ChartSeries.SeriesDrawdownBounds | frontend/src/shared/lib/charts/calc.js:52-57 | peaks only rise along the series; every drawdown is at least 0 percent, and at most 100 while equity is not negative |
| Stats.Count | backend/src/modules/stats/stats.controller.js:59-74 | a count never exceeds the number of rows |
| Stats.Latest | backend/src/modules/stats/stats.controller.js:67-70 | `updatedAt` is null exactly when there are no rows |
| Stats.Tally | backend/src/modules/stats/stats.controller.js:69-87 | one loop step turns the totals of rows 0..i-1 into those of rows 0..i |
| Stats.ComputeStats | backend/src/modules/stats/stats.controller.js:58-107 | the loop's result is the summary of the selected rows |
| Stats.StatusPartition | backend/src/modules/stats/stats.controller.js:58-74 | every row is exactly one of win, loss and pending (any other status is pending), so the three counts add up to betsTotal |
| Stats.SumIfPositive | backend/src/modules/stats/stats.controller.js:82-86 | summing only positive values gives a non-negative sum, positive when any row was counted |
| Stats.SummaryFacts | backend/src/modules/stats/stats.controller.js:58-106 | wins + losses + pending = betsTotal; the winrate lies in [0, 1] and is 0 with nothing settled; the ROI is 0 unless some stake is positive; the odds and risk averages are positive exactly when some row has a positive value, and 0 otherwise |
| Stats.ShareWithin | backend/src/modules/stats/stats.controller.js:89 | wins / (wins + losses), 0 when both are 0, lies in [0, 1] |
| Stats.AverageOfPositives | backend/src/modules/stats/stats.controller.js:82-92 | an average of positive values is positive exactly when some row has such a value |
| Stats.AveragePositive | backend/src/modules/stats/stats.controller.js:91-92 | `n ? sum / n : 0` is positive exactly when n and the sum are |
| Stats.CountPositive | backend/src/modules/stats/stats.controller.js:83-86 | a count is positive exactly when some row satisfies the predicate |
| Stats.LatestIsMax | backend/src/modules/stats/stats.controller.js:67-70 | `updatedAt` is the largest `createdAt` and belongs to one of the rows |
| Stats.UserStatsGate | backend/src/modules/stats/stats.controller.js:120-150 | stats are computed exactly when every check passes: 400 for a malformed public id or session id, 404 for an unknown user, a block either way or a session not the owner's, 403 for hidden stats |
| Stats.UserStatsGateDecides | backend/src/modules/stats/stats.controller.js:132-150 | a block in either direction gives 404; hidden stats give 403 to everyone but the owner and never to the owner; a session not the owner's gives 404; a query that passes is about that owner and that session |
| Profile.AllowMessagesOf | backend/src/modules/profile/profile.controller.js:79 | a missing or empty setting reads as 'ALL'; any other value is kept as it is |
| Profile.CanMessageByPrivacyCases | backend/src/modules/profile/profile.controller.js:39-46 | the owner may always write; otherwise 'NONE' forbids, 'FOLLOWERS' needs the owner to follow the viewer, 'MUTUAL' needs both directions, and 'ALL' or any other value allows |
| Profile.CanMessageByPrivacyOrdered | backend/src/modules/profile/profile.controller.js:39-46 | a stricter setting never allows more: NONE, MUTUAL, FOLLOWERS, ALL from strict to open |
| Profile.RelationshipOf | backend/src/modules/profile/profile.controller.js:67-85 | isMutual exactly when both follow each other; the owner can always message; with no setting, mutual followers can message |
| Profile.ViewGate | backend/src/modules/profile/profile.controller.js:155-164 | 404 exactly when either user blocked the other; 403 exactly when not blocked, the flag is false and the viewer is not the owner; 200 otherwise |
| Profile.ViewGateDefaults | backend/src/modules/profile/profile.controller.js:161-162 | the owner always passes, and anyone passes when the flag is unset (it defaults to true) |
| Profile.CardFlagDisagreesWithGate | backend/src/modules/profile/profile.controller.js:109 | the card reports a missing showBets as false while the bets view lets every viewer through |
| Profile.Rounded | backend/src/modules/profile/profile.controller.js:303-315 | the counters and `updatedAt` are returned unrounded |
| Profile.ComputeStats | backend/src/modules/profile/profile.controller.js:245-316 | the same summary as the stats loop, each real field rounded to six decimals |
| Profile.RoundedStatsFacts | backend/src/modules/profile/profile.controller.js:270-315 | wins + losses + pending = betsTotal; the rounded winrate stays in [0, 1] and is 0 with nothing settled; ROI and average odds move by at most half a millionth |
| Users.FindTarget | backend/src/modules/users/users.controller.js:142-146 | the target is found exactly for a well-formed public id that names a user, and is that user; otherwise 400 or 404 |
| Users.Follow | backend/src/modules/users/users.controller.js:140-166 | 201 exactly for a found target other than the caller, adding only the caller-to-target follow edge; 409 for oneself and 403 when either user blocked the other, both changing nothing |
| Users.FollowIdempotent | backend/src/modules/users/users.controller.js:152-155 | following twice is following once: `findOrCreate` adds no second edge |
| Users.Unfollow | backend/src/modules/users/users.controller.js:168-182 | 200 exactly for a found target, removing only the caller-to-target follow edge; otherwise nothing changes |
| Users.UnfollowKeepsReverse | backend/src/modules/users/users.controller.js:176-178 | the target's follow of the caller survives an unfollow |
| Users.Block | backend/src/modules/users/users.controller.js:299-325 | 201 exactly for a found target other than the caller: adds the caller-to-target block edge and removes the follow edges in both directions; 409 for oneself; nothing changes on a rejection |
| Users.BlockSeparates | backend/src/modules/users/users.controller.js:308-321 | after a block neither user follows the other and neither can follow the other again: both attempts answer 403 and change nothing |
| Users.BlockIdempotent | backend/src/modules/users/users.controller.js:308-321 | blocking twice is blocking once |
| Users.Unblock | backend/src/modules/users/users.controller.js:327-341 | 200 exactly for a found target, removing only the caller-to-target block edge |
| Users.UnblockKeepsTheirs | backend/src/modules/users/users.controller.js:335-337 | a block the target placed on the caller stays, so the two remain blocked |
| Users.MetaCounts | backend/src/modules/users/users.controller.js:127-135 | both counts are null when showFollowers is false, even for the owner, and reported otherwise (unset counts as true) |
| Users.ListGate | backend/src/modules/users/users.controller.js:184-198 | 403 exactly when the target is found, not blocked either way, hides its followers and is not the caller; the owner always passes when not blocked |
| Users.OwnerSeesListsNotCounts | backend/src/modules/users/users.controller.js:128-135 | an owner who hides followers may read the lists but the profile shows null counts |
| Users.BlockedIdsMeaning | backend/src/modules/users/users.controller.js:285-291 | an id is in the blocked set exactly when a blacklist row links it with the caller in either direction |
| Users.Unblocked | backend/src/modules/users/users.controller.js:293 | the filter never grows the list |
| Users.UnblockedMembers | backend/src/modules/users/users.controller.js:293 | a candidate survives the filter exactly when it is a candidate whose id is not blocked |
| Users.UnblockedKeepsOrder | backend/src/modules/users/users.controller.js:293 | the filter keeps the candidates' order: it distributes over concatenation |
| Users.SearchUsers | backend/src/modules/users/users.controller.js:254-296 | an empty trimmed query returns no users; otherwise the candidates minus every blocked id, in order |
| Users.SearchUsersMeaning | backend/src/modules/users/users.controller.js:273-293 | a search result holds exactly the candidates with no blacklist row towards or from the caller |
| Users.Patched | backend/src/modules/users/users.controller.js:70-73 | an undefined field keeps the old value, an explicit null clears it, a value replaces it |
| Users.PatchedIdempotent | backend/src/modules/users/users.controller.js:70-73 | applying the same patch twice is applying it once |
| Users.Community.FollowByPublicId | backend/src/modules/users/users.controller.js:140-166 | the code and new graph are those of Follow; profiles are unchanged |
| Users.Community.UnfollowByPublicId | backend/src/modules/users/users.controller.js:168-182 | the code and new graph are those of Unfollow; profiles are unchanged |
| Users.Community.BlockByPublicId | backend/src/modules/users/users.controller.js:299-325 | the code and new graph are those of Block; profiles are unchanged |
| Users.Community.UnblockByPublicId | backend/src/modules/users/users.controller.js:327-341 | the code and new graph are those of Unblock; profiles are unchanged |
| Users.Community.UpdateMyProfile | backend/src/modules/users/users.controller.js:63-82 | 200 exactly when the bio has at most 280 characters, the avatar is a URL and the caller exists; then each field is patched; otherwise nothing changes (a schema failure is a 500) |
| Social.BlockedEitherWaySymmetric | backend/src/modules/users/users.controller.js:30-40 | the blacklist test is symmetric: a row in either direction blocks both ways |
| Social.VisibleCases | backend/src/modules/users/users.controller.js:195-196 | a view is hidden exactly when its flag is false and the viewer is not the owner; an unset flag and the owner always see it |
| Posts.BaseOf | backend/src/modules/posts/posts.controller.js:239-240 | a plain post is its own base; a repost's base is the original it names; the base's author is that post's author |
| Posts.LikePost | backend/src/modules/posts/posts.controller.js:231-260 | 201 exactly for a well-formed id of a post whose base exists and whose base author is not blocked either way; the like is recorded on the base post; nothing changes otherwise |
| Posts.LikeGoesToBase | backend/src/modules/posts/posts.controller.js:239-248 | liking a repost is liking its original, and liking twice leaves one like |
| Posts.UnlikePost | backend/src/modules/posts/posts.controller.js:262-275 | 200 exactly for a well-formed id of an existing post; only the caller's like of the base goes, and there is no blacklist check |
| Posts.LikeThenUnlike | backend/src/modules/posts/posts.controller.js:245-272 | a like followed by an unlike through the same post leaves the likes as they were, minus the caller's like of the base |
| Posts.AddComment | backend/src/modules/posts/posts.controller.js:277-313 | 201 exactly for a well-formed id, a body of 1 to 2000 characters, an existing base and no block either way; the comment is stored on the base post; nothing changes otherwise |
| Posts.RepostPost | backend/src/modules/posts/posts.controller.js:84-136 | 201 exactly when the original exists, neither user blocked the other and the caller has no repost of it yet; 409 for a second repost; the new row is a REPOST naming the original |
| Posts.RepostKeepsUnique | backend/src/modules/posts/posts.controller.js:98-102 | no user ever holds two reposts of the same original, and repeating a repost answers 409 |
| Posts.CreatePost | backend/src/modules/posts/posts.controller.js:50-82 | an attached bet must exist (else 404) and belong to the author (else 403); on success exactly one plain post with that text and bet is added |
| Posts.Unshare | backend/src/modules/posts/posts.controller.js:494-498 | every message keeps its entry; exactly those sharing a deleted post lose the link |
| Posts.DeletePost | backend/src/modules/posts/posts.controller.js:473-533 | only the author may delete (403 otherwise); a POST runs the full cascade, a REPOST removes only its row and its message links |
| Posts.CascadePostClears | backend/src/modules/posts/posts.controller.js:486-517 | the post and its reposts are gone, with every like, comment and LIKE/COMMENT/REPOST notification of it, and no message shares it or a repost of it; all other posts and likes stay |
| Posts.CascadeRepostKeepsOriginal | backend/src/modules/posts/posts.controller.js:519-524 | deleting a repost leaves the original, all likes, comments and notifications untouched and unlinks messages from it |
| Posts.DeletePostKeepsUnique | backend/src/modules/posts/posts.controller.js:473-533 | deleting keeps reposts unique |
| Posts.DeleteComment | backend/src/modules/posts/posts.controller.js:535-561 | 200 only for a comment on the base of the given post whose author or base author is the caller, removing just that comment; the comment's author may always delete it |
| Posts.FeedAuthors | backend/src/modules/posts/posts.controller.js:145-153 | the 'following' feed covers the viewer and exactly the users the viewer follows |
| Posts.Filter | backend/src/modules/posts/posts.controller.js:174-181 | the filter never grows the list |
| Posts.FilterMembers | backend/src/modules/posts/posts.controller.js:174-181 | a filter keeps exactly the posts that pass |
| Posts.FilterFeed | backend/src/modules/posts/posts.controller.js:174-181 | the feed loop keeps the posts that pass the two blacklist tests, in order |
| Posts.FilterWall | backend/src/modules/posts/posts.controller.js:446-453 | the wall loop drops only reposts whose original author is blocked either way |
| Posts.FeedHidesBlocked | backend/src/modules/posts/posts.controller.js:176-180 | no post in the feed has a poster or, for a repost, an original author blocked either way |
| Posts.Wall.Publish | backend/src/modules/posts/posts.controller.js:50-82 | the code and new tables are those of CreatePost |
| Posts.Wall.Share | backend/src/modules/posts/posts.controller.js:84-136 | the code and new tables are those of RepostPost |
| Posts.Wall.PutLike | backend/src/modules/posts/posts.controller.js:231-260 | the code and new tables are those of LikePost |
| Posts.Wall.TakeLike | backend/src/modules/posts/posts.controller.js:262-275 | the code and new tables are those of UnlikePost |
| Posts.Wall.PutComment | backend/src/modules/posts/posts.controller.js:277-313 | the code and new tables are those of AddComment |
| Posts.Wall.Delete | backend/src/modules/posts/posts.controller.js:473-533 | the code and new tables are those of DeletePost |
| Posts.Wall.RemoveComment | backend/src/modules/posts/posts.controller.js:535-561 | the code and new tables are those of DeleteComment |
| Messages.CanMessageCases | backend/src/modules/messages/messages.controller.js:37-54 | no privacy row allows; otherwise 'ALL' allows, 'FOLLOWERS' needs the sender to follow the receiver, 'MUTUAL' needs both directions, and 'NONE' or any other value forbids |
| Messages.CanMessageVersusCard | backend/src/modules/messages/messages.controller.js:37-54 | the send rule and the profile card's rule agree on a missing setting, 'ALL', 'NONE' and 'MUTUAL'; on 'FOLLOWERS' they look at opposite follow edges, and on an unknown value the card allows what sending forbids |
| Messages.SharedDialog | backend/src/modules/messages/messages.controller.js:56-66 | a dialog found is a listed dialog in which both users have a seat |
| Messages.SharedDialogNone | backend/src/modules/messages/messages.controller.js:58-66 | no dialog is found only when no listed dialog seats both users |
| Messages.SharedDialogComplete | backend/src/modules/messages/messages.controller.js:56-66 | on a valid store a dialog seating both users is always found |
| Messages.StoredText | backend/src/modules/messages/messages.controller.js:105 | the stored text is the trimmed text when that is not blank, and null otherwise |
| Messages.TrimKeepsContent | backend/src/modules/messages/messages.controller.js:9 | trimming keeps a non-blank text non-blank |
| Messages.Send | backend/src/modules/messages/messages.controller.js:77-135 | 201 only for a known receiver other than the sender, no block either way, privacy allowing it and an existing shared post; exactly one message is added, from the sender, with the trimmed text, the shared post and its own creation time (a new dialog's read marks take an earlier clock reading), and it shows something; nothing changes otherwise |
| Messages.OpenedFacts | backend/src/modules/messages/messages.controller.js:68-74 | a new dialog seats exactly the two users with nothing unread, touches no other seat and keeps the store valid |
| Messages.PostedFacts | backend/src/modules/messages/messages.controller.js:102-113 | posting raises only the receiver's counter, by exactly one, and keeps the store valid |
| Messages.SendCounts | backend/src/modules/messages/messages.controller.js:100-113 | after a send both users sit in the message's dialog; the receiver's counter is one more than before (1 in a new dialog, where the sender's is 0) and every other seat is unchanged |
| Messages.SendKeepsValid | backend/src/modules/messages/messages.controller.js:77-135 | sending keeps every seat and message in a listed dialog and every counter non-negative |
| Messages.MarkRead | backend/src/modules/messages/messages.controller.js:229-261 | 200 exactly for a well-formed id of a dialog the caller sits in; only the caller's counter goes to 0 and its read mark to now |
| Messages.MarkReadKeepsValid | backend/src/modules/messages/messages.controller.js:238 | reading keeps the store valid |
| Messages.EditedText | backend/src/modules/messages/messages.controller.js:282 | an undefined text keeps the old one, null clears it, and a string is stored trimmed or as null when blank |
| Messages.Edit | backend/src/modules/messages/messages.controller.js:264-315 | 200 only for the sender, seated in the dialog, and the edit leaves the message showing something; only the text changes; an undefined text fails the schema |
| Messages.EditRules | backend/src/modules/messages/messages.controller.js:276-288 | a non-sender gets 403; clearing the text is refused with 400 unless the message shares a post, in which case the text becomes null |
| Messages.Decremented | backend/src/modules/messages/messages.controller.js:337-341 | a member's counter drops by at most one, never below zero, and the read mark is kept |
| Messages.Uncounted | backend/src/modules/messages/messages.controller.js:334-342 | every member keeps a counter row |
| Messages.DropMessageNotices | backend/src/modules/messages/messages.controller.js:344-347 | exactly the MESSAGE notifications about the given messages go, the rest are unchanged |
| Messages.DeleteMessage | backend/src/modules/messages/messages.controller.js:317-365 | 200 exactly for the sender, seated in the dialog; the message and its MESSAGE notifications go and the counters are adjusted |
| Messages.DeleteMessageCounts | backend/src/modules/messages/messages.controller.js:333-342 | every counter drops by at most one and never goes negative; the sender's seat and other dialogs' seats are unchanged |
| Messages.DeleteFirstMessageOfNewDialog | backend/src/modules/messages/messages.controller.js:333-340 | the first message of a dialog just opened, deleted before it is read, takes the receiver's counter from 1 back to 0 when it was stamped after the dialog's read marks, and leaves it at 1 when both fell on the same millisecond |
| Messages.DeleteDialog | backend/src/modules/messages/messages.controller.js:367-405 | 200 exactly for a well-formed id of a dialog the caller sits in; nothing changes otherwise |
| Messages.DeleteDialogClears | backend/src/modules/messages/messages.controller.js:376-389 | the dialog, its seats, its messages and their MESSAGE notifications are gone; other dialogs' seats and messages stay |
| Messages.Inbox.SendMessage | backend/src/modules/messages/messages.controller.js:77-135 | the code and new tables are those of Send |
| Messages.Inbox.OpenDialog | backend/src/modules/messages/messages.controller.js:68-74 | the new tables are those of Opened |
| Messages.Inbox.Post | backend/src/modules/messages/messages.controller.js:102-113 | the new tables are those of Posted |
| Messages.Inbox.Read | backend/src/modules/messages/messages.controller.js:229-261 | the code and new tables are those of MarkRead |
| Messages.Inbox.EditMessage | backend/src/modules/messages/messages.controller.js:264-315 | the code and new tables are those of Edit |
| Messages.Inbox.Remove | backend/src/modules/messages/messages.controller.js:317-365 | the loop over the dialog's members gives the code and tables of DeleteMessage |
| Messages.Inbox.RemoveDialog | backend/src/modules/messages/messages.controller.js:367-405 | the code and new tables are those of DeleteDialog |
| SocialCache.Truthy | frontend/src/shared/lib/api/socialApi.js:76 | `x \|\| null` keeps a non-empty string and turns the empty string and a missing value into null |
| SocialCache.NormalizePostArg | frontend/src/shared/lib/api/socialApi.js:73-77 | a falsy argument gives two nulls; a string gives that id and no author; an object gives its two fields, each null when falsy |
| SocialCache.Apply | frontend/src/shared/lib/api/socialApi.js:237-242 | like sets meLiked and adds one like; unlike clears meLiked and lowers likes by one but not below 0; comment adds one comment; uncomment lowers a defined count by one but not below 0 and leaves an undefined one; nothing else changes |
| SocialCache.PatchersUndo | frontend/src/shared/lib/api/socialApi.js:237-366 | an unlike after a like gives back the like count (a missing one as 0) and an uncomment after a comment the comment count; neither patch leaves a count below 0 |
| SocialCache.PatchFirstMiss | frontend/src/shared/lib/api/socialApi.js:22-23 | with no item carrying the key nothing changes |
| SocialCache.PatchFirstHit | frontend/src/shared/lib/api/socialApi.js:22-24 | exactly the first item carrying the key is patched |
| SocialCache.PatchFirstIn | frontend/src/shared/lib/api/socialApi.js:22-24 | the `find` and the patch give PatchFirst |
| SocialCache.KeptMeaning | frontend/src/shared/lib/api/socialApi.js:92-97 | an item stays exactly when neither its post id nor its base id is the deleted post |
| SocialCache.KeptIdempotent | frontend/src/shared/lib/api/socialApi.js:92-97 | removing twice removes nothing more |
| SocialCache.KeptFrom | frontend/src/shared/lib/api/socialApi.js:92-97 | the kept items from position i on are item i, unless dropped, then the rest |
| SocialCache.RemoveStepDrop | frontend/src/shared/lib/api/socialApi.js:96 | splicing out a dropped item at i carries the loop invariant from i + 1 to i |
| SocialCache.RemoveStepKeep | frontend/src/shared/lib/api/socialApi.js:92-97 | skipping a kept item at i carries the loop invariant from i + 1 to i |
| SocialCache.RemoveFromItems | frontend/src/shared/lib/api/socialApi.js:89-98 | the backward splice loop leaves exactly the kept items, in their order |
| SocialCache.Patched | frontend/src/shared/lib/api/socialApi.js:10-67 | a cache other than a feed, a search or the named author's wall is left as it is |
| SocialCache.Removed | frontend/src/shared/lib/api/socialApi.js:85-113 | feeds, walls and searches all lose the post; every other cache is left as it is |
| SocialCache.PatchReachesWalls | frontend/src/shared/lib/api/socialApi.js:31-39 | a wall changes only when it belongs to the named author, while a feed holding the same items is always patched |
| SocialCache.ApiCache.PatchPostAcrossCaches | frontend/src/shared/lib/api/socialApi.js:3-71 | every cached query becomes its patched form and nothing else changes |
| SocialCache.ApiCache.RemovePostAcrossCaches | frontend/src/shared/lib/api/socialApi.js:79-117 | every cached query becomes its form without the post |
| SocialCache.ApiCache.LikePost | frontend/src/shared/lib/api/socialApi.js:228-243 | without a post id nothing changes; otherwise every cache gets the like patch |
| SocialCache.ApiCache.UnlikePost | frontend/src/shared/lib/api/socialApi.js:265-280 | without a post id nothing changes; otherwise every cache gets the unlike patch |
| SocialCache.ApiCache.AddComment | frontend/src/shared/lib/api/socialApi.js:312-327 | without a post id nothing changes; otherwise every cache gets the comment patch |
| SocialCache.ApiCache.DeleteComment | frontend/src/shared/lib/api/socialApi.js:347-367 | the first comment with the id leaves the cached first page and every cache gets the uncomment patch |
| SocialCache.ApiCache.DeletePost | frontend/src/shared/lib/api/socialApi.js:382-383 | every cached post list loses the post and its reposts |
| SocialCache.WithoutFirstCounts | frontend/src/shared/lib/api/socialApi.js:352-353 | exactly one copy of the id leaves the page when it is there, and nothing otherwise |
| SocialCache.RemoveComment | frontend/src/shared/lib/api/socialApi.js:352-353 | `findIndex` and `splice` remove the first comment with the id |
| Presence.Digits | backend/src/realtime/presence.js:9 | `String(n)` of a natural number is a non-empty run of decimal digits |
| Presence.DecimalString | backend/src/realtime/presence.js:9 | `String(n)` is never empty and starts with '-' exactly for a negative number |
| Presence.DigitsInjective | backend/src/realtime/presence.js:9 | different natural numbers have different decimal strings |
| Presence.DecimalStringInjective | backend/src/realtime/presence.js:9 | different integers have different decimal strings |
| Presence.KeyForms | backend/src/realtime/presence.js:7-20 | a number id and its decimal string name the same entry, different numbers name different entries, and 0 is ignored while "0" is an ordinary id |
| Presence.Tracker.constructor | backend/src/realtime/presence.js:5 | the online map starts empty |
| Presence.Tracker.SetOnline | backend/src/realtime/presence.js:7-10 | a falsy id changes nothing; otherwise the key gets the new time, keeps its place if known and goes last if new, and every key stays listed once |
| Presence.Tracker.SetOffline | backend/src/realtime/presence.js:12-15 | a falsy id changes nothing; otherwise the key leaves both the map and the order, and every key stays listed once |
| Presence.Tracker.Snapshot | backend/src/realtime/presence.js:22-24 | every online key exactly once, in insertion order |
| Presence.PresenceRoundTrip | backend/src/realtime/presence.js:7-20 | online then offline leaves that user offline and every other user as before; a missing, 0 or empty id is never online |
| PresenceStore.Merge | frontend/src/shared/lib/presence/presenceStore.js:12-14 | the merged record has the fields of both; a field of the new record wins, any other keeps its old value |
| PresenceStore.MergeIdempotent | frontend/src/shared/lib/presence/presenceStore.js:12-14 | merging the same fields again changes nothing, and merging no fields changes nothing |
| PresenceStore.Notified | frontend/src/shared/lib/presence/presenceStore.js:4-8 | after one round every listener told and every listener told before has a count |
| PresenceStore.NotifiedMeaning | frontend/src/shared/lib/presence/presenceStore.js:4-8 | each listener in the round has one call more than before, and every other keeps its count |
| PresenceStore.NotifiedExactly | frontend/src/shared/lib/presence/presenceStore.js:4-8 | any counts with one more call for each listener in the round and no other change are exactly the counts of one round |
| PresenceStore.Store.constructor | frontend/src/shared/lib/presence/presenceStore.js:1-2 | no presence records, no listeners, no calls |
| PresenceStore.Store.Emit | frontend/src/shared/lib/presence/presenceStore.js:4-8 | every current listener is called exactly once; records and listeners stay |
| PresenceStore.Store.SetPresence | frontend/src/shared/lib/presence/presenceStore.js:10-16 | a falsy id changes nothing and tells nobody; otherwise the user's record becomes its merge with the new fields and every listener is called once |
| PresenceStore.Store.GetPresence | frontend/src/shared/lib/presence/presenceStore.js:18-21 | the stored record exactly when the id is truthy and known, nothing otherwise |
| PresenceStore.Store.Subscribe | frontend/src/shared/lib/presence/presenceStore.js:23-24 | the listener joins the set; nothing else changes |
| PresenceStore.Store.Unsubscribe | frontend/src/shared/lib/presence/presenceStore.js:25 | the listener leaves the set; nothing else changes |
| BaseUrl.ApiBase | frontend/src/shared/lib/api/baseUrl.js:1 | the configured origin when set and non-empty, otherwise http://localhost:4000; never empty |
| BaseUrl.ToApiUrl | frontend/src/shared/lib/api/baseUrl.js:3-8 | null exactly for a falsy path; an absolute URL as it is; a path with a leading '/' appended to the base; any other joined to it with one '/' |
| BaseUrl.ToApiUrlAbsolute | frontend/src/shared/lib/api/baseUrl.js:3-8 | with an absolute base every URL built is absolute |
| BaseUrl.ToApiUrlIdempotent | frontend/src/shared/lib/api/baseUrl.js:3-8 | with an absolute base, applying `toApiUrl` to its own result changes nothing; the default base is absolute |
| BaseUrl.RelativeBaseGrows | frontend/src/shared/lib/api/baseUrl.js:3-8 | with the relative base '/api' a second application grows the URL again |
| AssetUrl.AssetUrl | frontend/src/shared/lib/assetUrl.js:1-9 | '' for a falsy path; an absolute URL as it is; otherwise the base joined with exactly one '/' |
| AssetUrl.DefaultAvatarUrl | frontend/src/shared/lib/assetUrl.js:11-13 | the base followed by /public/default-avatar.png |
| AssetUrl.AssetAgreesWithApi | frontend/src/shared/lib/assetUrl.js:1-9 | `assetUrl` and `toApiUrl` give the same URL for every path, '' standing for null |
| AssetUrl.AssetUrlIdempotent | frontend/src/shared/lib/assetUrl.js:1-9 | with an absolute base, applying `assetUrl` to its own result changes nothing |
| AuthRedirect.Middleware | frontend/middleware.js:5-35 | static paths pass; a visitor without a token is sent to /login exactly on a non-public page; a signed-in user is sent to /feed exactly on a public page; no other redirect |
| AuthRedirect.Route | frontend/middleware.js:37-39 | paths under /api never reach the middleware and pass |
| AuthRedirect.NoRedirectLoop | frontend/middleware.js:18-32 | following a redirect with the same cookie passes, so nobody is bounced twice |
| AuthRedirect.PrefixesCount | frontend/middleware.js:3-19 | public routes and the matcher are prefix tests: /login-x is public and /apix is not matched |
| AuthRedirect.StaticAlwaysPasses | frontend/middleware.js:9-16 | every static path passes, signed in or not |

## Left out

- Database access: Sequelize queries, transactions and `LOCK.UPDATE` row locks. Each handler is one atomic step over in-memory maps, because the lock only serialises calls. Foreign-key cascades are modelled only where a handler performs them itself.
- Concurrency and interleavings of requests, socket.io emits, `notify.js` and presence broadcasts. These are side effects outside the state modelled. Notification rows are modelled only where a cascade deletes them.
- Floating point: money, odds and percentages are `real`.
  - NaN appears only as a missing number (`Option<real>`); Infinity is not modelled.
  - `toFixed(6)` is modelled as rounding half away from zero at six decimals (`JsMath.ToFixed6`). `Math.round` is rounding half up.
  - DECIMAL(18,2) storage rounding is not modelled.
- `Math.pow(t, 0.9)` in the inline recommender is a parameter: any function mapping [0, 1] into [0, 1] (`TerminalHelpers.UnitCurve`).
- Dates: `parseDateOnly`, `getTimeFilter`, date-range filters and the week arithmetic of `bucketKey`. Timestamps are integers, and the bucket key is a function parameter.
- Query shaping: ILIKE search, ORDER BY, limit/offset and ORM includes. Search candidates are given in order and only the block filter is modelled. The order of rows in query results is not modelled either: when several dialogs are shared by two users, the model picks the earliest.
- Read-only handlers that only shape a query: `listBets`, `terminalSummary`, `listSessions`, `getSession`, `myStats`, `listUserBets`, `getMyProfile`, `getMyBlacklist`, `listComments`, `getPostById` and the feed queries. Only their gates and filters are modelled.
- `updateMyPrivacy` and `updateMyAvatar` are not modelled. They write fields without any rule beyond zod formats.
- Zod formats (URL, UUID strings in bodies, string lengths in UTF-16 units): a failed schema is a 500 answer, and lengths are counted in `char`s. `Text.Trim` removes the characters of Unicode 15's space separators and ECMAScript's white space and line terminators; a later Unicode version's additions are not modelled.
- Fresh ids (UUIDs, public ids) and clocks are parameters of the methods. In `Messages` and `Posts` an id that collides with an existing row gives 500. The terminal assumes fresh ids: `Ledger.CreateSession` and `Ledger.PlaceBet` would replace a row with a colliding id, and the `TerminalController.Terminal` methods require the id to be new.
- Messages.Send: the two `new Date()` read marks of a new dialog's seats are one value, `openedAt`; the message's own `createdAt` is a separate reading, `now`.
- Authentication (JWT, bcrypt), uploads, environment configuration other than `NEXT_PUBLIC_API_BASE_URL`, which is a parameter.
- RTK Query wiring: tags, dispatch and the `undo` of a patch.
- SocialCache: the repost counter patch is not modelled; it has the same shape as the comment patch. The `getUserPosts` cache argument is its `publicId` only.
- Chart point labels and the SVG drawing code.
- ChartSeries.SortByKeySorts: the sort is modelled as a stable insertion sort by key. JavaScript's `Array.prototype.sort` is stable too, but its comparison of equal keys is not modelled beyond stability.
- PresenceStore.Store.Emit: a listener is a number; a listener that throws counts as called, since `emit` catches the error and goes on.

## Findings

| source | as written | input that shows it | evidently intended | confidence | as-written member | corrected member |
|---|---|---|---|---|---|---|
| backend/src/modules/terminal/recommendation.js:15-16 | risk level 1 has factor 5, while the comment next to the table gives 1.2 | bank 1000, odds 1.5, bo 1, tier 1, risk 1: pct is pinned at the 0.05 cap for every valid input with risk 1 | risk 1 has factor 1.2, and the share then stays at most 0.0252, below the 0.05 cap | not executed | RiskAdjusted.RiskOnePinsCap | RiskAdjusted.CorrectedRiskOneBelowCap |
