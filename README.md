# BIN-GO reward ledger in Dafny

BIN-GO is a civic waste-reporting app. Citizens file reports on litter in
their area and earn points for them. Points also come from a resolved
report, from volunteering with an NGO and from donating. Once a balance reaches
500, a member may redeem it for a brand discount coupon. The size of the
discount depends on the member's lifetime points tier: Silver, Gold or
Platinum. The app keeps this ledger twice:

- the Express server (`server.js`), which rewrites a JSON document on every
  request;
- a browser mock of the same API (`constants.js`), which runs over a
  document kept in localStorage, with its own constants and fewer checks.

This model follows each of them as written. They are not merged.

Around the ledger sit a few pure helpers, modelled alongside it:

- the report rules: escalation by age, area cleanliness score with its
  colour and label, and keyword detection of the waste type;
- the client-side tier and progress figures of the rewards page
  (`rewards.js`);
- the donation form of `app.js`: card-number and expiry formatting, the
  check run before the payment gateway opens, and the points total of the
  donation summary.

Layout:

| file | module | what it holds |
|---|---|---|
| `wrappers.dfy` | `Wrappers` | `Option`, `Result` |
| `text.dfy` | `Text` | digits, numerals, ASCII case mapping, `trim`, substring search |
| `seqs.dfy` | `Seqs` | `findIndex`, `filter`, `slice`, a descending insertion sort and its top-n lemmas, sums and their independence of order, reversal |
| `milestones.dfy` | `Milestones` | the thresholds 500/1000/2000, crossing a threshold, next threshold, the tier table |
| `ledger_types.dfy` | `LedgerTypes` | users, reports, coupons, history and NGO records; the credit step; coupon code; active coupons; coupon statistics; the balance invariant |
| `server_ledger.dfy` | `ServerLedger` | the server's read-only handlers as functions and the `ServerDb` class whose methods are the writing handlers |
| `mock_ledger.dfy` | `MockLedger` | the mock's read-only branches, the NGO migration of `LocalDB.get`, and the `MockDb` class |
| `report_rules.dfy` | `ReportRules` | `escalLevel`, `areaScore`, `scoreColor`, `scoreLabel`, `detectWaste` |
| `rewards_view.dfy` | `RewardsView` | `TIER_CONFIG`, `getNextMilestoneLocal`, `getTierLocal`, the progress figures |
| `payment_form.dfy` | `PaymentForm` | `pgwFormatCard`, `pgwFormatExpiry`, `submitDonation`'s checks, the summary points |

Modelling conventions:

- Time is an integer count of milliseconds. `new Date(x) > new Date()` becomes `x > now`.
- Record ids, random draws, the HMAC key and the transaction suffix are
  method parameters:
  - a random draw in `[lo, hi]` is `lo + roll % (hi - lo + 1)`;
  - the HMAC is a function parameter `hmac`.
- JavaScript's `a || b` on a number is written `if a != 0 then a else b`. The
  same is done on a string, with `""` for a missing value.
- The ledger's invariant is `LedgerTypes.BalanceWithinEarned`: no user's
  balance exceeds their lifetime total. Every writing method of both
  ledgers is proved to preserve it.

The server's donate handler answers with the donation record, a receipt
and an impact message. It reports neither the points earned nor the new
balance, so `ServerDb.Donate` returns only the donation. The prose
description of the API lists more fields; the model follows the handler.
The mock's donate branch does return `pointsEarned` and `newPoints`, and
so does its model.

## Model

| member | source | states |
|---|---|---|
| Milestones.CrossedMilestone | server.js:71-77 | the smallest of 500/1000/2000 lying in (old, new]; none exactly when no threshold lies there; none for a debit; 500 whenever a credit reaches 500 from below |
| Milestones.CheckMilestoneUnlock | constants.js:449-454 | the mock's early-return scan over the thresholds returns the least threshold crossed, none iff none is crossed, and agrees with the server's rule |
| Milestones.NextMilestone | server.js:39-44 | the least threshold above the balance; none exactly from 2000 points on |
| Milestones.DiscountRangeFor | server.js:32-36 | Platinum iff total ≥ 2000, Gold iff 1000 ≤ total < 2000, Silver otherwise; bounds within (0,100]; the milestone is the tier's threshold and is covered by the total for Gold and Platinum |
| Milestones.DiscountRangeMonotone | server.js:32-36 | more lifetime points never give a lower tier, smaller bounds or a cheaper milestone |
| LedgerTypes.CreditAndUnlock | server.js:124-134 | a credit adds the same delta to balance and lifetime total, so their gap is unchanged; the status becomes unlocked exactly when a threshold is crossed, and is otherwise kept; no other field changes |
| LedgerTypes.PickInRange | server.js:257 | a random draw from [min, max] lies within the bounds |
| LedgerTypes.PickCoversRange | server.js:257 | every value of the range is reached by some draw |
| LedgerTypes.CouponCode | server.js:47-51 | the code is the upper-cased first (up to) three letters of the brand, then the discount's decimal digits, then `OFF`, then the random suffix, and nothing else |
| LedgerTypes.CouponCodeLayout | server.js:47-51 | for a brand of three or more letters and a two-digit discount the code is the upper-cased first three letters, the discount's two digits, then `OFF`, and the discount reads back from the code |
| LedgerTypes.BalanceWithinEarnedUpdate | server.js:186-204 | replacing one user by a user whose balance is within their lifetime total keeps the ledger invariant |
| LedgerTypes.ActiveCoupons | server.js:248-250 | only the user's unused, unexpired coupons, every one of them, no more than the coupon list |
| LedgerTypes.ActiveCouponsExact | server.js:248-250 | each active coupon of the user occurs in the filter as often as in the list, and nothing else occurs, so the filter is drawn from the list |
| LedgerTypes.ActiveCouponsFirst | constants.js:308-309 | the head of the active filter is an active coupon of the user, and no earlier coupon of the user is active |
| LedgerTypes.ActiveCouponsAppend | server.js:281-282 | appending a coupon adds it to the user's active list exactly when it is the user's and is active |
| LedgerTypes.ActiveCouponsShrinkOverTime | server.js:248-250 | a later clock never sees more active coupons |
| LedgerTypes.ActiveCouponsAfterUse | server.js:310-326 | marking a coupon used never increases anyone's active count |
| LedgerTypes.CouponStatesPartition | server.js:343-351 | every coupon is counted in exactly one of used, active and expired |
| LedgerTypes.CouponStatsPermutation | server.js:341-353 | reordering the coupons changes none of the used, active and expired counts, the summed discount or the average |
| LedgerTypes.TotalDiscountBounds | server.js:342 | the summed discount lies between count × smallest and count × largest percentage |
| LedgerTypes.RoundDiv | server.js:353 | `Math.round(p/q)` is within half a unit of p/q, rounding halves up |
| LedgerTypes.AverageDiscountBounds | server.js:342-353 | the rounded average of discounts that all lie in [lo, hi] lies in [lo, hi] |
| ServerLedger.HttpStatus | server.js:95-443 | every refusal answers 400, 403, 404 or 409: 409 exactly for the conflicts (e-mail taken, active coupon, coupon used, NGO joined), 404 exactly for a missing report, user, coupon or NGO, 403 exactly for too few points, another owner or a bad hash |
| ServerLedger.HashCoupon | server.js:54-58 | the coupon hash is a prefix of the HMAC of `code:userId`, 16 characters long (or the whole HMAC when shorter) |
| ServerLedger.AfterRedeem | server.js:284-287 | the milestone comes off the balance; the status is unlocked iff the new balance is at least 500; nothing else changes; a debit keeps a user within the ledger invariant |
| ServerLedger.RedeemCanOverdraw | server.js:241-287 | a member with balance 600 and lifetime total 2500 passes the 500-point check, pays the Platinum milestone 2000, and is left at −1400 and locked |
| ServerLedger.ExpiryDays | server.js:262-263 | a coupon expires 7 to 15 days after issue |
| ServerLedger.RewardsOf | server.js:207-228 | an error iff the user is unknown; otherwise the balance, the lifetime total (falling back to the balance), the next threshold, the tier range of the lifetime total, the user's coupons in document order (the `filter` by owner), and the first active one among them, present iff one of them is active |
| ServerLedger.PointsHistoryOf | server.js:329-336 | min(50, the user's entry count) entries, all the user's, drawn from the history, newest first, and all of them when the user has no more than 50 |
| ServerLedger.PointsHistoryKeepsNewest | server.js:329-336 | an entry left out by the cap is no newer than any entry returned |
| ServerLedger.AdminCoupons | server.js:339-356 | a newest-first permutation of the coupons; used, active and expired are the counts of used, unused-unexpired and unused-expired coupons, summing to the total; the summed discount of all coupons; the average is that sum over the count rounded half up, 0 with no coupons, and lies in [30, 70] when every discount does |
| ServerLedger.PermutedAverageBounds | server.js:341-353 | sorting does not move the average out of the common discount range |
| ServerLedger.Leaderboard | server.js:358-369 | min(20, users) rows, ordered by lifetime points (balance if 0), drawn without repetition from the users' rows, none carrying a password |
| ServerLedger.LeaderboardKeepsTop | server.js:358-369 | a user missing from the board scores no more than anyone on it |
| ServerLedger.ServerDb.Credit | server.js:61-68 | the credited user is `CreditAndUnlock`ed, one history line is appended, the crossed threshold is reported, the invariant is kept |
| ServerLedger.ServerDb.Signup | server.js:91-105 | a taken e-mail is refused with nothing changed; otherwise one user with 0 points, Locked, is appended and returned without password |
| ServerLedger.ServerDb.SubmitReport | server.js:113-138 | the report is prepended as Pending; a known author is credited 10 with a history line and the crossed threshold; an unknown author changes no user |
| ServerLedger.ServerDb.SetReportStatus | server.js:140-163 | unknown id refused; any status stored; every set to Resolved stamps `resolvedAt`, but only a change into Resolved from another status pays a known author 20, with the crossed threshold |
| ServerLedger.ServerDb.AddPoints | server.js:186-204 | a missing or non-positive amount is refused before the user lookup; an unknown user is refused; success iff the amount is positive and the user known, with the credit, its history line and the crossed threshold |
| ServerLedger.ServerDb.Redeem | server.js:231-307 | refusals in order brand, user, balance < 500, active coupon (returned), each changing nothing; success iff all pass; the coupon's discount is within the lifetime tier's range, its code and hash as generated, expiry 7-15 days; the tier's milestone is deducted from the balance; one history line and one log line; the user then holds exactly one active coupon |
| ServerLedger.ServerDb.UseCoupon | server.js:310-326 | refusals in order: unknown coupon, other owner, already used, bad hash; only full success marks that one coupon used with `redeemedAt`; a used coupon never changes |
| ServerLedger.ServerDb.JoinNgo | server.js:395-435 | all six fields required (refused first); then an unknown NGO is refused as not found; then a repeat join by the same e-mail is refused as already joined; success appends the volunteer and credits a known user 50 |
| ServerLedger.ServerDb.Donate | server.js:438-492 | a missing or non-positive amount is refused first; then an unknown NGO is refused as not found; otherwise the donation is appended with its transaction and receipt ids, and a known donor is credited `floor(amount/10)` |
| MockLedger.MockRedeemRange | constants.js:322-325 | Platinum iff the lifetime total is at least 2000, Gold iff in [1000, 2000), Silver otherwise; bounds within [30, 70]; the milestone is the tier's threshold |
| MockLedger.MockRedeemRangeIsServerTable | constants.js:322-325 | the mock's separately computed tier, milestone and bounds equal the server's table row for the same lifetime total |
| MockLedger.MockTier | constants.js:310 | the reported tier is none iff the lifetime total is below 500, else the table's tier |
| MockLedger.MockRewardsOf | constants.js:302-312 | an error iff the user is unknown; the user's coupons in document order, the active ones among them (exactly the document-order filter, each once), the head of that list as the active coupon, which is the user's first active coupon in document order, and the mock tier of the lifetime total (none below 500) |
| MockLedger.MockAdminCoupons | constants.js:351-358 | total is the coupon count; used and active are the counts of used and of unused-unexpired coupons, together at most the total; the average is the summed discount over the count rounded half up, 0 with no coupons, and in [30, 70] when every discount is; the last min(10, n) coupons newest first |
| MockLedger.MockDiscountsWithinTable | constants.js:322-326 | every discount the mock can draw, whatever the lifetime total, lies in [30, 70] |
| MockLedger.MissingSeeds | constants.js:117-119 | exactly the seed NGOs whose ids the stored list lacks |
| MockLedger.MissingSeedsDistinct | constants.js:117-119 | the missing seeds repeat no id when the seeds do not |
| MockLedger.MergeSeedsProps | constants.js:116-125 | the merged list keeps the stored list as its prefix, carries every seed id, and repeats no id when neither part did |
| MockLedger.SeedIdsDistinct | constants.js:150-200 | the seven seed NGOs have distinct ids |
| MockLedger.DonationPoints | constants.js:434 | one point per whole ten rupees; positive iff the amount is at least 10 |
| MockLedger.MockAfterRedeem | constants.js:334-336 | the milestone comes off the balance; an unset lifetime total becomes the balance before the deduction; the status is Redeemed; a user within the ledger invariant stays within it |
| MockLedger.MockDb.Migrate | constants.js:102-128 | an empty NGO list becomes the seed list; an older revision gets the missing seeds appended; both stamp revision 2; the stored NGOs stay a prefix and distinct ids stay distinct |
| MockLedger.MockDb.Signup | constants.js:227-240 | a taken e-mail is refused; otherwise a new Locked user with 0 points is appended |
| MockLedger.MockDb.SubmitReport | constants.js:246-260 | the report is prepended as Pending; a known author gets 10 and unlocks on a crossed threshold |
| MockLedger.MockDb.SetReportStatus | constants.js:262-275 | unknown id refused; every set to Resolved, even a repeated one, pays a known author 20 with no threshold check |
| MockLedger.MockDb.AddPoints | constants.js:288-300 | any amount of either sign is credited to a known user, with the crossed threshold; an unknown user is refused |
| MockLedger.MockDb.Redeem | constants.js:314-339 | refusals in order user, balance < 500, three active coupons, each changing nothing; no brand check; success appends a 10-day coupon within the tier's range, deducts the milestone, marks Redeemed, and leaves the user at most three active coupons |
| MockLedger.MockDb.UseCoupon | constants.js:341-348 | any existing coupon is marked used, with no owner, flag or hash check; an unknown id is refused |
| MockLedger.MockDb.JoinNgo | constants.js:396-411 | unknown NGO refused; a second join of the same NGO and user refused; a join is recorded and pays a known user 15 |
| MockLedger.MockDb.Donate | constants.js:424-442 | the donation is always recorded with default name and method; a known donor is credited `floor(amount/10)` only when positive; returns the donation, the new balance and the points |
| ReportRules.EscalLevel | constants.js:24-31 | none iff resolved; otherwise normal under 24 h, yellow under 48 h, red under 72 h, escalated from 72 h |
| ReportRules.EscalLevelMonotone | constants.js:24-31 | an open report never becomes less urgent as time passes, and is always at least normal |
| ReportRules.RawAreaScore | constants.js:46 | the raw score is `70 + 30·res/n − 8·open` rounded half up: within half a point of it, halves going up |
| ReportRules.AreaScore | constants.js:41-47 | the score lies in [0, 100] and is 90 for an area with no reports |
| ReportRules.RawAllResolved | constants.js:46 | with every report resolved and none open the rounded raw score is 100 |
| ReportRules.RawNothingOpen | constants.js:46 | with nothing open the rounded raw score lies in [70, 100] |
| ReportRules.AreaAllResolvedScoresFull | constants.js:41-47 | an area whose reports are all resolved scores 100 |
| ReportRules.AreaWithoutOpenReportsIsClean | constants.js:41-47 | an area with nothing pending or escalated scores at least 70 |
| ReportRules.ScoreColor | constants.js:49 | green iff ≥ 70, amber iff in [40, 70), red iff < 40 |
| ReportRules.ScoreLabel | constants.js:50 | Clean iff ≥ 70, Moderate iff in [40, 70), Needs Attention iff < 40 |
| ReportRules.ColorMatchesLabel | constants.js:49-50 | two scores share a colour iff they share a label |
| ReportRules.EmptyAreaIsClean | constants.js:41-50 | an area without reports is shown as clean |
| ReportRules.DetectWaste | constants.js:52-58 | one of the listed waste types; E-Waste iff an e-waste word occurs, else Organic iff an organic word, else Construction iff a construction word, else Plastic |
| ReportRules.DetectWasteIgnoresCase | constants.js:52-58 | for ASCII descriptions, upper-casing the description does not change the guess |
| ReportRules.EWasteWins | constants.js:52-58 | a description with an e-waste word anywhere is E-Waste whatever else it says |
| RewardsView.TierConfig | rewards.js:18-22 | each tier's row names that tier and its milestone |
| RewardsView.NextMilestoneLocal | rewards.js:176-181 | the least threshold above the balance; none iff the balance is at least 2000 |
| RewardsView.NextMilestoneLocalMatchesServer | rewards.js:176-181 | the browser and server next-threshold rules agree on every balance |
| RewardsView.TierLocal | rewards.js:183-187 | the tier and milestone of the server's table for every total, Silver below 1000 |
| RewardsView.TierLocalMonotone | rewards.js:183-187 | more lifetime points never show a lower tier |
| RewardsView.TierLocalVersusMock | rewards.js:183-187 | the browser tier equals the mock's tier from 500 on; below 500 the mock reports none while the page shows Silver |
| RewardsView.ProgressPct | rewards.js:30 | at most 100; 100 with no next threshold; non-negative for a non-negative balance; below the threshold, within half a point of 100·pts/next, halves going up |
| RewardsView.Remaining | rewards.js:32 | never negative; next − pts below the threshold; 0 with no threshold |
| RewardsView.RewardsProgress | rewards.js:28-32 | percentage ≤ 100, remaining ≥ 0 and exactly the gap to the next threshold; the redeem section iff the balance is at least 500, else the gap to 500; the tier of the lifetime total, falling back to the balance |
| RewardsView.RefreshProgress | rewards.js:347-355 | the section choice after a redemption is redeem iff the balance is at least 500 |
| RewardsView.RefreshMatchesRender | rewards.js:347-355 | the refresh shows the same figures and section as a fresh render |
| RewardsView.ProgressFullOnlyNearMilestone | rewards.js:30 | below 2000 a full bar means the balance is within half a percent of the next threshold |
| PaymentForm.SpaceEveryFourIsBlocks | app.js:1303 | the block regex gives the four-digit blocks plus one trailing space when the length is a multiple of four |
| PaymentForm.FormatCard | app.js:1301-1304 | the result holds exactly the first 16 digits of the input in order, a space at every fifth position and digits elsewhere, at most 19 characters, no space at either end |
| PaymentForm.FormatCardIdempotent | app.js:1301-1304 | formatting a formatted card number changes nothing |
| PaymentForm.FormatExpiry | app.js:1305-1309 | at most 7 characters; its digits are the first four digits of the input; " / " follows the first two digits once there are two, and the two digits before it and the rest after it make up those digits |
| PaymentForm.FormatExpiryIdempotent | app.js:1305-1309 | formatting a formatted expiry changes nothing |
| PaymentForm.ValidateDonation | app.js:1070-1082 | no NGO refused first, then a missing or sub-1 amount; accepted iff both hold, keeping NGO and amount, with the trimmed name or `Anonymous`, the trimmed e-mail, and the given method or `razorpay` |
| PaymentForm.SummaryPoints | app.js:974-975 | the summed points are within one point per donation below a tenth of the total given, and non-negative for non-negative amounts |
| PaymentForm.SummaryPointsAppend | app.js:975 | the points of two lists of donations add up |
| Text.DigitsOf | app.js:1302 | only digits, no longer than the input, the identity on digit strings; a single character is kept iff it is a digit |
| Seqs.TopN | server.js:331-334 | the first n of the newest-first sort are ordered, drawn from the input, and all of it when it is short |

## Left out

- Floating point: `parseFloat` amounts, fractional donations, CO₂ and
  impact figures, and fractional hours are out. Amounts are whole rupees,
  and ages are compared in whole milliseconds.
- RewardsView.ProgressPct: the page computes `Math.round((pts / next) * 100)`
  in doubles, rounding twice. The model rounds the exact fraction once, half
  up. The two differ where the double product lands just below a half, as
  for 145 points towards 1000 (14 on the page, 15 in the model).
- ReportRules.AreaScore: the exact float rounding of `70 + (res/n)·30 − 8·open`
  is modelled by integer rounding half up. A raw value that is a float
  just below a half may round differently.
- PaymentForm.ValidateDonation: the amount is a real, and a `parseFloat`
  that fails is `None`. NaN and Infinity are not modelled separately.
- I/O: file reads and writes, `localStorage`, JSON parsing, Express routing
  and HTTP bodies are out. Each handler works on the document already
  read. `ServerLedger.HttpStatus` gives the status codes.
- Randomness, clocks, UUIDs and `crypto` are parameters. The HMAC is an
  uninterpreted function, and the coupon suffix is an injected string.
- Case mapping (`toUpperCase`, `toLowerCase`) and `\d` and `trim` cover ASCII
  characters only.
- The mock's `points-history` branch, which always answers an empty list,
  is out.
- The mock's leaderboard, `GET /ngos`, `my-ngos` and donation listings are
  out. So are login, area adoption and the other handlers that move no
  points.
- MockLedger.MockDb.AddPoints: a missing amount in the mock gives NaN
  points. The model takes an integer amount.
- MockLedger.MockDb.Migrate: a document without `_ngo_version` is given
  revision 0. The try/catch fallback to a fresh seed on a corrupt document
  is out.
- Seqs.SortDesc: the descending sort is proved ordered and a permutation.
  Stability among equal keys (`Array.prototype.sort` is stable) is not
  proved.
- Presentation is out: HTML rendering, gradients, toasts and the payment
  gateway's animation.
