/**
 * The client-side reward helpers of rewards.js: the next milestone and the
 * tier computed in the browser, the tier table, and the progress figures
 * the rewards page shows (percentage, points remaining, and whether the
 * redeem section or the locked section is drawn).
 */
module RewardsView {
  import opened Wrappers
  import opened Milestones
  import opened LedgerTypes
  import MockLedger

  /** A row of `TIER_CONFIG` (the gradient is presentation and left out). */
  datatype TierInfo = TierInfo(tier: Tier, color: string, icon: string, rangeText: string, milestone: int)

  /** `TIER_CONFIG[tier]`. */
  function TierConfig(t: Tier): (info: TierInfo)
    ensures info.tier == t
    ensures info.milestone == TierMilestone(t)
  {
    match t
    case Silver => TierInfo(Silver, "#9ca3af", "\U{1F948}", "30–40%", 500)
    case Gold => TierInfo(Gold, "#f59e0b", "\U{1F947}", "40–55%", 1000)
    case Platinum => TierInfo(Platinum, "#8b5cf6", "\U{1F48E}", "55–70%", 2000)
  }

  /** `getNextMilestoneLocal(pts)`: the smallest threshold above `pts`, none from 2000 on. */
  function NextMilestoneLocal(pts: int): (r: Option<int>)
    ensures r.Some? ==> r.value in MILESTONES && pts < r.value
    ensures r.Some? ==> forall k :: 0 <= k < |MILESTONES| && pts < MILESTONES[k] ==> r.value <= MILESTONES[k]
    ensures r.None? <==> pts >= 2000
  {
    if pts < 500 then Some(500)
    else if pts < 1000 then Some(1000)
    else if pts < 2000 then Some(2000)
    else None
  }

  /** The browser helper and the server's `getNextMilestone` always agree. */
  lemma NextMilestoneLocalMatchesServer(pts: int)
    ensures NextMilestoneLocal(pts) == NextMilestone(pts)
  {
  }

  /** `getTierLocal(totalPts)`: a tier for every total, Silver below 1000 (never 'None'). */
  function TierLocal(totalPts: int): (info: TierInfo)
    ensures info.tier == DiscountRangeFor(totalPts).tier
    ensures info.milestone == DiscountRangeFor(totalPts).milestone
    ensures info.milestone in MILESTONES
  {
    if totalPts >= 2000 then TierConfig(Platinum)
    else if totalPts >= 1000 then TierConfig(Gold)
    else TierConfig(Silver)
  }

  /** More lifetime points never show a lower tier or a smaller milestone. */
  lemma TierLocalMonotone(t1: int, t2: int)
    requires t1 <= t2
    ensures TierRank(TierLocal(t1).tier) <= TierRank(TierLocal(t2).tier)
    ensures TierLocal(t1).milestone <= TierLocal(t2).milestone
  {
    DiscountRangeMonotone(t1, t2);
  }

  /**
   * The browser tier agrees with the mock's GET /rewards tier from 500
   * lifetime points on; below 500 the mock answers 'None' while the
   * browser shows Silver.
   */
  lemma TierLocalVersusMock(total: int)
    ensures total >= REDEEM_MIN ==> MockLedger.MockTier(total) == Some(TierLocal(total).tier)
    ensures total < REDEEM_MIN ==> MockLedger.MockTier(total) == None && TierLocal(total).tier == Silver
  {
  }

  /** `nextMs ? Math.min(100, Math.round((pts / nextMs) * 100)) : 100`. */
  function ProgressPct(pts: int, next: Option<int>): (pct: int)
    requires next.Some? ==> next.value > 0
    ensures pct <= 100
    ensures next.None? ==> pct == 100
    ensures next.Some? && pts >= 0 ==> pct >= 0
    ensures next.Some? && 0 <= pts <= next.value ==> 2 * next.value * pct <= 200 * pts + next.value
    ensures next.Some? && 0 <= pts <= next.value ==> 200 * pts - next.value < 2 * next.value * pct
  {
    match next
    case None => 100
    case Some(ms) =>
      var q := RoundDiv(100 * pts, ms);
      if q < 100 then q
      else
        assert 2 * ms * 100 <= 2 * ms * q by {
          MulMonotone(2 * ms, 100, q);
        }
        100
  }

  /** `nextMs ? Math.max(0, nextMs - pts) : 0`. */
  function Remaining(pts: int, next: Option<int>): (rem: int)
    ensures rem >= 0
    ensures next.None? ==> rem == 0
    ensures next.Some? && pts <= next.value ==> rem == next.value - pts
  {
    match next
    case None => 0
    case Some(ms) => if ms - pts > 0 then ms - pts else 0
  }

  /** What `renderRewards` shows from the user record. */
  datatype Progress = Progress(
    pts: int, next: Option<int>, pct: int, remaining: int, tierInfo: TierInfo, showRedeem: bool)

  /**
   * The figures of `renderRewards`: the balance (`points || 0`), the next
   * milestone, the percentage towards it, the points still needed, the tier
   * of `total_earned_points || pts`, and the choice of the redeem section.
   */
  function RewardsProgress(points: int, totalEarned: int): (p: Progress)
    ensures p.pts == points
    ensures p.pct <= 100 && p.remaining >= 0
    ensures points >= 0 ==> 0 <= p.pct
    ensures p.next.None? <==> points >= 2000
    ensures p.next.None? ==> p.pct == 100 && p.remaining == 0
    ensures p.next.Some? ==> p.remaining == p.next.value - points > 0
    ensures p.showRedeem <==> points >= REDEEM_MIN
    ensures !p.showRedeem ==> p.next == Some(500) && p.remaining == 500 - points
    ensures p.tierInfo.tier == DiscountRangeFor(if totalEarned != 0 then totalEarned else points).tier
  {
    var next := NextMilestoneLocal(points);
    Progress(points, next, ProgressPct(points, next), Remaining(points, next),
             TierLocal(if totalEarned != 0 then totalEarned else points), points >= 500)
  }

  /** `refreshRewardsUI`: the percentage, remaining points and section choice, recomputed after a redemption. */
  function RefreshProgress(points: int): (r: (int, int, bool))
    ensures r.0 <= 100 && r.1 >= 0
    ensures r.2 <==> points >= REDEEM_MIN
  {
    var next := NextMilestoneLocal(points);
    (ProgressPct(points, next), Remaining(points, next), points >= 500)
  }

  /** The refresh after a redemption draws the same figures and the same section as a fresh render. */
  lemma RefreshMatchesRender(points: int, totalEarned: int)
    ensures var p := RewardsProgress(points, totalEarned);
      RefreshProgress(points) == (p.pct, p.remaining, p.showRedeem)
  {
  }

  /** The progress bar is full exactly at and above the last milestone, or when rounding reaches it. */
  lemma ProgressFullOnlyNearMilestone(points: int)
    requires 0 <= points < 2000
    ensures var p := RewardsProgress(points, 0);
      p.pct == 100 ==> 200 * points + p.next.value >= 200 * p.next.value
  {
    var p := RewardsProgress(points, 0);
    var ms := p.next.value;
    if p.pct == 100 {
      assert 2 * ms * 100 <= 200 * points + ms;
    }
  }
}
