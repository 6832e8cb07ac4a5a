/**
 * The point thresholds of the reward scheme and the rules built on them:
 * which threshold a single credit crosses, which one a balance is heading
 * for, and the tier (with its discount range) that lifetime points buy.
 */
module Milestones {
  import opened Wrappers

  /** The thresholds, in the order the source scans them. */
  const MILESTONES: seq<int> := [500, 1000, 2000]

  /** The balance a user must hold before a coupon can be redeemed. */
  const REDEEM_MIN: int := 500

  /**
   * `checkMilestoneUnlock(user, oldPoints, newPoints)` of the reference
   * server: the smallest threshold in (oldPts, newPts], if any.
   */
  function CrossedMilestone(oldPts: int, newPts: int): (m: Option<int>)
    ensures m.Some? ==> m.value in MILESTONES && oldPts < m.value <= newPts
    ensures m.Some? ==> forall t :: t in MILESTONES && oldPts < t <= newPts ==> m.value <= t
    ensures m.None? <==> forall t :: t in MILESTONES ==> !(oldPts < t <= newPts)
    ensures newPts <= oldPts ==> m.None?
    ensures oldPts < 500 <= newPts ==> m == Some(500)
  {
    if oldPts < 500 && newPts >= 500 then Some(500)
    else if oldPts < 1000 && newPts >= 1000 then Some(1000)
    else if oldPts < 2000 && newPts >= 2000 then Some(2000)
    else None
  }

  /**
   * `checkMilestoneUnlock(oldPts, newPts)` of the browser mock: the same
   * early-return scan over the thresholds, written as the loop it is.
   */
  method CheckMilestoneUnlock(oldPts: int, newPts: int) returns (m: Option<int>)
    ensures m.Some? ==> m.value in MILESTONES && oldPts < m.value <= newPts
    ensures m.Some? ==> forall t :: t in MILESTONES && oldPts < t <= newPts ==> m.value <= t
    ensures m.None? ==> forall t :: t in MILESTONES ==> !(oldPts < t <= newPts)
    ensures m == CrossedMilestone(oldPts, newPts)
  {
    var k := 0;
    while k < |MILESTONES|
      invariant 0 <= k <= |MILESTONES|
      invariant forall j :: 0 <= j < k ==> !(oldPts < MILESTONES[j] <= newPts)
    {
      if oldPts < MILESTONES[k] && newPts >= MILESTONES[k] {
        return Some(MILESTONES[k]);
      }
      k := k + 1;
    }
    return None;
  }

  /** `getNextMilestone(points)`: the first threshold still above the balance. */
  function NextMilestone(points: int): (m: Option<int>)
    ensures m.Some? ==> m.value in MILESTONES && points < m.value
    ensures m.Some? ==> forall t :: t in MILESTONES && points < t ==> m.value <= t
    ensures m.None? <==> points >= 2000
  {
    if points < 500 then Some(500)
    else if points < 1000 then Some(1000)
    else if points < 2000 then Some(2000)
    else None
  }

  datatype Tier = Silver | Gold | Platinum

  /** The tiers in increasing order of value. */
  function TierRank(t: Tier): nat {
    match t
    case Silver => 0
    case Gold => 1
    case Platinum => 2
  }

  /** A row of the discount table: inclusive percentage bounds, tier, and the points a coupon costs. */
  datatype DiscountRange = DiscountRange(min: int, max: int, tier: Tier, milestone: int)

  /** `getDiscountRange(totalPoints)`. */
  function DiscountRangeFor(totalPoints: int): (r: DiscountRange)
    ensures 0 < r.min <= r.max <= 100
    ensures r.milestone in MILESTONES
    ensures r.tier == Platinum <==> totalPoints >= 2000
    ensures r.tier == Gold <==> 1000 <= totalPoints < 2000
    ensures r.tier == Silver <==> totalPoints < 1000
    ensures r.milestone == TierMilestone(r.tier)
    ensures r.milestone >= 1000 ==> r.milestone <= totalPoints
  {
    if totalPoints >= 2000 then DiscountRange(55, 70, Platinum, 2000)
    else if totalPoints >= 1000 then DiscountRange(40, 55, Gold, 1000)
    else DiscountRange(30, 40, Silver, 500)
  }

  /** The milestone each tier costs, as the tier table lists it. */
  function TierMilestone(t: Tier): int {
    match t
    case Silver => 500
    case Gold => 1000
    case Platinum => 2000
  }

  /** More lifetime points never buy a lower tier, a smaller discount or a cheaper coupon. */
  lemma DiscountRangeMonotone(t1: int, t2: int)
    requires t1 <= t2
    ensures TierRank(DiscountRangeFor(t1).tier) <= TierRank(DiscountRangeFor(t2).tier)
    ensures DiscountRangeFor(t1).min <= DiscountRangeFor(t2).min
    ensures DiscountRangeFor(t1).max <= DiscountRangeFor(t2).max
    ensures DiscountRangeFor(t1).milestone <= DiscountRangeFor(t2).milestone
  {
  }
}
