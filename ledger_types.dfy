/**
 * The records of the persisted document that the reward ledger reads and
 * writes, shared by the reference server and the browser mock (both keep
 * the same document shape), with the queries both run over them.
 */
module LedgerTypes {
  import opened Wrappers
  import opened Milestones
  import opened Text
  import Seqs

  /** One day in milliseconds (`86400000`); timestamps are milliseconds. */
  const DAY_MS: int := 86400000

  const RESOLVED: string := "Resolved"
  const PENDING: string := "Pending"

  datatype MilestoneStatus = Locked | Unlocked | Redeemed

  datatype Role = Citizen | Admin

  /** `points` is the spendable balance, `totalEarned` the lifetime counter (`total_earned_points`). */
  datatype User = User(
    id: string, name: string, email: string, password: string, role: Role,
    points: int, totalEarned: int, badges: seq<string>, adoptedStreet: Option<string>,
    milestoneStatus: MilestoneStatus)

  /** A waste report; `status` is whatever string the last status change carried. */
  datatype Report = Report(
    id: string, userId: string, userName: string, area: string, wasteType: string,
    description: string, status: string, createdAt: int, resolvedAt: Option<int>)

  datatype Coupon = Coupon(
    id: string, userId: string, userName: string, brand: string, code: string, hash: string,
    discountPct: int, tier: Tier, milestone: int, used: bool,
    expiresAt: int, createdAt: int, redeemedAt: Option<int>)

  /** One line of the points audit log; `points` is the signed delta. */
  datatype HistoryEntry = HistoryEntry(
    id: string, userId: string, points: int, reason: string, category: string, createdAt: int)

  /** An NGO record; only the fields the ledger reads (descriptive fields are presentation). */
  datatype Ngo = Ngo(id: string, name: string)

  /** A volunteer sign-up; `userId` is "" for a visitor who is not logged in. */
  datatype Volunteer = Volunteer(
    id: string, ngoId: string, ngoName: string, userId: string, name: string,
    email: string, phone: string, city: string, skills: string, availability: string,
    joinedAt: int)

  /** A simulated donation; `userId` is "" for an anonymous donor. */
  datatype Donation = Donation(
    id: string, ngoId: string, ngoName: string, userId: string, donorName: string,
    donorEmail: string, amount: int, payMethod: string, txnId: string, receiptNo: string,
    status: string, createdAt: int)

  // Key functions the lookups, filters and sorts are keyed on.
  function UserIdOf(u: User): string { u.id }
  function UserEmailOf(u: User): string { u.email }
  function ReportIdOf(r: Report): string { r.id }
  function CouponIdOf(c: Coupon): string { c.id }
  function CouponOwnerOf(c: Coupon): string { c.userId }
  function CouponCreatedAt(c: Coupon): int { c.createdAt }
  function HistoryOwnerOf(h: HistoryEntry): string { h.userId }
  function HistoryCreatedAt(h: HistoryEntry): int { h.createdAt }
  function NgoIdOf(n: Ngo): string { n.id }

  function FindUser(users: seq<User>, id: string): Option<nat> {
    Seqs.FirstIndex(users, UserIdOf, id)
  }

  /** `user.total_earned_points || user.points`: 0 counts as absent. */
  function EarnedOrPoints(u: User): int {
    if u.totalEarned != 0 then u.totalEarned else u.points
  }

  /** The same delta added to the balance and to the lifetime counter. */
  function Credited(u: User, delta: int): User {
    u.(points := u.points + delta, totalEarned := u.totalEarned + delta)
  }

  /** The user as returned to callers: the password is never sent back. */
  function Safe(u: User): User {
    u.(password := "")
  }

  /**
   * A credit as every earning path applies it: both counters move by the
   * same delta, so the gap between them is kept, and the status unlocks
   * exactly when the balance crosses a threshold.
   */
  function CreditAndUnlock(u: User, delta: int): (v: User)
    ensures v.points == u.points + delta
    ensures v.totalEarned == u.totalEarned + delta
    ensures v.points - v.totalEarned == u.points - u.totalEarned
    ensures v.milestoneStatus == if CrossedMilestone(u.points, u.points + delta).Some? then Unlocked else u.milestoneStatus
    ensures v.(points := u.points, totalEarned := u.totalEarned, milestoneStatus := u.milestoneStatus) == u
  {
    var v := Credited(u, delta);
    if CrossedMilestone(u.points, v.points).Some? then v.(milestoneStatus := Unlocked) else v
  }

  /**
   * `Math.floor(Math.random() * (max - min + 1)) + min`, with the random
   * draw injected as `roll`.
   */
  function PickInRange(lo: int, hi: int, roll: nat): (r: int)
    requires lo <= hi
    ensures lo <= r <= hi
  {
    lo + roll % (hi - lo + 1)
  }

  /** Every value of the range is drawn by some roll. */
  lemma PickCoversRange(lo: int, hi: int, v: int)
    requires lo <= v <= hi
    ensures PickInRange(lo, hi, (v - lo) as nat) == v
  {
  }

  /** The coupon code template `BRAND3` + discount + `OFF` + a random suffix, the suffix injected. */
  function CouponCode(brand: string, discount: nat, suffix: string): (r: string)
    ensures var n := |Seqs.Take(brand, 3)|; var d := NatToString(discount);
      && |r| == n + |d| + 3 + |suffix|
      && (forall i :: 0 <= i < n ==> r[i] == UpperChar(brand[i]))
      && r[n..n + |d|] == d
      && r[n + |d|..n + |d| + 3] == "OFF"
      && r[n + |d| + 3..] == suffix
  {
    Upper(Seqs.Take(brand, 3)) + NatToString(discount) + "OFF" + suffix
  }

  /** The discount a coupon code carries, read back from its digits. */
  function CodeDiscount(code: string): nat
    requires |code| >= 5 && AllDigits(code[3..5])
  {
    ParseNat(code[3..5])
  }

  /** A code for a brand of three or more letters and a two-digit discount has a fixed layout and carries its discount. */
  lemma CouponCodeLayout(brand: string, discount: nat, suffix: string)
    requires |brand| >= 3 && 10 <= discount < 100
    ensures var code := CouponCode(brand, discount, suffix);
      && |code| == 8 + |suffix|
      && code[..3] == Upper(brand[..3])
      && code[5..8] == "OFF"
      && code[8..] == suffix
      && AllDigits(code[3..5])
      && CodeDiscount(code) == discount
  {
    var code := CouponCode(brand, discount, suffix);
    var d := NatToString(discount);
    assert code == Upper(brand[..3]) + d + "OFF" + suffix;
    assert code[3..5] == d;
    ParseNatToString(discount);
  }

  /** The ledger invariant: no user can spend more than was ever credited. */
  predicate BalanceWithinEarned(users: seq<User>) {
    forall i :: 0 <= i < |users| ==> users[i].points <= users[i].totalEarned
  }

  /** Changing one user keeps the invariant when that user still satisfies it. */
  lemma BalanceWithinEarnedUpdate(users: seq<User>, i: nat, u: User)
    requires BalanceWithinEarned(users) && i < |users| && u.points <= u.totalEarned
    ensures BalanceWithinEarned(users[i := u])
  {
  }

  /** `!c.used && new Date(c.expiresAt) > now`. */
  predicate IsActive(c: Coupon, now: int) {
    !c.used && c.expiresAt > now
  }

  /** The coupons of `userId` that are active at `now`, in document order. */
  function ActiveCoupons(coupons: seq<Coupon>, userId: string, now: int): (r: seq<Coupon>)
    ensures forall k :: 0 <= k < |r| ==> r[k].userId == userId && IsActive(r[k], now)
    ensures forall k :: 0 <= k < |coupons| && coupons[k].userId == userId && IsActive(coupons[k], now) ==> coupons[k] in r
    ensures |r| <= |coupons|
  {
    if |coupons| == 0 then []
    else
      var c := coupons[|coupons| - 1];
      ActiveCoupons(coupons[..|coupons| - 1], userId, now)
        + (if c.userId == userId && IsActive(c, now) then [c] else [])
  }

  /**
   * The filter keeps every active coupon of the user as many times as it
   * occurs and nothing else, so it is drawn from the coupons.
   */
  lemma {:induction false} ActiveCouponsExact(coupons: seq<Coupon>, userId: string, now: int)
    ensures forall c :: multiset(ActiveCoupons(coupons, userId, now))[c]
                     == if c.userId == userId && IsActive(c, now) then multiset(coupons)[c] else 0
    ensures multiset(ActiveCoupons(coupons, userId, now)) <= multiset(coupons)
  {
    if |coupons| > 0 {
      var n := |coupons|;
      var x := coupons[n - 1];
      var front := coupons[..n - 1];
      var add: seq<Coupon> := if x.userId == userId && IsActive(x, now) then [x] else [];
      assert coupons == front + [x];
      assert multiset(coupons) == multiset(front) + multiset{x};
      assert multiset(ActiveCoupons(coupons, userId, now)) == multiset(ActiveCoupons(front, userId, now)) + multiset(add);
      ActiveCouponsExact(front, userId, now);
    }
  }

  /**
   * The head of the filter is the user's first active coupon in document
   * order: no earlier coupon of the user is active.
   */
  lemma {:induction false} ActiveCouponsFirst(coupons: seq<Coupon>, userId: string, now: int)
    requires |ActiveCoupons(coupons, userId, now)| > 0
    ensures exists j ::
      && 0 <= j < |coupons| && coupons[j] == ActiveCoupons(coupons, userId, now)[0]
      && coupons[j].userId == userId && IsActive(coupons[j], now)
      && forall k :: 0 <= k < j && coupons[k].userId == userId ==> !IsActive(coupons[k], now)
  {
    var n := |coupons|;
    var front := coupons[..n - 1];
    var a := ActiveCoupons(coupons, userId, now);
    if |ActiveCoupons(front, userId, now)| > 0 {
      ActiveCouponsFirst(front, userId, now);
      var j :| 0 <= j < |front| && front[j] == ActiveCoupons(front, userId, now)[0]
        && front[j].userId == userId && IsActive(front[j], now)
        && forall k :: 0 <= k < j && front[k].userId == userId ==> !IsActive(front[k], now);
      assert coupons[j] == a[0];
      assert forall k :: 0 <= k < j ==> coupons[k] == front[k];
    } else {
      assert a[0] == coupons[n - 1];
      forall k | 0 <= k < n - 1 && coupons[k].userId == userId
        ensures !IsActive(coupons[k], now)
      {
        assert coupons[k] == front[k];
      }
    }
  }

  lemma ActiveCouponsAppend(coupons: seq<Coupon>, c: Coupon, userId: string, now: int)
    ensures ActiveCoupons(coupons + [c], userId, now)
         == ActiveCoupons(coupons, userId, now) + (if c.userId == userId && IsActive(c, now) then [c] else [])
  {
    assert (coupons + [c])[..|coupons|] == coupons;
  }

  /** Time only expires coupons: a later clock never sees more active coupons. */
  lemma {:induction false} ActiveCouponsShrinkOverTime(coupons: seq<Coupon>, userId: string, t1: int, t2: int)
    requires t1 <= t2
    ensures |ActiveCoupons(coupons, userId, t2)| <= |ActiveCoupons(coupons, userId, t1)|
  {
    if |coupons| > 0 {
      ActiveCouponsShrinkOverTime(coupons[..|coupons| - 1], userId, t1, t2);
    }
  }

  /** Marking one coupon used never adds an active coupon for anyone. */
  lemma {:induction false} ActiveCouponsAfterUse(coupons: seq<Coupon>, j: nat, userId: string, now: int)
    requires j < |coupons|
    ensures |ActiveCoupons(coupons[j := coupons[j].(used := true)], userId, now)|
         <= |ActiveCoupons(coupons, userId, now)|
  {
    var n := |coupons|;
    var after := coupons[j := coupons[j].(used := true)];
    var rest := ActiveCoupons(coupons[..n - 1], userId, now);
    if j < n - 1 {
      assert after[..n - 1] == coupons[..n - 1][j := coupons[j].(used := true)];
      assert after[n - 1] == coupons[n - 1];
      ActiveCouponsAfterUse(coupons[..n - 1], j, userId, now);
    } else {
      assert after[..n - 1] == coupons[..n - 1];
      assert !IsActive(after[n - 1], now);
      assert |ActiveCoupons(after, userId, now)| == |rest|;
    }
  }

  /** Count of coupons marked used, `coupons.filter(c => c.used).length`. */
  function CountUsed(coupons: seq<Coupon>): nat {
    if |coupons| == 0 then 0 else CountUsed(coupons[..|coupons| - 1]) + (if coupons[|coupons| - 1].used then 1 else 0)
  }

  /** Count of unused coupons still valid at `now`. */
  function CountActive(coupons: seq<Coupon>, now: int): nat {
    if |coupons| == 0 then 0
    else
      var c := coupons[|coupons| - 1];
      CountActive(coupons[..|coupons| - 1], now) + (if IsActive(c, now) then 1 else 0)
  }

  /** Count of unused coupons past expiry at `now`. */
  function CountExpired(coupons: seq<Coupon>, now: int): nat {
    if |coupons| == 0 then 0
    else
      var c := coupons[|coupons| - 1];
      CountExpired(coupons[..|coupons| - 1], now) + (if !c.used && c.expiresAt <= now then 1 else 0)
  }

  /** `coupons.reduce((s, c) => s + c.discount_pct, 0)`. */
  function TotalDiscount(coupons: seq<Coupon>): int {
    if |coupons| == 0 then 0 else TotalDiscount(coupons[..|coupons| - 1]) + coupons[|coupons| - 1].discountPct
  }

  function UsedWeight(c: Coupon): int { if c.used then 1 else 0 }
  function ActiveWeight(now: int): Coupon -> int { (c: Coupon) => if IsActive(c, now) then 1 else 0 }
  function ExpiredWeight(now: int): Coupon -> int { (c: Coupon) => if !c.used && c.expiresAt <= now then 1 else 0 }
  function DiscountOf(c: Coupon): int { c.discountPct }

  /** Each count is a sum of 0/1 weights, and the total discount a sum of percentages. */
  lemma {:induction false} CountsAsSums(coupons: seq<Coupon>, now: int)
    ensures CountUsed(coupons) == Seqs.SumOf(coupons, UsedWeight)
    ensures CountActive(coupons, now) == Seqs.SumOf(coupons, ActiveWeight(now))
    ensures CountExpired(coupons, now) == Seqs.SumOf(coupons, ExpiredWeight(now))
    ensures TotalDiscount(coupons) == Seqs.SumOf(coupons, DiscountOf)
  {
    if |coupons| > 0 {
      CountsAsSums(coupons[..|coupons| - 1], now);
    }
  }

  /** The statistics depend only on which coupons there are, not on their order. */
  lemma CouponStatsPermutation(a: seq<Coupon>, b: seq<Coupon>, now: int)
    requires multiset(a) == multiset(b)
    ensures |a| == |b|
    ensures CountUsed(a) == CountUsed(b)
    ensures CountActive(a, now) == CountActive(b, now)
    ensures CountExpired(a, now) == CountExpired(b, now)
    ensures TotalDiscount(a) == TotalDiscount(b)
    ensures AverageDiscount(a) == AverageDiscount(b)
  {
    assert |multiset(a)| == |multiset(b)|;
    CountsAsSums(a, now);
    CountsAsSums(b, now);
    Seqs.SumOfPermutation(a, b, UsedWeight);
    Seqs.SumOfPermutation(a, b, ActiveWeight(now));
    Seqs.SumOfPermutation(a, b, ExpiredWeight(now));
    Seqs.SumOfPermutation(a, b, DiscountOf);
  }

  /** Every coupon is exactly one of used, active or expired. */
  lemma {:induction false} CouponStatesPartition(coupons: seq<Coupon>, now: int)
    ensures CountUsed(coupons) + CountActive(coupons, now) + CountExpired(coupons, now) == |coupons|
  {
    if |coupons| > 0 {
      CouponStatesPartition(coupons[..|coupons| - 1], now);
    }
  }

  /** The summed discount lies between |coupons| times the smallest and the largest percentage. */
  lemma {:induction false} TotalDiscountBounds(coupons: seq<Coupon>, lo: int, hi: int)
    requires forall k :: 0 <= k < |coupons| ==> lo <= coupons[k].discountPct <= hi
    ensures lo * |coupons| <= TotalDiscount(coupons) <= hi * |coupons|
  {
    if |coupons| > 0 {
      TotalDiscountBounds(coupons[..|coupons| - 1], lo, hi);
    }
  }

  /** `Math.round(p / q)` for integers and q > 0: round half up, exactly. */
  function RoundDiv(p: int, q: int): (r: int)
    requires q > 0
    ensures 2 * p - q <= 2 * q * r <= 2 * p + q
    ensures 2 * q * r > 2 * p - q
  {
    (2 * p + q) / (2 * q)
  }

  /** `coupons.length ? Math.round(totalDiscount / coupons.length) : 0`. */
  function AverageDiscount(coupons: seq<Coupon>): int {
    if |coupons| == 0 then 0 else RoundDiv(TotalDiscount(coupons), |coupons|)
  }

  /** Floor division by a positive divisor stays within bounds the dividend is within. */
  lemma DivBetween(x: int, q: int, a: int, b: int)
    requires q > 0 && q * a <= x < q * (b + 1)
    ensures a <= x / q <= b
  {
    var d := x / q;
    assert x == q * d + x % q && 0 <= x % q < q;
    if d < a {
      assert d + 1 <= a;
      MulMonotone(q, d + 1, a);
      assert false;
    }
    if d > b {
      assert b + 1 <= d;
      MulMonotone(q, b + 1, d);
      assert false;
    }
  }

  lemma MulMonotone(q: int, u: int, v: int)
    requires q > 0 && u <= v
    ensures q * u <= q * v
  {
    assert q * v - q * u == q * (v - u);
  }

  /** When every discount lies in [lo, hi], so does the rounded average. */
  lemma AverageDiscountBounds(coupons: seq<Coupon>, lo: int, hi: int)
    requires |coupons| > 0
    requires forall k :: 0 <= k < |coupons| ==> lo <= coupons[k].discountPct <= hi
    ensures lo <= AverageDiscount(coupons) <= hi
  {
    var n := |coupons|;
    var t := TotalDiscount(coupons);
    TotalDiscountBounds(coupons, lo, hi);
    assert (2 * n) * lo <= 2 * t + n by {
      assert (2 * n) * lo == 2 * (lo * n);
    }
    assert 2 * t + n < (2 * n) * (hi + 1) by {
      assert (2 * n) * (hi + 1) == 2 * (hi * n) + 2 * n;
    }
    DivBetween(2 * t + n, 2 * n, lo, hi);
  }
}
