/**
 * The browser mock router `api` of constants.js: the same ledger
 * operations as the reference server, run over a document kept in
 * localStorage, with its own constants and fewer checks. It has no points
 * history and no redemption log. `LocalDB.get` migrates the NGO list of a
 * stored document before every call.
 */
module MockLedger {
  import opened Wrappers
  import opened Milestones
  import opened LedgerTypes
  import opened Text
  import Seqs

  /** The volunteer join bonus of the mock (the server pays 50). */
  const MOCK_VOLUNTEER_BONUS: int := 15
  /** How many active coupons one user may hold (the server allows one). */
  const MOCK_COUPON_CAP: nat := 3
  /** A mock coupon is valid for exactly ten days. */
  const MOCK_EXPIRY_DAYS: int := 10
  const MOCK_REPORT_POINTS: int := 10
  const MOCK_RESOLVE_POINTS: int := 20
  const MOCK_ADMIN_RECENT: nat := 10
  /** `LocalDB._ngo_version`: the revision of the NGO seed data. */
  const NGO_VERSION: int := 2

  /** The seven NGOs of the seed document, in seed order. */
  const SEED_NGOS: seq<Ngo> := [
    Ngo("ngo1", "GreenEarth Foundation"),
    Ngo("ngo2", "CleanStreets Initiative"),
    Ngo("ngo3", "Harit Bhumi Trust"),
    Ngo("ngo4", "Blue Planet Warriors"),
    Ngo("ngo5", "Adar Poonawalla Clean City Initiative"),
    Ngo("ngo6", "Environmentalist Foundation of India"),
    Ngo("ngo7", "Tarun Bharat Sangh")]

  /** The refusals of the mock, each answered with `{success: false, message}`. */
  datatype MockError =
    | EmailTaken | ReportNotFound | UserNotFound | InsufficientPoints
    | CouponLimitReached | CouponNotFound | NgoNotFound | AlreadyJoined

  // ---------------------------------------------------------------------
  // Tiers as the mock computes them
  // ---------------------------------------------------------------------

  /** The `discountRanges` table of the mock redeem branch. */
  function MockDiscountBounds(t: Tier): (int, int) {
    match t
    case Silver => (30, 40)
    case Gold => (40, 55)
    case Platinum => (55, 70)
  }

  /**
   * The tier, milestone and bounds the mock redeem branch computes from
   * `total_earned_points`, each from its own chain of comparisons.
   */
  function MockRedeemRange(total: int): (r: DiscountRange)
    ensures 30 <= r.min <= r.max <= 70
    ensures r.tier == Platinum <==> total >= 2000
    ensures r.tier == Gold <==> 1000 <= total < 2000
    ensures r.milestone == TierMilestone(r.tier)
  {
    var tier := if total >= 2000 then Platinum else if total >= 1000 then Gold else Silver;
    var milestone := if total >= 2000 then 2000 else if total >= 1000 then 1000 else 500;
    var bounds := MockDiscountBounds(tier);
    DiscountRange(bounds.0, bounds.1, tier, milestone)
  }

  /** For the same lifetime total, the mock's redeem table is the server's `getDiscountRange` row. */
  lemma MockRedeemRangeIsServerTable(total: int)
    ensures MockRedeemRange(total) == DiscountRangeFor(total)
  {
  }

  /** The tier GET /rewards reports: `'None'` below 500 lifetime points. */
  function MockTier(total: int): (t: Option<Tier>)
    ensures t.None? <==> total < REDEEM_MIN
    ensures t.Some? ==> t.value == DiscountRangeFor(total).tier
  {
    if total >= 2000 then Some(Platinum)
    else if total >= 1000 then Some(Gold)
    else if total >= 500 then Some(Silver)
    else None
  }

  // ---------------------------------------------------------------------
  // Read-only branches
  // ---------------------------------------------------------------------

  /** The answer of GET /rewards/:userId in the mock. */
  datatype MockRewardStatus = MockRewardStatus(
    points: int, totalEarned: int, milestoneStatus: MilestoneStatus, tier: Option<Tier>,
    activeCoupon: Option<Coupon>, activeCoupons: seq<Coupon>, allCoupons: seq<Coupon>)

  /** GET /rewards/:userId: the user's coupons, the active ones in document order, and the tier. */
  function MockRewardsOf(users: seq<User>, coupons: seq<Coupon>, userId: string, now: int)
      : (r: Result<MockRewardStatus, MockError>)
    ensures r.Err? <==> FindUser(users, userId).None?
    ensures r.Ok? ==>
      var u := users[FindUser(users, userId).value];
      var st := r.value;
      && st.points == u.points && st.totalEarned == u.totalEarned && st.milestoneStatus == u.milestoneStatus
      && st.tier == MockTier(u.totalEarned)
      && (st.tier.None? <==> u.totalEarned < REDEEM_MIN)
      && st.allCoupons == Seqs.FilterKey(coupons, CouponOwnerOf, userId)
      && st.activeCoupons == ActiveCoupons(coupons, userId, now)
      && (forall k :: 0 <= k < |st.allCoupons| ==> st.allCoupons[k].userId == userId)
      && (forall k :: 0 <= k < |coupons| && coupons[k].userId == userId ==> coupons[k] in st.allCoupons)
      && (forall k :: 0 <= k < |st.activeCoupons| ==>
            st.activeCoupons[k].userId == userId && IsActive(st.activeCoupons[k], now))
      && (forall k :: 0 <= k < |coupons| && coupons[k].userId == userId && IsActive(coupons[k], now) ==>
            coupons[k] in st.activeCoupons)
      && (st.activeCoupon.None? <==> |st.activeCoupons| == 0)
      && (st.activeCoupon.Some? ==> st.activeCoupon.value == st.activeCoupons[0])
      && (st.activeCoupon.Some? ==>
            exists j ::
              && 0 <= j < |coupons| && coupons[j] == st.activeCoupon.value
              && coupons[j].userId == userId && IsActive(coupons[j], now)
              && forall k :: 0 <= k < j && coupons[k].userId == userId ==> !IsActive(coupons[k], now))
  {
    match FindUser(users, userId)
    case None => Err(UserNotFound)
    case Some(i) =>
      var u := users[i];
      var active := ActiveCoupons(coupons, userId, now);
      if |active| > 0 then
        ActiveCouponsFirst(coupons, userId, now);
        Ok(MockRewardStatus(u.points, u.totalEarned, u.milestoneStatus, MockTier(u.totalEarned),
                            Some(active[0]), active, Seqs.FilterKey(coupons, CouponOwnerOf, userId)))
      else
        Ok(MockRewardStatus(u.points, u.totalEarned, u.milestoneStatus, MockTier(u.totalEarned),
                            None, active, Seqs.FilterKey(coupons, CouponOwnerOf, userId)))
  }

  /** The answer of GET /admin/coupons in the mock. */
  datatype MockCouponStats = MockCouponStats(total: nat, active: nat, used: nat, avgDiscount: int, recent: seq<Coupon>)

  /**
   * GET /admin/coupons: counts over the whole list, and the last ten coupons
   * issued, newest first (`coupons.slice(-10).reverse()`).
   */
  function MockAdminCoupons(coupons: seq<Coupon>, now: int): (r: MockCouponStats)
    ensures r.total == |coupons|
    ensures r.active + r.used <= r.total
    ensures r.used == CountUsed(coupons) && r.active == CountActive(coupons, now)
    ensures r.avgDiscount == if |coupons| == 0 then 0 else RoundDiv(TotalDiscount(coupons), |coupons|)
    ensures |r.recent| == if |coupons| < MOCK_ADMIN_RECENT then |coupons| else MOCK_ADMIN_RECENT
    ensures forall k :: 0 <= k < |r.recent| ==> r.recent[k] == coupons[|coupons| - 1 - k]
    ensures (forall k :: 0 <= k < |coupons| ==> 30 <= coupons[k].discountPct <= 70) ==>
      (|coupons| == 0 ==> r.avgDiscount == 0) && (|coupons| > 0 ==> 30 <= r.avgDiscount <= 70)
  {
    CouponStatesPartition(coupons, now);
    var start := if |coupons| < MOCK_ADMIN_RECENT then 0 else |coupons| - MOCK_ADMIN_RECENT;
    var avg := AverageDiscount(coupons);
    assert (forall k :: 0 <= k < |coupons| ==> 30 <= coupons[k].discountPct <= 70) && |coupons| > 0 ==> 30 <= avg <= 70 by {
      if (forall k :: 0 <= k < |coupons| ==> 30 <= coupons[k].discountPct <= 70) && |coupons| > 0 {
        AverageDiscountBounds(coupons, 30, 70);
      }
    }
    MockCouponStats(|coupons|, CountActive(coupons, now), CountUsed(coupons), avg, Seqs.Reverse(coupons[start..]))
  }

  /** Every discount the mock can issue lies in [30, 70], so the statistics average does too. */
  lemma MockDiscountsWithinTable(total: int, roll: nat)
    ensures var range := MockRedeemRange(total);
      30 <= PickInRange(range.min, range.max, roll) <= 70
  {
  }

  // ---------------------------------------------------------------------
  // The NGO migration of `LocalDB.get`
  // ---------------------------------------------------------------------

  predicate HasNgo(ngos: seq<Ngo>, id: string) {
    exists j :: 0 <= j < |ngos| && ngos[j].id == id
  }

  predicate DistinctIds(ngos: seq<Ngo>) {
    forall i, j :: 0 <= i < j < |ngos| ==> ngos[i].id != ngos[j].id
  }

  /** `seedNgos.filter(n => !existingIds.has(n.id))`. */
  function MissingSeeds(existing: seq<Ngo>, seeds: seq<Ngo>): (r: seq<Ngo>)
    ensures |r| <= |seeds|
    ensures forall k :: 0 <= k < |r| ==> r[k] in seeds && !HasNgo(existing, r[k].id)
    ensures forall k :: 0 <= k < |seeds| && !HasNgo(existing, seeds[k].id) ==> seeds[k] in r
  {
    if |seeds| == 0 then []
    else
      var n := seeds[|seeds| - 1];
      MissingSeeds(existing, seeds[..|seeds| - 1]) + (if HasNgo(existing, n.id) then [] else [n])
  }

  /** The filtered seeds never repeat an id when the seeds themselves do not. */
  lemma {:induction false} MissingSeedsDistinct(existing: seq<Ngo>, seeds: seq<Ngo>)
    requires DistinctIds(seeds)
    ensures DistinctIds(MissingSeeds(existing, seeds))
  {
    if |seeds| > 0 {
      var init := seeds[..|seeds| - 1];
      var n := seeds[|seeds| - 1];
      MissingSeedsDistinct(existing, init);
      var r0 := MissingSeeds(existing, init);
      forall k | 0 <= k < |r0| ensures r0[k].id != n.id {
        var j :| 0 <= j < |init| && init[j] == r0[k];
        assert seeds[j] == r0[k];
      }
    }
  }

  /**
   * The merged list keeps every stored NGO in place, carries every seed id,
   * and repeats no id when the stored list and the seeds did not.
   */
  lemma MergeSeedsProps(existing: seq<Ngo>, seeds: seq<Ngo>)
    ensures var merged := existing + MissingSeeds(existing, seeds);
      && merged[..|existing|] == existing
      && (forall k :: 0 <= k < |seeds| ==> HasNgo(merged, seeds[k].id))
      && (DistinctIds(existing) && DistinctIds(seeds) ==> DistinctIds(merged))
  {
    var extra := MissingSeeds(existing, seeds);
    var merged := existing + extra;
    assert merged[..|existing|] == existing;
    forall k | 0 <= k < |seeds| ensures HasNgo(merged, seeds[k].id) {
      if HasNgo(existing, seeds[k].id) {
        var j :| 0 <= j < |existing| && existing[j].id == seeds[k].id;
        assert merged[j] == existing[j];
      } else {
        var j :| 0 <= j < |extra| && extra[j] == seeds[k];
        assert merged[|existing| + j] == extra[j];
      }
    }
    if DistinctIds(existing) && DistinctIds(seeds) {
      MissingSeedsDistinct(existing, seeds);
      forall i, j | 0 <= i < j < |merged| ensures merged[i].id != merged[j].id {
        if j >= |existing| && i < |existing| {
          assert merged[j] == extra[j - |existing|];
          assert merged[i] == existing[i];
        } else if i >= |existing| {
          assert merged[i] == extra[i - |existing|] && merged[j] == extra[j - |existing|];
        }
      }
    }
  }

  lemma SeedIdsDistinct()
    ensures DistinctIds(SEED_NGOS)
  {
  }

  // ---------------------------------------------------------------------
  // The document and the mutating branches
  // ---------------------------------------------------------------------

  function MockVolunteerKey(v: Volunteer): (string, string) {
    (v.ngoId, v.userId)
  }

  /** `Math.floor(amount / 10)`: a point per whole ten rupees. */
  function DonationPoints(amount: int): (p: int)
    ensures 10 * p <= amount < 10 * p + 10
    ensures amount >= 0 ==> p >= 0
    ensures p > 0 <==> amount >= 10
  {
    amount / 10
  }

  /**
   * The user a mock redemption leaves: the milestone comes off the balance,
   * a lifetime total that was never set is taken to be the balance before
   * the deduction, and the status becomes Redeemed.
   */
  function MockAfterRedeem(u: User, cost: int): (v: User)
    requires cost >= 0
    ensures v.points == u.points - cost && v.milestoneStatus == Redeemed
    ensures v.totalEarned == if u.totalEarned == 0 then u.points else u.totalEarned
    ensures u.points <= u.totalEarned ==> v.points <= v.totalEarned
    ensures v.id == u.id && v.name == u.name && v.email == u.email
  {
    var paid := u.(points := u.points - cost, milestoneStatus := Redeemed);
    if u.totalEarned == 0 then paid.(totalEarned := paid.points + cost) else paid
  }

  /** The localStorage document, as `LocalDB.get` returns it. */
  class MockDb {
    var users: seq<User>
    var reports: seq<Report>
    var coupons: seq<Coupon>
    var ngos: seq<Ngo>
    var volunteers: seq<Volunteer>
    var donations: seq<Donation>
    /** `_ngo_version`; 0 when the stored document has none. */
    var ngoVersion: int

    /** The document as parsed from localStorage (a missing list is empty). */
    constructor (users0: seq<User>, reports0: seq<Report>, coupons0: seq<Coupon>, ngos0: seq<Ngo>,
                 volunteers0: seq<Volunteer>, donations0: seq<Donation>, version0: int)
      ensures users == users0 && reports == reports0 && coupons == coupons0 && ngos == ngos0
      ensures volunteers == volunteers0 && donations == donations0 && ngoVersion == version0
    {
      users, reports, coupons, ngos := users0, reports0, coupons0, ngos0;
      volunteers, donations, ngoVersion := volunteers0, donations0, version0;
    }

    /**
     * The migration of `LocalDB.get`: an empty NGO list is replaced by the
     * seed; a document older than the current seed revision gets the seed
     * NGOs whose ids it lacks appended; either stamps the current revision.
     */
    method Migrate()
      modifies this`ngos, this`ngoVersion
      ensures old(ngos) == [] ==> ngos == SEED_NGOS && ngoVersion == NGO_VERSION
      ensures old(ngos) != [] && old(ngoVersion) < NGO_VERSION ==>
        ngos == old(ngos) + MissingSeeds(old(ngos), SEED_NGOS) && ngoVersion == NGO_VERSION
      ensures old(ngos) != [] && old(ngoVersion) >= NGO_VERSION ==>
        ngos == old(ngos) && ngoVersion == old(ngoVersion)
      ensures ngoVersion >= NGO_VERSION
      ensures ngos[..|old(ngos)|] == old(ngos)
      ensures forall k :: 0 <= k < |SEED_NGOS| && (old(ngos) == [] || old(ngoVersion) < NGO_VERSION) ==>
        HasNgo(ngos, SEED_NGOS[k].id)
      ensures DistinctIds(old(ngos)) ==> DistinctIds(ngos)
    {
      if |ngos| == 0 {
        SeedIdsDistinct();
        forall k | 0 <= k < |SEED_NGOS| ensures HasNgo(SEED_NGOS, SEED_NGOS[k].id) {
        }
        ngos := SEED_NGOS;
        ngoVersion := NGO_VERSION;
      }
      if ngoVersion < NGO_VERSION {
        MergeSeedsProps(ngos, SEED_NGOS);
        if DistinctIds(ngos) {
          SeedIdsDistinct();
        }
        var newNgos := MissingSeeds(ngos, SEED_NGOS);
        if |newNgos| > 0 {
          ngos := ngos + newNgos;
        } else {
          assert ngos + newNgos == ngos;
        }
        ngoVersion := NGO_VERSION;
      }
    }

    /** POST /auth/signup: the same record the server creates. */
    method Signup(name: string, email: string, password: string, id: string) returns (r: Result<User, MockError>)
      modifies this`users
      ensures Seqs.FirstIndex(old(users), UserEmailOf, email).Some? ==> r == Err(EmailTaken) && users == old(users)
      ensures Seqs.FirstIndex(old(users), UserEmailOf, email).None? ==>
        var u := User(id, name, email, password, Citizen, 0, 0, [], None, Locked);
        users == old(users) + [u] && r == Ok(Safe(u))
      ensures BalanceWithinEarned(old(users)) ==> BalanceWithinEarned(users)
    {
      if Seqs.FirstIndex(users, UserEmailOf, email).Some? {
        return Err(EmailTaken);
      }
      var u := User(id, name, email, password, Citizen, 0, 0, [], None, Locked);
      users := users + [u];
      r := Ok(Safe(u));
    }

    /**
     * POST /reports: the report is put first; its author earns 10 points
     * and is unlocked exactly when a milestone is crossed.
     */
    method SubmitReport(userId: string, userName: string, area: string, wasteType: string, description: string,
                        reportId: string, now: int)
        returns (report: Report, newPoints: int, milestone: Option<int>)
      modifies this`reports, this`users
      ensures report == Report(reportId, userId, userName, area, wasteType, description, PENDING, now, None)
      ensures reports == [report] + old(reports)
      ensures match FindUser(old(users), userId)
        case None => users == old(users) && newPoints == 0 && milestone == None
        case Some(i) =>
          && users == old(users)[i := CreditAndUnlock(old(users)[i], MOCK_REPORT_POINTS)]
          && newPoints == old(users)[i].points + MOCK_REPORT_POINTS
          && milestone == CrossedMilestone(old(users)[i].points, newPoints)
      ensures BalanceWithinEarned(old(users)) ==> BalanceWithinEarned(users)
    {
      report := Report(reportId, userId, userName, area, wasteType, description, PENDING, now, None);
      reports := [report] + reports;
      var found := FindUser(users, userId);
      var oldPoints := 0;
      newPoints := 0;
      if found.Some? {
        var i := found.value;
        oldPoints := users[i].points;
        users := users[i := Credited(users[i], MOCK_REPORT_POINTS)];
        newPoints := users[i].points;
      }
      milestone := CheckMilestoneUnlock(oldPoints, newPoints);
      if milestone.Some? && found.Some? {
        var i := found.value;
        users := users[i := users[i].(milestoneStatus := Unlocked)];
      }
    }

    /**
     * PATCH /reports/:id/status: every set to Resolved, even of a report
     * already resolved, pays its author 20; no milestone is checked.
     */
    method SetReportStatus(reportId: string, status: string, now: int) returns (r: Result<Report, MockError>)
      modifies this`reports, this`users
      ensures match Seqs.FirstIndex(old(reports), ReportIdOf, reportId)
        case None => r == Err(ReportNotFound) && reports == old(reports) && users == old(users)
        case Some(k) =>
          var rep := old(reports)[k];
          var rep' := rep.(status := status, resolvedAt := if status == RESOLVED then Some(now) else rep.resolvedAt);
          && reports == old(reports)[k := rep']
          && r == Ok(rep')
          && (status == RESOLVED && FindUser(old(users), rep.userId).Some? ==>
                var i := FindUser(old(users), rep.userId).value;
                users == old(users)[i := Credited(old(users)[i], MOCK_RESOLVE_POINTS)])
          && (!(status == RESOLVED && FindUser(old(users), rep.userId).Some?) ==> users == old(users))
      ensures BalanceWithinEarned(old(users)) ==> BalanceWithinEarned(users)
    {
      var found := Seqs.FirstIndex(reports, ReportIdOf, reportId);
      if found.None? {
        return Err(ReportNotFound);
      }
      var k := found.value;
      var rep := reports[k].(status := status);
      if status == RESOLVED {
        rep := rep.(resolvedAt := Some(now));
        var owner := FindUser(users, rep.userId);
        if owner.Some? {
          var i := owner.value;
          users := users[i := Credited(users[i], MOCK_RESOLVE_POINTS)];
        }
      }
      reports := reports[k := rep];
      r := Ok(rep);
    }

    /** POST /users/:id/points: any amount is credited, with no check on its sign. */
    method AddPoints(userId: string, points: int) returns (r: Result<(int, Option<int>), MockError>)
      modifies this`users
      ensures FindUser(old(users), userId).None? ==> r == Err(UserNotFound) && users == old(users)
      ensures FindUser(old(users), userId).Some? ==>
        var i := FindUser(old(users), userId).value;
        && users == old(users)[i := CreditAndUnlock(old(users)[i], points)]
        && r == Ok((old(users)[i].points + points, CrossedMilestone(old(users)[i].points, old(users)[i].points + points)))
      ensures BalanceWithinEarned(old(users)) ==> BalanceWithinEarned(users)
    {
      var found := FindUser(users, userId);
      if found.None? {
        return Err(UserNotFound);
      }
      var i := found.value;
      var oldPoints := users[i].points;
      var u := Credited(users[i], points);
      var crossed := CheckMilestoneUnlock(oldPoints, u.points);
      if crossed.Some? {
        u := u.(milestoneStatus := Unlocked);
      }
      users := users[i := u];
      r := Ok((u.points, crossed));
    }

    /**
     * POST /rewards/redeem in the mock. The checks run in order: user,
     * balance, then the three-coupon cap; a failure changes nothing. There
     * is no brand check. On success one coupon valid for ten days is
     * appended, the milestone is taken from the balance only, and the
     * status becomes Redeemed.
     */
    method Redeem(userId: string, brand: string, now: int, couponId: string,
                  discountRoll: nat, suffix: string, hash: string)
        returns (r: Result<Coupon, MockError>)
      modifies this`users, this`coupons
      ensures r.Err? ==> users == old(users) && coupons == old(coupons)
      ensures FindUser(old(users), userId).None? ==> r == Err(UserNotFound)
      ensures FindUser(old(users), userId).Some? ==>
        var u := old(users)[FindUser(old(users), userId).value];
        && (u.points < REDEEM_MIN ==> r == Err(InsufficientPoints))
        && (u.points >= REDEEM_MIN && |ActiveCoupons(old(coupons), userId, now)| >= MOCK_COUPON_CAP ==>
              r == Err(CouponLimitReached))
      ensures r.Ok? <==>
        && FindUser(old(users), userId).Some?
        && old(users)[FindUser(old(users), userId).value].points >= REDEEM_MIN
        && |ActiveCoupons(old(coupons), userId, now)| < MOCK_COUPON_CAP
      ensures r.Ok? ==>
        var i := FindUser(old(users), userId).value;
        var u := old(users)[i];
        var range := DiscountRangeFor(u.totalEarned);
        var c := r.value;
        && coupons == old(coupons) + [c]
        && c.id == couponId && c.userId == userId && c.userName == u.name && c.brand == brand
        && range.min <= c.discountPct <= range.max
        && c.tier == range.tier && c.milestone == range.milestone
        && c.code == CouponCode(brand, c.discountPct, suffix) && c.hash == hash
        && !c.used && c.expiresAt == now + MOCK_EXPIRY_DAYS * DAY_MS && c.createdAt == now && c.redeemedAt == None
        && users == old(users)[i := MockAfterRedeem(u, range.milestone)]
        && |ActiveCoupons(coupons, userId, now)| == |ActiveCoupons(old(coupons), userId, now)| + 1 <= MOCK_COUPON_CAP
      ensures BalanceWithinEarned(old(users)) ==> BalanceWithinEarned(users)
    {
      var found := FindUser(users, userId);
      if found.None? {
        return Err(UserNotFound);
      }
      var i := found.value;
      var u := users[i];
      if u.points < REDEEM_MIN {
        return Err(InsufficientPoints);
      }
      if |ActiveCoupons(coupons, userId, now)| >= MOCK_COUPON_CAP {
        return Err(CouponLimitReached);
      }
      var range := MockRedeemRange(u.totalEarned);
      MockRedeemRangeIsServerTable(u.totalEarned);
      var discount := PickInRange(range.min, range.max, discountRoll);
      var code := CouponCode(brand, discount, suffix);
      var c := Coupon(couponId, userId, u.name, brand, code, hash, discount, range.tier, range.milestone,
                      false, now + MOCK_EXPIRY_DAYS * DAY_MS, now, None);
      assert IsActive(c, now);
      ActiveCouponsAppend(coupons, c, userId, now);
      coupons := coupons + [c];
      var paid := MockAfterRedeem(u, range.milestone);
      if BalanceWithinEarned(users) {
        BalanceWithinEarnedUpdate(users, i, paid);
      }
      users := users[i := paid];
      r := Ok(c);
    }

    /** PATCH /rewards/coupon/:id/use: any existing coupon is marked used; nothing else is checked. */
    method UseCoupon(couponId: string) returns (r: Result<(), MockError>)
      modifies this`coupons
      ensures match Seqs.FirstIndex(old(coupons), CouponIdOf, couponId)
        case None => r == Err(CouponNotFound) && coupons == old(coupons)
        case Some(k) => r == Ok(()) && coupons == old(coupons)[k := old(coupons)[k].(used := true)]
      ensures |coupons| == |old(coupons)|
      ensures forall k :: 0 <= k < |coupons| && old(coupons)[k].used ==> coupons[k].used
    {
      var found := Seqs.FirstIndex(coupons, CouponIdOf, couponId);
      if found.None? {
        return Err(CouponNotFound);
      }
      var k := found.value;
      coupons := coupons[k := coupons[k].(used := true)];
      r := Ok(());
    }

    /**
     * POST /ngos/:id/volunteer: a second join of the same (NGO, user) pair
     * is refused; a first join is recorded and pays 15 points, with no
     * milestone check.
     */
    method JoinNgo(ngoId: string, userId: string, name: string, email: string, phone: string,
                   volId: string, now: int)
        returns (r: Result<(Volunteer, int), MockError>)
      modifies this`volunteers, this`users
      ensures Seqs.FirstIndex(old(ngos), NgoIdOf, ngoId).None? ==> r == Err(NgoNotFound)
      ensures (Seqs.FirstIndex(old(ngos), NgoIdOf, ngoId).Some?
               && Seqs.FirstIndex(old(volunteers), MockVolunteerKey, (ngoId, userId)).Some?) ==> r == Err(AlreadyJoined)
      ensures r.Err? ==> volunteers == old(volunteers) && users == old(users)
      ensures r.Ok? <==>
        Seqs.FirstIndex(old(ngos), NgoIdOf, ngoId).Some?
        && Seqs.FirstIndex(old(volunteers), MockVolunteerKey, (ngoId, userId)).None?
      ensures r.Ok? ==>
        var v := Volunteer(volId, ngoId, "", userId, name, email, phone, "", "", "", now);
        && volunteers == old(volunteers) + [v]
        && r.value.0 == v
        && match FindUser(old(users), userId)
           case None => users == old(users) && r.value.1 == 0
           case Some(i) =>
             users == old(users)[i := Credited(old(users)[i], MOCK_VOLUNTEER_BONUS)]
             && r.value.1 == old(users)[i].points + MOCK_VOLUNTEER_BONUS
      ensures BalanceWithinEarned(old(users)) ==> BalanceWithinEarned(users)
    {
      if Seqs.FirstIndex(ngos, NgoIdOf, ngoId).None? {
        return Err(NgoNotFound);
      }
      if Seqs.FirstIndex(volunteers, MockVolunteerKey, (ngoId, userId)).Some? {
        return Err(AlreadyJoined);
      }
      var v := Volunteer(volId, ngoId, "", userId, name, email, phone, "", "", "", now);
      volunteers := volunteers + [v];
      var newPoints := 0;
      var found := FindUser(users, userId);
      if found.Some? {
        var i := found.value;
        users := users[i := Credited(users[i], MOCK_VOLUNTEER_BONUS)];
        newPoints := users[i].points;
      }
      r := Ok((v, newPoints));
    }

    /**
     * POST /ngos/:id/donate: the donation is recorded whatever its amount;
     * the donor earns `floor(amount / 10)` points only when that is positive,
     * with no milestone check. Returns the donation, the new balance (0 for
     * an unknown donor) and the points earned.
     */
    method Donate(ngoId: string, userId: string, donorName: string, donorEmail: string, amount: int,
                  paymentMethod: string, donId: string, txnId: string, receiptNo: string, now: int)
        returns (r: Result<(Donation, int, int), MockError>)
      modifies this`donations, this`users
      ensures Seqs.FirstIndex(old(ngos), NgoIdOf, ngoId).None? ==>
        r == Err(NgoNotFound) && donations == old(donations) && users == old(users)
      ensures Seqs.FirstIndex(old(ngos), NgoIdOf, ngoId).Some? ==>
        var ngo := old(ngos)[Seqs.FirstIndex(old(ngos), NgoIdOf, ngoId).value];
        var d := Donation(donId, ngoId, ngo.name, userId, if donorName != "" then donorName else "Anonymous",
                          donorEmail, amount, if paymentMethod != "" then paymentMethod else "UPI",
                          txnId, receiptNo, "success", now);
        var pts := DonationPoints(amount);
        && r.Ok? && r.value.0 == d && r.value.2 == pts
        && donations == old(donations) + [d]
        && match FindUser(old(users), userId)
           case None => users == old(users) && r.value.1 == 0
           case Some(i) =>
             && users == (if pts > 0 then old(users)[i := Credited(old(users)[i], pts)] else old(users))
             && r.value.1 == users[i].points
      ensures BalanceWithinEarned(old(users)) ==> BalanceWithinEarned(users)
    {
      var found := Seqs.FirstIndex(ngos, NgoIdOf, ngoId);
      if found.None? {
        return Err(NgoNotFound);
      }
      var ngo := ngos[found.value];
      var d := Donation(donId, ngoId, ngo.name, userId, if donorName != "" then donorName else "Anonymous",
                        donorEmail, amount, if paymentMethod != "" then paymentMethod else "UPI",
                        txnId, receiptNo, "success", now);
      donations := donations + [d];
      var pts := DonationPoints(amount);
      var newPoints := 0;
      var donor := FindUser(users, userId);
      if donor.Some? {
        var i := donor.value;
        if pts > 0 {
          users := users[i := Credited(users[i], pts)];
        }
        newPoints := users[i].points;
      }
      r := Ok((d, newPoints, pts));
    }
  }
}
