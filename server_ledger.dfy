/**
 * The reward ledger of the reference server: the request handlers that
 * read, check and rewrite the JSON document, with the document held as a
 * `ServerDb` object whose collections the handlers update in place.
 * Identifiers, clocks, random draws and the HMAC primitive are parameters.
 */
module ServerLedger {
  import opened Wrappers
  import opened Milestones
  import opened LedgerTypes
  import opened Text
  import Seqs

  /** The brands a coupon may be issued for. */
  const BRANDS: seq<string> := ["Myntra", "Zara", "Ajio", "Trends"]

  const REPORT_POINTS: int := 10
  const RESOLVE_POINTS: int := 20
  /** The join bonus for volunteering (the browser mock pays 15). */
  const VOLUNTEER_BONUS: int := 50
  const HISTORY_LIMIT: nat := 50
  const LEADERBOARD_LIMIT: nat := 20
  const MIN_EXPIRY_DAYS: int := 7
  const MAX_EXPIRY_DAYS: int := 15

  /** The refusals, each answered with `{success: false, message}` and an HTTP status. */
  datatype ServerError =
    | EmailTaken | ReportNotFound | InvalidPoints | UserNotFound
    | InvalidBrand | InsufficientPoints | ActiveCouponExists(existing: Coupon)
    | CouponNotFound | Unauthorized | AlreadyUsed | InvalidHash
    | MissingFields | NgoNotFound | AlreadyJoined | InvalidAmount

  /** The HTTP status of each refusal: conflicts 409, missing records 404, refused permissions 403, bad input 400. */
  function HttpStatus(e: ServerError): (s: int)
    ensures s in {400, 403, 404, 409}
    ensures s == 409 <==> e.EmailTaken? || e.ActiveCouponExists? || e.AlreadyUsed? || e.AlreadyJoined?
    ensures s == 404 <==> e.ReportNotFound? || e.UserNotFound? || e.CouponNotFound? || e.NgoNotFound?
    ensures s == 403 <==> e.InsufficientPoints? || e.Unauthorized? || e.InvalidHash?
  {
    match e
    case EmailTaken | ActiveCouponExists(_) | AlreadyUsed | AlreadyJoined => 409
    case ReportNotFound | UserNotFound | CouponNotFound | NgoNotFound => 404
    case InvalidPoints | InvalidBrand | MissingFields | InvalidAmount => 400
    case InsufficientPoints | Unauthorized | InvalidHash => 403
  }

  datatype RedemptionLog = RedemptionLog(
    id: string, userId: string, userName: string, couponId: string, brand: string,
    discount: int, tier: Tier, pointsDeducted: int, createdAt: int)

  /**
   * `hashCoupon(code, userId)`: the first 16 hex digits of an HMAC of
   * `code:userId`. The keyed HMAC is the parameter `hmac`.
   */
  function HashCoupon(hmac: string -> string, code: string, userId: string): (h: string)
    ensures h <= hmac(code + ":" + userId)
    ensures |h| == if |hmac(code + ":" + userId)| < 16 then |hmac(code + ":" + userId)| else 16
  {
    Seqs.Take(hmac(code + ":" + userId), 16)
  }

  /** The balance and status a redemption leaves. */
  function AfterRedeem(u: User, cost: int): (v: User)
    ensures v.points == u.points - cost
    ensures v.milestoneStatus == Unlocked <==> v.points >= REDEEM_MIN
    ensures v.(points := u.points, milestoneStatus := u.milestoneStatus) == u
    ensures cost >= 0 && u.points <= u.totalEarned ==> v.points <= v.totalEarned
  {
    u.(points := u.points - cost, milestoneStatus := if u.points - cost >= REDEEM_MIN then Unlocked else Locked)
  }

  /**
   * The balance check asks for 500 points but the tier's milestone is taken,
   * so a member with a large lifetime total and a small balance is left
   * below zero, and locked.
   */
  lemma RedeemCanOverdraw()
    ensures var u := User("u1", "A", "a@b", "", Citizen, 600, 2500, [], None, Unlocked);
      var cost := DiscountRangeFor(EarnedOrPoints(u)).milestone;
      && u.points >= REDEEM_MIN
      && cost == 2000
      && AfterRedeem(u, cost).points == -1400
      && AfterRedeem(u, cost).milestoneStatus == Locked
  {
  }

  /** The expiry window: 7 to 15 whole days after issue. */
  function ExpiryDays(roll: nat): (d: int)
    ensures MIN_EXPIRY_DAYS <= d <= MAX_EXPIRY_DAYS
  {
    PickInRange(MIN_EXPIRY_DAYS, MAX_EXPIRY_DAYS, roll)
  }

  function VolunteerKey(v: Volunteer): (string, string) {
    (v.email, v.ngoId)
  }

  /** The answer of GET /api/rewards/:userId. */
  datatype RewardStatus = RewardStatus(
    points: int, totalEarned: int, milestoneStatus: MilestoneStatus, nextMilestone: Option<int>,
    tier: Tier, range: DiscountRange, activeCoupon: Option<Coupon>, allCoupons: seq<Coupon>)

  /**
   * GET /api/rewards/:userId: the user's coupons, the first active one, the
   * next threshold above the balance and the tier of lifetime points.
   */
  function RewardsOf(users: seq<User>, coupons: seq<Coupon>, userId: string, now: int): (r: Result<RewardStatus, ServerError>)
    ensures r.Err? <==> FindUser(users, userId).None?
    ensures r.Err? ==> r.error == UserNotFound
    ensures r.Ok? ==>
      var u := users[FindUser(users, userId).value];
      var st := r.value;
      && st.points == u.points && st.totalEarned == EarnedOrPoints(u) && st.milestoneStatus == u.milestoneStatus
      && st.nextMilestone == NextMilestone(u.points)
      && st.range == DiscountRangeFor(EarnedOrPoints(u)) && st.tier == st.range.tier
      && st.allCoupons == Seqs.FilterKey(coupons, CouponOwnerOf, userId)
      && (forall k :: 0 <= k < |st.allCoupons| ==> st.allCoupons[k].userId == userId)
      && (forall k :: 0 <= k < |coupons| && coupons[k].userId == userId ==> coupons[k] in st.allCoupons)
      && (st.activeCoupon.Some? ==>
            exists j :: 0 <= j < |st.allCoupons| && st.allCoupons[j] == st.activeCoupon.value
              && IsActive(st.allCoupons[j], now)
              && forall k :: 0 <= k < j ==> !IsActive(st.allCoupons[k], now))
      && (st.activeCoupon.None? <==> forall k :: 0 <= k < |st.allCoupons| ==> !IsActive(st.allCoupons[k], now))
  {
    match FindUser(users, userId)
    case None => Err(UserNotFound)
    case Some(i) =>
      var u := users[i];
      var mine := Seqs.FilterKey(coupons, CouponOwnerOf, userId);
      var first := Seqs.FirstIndex(mine, (c: Coupon) => IsActive(c, now), true);
      var range := DiscountRangeFor(EarnedOrPoints(u));
      Ok(RewardStatus(u.points, EarnedOrPoints(u), u.milestoneStatus, NextMilestone(u.points), range.tier, range,
                      if first.Some? then Some(mine[first.value]) else None, mine))
  }

  /**
   * GET /api/points-history/:userId: the user's entries, newest first,
   * at most 50 of them.
   */
  function PointsHistoryOf(history: seq<HistoryEntry>, userId: string): (r: seq<HistoryEntry>)
    ensures var mine := Seqs.FilterKey(history, HistoryOwnerOf, userId);
      |r| == if |mine| < HISTORY_LIMIT then |mine| else HISTORY_LIMIT
    ensures forall k :: 0 <= k < |r| ==> r[k].userId == userId
    ensures multiset(r) <= multiset(history)
    ensures Seqs.SortedDesc(r, HistoryCreatedAt)
    ensures |Seqs.FilterKey(history, HistoryOwnerOf, userId)| <= HISTORY_LIMIT
            ==> multiset(r) == multiset(Seqs.FilterKey(history, HistoryOwnerOf, userId))
  {
    Seqs.TopNOfKey(history, HistoryOwnerOf, userId, HistoryCreatedAt, HISTORY_LIMIT);
    Seqs.Take(Seqs.SortDesc(Seqs.FilterKey(history, HistoryOwnerOf, userId), HistoryCreatedAt), HISTORY_LIMIT)
  }

  /** The cap drops only the oldest entries: a user's entry left out is no newer than any entry returned. */
  lemma PointsHistoryKeepsNewest(history: seq<HistoryEntry>, userId: string, h: HistoryEntry)
    requires h in history && h.userId == userId && h !in PointsHistoryOf(history, userId)
    ensures forall k :: 0 <= k < |PointsHistoryOf(history, userId)| ==> h.createdAt <= PointsHistoryOf(history, userId)[k].createdAt
  {
    var mine := Seqs.FilterKey(history, HistoryOwnerOf, userId);
    var i :| 0 <= i < |history| && history[i] == h;
    assert h in mine;
    Seqs.TopOfSorted(mine, HistoryCreatedAt, HISTORY_LIMIT, h);
  }

  /** The statistics of GET /api/admin/coupons, over the coupons sorted newest first. */
  datatype CouponStats = CouponStats(
    coupons: seq<Coupon>, total: nat, used: nat, active: nat, expired: nat, totalDiscount: int, avgDiscount: int)

  /** GET /api/admin/coupons. */
  function AdminCoupons(coupons: seq<Coupon>, now: int): (r: CouponStats)
    ensures multiset(r.coupons) == multiset(coupons) && Seqs.SortedDesc(r.coupons, CouponCreatedAt)
    ensures r.total == |coupons|
    ensures r.used + r.active + r.expired == r.total
    ensures r.used == CountUsed(coupons) && r.active == CountActive(coupons, now) && r.expired == CountExpired(coupons, now)
    ensures r.totalDiscount == TotalDiscount(coupons)
    ensures r.total == 0 ==> r.avgDiscount == 0
    ensures r.total > 0 ==> r.avgDiscount == RoundDiv(r.totalDiscount, r.total)
    ensures (|coupons| > 0 && forall k :: 0 <= k < |coupons| ==> 30 <= coupons[k].discountPct <= 70)
            ==> 30 <= r.avgDiscount <= 70
  {
    var sorted := Seqs.SortDesc(coupons, CouponCreatedAt);
    Seqs.SortDescSorted(coupons, CouponCreatedAt);
    CouponStatesPartition(sorted, now);
    CouponStatsPermutation(sorted, coupons, now);
    PermutedAverageBounds(coupons, sorted);
    CouponStats(sorted, |sorted|, CountUsed(sorted), CountActive(sorted, now), CountExpired(sorted, now),
                TotalDiscount(sorted), AverageDiscount(sorted))
  }

  /** Reordering keeps the average inside the range all discounts lie in. */
  lemma PermutedAverageBounds(coupons: seq<Coupon>, sorted: seq<Coupon>)
    requires multiset(sorted) == multiset(coupons)
    ensures (|coupons| > 0 && forall k :: 0 <= k < |coupons| ==> 30 <= coupons[k].discountPct <= 70)
            ==> 30 <= AverageDiscount(sorted) <= 70
  {
    if |coupons| > 0 && forall k :: 0 <= k < |coupons| ==> 30 <= coupons[k].discountPct <= 70 {
      assert |sorted| == |coupons| by {
        assert |multiset(sorted)| == |multiset(coupons)|;
      }
      forall k | 0 <= k < |sorted| ensures 30 <= sorted[k].discountPct <= 70 {
        assert sorted[k] in multiset(coupons);
      }
      AverageDiscountBounds(sorted, 30, 70);
    }
  }

  /** A row of GET /api/admin/leaderboard. */
  datatype LeaderRow = LeaderRow(user: User, rptCount: nat, couponCount: nat)

  function ReportOwnerOf(r: Report): string { r.userId }

  /** The row of one user: safe fields plus report and coupon counts. */
  function RowOf(u: User, reports: seq<Report>, coupons: seq<Coupon>): LeaderRow {
    LeaderRow(Safe(u), |Seqs.FilterKey(reports, ReportOwnerOf, u.id)|, |Seqs.FilterKey(coupons, CouponOwnerOf, u.id)|)
  }

  function RowPasswordOf(row: LeaderRow): string { row.user.password }

  /** Sort key of the leaderboard: `total_earned_points || points`. */
  function LeaderScore(row: LeaderRow): int {
    EarnedOrPoints(row.user)
  }

  function LeaderRows(users: seq<User>, reports: seq<Report>, coupons: seq<Coupon>): (rows: seq<LeaderRow>)
    ensures |rows| == |users|
    ensures forall i :: 0 <= i < |users| ==> rows[i] == RowOf(users[i], reports, coupons)
  {
    seq(|users|, i requires 0 <= i < |users| => RowOf(users[i], reports, coupons))
  }

  /** GET /api/admin/leaderboard: the top 20 users by lifetime points. */
  function Leaderboard(users: seq<User>, reports: seq<Report>, coupons: seq<Coupon>): (r: seq<LeaderRow>)
    ensures |r| == if |users| < LEADERBOARD_LIMIT then |users| else LEADERBOARD_LIMIT
    ensures Seqs.SortedDesc(r, LeaderScore)
    ensures multiset(r) <= multiset(LeaderRows(users, reports, coupons))
    ensures forall k :: 0 <= k < |r| ==> r[k] in LeaderRows(users, reports, coupons)
    ensures forall k :: 0 <= k < |r| ==> r[k].user.password == ""
  {
    var rows := LeaderRows(users, reports, coupons);
    var r := Seqs.Take(Seqs.SortDesc(rows, LeaderScore), LEADERBOARD_LIMIT);
    Seqs.TopN(rows, LeaderScore, LEADERBOARD_LIMIT);
    Seqs.DrawnIn(r, rows);
    Seqs.DrawnKeepsKey(r, rows, RowPasswordOf, "");
    r
  }

  /** A user missing from the board scores no more than anyone on it. */
  lemma LeaderboardKeepsTop(users: seq<User>, reports: seq<Report>, coupons: seq<Coupon>, i: nat)
    requires i < |users| && RowOf(users[i], reports, coupons) !in Leaderboard(users, reports, coupons)
    ensures forall k :: 0 <= k < |Leaderboard(users, reports, coupons)| ==>
              EarnedOrPoints(users[i]) <= LeaderScore(Leaderboard(users, reports, coupons)[k])
  {
    var rows := LeaderRows(users, reports, coupons);
    assert rows[i] == RowOf(users[i], reports, coupons);
    Seqs.TopOfSorted(rows, LeaderScore, LEADERBOARD_LIMIT, rows[i]);
  }

  class ServerDb {
    var users: seq<User>
    var reports: seq<Report>
    var coupons: seq<Coupon>
    var history: seq<HistoryEntry>
    var ngos: seq<Ngo>
    var volunteers: seq<Volunteer>
    var donations: seq<Donation>
    var redemptionLogs: seq<RedemptionLog>

    /** The document as read from disk. */
    constructor (users0: seq<User>, reports0: seq<Report>, coupons0: seq<Coupon>, history0: seq<HistoryEntry>,
                 ngos0: seq<Ngo>, volunteers0: seq<Volunteer>, donations0: seq<Donation>)
      ensures users == users0 && reports == reports0 && coupons == coupons0 && history == history0
      ensures ngos == ngos0 && volunteers == volunteers0 && donations == donations0 && redemptionLogs == []
    {
      users, reports, coupons, history := users0, reports0, coupons0, history0;
      ngos, volunteers, donations, redemptionLogs := ngos0, volunteers0, donations0, [];
    }

    /** The credit step shared by every earning handler, with its `addPointsHistory` line. */
    method Credit(i: nat, delta: int, reason: string, category: string, histId: string, now: int)
        returns (crossed: Option<int>)
      requires i < |users|
      modifies this`users, this`history
      ensures users == old(users)[i := CreditAndUnlock(old(users)[i], delta)]
      ensures history == old(history) + [HistoryEntry(histId, old(users)[i].id, delta, reason, category, now)]
      ensures crossed == CrossedMilestone(old(users)[i].points, old(users)[i].points + delta)
      ensures BalanceWithinEarned(old(users)) ==> BalanceWithinEarned(users)
    {
      var u := users[i];
      var oldPts := u.points;
      u := Credited(u, delta);
      history := history + [HistoryEntry(histId, u.id, delta, reason, category, now)];
      crossed := CheckMilestoneUnlock(oldPts, u.points);
      if crossed.Some? {
        u := u.(milestoneStatus := Unlocked);
      }
      users := users[i := u];
    }

    /** POST /api/auth/signup. */
    method Signup(name: string, email: string, password: string, id: string) returns (r: Result<User, ServerError>)
      modifies this`users
      ensures Seqs.FirstIndex(old(users), UserEmailOf, email).Some? ==> r == Err(EmailTaken) && users == old(users)
      ensures Seqs.FirstIndex(old(users), UserEmailOf, email).None? ==>
        var u := User(id, name, email, password, Citizen, 0, 0, [], None, Locked);
        users == old(users) + [u] && r == Ok(Safe(u))
      ensures BalanceWithinEarned(old(users)) ==> BalanceWithinEarned(users)
    {
      if Seqs.FirstIndex(users, UserEmailOf, email).Some? {
        return Err(EmailTaken);
      }
      var u := User(id, name, email, password, Citizen, 0, 0, [], None, Locked);
      users := users + [u];
      r := Ok(Safe(u));
    }

    /** POST /api/reports: the report goes first in the list; its author earns 10 points. */
    method SubmitReport(userId: string, userName: string, area: string, wasteType: string, description: string,
                        reportId: string, histId: string, now: int)
        returns (report: Report, newPoints: int, milestone: Option<int>)
      modifies this`reports, this`users, this`history
      ensures report == Report(reportId, userId, userName, area, wasteType, description, PENDING, now, None)
      ensures reports == [report] + old(reports)
      ensures match FindUser(old(users), userId)
        case None => users == old(users) && history == old(history) && newPoints == 0 && milestone == None
        case Some(i) =>
          && users == old(users)[i := CreditAndUnlock(old(users)[i], REPORT_POINTS)]
          && history == old(history)
               + [HistoryEntry(histId, userId, REPORT_POINTS, "Report submitted: " + area + " (" + wasteType + ")", "report", now)]
          && newPoints == old(users)[i].points + REPORT_POINTS
          && milestone == CrossedMilestone(old(users)[i].points, newPoints)
      ensures BalanceWithinEarned(old(users)) ==> BalanceWithinEarned(users)
    {
      report := Report(reportId, userId, userName, area, wasteType, description, PENDING, now, None);
      reports := [report] + reports;
      var found := FindUser(users, userId);
      newPoints, milestone := 0, None;
      if found.Some? {
        var i := found.value;
        milestone := Credit(i, REPORT_POINTS, "Report submitted: " + area + " (" + wasteType + ")", "report", histId, now);
        newPoints := users[i].points;
      }
    }

    /**
     * PATCH /api/reports/:id/status: any status string is stored; only a
     * change from a non-Resolved status into Resolved pays the author 20.
     */
    method SetReportStatus(reportId: string, status: string, histId: string, now: int)
        returns (r: Result<(Report, Option<int>), ServerError>)
      modifies this`reports, this`users, this`history
      ensures match Seqs.FirstIndex(old(reports), ReportIdOf, reportId)
        case None =>
          r == Err(ReportNotFound) && reports == old(reports) && users == old(users) && history == old(history)
        case Some(k) =>
          var rep := old(reports)[k];
          var rep' := rep.(status := status, resolvedAt := if status == RESOLVED then Some(now) else rep.resolvedAt);
          var pays := status == RESOLVED && rep.status != RESOLVED;
          && reports == old(reports)[k := rep']
          && r.Ok? && r.value.0 == rep'
          && (pays && FindUser(old(users), rep.userId).Some? ==>
                var i := FindUser(old(users), rep.userId).value;
                && users == old(users)[i := CreditAndUnlock(old(users)[i], RESOLVE_POINTS)]
                && history == old(history)
                     + [HistoryEntry(histId, old(users)[i].id, RESOLVE_POINTS, "Complaint resolved: " + rep.area, "resolved", now)]
                && r.value.1 == CrossedMilestone(old(users)[i].points, old(users)[i].points + RESOLVE_POINTS))
          && (!(pays && FindUser(old(users), rep.userId).Some?) ==>
                users == old(users) && history == old(history) && r.value.1 == None)
      ensures BalanceWithinEarned(old(users)) ==> BalanceWithinEarned(users)
    {
      var found := Seqs.FirstIndex(reports, ReportIdOf, reportId);
      if found.None? {
        return Err(ReportNotFound);
      }
      var k := found.value;
      var rep := reports[k];
      var wasResolved := status == RESOLVED && rep.status != RESOLVED;
      var rep' := rep.(status := status);
      if status == RESOLVED {
        rep' := rep'.(resolvedAt := Some(now));
      }
      reports := reports[k := rep'];
      var milestone: Option<int> := None;
      if wasResolved {
        var owner := FindUser(users, rep.userId);
        if owner.Some? {
          milestone := Credit(owner.value, RESOLVE_POINTS, "Complaint resolved: " + rep.area, "resolved", histId, now);
        }
      }
      r := Ok((rep', milestone));
    }

    /**
     * POST /api/users/:id/points: a manual credit. A missing, zero or
     * negative amount is refused before the user is looked up.
     */
    method AddPoints(userId: string, points: Option<int>, reason: string, category: string, histId: string, now: int)
        returns (r: Result<(User, Option<int>), ServerError>)
      modifies this`users, this`history
      ensures (points.None? || points.value <= 0) ==> r == Err(InvalidPoints)
      ensures points.Some? && points.value > 0 && FindUser(old(users), userId).None? ==> r == Err(UserNotFound)
      ensures r.Ok? <==> points.Some? && points.value > 0 && FindUser(old(users), userId).Some?
      ensures r.Err? ==> users == old(users) && history == old(history)
      ensures r.Ok? ==>
        var i := FindUser(old(users), userId).value;
        && users == old(users)[i := CreditAndUnlock(old(users)[i], points.value)]
        && history == old(history) + [HistoryEntry(histId, userId, points.value,
             if reason != "" then reason else "Points added", if category != "" then category else "manual", now)]
        && r.value.0 == Safe(users[i])
        && r.value.1 == CrossedMilestone(old(users)[i].points, old(users)[i].points + points.value)
      ensures BalanceWithinEarned(old(users)) ==> BalanceWithinEarned(users)
    {
      if points.None? || points.value <= 0 {
        return Err(InvalidPoints);
      }
      var found := FindUser(users, userId);
      if found.None? {
        return Err(UserNotFound);
      }
      var i := found.value;
      var crossed := Credit(i, points.value, if reason != "" then reason else "Points added",
                            if category != "" then category else "manual", histId, now);
      r := Ok((Safe(users[i]), crossed));
    }

    /**
     * POST /api/rewards/redeem. The checks run in order: brand, user,
     * balance, then any active coupon; the first failure changes nothing.
     * On success one coupon is appended and the tier's milestone is taken
     * from the balance only; the balance may go below zero.
     */
    method Redeem(userId: string, brand: string, now: int, couponId: string, logId: string, histId: string,
                  discountRoll: nat, expiryRoll: nat, suffix: string, hmac: string -> string)
        returns (r: Result<Coupon, ServerError>)
      modifies this`users, this`coupons, this`history, this`redemptionLogs
      ensures r.Err? ==>
        users == old(users) && coupons == old(coupons) && history == old(history) && redemptionLogs == old(redemptionLogs)
      ensures brand !in BRANDS ==> r == Err(InvalidBrand)
      ensures brand in BRANDS && FindUser(old(users), userId).None? ==> r == Err(UserNotFound)
      ensures brand in BRANDS && FindUser(old(users), userId).Some? ==>
        var u := old(users)[FindUser(old(users), userId).value];
        var active := ActiveCoupons(old(coupons), userId, now);
        && (u.points < REDEEM_MIN ==> r == Err(InsufficientPoints))
        && (u.points >= REDEEM_MIN && |active| > 0 ==> r == Err(ActiveCouponExists(active[0])))
      ensures r.Ok? <==>
        && brand in BRANDS && FindUser(old(users), userId).Some?
        && old(users)[FindUser(old(users), userId).value].points >= REDEEM_MIN
        && |ActiveCoupons(old(coupons), userId, now)| == 0
      ensures r.Ok? ==>
        var i := FindUser(old(users), userId).value;
        var u := old(users)[i];
        var range := DiscountRangeFor(EarnedOrPoints(u));
        var c := r.value;
        && coupons == old(coupons) + [c]
        && c.id == couponId && c.userId == userId && c.userName == u.name && c.brand == brand
        && range.min <= c.discountPct <= range.max
        && c.tier == range.tier && c.milestone == range.milestone
        && c.code == CouponCode(brand, c.discountPct, suffix)
        && c.hash == HashCoupon(hmac, c.code, userId)
        && !c.used && c.createdAt == now && c.redeemedAt == None
        && now + MIN_EXPIRY_DAYS * DAY_MS <= c.expiresAt <= now + MAX_EXPIRY_DAYS * DAY_MS
        && users == old(users)[i := AfterRedeem(u, range.milestone)]
        && history == old(history) + [HistoryEntry(histId, userId, -range.milestone,
             "Coupon redeemed: " + brand + " " + NatToString(c.discountPct) + "% off", "redemption", now)]
        && redemptionLogs == old(redemptionLogs)
             + [RedemptionLog(logId, userId, u.name, couponId, brand, c.discountPct, range.tier, range.milestone, now)]
      ensures r.Ok? ==> |ActiveCoupons(coupons, userId, now)| == 1
      ensures BalanceWithinEarned(old(users)) ==> BalanceWithinEarned(users)
    {
      if brand !in BRANDS {
        return Err(InvalidBrand);
      }
      var found := FindUser(users, userId);
      if found.None? {
        return Err(UserNotFound);
      }
      var i := found.value;
      var u := users[i];
      if u.points < REDEEM_MIN {
        return Err(InsufficientPoints);
      }
      var active := ActiveCoupons(coupons, userId, now);
      if |active| > 0 {
        return Err(ActiveCouponExists(active[0]));
      }
      var range := DiscountRangeFor(EarnedOrPoints(u));
      var discount := PickInRange(range.min, range.max, discountRoll);
      var code := CouponCode(brand, discount, suffix);
      var hash := HashCoupon(hmac, code, userId);
      var days := ExpiryDays(expiryRoll);
      MulMonotone(DAY_MS, MIN_EXPIRY_DAYS, days);
      MulMonotone(DAY_MS, days, MAX_EXPIRY_DAYS);
      var expiresAt := now + days * DAY_MS;
      var c := Coupon(couponId, userId, u.name, brand, code, hash, discount, range.tier, range.milestone,
                      false, expiresAt, now, None);
      assert IsActive(c, now);
      ActiveCouponsAppend(coupons, c, userId, now);
      coupons := coupons + [c];
      var paid := AfterRedeem(u, range.milestone);
      if BalanceWithinEarned(users) {
        BalanceWithinEarnedUpdate(users, i, paid);
      }
      users := users[i := paid];
      history := history + [HistoryEntry(histId, userId, -range.milestone,
                   "Coupon redeemed: " + brand + " " + NatToString(discount) + "% off", "redemption", now)];
      redemptionLogs := redemptionLogs
        + [RedemptionLog(logId, userId, u.name, couponId, brand, discount, range.tier, range.milestone, now)];
      r := Ok(c);
    }

    /**
     * PATCH /api/rewards/coupon/:id/use. Checks existence, then owner, then
     * the used flag, then the hash; only full success sets the flag.
     */
    method UseCoupon(couponId: string, userId: string, hash: string, now: int, hmac: string -> string)
        returns (r: Result<(), ServerError>)
      modifies this`coupons
      ensures |coupons| == |old(coupons)|
      ensures forall j :: 0 <= j < |coupons| && old(coupons)[j].used ==> coupons[j] == old(coupons)[j]
      ensures match Seqs.FirstIndex(old(coupons), CouponIdOf, couponId)
        case None => r == Err(CouponNotFound)
        case Some(j) =>
          var c := old(coupons)[j];
          && (c.userId != userId ==> r == Err(Unauthorized))
          && (c.userId == userId && c.used ==> r == Err(AlreadyUsed))
          && (c.userId == userId && !c.used && hash != HashCoupon(hmac, c.code, userId) ==> r == Err(InvalidHash))
          && (r.Ok? <==> c.userId == userId && !c.used && hash == HashCoupon(hmac, c.code, userId))
          && (r.Ok? ==> coupons == old(coupons)[j := c.(used := true, redeemedAt := Some(now))])
      ensures r.Err? ==> coupons == old(coupons)
    {
      var found := Seqs.FirstIndex(coupons, CouponIdOf, couponId);
      if found.None? {
        return Err(CouponNotFound);
      }
      var j := found.value;
      var c := coupons[j];
      if c.userId != userId {
        return Err(Unauthorized);
      }
      if c.used {
        return Err(AlreadyUsed);
      }
      if hash != HashCoupon(hmac, c.code, userId) {
        return Err(InvalidHash);
      }
      coupons := coupons[j := c.(used := true, redeemedAt := Some(now))];
      r := Ok(());
    }

    /**
     * POST /api/ngos/:id/volunteer: all six contact fields are required; one
     * e-mail joins an NGO once; a known logged-in user earns the bonus.
     */
    method JoinNgo(ngoId: string, userId: string, fullName: string, email: string, phone: string, city: string,
                   skills: string, availability: string, volId: string, histId: string, now: int)
        returns (r: Result<Volunteer, ServerError>)
      modifies this`volunteers, this`users, this`history
      ensures r.Err? ==> volunteers == old(volunteers) && users == old(users) && history == old(history)
      ensures (fullName == "" || email == "" || phone == "" || city == "" || skills == "" || availability == "")
              ==> r == Err(MissingFields)
      ensures (&& fullName != "" && email != "" && phone != "" && city != "" && skills != "" && availability != ""
               && Seqs.FirstIndex(ngos, NgoIdOf, ngoId).None?)
              ==> r == Err(NgoNotFound)
      ensures (&& fullName != "" && email != "" && phone != "" && city != "" && skills != "" && availability != ""
               && Seqs.FirstIndex(ngos, NgoIdOf, ngoId).Some?
               && Seqs.FirstIndex(old(volunteers), VolunteerKey, (email, ngoId)).Some?)
              ==> r == Err(AlreadyJoined)
      ensures r.Ok? <==>
        && fullName != "" && email != "" && phone != "" && city != "" && skills != "" && availability != ""
        && Seqs.FirstIndex(ngos, NgoIdOf, ngoId).Some?
        && Seqs.FirstIndex(old(volunteers), VolunteerKey, (email, ngoId)).None?
      ensures r.Ok? ==>
        var ngo := ngos[Seqs.FirstIndex(ngos, NgoIdOf, ngoId).value];
        && r.value == Volunteer(volId, ngoId, ngo.name, userId, fullName, email, phone, city, skills, availability, now)
        && volunteers == old(volunteers) + [r.value]
        && (userId != "" && FindUser(old(users), userId).Some? ==>
              var i := FindUser(old(users), userId).value;
              && users == old(users)[i := CreditAndUnlock(old(users)[i], VOLUNTEER_BONUS)]
              && history == old(history)
                   + [HistoryEntry(histId, userId, VOLUNTEER_BONUS, "Joined NGO: " + ngo.name, "ngo_volunteer", now)])
        && (!(userId != "" && FindUser(old(users), userId).Some?) ==> users == old(users) && history == old(history))
      ensures BalanceWithinEarned(old(users)) ==> BalanceWithinEarned(users)
    {
      if fullName == "" || email == "" || phone == "" || city == "" || skills == "" || availability == "" {
        return Err(MissingFields);
      }
      var n := Seqs.FirstIndex(ngos, NgoIdOf, ngoId);
      if n.None? {
        return Err(NgoNotFound);
      }
      var ngo := ngos[n.value];
      if Seqs.FirstIndex(volunteers, VolunteerKey, (email, ngoId)).Some? {
        return Err(AlreadyJoined);
      }
      var vol := Volunteer(volId, ngoId, ngo.name, userId, fullName, email, phone, city, skills, availability, now);
      volunteers := volunteers + [vol];
      if userId != "" {
        var found := FindUser(users, userId);
        if found.Some? {
          var _ := Credit(found.value, VOLUNTEER_BONUS, "Joined NGO: " + ngo.name, "ngo_volunteer", histId, now);
        }
      }
      r := Ok(vol);
    }

    /**
     * POST /api/ngos/:id/donate: a missing or non-positive amount is
     * refused; the simulated payment always succeeds; a known donor earns
     * one point per 10 rupees (possibly 0, still logged).
     */
    method Donate(ngoId: string, userId: string, amount: Option<int>, paymentMethod: string, donorName: string,
                  donorEmail: string, donId: string, txnHex: string, histId: string, now: nat)
        returns (r: Result<Donation, ServerError>)
      modifies this`donations, this`users, this`history
      ensures r.Err? ==> donations == old(donations) && users == old(users) && history == old(history)
      ensures (amount.None? || amount.value <= 0) ==> r == Err(InvalidAmount)
      ensures amount.Some? && amount.value > 0 && Seqs.FirstIndex(ngos, NgoIdOf, ngoId).None? ==> r == Err(NgoNotFound)
      ensures r.Ok? <==> amount.Some? && amount.value > 0 && Seqs.FirstIndex(ngos, NgoIdOf, ngoId).Some?
      ensures r.Ok? ==>
        var ngo := ngos[Seqs.FirstIndex(ngos, NgoIdOf, ngoId).value];
        var pts := amount.value / 10;
        && r.value == Donation(donId, ngoId, ngo.name, userId,
             if donorName != "" then donorName else "Anonymous", donorEmail, amount.value,
             if paymentMethod != "" then paymentMethod else "sandbox",
             "TXN" + txnHex, "REC-" + NatToString(now), "success", now)
        && donations == old(donations) + [r.value]
        && (userId != "" && FindUser(old(users), userId).Some? ==>
              var i := FindUser(old(users), userId).value;
              && users == old(users)[i := CreditAndUnlock(old(users)[i], pts)]
              && history == old(history) + [HistoryEntry(histId, userId, pts,
                   "Donated ₹" + NatToString(amount.value) + " to " + ngo.name, "ngo_donation", now)])
        && (!(userId != "" && FindUser(old(users), userId).Some?) ==> users == old(users) && history == old(history))
      ensures BalanceWithinEarned(old(users)) ==> BalanceWithinEarned(users)
    {
      if amount.None? || amount.value <= 0 {
        return Err(InvalidAmount);
      }
      var n := Seqs.FirstIndex(ngos, NgoIdOf, ngoId);
      if n.None? {
        return Err(NgoNotFound);
      }
      var ngo := ngos[n.value];
      var d := Donation(donId, ngoId, ngo.name, userId,
                        if donorName != "" then donorName else "Anonymous", donorEmail, amount.value,
                        if paymentMethod != "" then paymentMethod else "sandbox",
                        "TXN" + txnHex, "REC-" + NatToString(now), "success", now);
      donations := donations + [d];
      if userId != "" {
        var found := FindUser(users, userId);
        if found.Some? {
          var _ := Credit(found.value, amount.value / 10,
                          "Donated ₹" + NatToString(amount.value) + " to " + ngo.name, "ngo_donation", histId, now);
        }
      }
      r := Ok(d);
    }
  }
}
