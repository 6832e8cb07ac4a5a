/**
 * The report rules of constants.js: the escalation level of an open
 * report by age, the cleanliness score of an area, its colour and label,
 * and the keyword guess of a report's waste type.
 */
module ReportRules {
  import opened LedgerTypes
  import opened Text
  import Seqs

  /** One hour in milliseconds; ages are compared in milliseconds, so no fractional hours arise. */
  const HOUR_MS: int := 3600000

  const WASTE_TYPES: seq<string> := ["Plastic", "Organic", "E-Waste", "Construction"]

  // ---------------------------------------------------------------------
  // Escalation
  // ---------------------------------------------------------------------

  /** The results of `escalLevel`: 'none', 'normal', 'yellow', 'red', 'escalated'. */
  datatype Escalation = NoEscalation | Normal | Yellow | Red | Escalated

  /** The levels of an open report in increasing urgency (a resolved one sits below them all). */
  function EscalationRank(e: Escalation): nat {
    match e
    case NoEscalation => 0
    case Normal => 1
    case Yellow => 2
    case Red => 3
    case Escalated => 4
  }

  /**
   * `escalLevel(r)` at time `now`: none for a resolved report at any age,
   * otherwise by age in whole 24-hour bands up to escalated at 72 hours.
   */
  function EscalLevel(r: Report, now: int): (e: Escalation)
    ensures r.status == RESOLVED <==> e == NoEscalation
    ensures r.status != RESOLVED ==>
      var age := now - r.createdAt;
      && (e == Escalated <==> age >= 72 * HOUR_MS)
      && (e == Red <==> 48 * HOUR_MS <= age < 72 * HOUR_MS)
      && (e == Yellow <==> 24 * HOUR_MS <= age < 48 * HOUR_MS)
      && (e == Normal <==> age < 24 * HOUR_MS)
  {
    if r.status == RESOLVED then NoEscalation
    else
      var age := now - r.createdAt;
      if age >= 72 * HOUR_MS then Escalated
      else if age >= 48 * HOUR_MS then Red
      else if age >= 24 * HOUR_MS then Yellow
      else Normal
  }

  /** An open report only grows more urgent as time passes. */
  lemma EscalLevelMonotone(r: Report, t1: int, t2: int)
    requires t1 <= t2
    ensures EscalationRank(EscalLevel(r, t1)) <= EscalationRank(EscalLevel(r, t2))
    ensures r.status != RESOLVED ==> EscalationRank(EscalLevel(r, t1)) >= 1
  {
  }

  // ---------------------------------------------------------------------
  // Area score
  // ---------------------------------------------------------------------

  function ReportAreaOf(r: Report): string { r.area }

  /** How many reports carry status `st`. */
  function CountStatus(rs: seq<Report>, st: string): (n: nat)
    ensures n <= |rs|
    ensures (forall k :: 0 <= k < |rs| ==> rs[k].status == st) ==> n == |rs|
    ensures (forall k :: 0 <= k < |rs| ==> rs[k].status != st) ==> n == 0
  {
    if |rs| == 0 then 0 else CountStatus(rs[..|rs| - 1], st) + (if rs[|rs| - 1].status == st then 1 else 0)
  }

  /** The reports still awaiting action: 'Pending' or 'Escalated'. */
  function CountOpen(rs: seq<Report>): (n: nat)
    ensures n <= |rs|
    ensures (forall k :: 0 <= k < |rs| ==> rs[k].status != PENDING && rs[k].status != "Escalated") ==> n == 0
  {
    if |rs| == 0 then 0
    else
      var st := rs[|rs| - 1].status;
      CountOpen(rs[..|rs| - 1]) + (if st == PENDING || st == "Escalated" then 1 else 0)
  }

  /** `Math.max(0, Math.min(100, x))`. */
  function Clamp(x: int): (r: int)
    ensures 0 <= r <= 100
    ensures 0 <= x <= 100 ==> r == x
  {
    if x > 100 then 100 else if x < 0 then 0 else x
  }

  /** `Math.round(70 + (res / n) * 30 - open * 8)` for an area with `n` reports, rounded half up. */
  function RawAreaScore(n: int, res: int, open: int): (s: int)
    requires n > 0
    ensures 2 * (70 * n + 30 * res - 8 * open * n) - n < 2 * n * s <= 2 * (70 * n + 30 * res - 8 * open * n) + n
  {
    RoundDiv(70 * n + 30 * res - 8 * open * n, n)
  }

  /**
   * `areaScore(area, reports)`: 90 for an area with no reports; otherwise
   * `70 + 30·resolved/n − 8·open`, rounded half up and clamped to [0, 100].
   */
  function AreaScore(area: string, reports: seq<Report>): (s: int)
    ensures 0 <= s <= 100
    ensures (forall k :: 0 <= k < |reports| ==> reports[k].area != area) ==> s == 90
  {
    var ar := Seqs.FilterKey(reports, ReportAreaOf, area);
    if |ar| == 0 then 90
    else Clamp(RawAreaScore(|ar|, CountStatus(ar, RESOLVED), CountOpen(ar)))
  }

  /** With every report resolved the raw score is exactly 100. */
  lemma RawAllResolved(n: int)
    requires n > 0
    ensures RawAreaScore(n, n, 0) == 100
  {
    var p := 70 * n + 30 * n - 8 * 0 * n;
    assert p == 100 * n;
    assert (2 * n) * 100 <= 2 * p + n < (2 * n) * (100 + 1);
    DivBetween(2 * p + n, 2 * n, 100, 100);
  }

  /** With nothing open the raw score lies between 70 and 100. */
  lemma RawNothingOpen(n: int, res: int)
    requires n > 0 && 0 <= res <= n
    ensures 70 <= RawAreaScore(n, res, 0) <= 100
  {
    var p := 70 * n + 30 * res - 8 * 0 * n;
    assert 70 * n <= p <= 100 * n;
    assert (2 * n) * 70 <= 2 * p + n < (2 * n) * (100 + 1);
    DivBetween(2 * p + n, 2 * n, 70, 100);
  }

  /** The reports of `area`, each one of `reports`. */
  lemma AreaReports(area: string, reports: seq<Report>) returns (ar: seq<Report>)
    ensures ar == Seqs.FilterKey(reports, ReportAreaOf, area)
    ensures forall k :: 0 <= k < |ar| ==> ar[k] in reports && ar[k].area == area
  {
    ar := Seqs.FilterKey(reports, ReportAreaOf, area);
    Seqs.DrawnIn(ar, reports);
    forall k | 0 <= k < |ar| ensures ar[k].area == area {
      assert ReportAreaOf(ar[k]) == area;
    }
  }

  /** An area whose reports are all resolved scores the full 100. */
  lemma AreaAllResolvedScoresFull(area: string, reports: seq<Report>)
    requires exists k :: 0 <= k < |reports| && reports[k].area == area
    requires forall k :: 0 <= k < |reports| && reports[k].area == area ==> reports[k].status == RESOLVED
    ensures AreaScore(area, reports) == 100
  {
    var ar := AreaReports(area, reports);
    var k :| 0 <= k < |reports| && reports[k].area == area;
    assert reports[k] in ar;
    forall j | 0 <= j < |ar| ensures ar[j].status == RESOLVED {
      var i :| 0 <= i < |reports| && reports[i] == ar[j];
    }
    assert CountStatus(ar, RESOLVED) == |ar|;
    assert CountOpen(ar) == 0;
    RawAllResolved(|ar|);
  }

  /** An area with nothing pending or escalated scores at least 70 (clean). */
  lemma AreaWithoutOpenReportsIsClean(area: string, reports: seq<Report>)
    requires forall k :: 0 <= k < |reports| && reports[k].area == area ==>
      reports[k].status != PENDING && reports[k].status != "Escalated"
    ensures AreaScore(area, reports) >= 70
  {
    var ar := AreaReports(area, reports);
    if |ar| > 0 {
      forall j | 0 <= j < |ar| ensures ar[j].status != PENDING && ar[j].status != "Escalated" {
        var i :| 0 <= i < |reports| && reports[i] == ar[j];
      }
      assert CountOpen(ar) == 0;
      RawNothingOpen(|ar|, CountStatus(ar, RESOLVED));
    }
  }

  // ---------------------------------------------------------------------
  // Score colour and label
  // ---------------------------------------------------------------------

  /** The three bands `scoreColor` and `scoreLabel` both split a score into. */
  datatype ScoreBand = NeedsAttention | Moderate | Clean

  function ScoreBandOf(s: int): ScoreBand {
    if s >= 70 then Clean else if s >= 40 then Moderate else NeedsAttention
  }

  /** `scoreColor(s)`: green from 70, amber from 40, red below. */
  function ScoreColor(s: int): (c: string)
    ensures c == "#22c55e" <==> s >= 70
    ensures c == "#f59e0b" <==> 40 <= s < 70
    ensures c == "#ef4444" <==> s < 40
  {
    if s >= 70 then "#22c55e" else if s >= 40 then "#f59e0b" else "#ef4444"
  }

  /** `scoreLabel(s)`, on the same thresholds as the colour. */
  function ScoreLabel(s: int): (l: string)
    ensures l == "\U{1F7E2} Clean" <==> s >= 70
    ensures l == "\U{1F7E1} Moderate" <==> 40 <= s < 70
    ensures l == "\U{1F534} Needs Attention" <==> s < 40
  {
    if s >= 70 then "\U{1F7E2} Clean" else if s >= 40 then "\U{1F7E1} Moderate" else "\U{1F534} Needs Attention"
  }

  /** Colour and label never disagree: two scores share a colour exactly when they share a label. */
  lemma ColorMatchesLabel(s1: int, s2: int)
    ensures ScoreColor(s1) == ScoreColor(s2) <==> ScoreBandOf(s1) == ScoreBandOf(s2)
    ensures ScoreLabel(s1) == ScoreLabel(s2) <==> ScoreBandOf(s1) == ScoreBandOf(s2)
  {
  }

  /** An area without reports shows as clean. */
  lemma EmptyAreaIsClean(area: string, reports: seq<Report>)
    requires forall k :: 0 <= k < |reports| ==> reports[k].area != area
    ensures ScoreBandOf(AreaScore(area, reports)) == Clean
  {
  }

  // ---------------------------------------------------------------------
  // Waste detection
  // ---------------------------------------------------------------------

  const E_WASTE_WORDS: seq<string> := ["electronic", "monitor", "battery", "cable", "phone", "circuit", "laptop"]
  const ORGANIC_WORDS: seq<string> := ["food", "organic", "vegetable", "decompos", "fruit", "compost"]
  const CONSTRUCTION_WORDS: seq<string> := ["sand", "rubble", "brick", "cement", "debris", "construction", "concrete"]

  /**
   * `detectWaste(desc)`: the lower-cased description is searched for
   * E-Waste words first, then Organic, then Construction; Plastic otherwise.
   */
  function DetectWaste(desc: string): (w: string)
    ensures w in WASTE_TYPES
    ensures w == "E-Waste" <==> ContainsAny(Lower(desc), E_WASTE_WORDS)
    ensures w == "Organic" <==> !ContainsAny(Lower(desc), E_WASTE_WORDS) && ContainsAny(Lower(desc), ORGANIC_WORDS)
    ensures w == "Plastic" <==>
      !ContainsAny(Lower(desc), E_WASTE_WORDS) && !ContainsAny(Lower(desc), ORGANIC_WORDS)
      && !ContainsAny(Lower(desc), CONSTRUCTION_WORDS)
  {
    var d := Lower(desc);
    if ContainsAny(d, E_WASTE_WORDS) then "E-Waste"
    else if ContainsAny(d, ORGANIC_WORDS) then "Organic"
    else if ContainsAny(d, CONSTRUCTION_WORDS) then "Construction"
    else "Plastic"
  }

  lemma LowerAppend(s: string, t: string)
    ensures Lower(s + t) == Lower(s) + Lower(t)
  {
    assert forall i :: 0 <= i < |s + t| ==> Lower(s + t)[i] == (Lower(s) + Lower(t))[i];
  }

  lemma LowerOfUpper(s: string)
    ensures Lower(Upper(s)) == Lower(s)
  {
    assert forall i :: 0 <= i < |s| ==> Lower(Upper(s))[i] == Lower(s)[i];
  }

  /** A word found in either part of a text is found in the whole. */
  lemma ContainsAnyAppend(s: string, t: string, words: seq<string>)
    requires ContainsAny(s, words) || ContainsAny(t, words)
    ensures ContainsAny(s + t, words)
  {
    var k :| 0 <= k < |words| && (Contains(s, words[k]) || Contains(t, words[k]));
    var w := words[k];
    if Contains(s, w) {
      var i :| 0 <= i <= |s| - |w| && OccursAt(s, w, i);
      assert (s + t)[i..i + |w|] == s[i..i + |w|];
      assert OccursAt(s + t, w, i);
    } else {
      assert Contains(t, w);
      var i :| 0 <= i <= |t| - |w| && OccursAt(t, w, i);
      assert (s + t)[|s| + i..|s| + i + |w|] == t[i..i + |w|];
      assert OccursAt(s + t, w, |s| + i);
    }
    assert Contains(s + t, words[k]);
  }

  /** Detection ignores letter case. */
  lemma DetectWasteIgnoresCase(desc: string)
    ensures DetectWaste(Upper(desc)) == DetectWaste(desc)
  {
    LowerOfUpper(desc);
  }

  /**
   * E-Waste wins: once some part of a description names an E-Waste item,
   * whatever else the description says, the guess is E-Waste.
   */
  lemma EWasteWins(s: string, t: string)
    requires ContainsAny(Lower(t), E_WASTE_WORDS)
    ensures DetectWaste(s + t) == "E-Waste" && DetectWaste(t + s) == "E-Waste"
  {
    LowerAppend(s, t);
    LowerAppend(t, s);
    ContainsAnyAppend(Lower(s), Lower(t), E_WASTE_WORDS);
    ContainsAnyAppend(Lower(t), Lower(s), E_WASTE_WORDS);
  }
}
