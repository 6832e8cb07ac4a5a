/**
 * The donation form of app.js: the card-number and expiry formatters of
 * the simulated payment gateway, the check run before the gateway opens,
 * and the points total of the donation summary.
 */
module PaymentForm {
  import opened Wrappers
  import opened Text
  import opened LedgerTypes
  import Seqs

  // ---------------------------------------------------------------------
  // Card number
  // ---------------------------------------------------------------------

  const CARD_DIGITS: nat := 16

  /** `v.replace(/(.{4})/g, '$1 ')`: a space after every complete block of four characters. */
  function SpaceEveryFour(v: string): (r: string)
  {
    if |v| < 4 then v else v[..4] + " " + SpaceEveryFour(v[4..])
  }

  /** Blocks of four joined by single spaces, the last block possibly shorter. */
  function Blocks(v: string): (r: string)
  {
    if |v| <= 4 then v else v[..4] + " " + Blocks(v[4..])
  }

  /** One space between consecutive blocks: a nonempty string of n characters grows by (n - 1) / 4. */
  lemma {:induction false} BlocksLength(v: string)
    ensures |v| == 0 ==> |Blocks(v)| == 0
    ensures |v| > 0 ==> |Blocks(v)| == |v| + (|v| - 1) / 4
  {
    if |v| > 4 {
      BlocksLength(v[4..]);
    }
  }

  /** `SpaceEveryFour` is the blocks plus one trailing space when the length is a whole number of blocks. */
  lemma {:induction false} SpaceEveryFourIsBlocks(v: string)
    ensures SpaceEveryFour(v) == Blocks(v) + (if |v| > 0 && |v| % 4 == 0 then " " else "")
  {
    if |v| > 4 {
      var t := v[4..];
      SpaceEveryFourIsBlocks(t);
      assert (|t| > 0 && |t| % 4 == 0) == (|v| > 0 && |v| % 4 == 0) by {
        assert |v| == |t| + 4;
      }
      assert SpaceEveryFour(v) == v[..4] + " " + SpaceEveryFour(t);
      assert Blocks(v) == v[..4] + " " + Blocks(t);
    } else if |v| == 4 {
      assert SpaceEveryFour(v[4..]) == [];
    }
  }

  /** A space exactly at every fifth position, digits elsewhere. */
  predicate CardLayout(r: string) {
    forall i :: 0 <= i < |r| ==> (r[i] == ' ' <==> i % 5 == 4) && (r[i] != ' ' ==> IsDigit(r[i]))
  }

  /** The blocks of a digit string have the card layout. */
  lemma {:induction false} BlocksLayout(v: string)
    requires AllDigits(v)
    ensures CardLayout(Blocks(v))
  {
    if |v| > 4 {
      BlocksLayout(v[4..]);
      var r := Blocks(v);
      var t := Blocks(v[4..]);
      assert r == v[..4] + " " + t;
      forall i | 0 <= i < |r| ensures (r[i] == ' ' <==> i % 5 == 4) && (r[i] != ' ' ==> IsDigit(r[i])) {
        if i < 4 {
          assert r[i] == v[i] && IsDigit(v[i]);
        } else if i == 4 {
          assert r[i] == ' ';
        } else {
          assert r[i] == t[i - 5];
          assert (t[i - 5] == ' ' <==> (i - 5) % 5 == 4) && (t[i - 5] != ' ' ==> IsDigit(t[i - 5]));
          assert (i - 5) % 5 == 4 <==> i % 5 == 4;
        }
      }
    }
  }

  /** Removing the spaces from the blocks gives the digits back. */
  lemma {:induction false} BlocksDigits(v: string)
    requires AllDigits(v)
    ensures DigitsOf(Blocks(v)) == v
  {
    if |v| > 4 {
      BlocksDigits(v[4..]);
      DigitsOfAppend(v[..4], " " + Blocks(v[4..]));
      DigitsOfAppend(" ", Blocks(v[4..]));
      assert v[..4] + (" " + Blocks(v[4..])) == Blocks(v);
      assert v == v[..4] + v[4..];
    }
  }

  /** A nonempty block string begins and ends with a digit. */
  lemma {:induction false} BlocksEnds(v: string)
    requires AllDigits(v) && |v| > 0
    ensures var r := Blocks(v); |r| > 0 && IsDigit(r[0]) && IsDigit(r[|r| - 1])
  {
    if |v| > 4 {
      BlocksEnds(v[4..]);
    }
  }

  /** A string that neither starts nor ends with white space is its own trim, even with one space appended. */
  lemma TrimClean(r: string, tail: string)
    requires |r| > 0 && !IsSpace(r[0]) && !IsSpace(r[|r| - 1])
    requires tail == "" || tail == " "
    ensures Trim(r + tail) == r
  {
    var s := r + tail;
    if tail == " " {
      assert s[..|s| - 1] == r;
    } else {
      assert s == r;
    }
    assert TrimEnd(r) == r;
    assert TrimEnd(s) == r;
    assert TrimStart(r) == r;
  }

  /** Trimming blocks of digits, with or without one trailing space, leaves the blocks. */
  lemma TrimBlocks(v: string, tail: string)
    requires AllDigits(v)
    requires tail == "" || (tail == " " && |v| > 0)
    ensures Trim(Blocks(v) + tail) == Blocks(v)
  {
    var r := Blocks(v);
    if |v| == 0 {
      assert r + tail == "";
    } else {
      BlocksEnds(v);
      DigitIsNotSpace(r[0]);
      DigitIsNotSpace(r[|r| - 1]);
      TrimClean(r, tail);
    }
  }

  /**
   * The formatted card number holds exactly the first 16 digits of the
   * input, in order, with a single space after every fourth digit and no
   * other character, in at most 19 characters.
   */
  function FormatCard(input: string): (r: string)
    ensures DigitsOf(r) == Seqs.Take(DigitsOf(input), CARD_DIGITS)
    ensures |r| <= 19
    ensures CardLayout(r)
    ensures |r| > 0 ==> r[0] != ' ' && r[|r| - 1] != ' '
  {
    var v := Seqs.Take(DigitsOf(input), CARD_DIGITS);
    assert AllDigits(v);
    SpaceEveryFourIsBlocks(v);
    BlocksLength(v);
    TrimBlocks(v, if |v| > 0 && |v| % 4 == 0 then " " else "");
    BlocksLayout(v);
    BlocksDigits(v);
    Trim(SpaceEveryFour(v))
  }

  /** Formatting a formatted card number changes nothing. */
  lemma FormatCardIdempotent(input: string)
    ensures FormatCard(FormatCard(input)) == FormatCard(input)
  {
    var v := Seqs.Take(DigitsOf(input), CARD_DIGITS);
    assert Seqs.Take(DigitsOf(FormatCard(input)), CARD_DIGITS) == v;
  }

  // ---------------------------------------------------------------------
  // Expiry
  // ---------------------------------------------------------------------

  const EXPIRY_DIGITS: nat := 4

  /** `pgwFormatExpiry`: at most four digits, with " / " after the first two once there are two. */
  function FormatExpiry(input: string): (r: string)
    ensures |r| <= 7
    ensures DigitsOf(r) == Seqs.Take(DigitsOf(input), EXPIRY_DIGITS)
    ensures |Seqs.Take(DigitsOf(input), EXPIRY_DIGITS)| >= 2 ==> |r| >= 5 && r[2..5] == " / "
    ensures |Seqs.Take(DigitsOf(input), EXPIRY_DIGITS)| < 2 ==> r == Seqs.Take(DigitsOf(input), EXPIRY_DIGITS)
    ensures |Seqs.Take(DigitsOf(input), EXPIRY_DIGITS)| >= 2 ==>
      && r[..2] + r[5..] == Seqs.Take(DigitsOf(input), EXPIRY_DIGITS)
      && AllDigits(r[..2]) && AllDigits(r[5..])
  {
    var v := Seqs.Take(DigitsOf(input), EXPIRY_DIGITS);
    if |v| >= 2 then
      SeparatorKeepsDigits(v);
      v[..2] + " / " + v[2..]
    else
      assert AllDigits(v);
      v
  }

  /** The separator holds no digit. */
  lemma SeparatorHasNoDigit()
    ensures DigitsOf(" / ") == ""
  {
    assert " / "[1..] == "/ " && "/ "[1..] == " " && " "[1..] == "";
  }

  /** Inserting " / " after the first two digits adds no digit. */
  lemma SeparatorKeepsDigits(v: string)
    requires AllDigits(v) && |v| >= 2
    ensures DigitsOf(v[..2] + " / " + v[2..]) == v
  {
    var head, tail := v[..2], v[2..];
    calc {
      DigitsOf(head + " / " + tail);
      { assert head + " / " + tail == head + (" / " + tail); }
      DigitsOf(head + (" / " + tail));
      { DigitsOfAppend(head, " / " + tail); }
      DigitsOf(head) + DigitsOf(" / " + tail);
      { DigitsOfAppend(" / ", tail); SeparatorHasNoDigit(); }
      DigitsOf(head) + DigitsOf(tail);
      { assert AllDigits(head) && AllDigits(tail); }
      head + tail;
      { assert head + tail == v; }
      v;
    }
  }

  /** Formatting a formatted expiry changes nothing. */
  lemma FormatExpiryIdempotent(input: string)
    ensures FormatExpiry(FormatExpiry(input)) == FormatExpiry(input)
  {
  }

  // ---------------------------------------------------------------------
  // Form check and summary
  // ---------------------------------------------------------------------

  datatype FormError = NoNgoSelected | InvalidAmount

  /** The data kept for the gateway once the form passes. */
  datatype PendingDonation = PendingDonation(ngoId: string, amount: real, name: string, email: string, payMethod: string)

  /**
   * `submitDonation`: an NGO must be selected, then the amount must be a
   * number of at least 1 (`None` stands for a value `parseFloat` cannot
   * read); the name defaults to Anonymous and the method to razorpay.
   */
  function ValidateDonation(ngoId: string, amount: Option<real>, name: string, email: string, payMethod: string)
      : (r: Result<PendingDonation, FormError>)
    ensures ngoId == "" ==> r == Err(NoNgoSelected)
    ensures ngoId != "" && (amount.None? || amount.value < 1.0) ==> r == Err(InvalidAmount)
    ensures r.Ok? <==> ngoId != "" && amount.Some? && amount.value >= 1.0
    ensures r.Ok? ==> r.value.ngoId == ngoId && r.value.amount == amount.value && r.value.amount >= 1.0
    ensures r.Ok? ==> r.value.name != "" && r.value.payMethod != ""
    ensures r.Ok? ==>
      && r.value.name == (if Trim(name) != "" then Trim(name) else "Anonymous")
      && r.value.email == Trim(email)
      && r.value.payMethod == (if payMethod != "" then payMethod else "razorpay")
  {
    if ngoId == "" then Err(NoNgoSelected)
    else if amount.None? || amount.value == 0.0 || amount.value < 1.0 then Err(InvalidAmount)
    else
      var n := Trim(name);
      Ok(PendingDonation(ngoId, amount.value, if n != "" then n else "Anonymous", Trim(email),
                         if payMethod != "" then payMethod else "razorpay"))
  }

  /** `donations.reduce((s, d) => s + d.amount, 0)`. */
  function TotalAmount(ds: seq<Donation>): int {
    if |ds| == 0 then 0 else TotalAmount(ds[..|ds| - 1]) + ds[|ds| - 1].amount
  }

  /**
   * `donations.reduce((s, d) => s + Math.floor(d.amount / 10), 0)`: within
   * one point per donation of a tenth of the total given, and never
   * negative when no amount is.
   */
  function SummaryPoints(ds: seq<Donation>): (p: int)
    ensures 10 * p <= TotalAmount(ds)
    ensures |ds| > 0 ==> TotalAmount(ds) < 10 * p + 10 * |ds|
    ensures (forall k :: 0 <= k < |ds| ==> ds[k].amount >= 0) ==> p >= 0
  {
    if |ds| == 0 then 0 else SummaryPoints(ds[..|ds| - 1]) + ds[|ds| - 1].amount / 10
  }

  /** The summary of a longer list adds the points of the new donations. */
  lemma {:induction false} SummaryPointsAppend(a: seq<Donation>, b: seq<Donation>)
    ensures SummaryPoints(a + b) == SummaryPoints(a) + SummaryPoints(b)
  {
    if |b| == 0 {
      assert a + b == a;
    } else {
      assert (a + b)[..|a + b| - 1] == a + b[..|b| - 1];
      SummaryPointsAppend(a, b[..|b| - 1]);
    }
  }
}
