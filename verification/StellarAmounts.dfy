/**
 * Exact decimal amounts. The Rust crate splits at dots and computes in checked
 * u64 arithmetic; the TypeScript client matches a pattern and computes in
 * BigInt. Both decide whether a Stellar decimal equals a USDC cent amount.
 */
module StellarAmounts {
  import opened Outcomes

  const MAX_U64: nat := 0xFFFF_FFFF_FFFF_FFFF
  const STROOPS_PER_CENT: nat := 100_000
  const STROOPS_PER_WHOLE: nat := 10_000_000
  /** The largest cent amount whose stroop value fits in u64. */
  const MAX_EXACT_CENTS: nat := MAX_U64 / STROOPS_PER_CENT

  datatype AmountError = InvalidDecimalAmount | AmountOverflow | SubCentAmount

  /** The bounds of createCashuStellarMeltQuoteRequestV1. */
  const MIN_MELT_AMOUNT: nat := 1
  const MAX_MELT_AMOUNT: nat := 25_000

  // -------------------------------------------------------------- numerals

  predicate IsDigit(c: char) { '0' <= c <= '9' }

  predicate AllDigits(s: string) {
    forall i :: 0 <= i < |s| ==> IsDigit(s[i])
  }

  function Numeral(s: string): nat
    requires AllDigits(s)
  {
    if s == "" then 0 else 10 * Numeral(s[..|s| - 1]) + (s[|s| - 1] - '0') as nat
  }

  function Pow10(n: nat): (p: nat)
    ensures p > 0
  {
    if n == 0 then 1 else 10 * Pow10(n - 1)
  }

  function DigitChar(d: nat): char
    requires d < 10
  {
    '0' + d as char
  }

  /** Plain decimal rendering of an unsigned integer. */
  function Render(n: nat): (s: string)
    ensures s != "" && AllDigits(s)
  {
    if n < 10 then [DigitChar(n)] else Render(n / 10) + [DigitChar(n % 10)]
  }

  lemma {:induction false} NumeralOfRender(n: nat)
    ensures Numeral(Render(n)) == n
  {
    if n >= 10 {
      NumeralOfRender(n / 10);
      assert Render(n)[..|Render(n)| - 1] == Render(n / 10);
    } else {
      assert Render(n)[..0] == "";
    }
  }

  lemma ScaleByTen(a: nat, p: nat)
    ensures 10 * (a * p) == a * (10 * p)
  {
  }

  function Zeros(n: nat): string { seq(n, _ => '0') }

  lemma {:induction false} NumeralPadded(s: string, n: nat)
    requires AllDigits(s)
    ensures AllDigits(s + Zeros(n))
    ensures Numeral(s + Zeros(n)) == Numeral(s) * Pow10(n)
  {
    if n == 0 {
      assert s + Zeros(0) == s;
    } else {
      NumeralPadded(s, n - 1);
      var padded := s + Zeros(n);
      assert padded[..|padded| - 1] == s + Zeros(n - 1);
      assert Numeral(padded) == 10 * Numeral(s + Zeros(n - 1));
      ScaleByTen(Numeral(s), Pow10(n - 1));
    }
  }

  // ----------------------------------------------------------- Rust parser

  function SplitDots(s: string): (parts: seq<string>)
    ensures |parts| >= 1
  {
    if s == "" then [""]
    else
      var rest := SplitDots(s[1..]);
      if s[0] == '.' then [""] + rest else [[s[0]] + rest[0]] + rest[1..]
  }

  function ParseStroops(s: string): Result<nat, AmountError> {
    if s == "" || s[0] in {'+', '-'} || 'e' in s || 'E' in s then Err(InvalidDecimalAmount)
    else
      var parts := SplitDots(s);
      var whole := parts[0];
      var fraction := if |parts| > 1 then parts[1] else "";
      if |parts| > 2 || whole == "" || !AllDigits(whole) || !AllDigits(fraction) || |fraction| > 7 then
        Err(InvalidDecimalAmount)
      else if Numeral(whole) > MAX_U64 then Err(AmountOverflow)
      else
        var fractional := if fraction == "" then 0 else Numeral(fraction) * Pow10(7 - |fraction|);
        var scaled := Numeral(whole) * STROOPS_PER_WHOLE;
        if fractional > MAX_U64 || scaled > MAX_U64 || scaled + fractional > MAX_U64 then Err(AmountOverflow)
        else Ok(scaled + fractional)
  }

  /** UsdcMinorUnits::matches_stellar_decimal; the receiver is a positive u64 number of cents. */
  function Matches(cents: nat, s: string): Result<bool, AmountError> {
    if cents * STROOPS_PER_CENT > MAX_U64 then Err(AmountOverflow)
    else match ParseStroops(s)
      case Err(e) => Err(e)
      case Ok(stroops) => Ok(stroops == cents * STROOPS_PER_CENT)
  }

  function FromStellarDecimal(s: string): Result<nat, AmountError> {
    match ParseStroops(s)
    case Err(e) => Err(e)
    case Ok(stroops) =>
      if stroops == 0 || stroops % STROOPS_PER_CENT != 0 then Err(SubCentAmount)
      else Ok(stroops / STROOPS_PER_CENT)
  }

  function ToDecimal(cents: nat): string {
    Render(cents / 100) + "." + CentDigits(cents % 100)
  }

  function CentDigits(n: nat): (s: string)
    requires n < 100
    ensures |s| == 2 && AllDigits(s)
  {
    [DigitChar(n / 10), DigitChar(n % 10)]
  }

  // ---------------------------------------------------- TypeScript matcher

  /** The language of the pattern: digits, then optionally a dot and at most seven digits. */
  predicate IsPlainDecimal(s: string, whole: string, fraction: string) {
    && whole != "" && AllDigits(whole) && AllDigits(fraction) && |fraction| <= 7
    && (s == whole + "." + fraction || (s == whole && fraction == ""))
  }

  function DigitRun(s: string): (n: nat)
    ensures n <= |s| && AllDigits(s[..n]) && (n < |s| ==> !IsDigit(s[n]))
  {
    if s == "" || !IsDigit(s[0]) then 0
    else
      var n := DigitRun(s[1..]);
      assert s[..n + 1] == [s[0]] + s[1..][..n];
      n + 1
  }

  lemma {:induction false} DigitRunStops(digits: string, rest: string)
    requires AllDigits(digits) && (rest != "" ==> !IsDigit(rest[0]))
    ensures DigitRun(digits + rest) == |digits|
  {
    if digits == "" {
      assert digits + rest == rest;
    } else {
      DigitRunStops(digits[1..], rest);
      assert (digits + rest)[1..] == digits[1..] + rest;
    }
  }

  /** The two capture groups of the pattern, an absent second group read as "". */
  function Captures(s: string): Option<(string, string)> {
    var n := DigitRun(s);
    if n == 0 then None
    else if n == |s| then Some((s, ""))
    else if s[n] == '.' && |s| - n - 1 <= 7 && AllDigits(s[n + 1..]) then Some((s[..n], s[n + 1..]))
    else None
  }

  function StroopsOf(whole: string, fraction: string): nat
    requires AllDigits(whole) && AllDigits(fraction) && |fraction| <= 7
  {
    NumeralPadded(fraction, 7 - |fraction|);
    Numeral(whole) * STROOPS_PER_WHOLE + Numeral(fraction + Zeros(7 - |fraction|))
  }

  lemma {:induction false} CapturesArePlainDecimal(s: string, whole: string, fraction: string)
    ensures Captures(s) == Some((whole, fraction)) <==> IsPlainDecimal(s, whole, fraction)
  {
    var n := DigitRun(s);
    if Captures(s) == Some((whole, fraction)) && n < |s| {
      assert s == s[..n] + "." + s[n + 1..];
    }
    if IsPlainDecimal(s, whole, fraction) {
      var k := |whole|;
      var rest := if s == whole then "" else "." + fraction;
      assert s == whole + rest;
      DigitRunStops(whole, rest);
      assert s[..k] == whole;
      if k < |s| { assert s[k + 1..] == fraction; }
    }
  }

  function StellarAmountMatches(s: string, cents: nat): bool {
    match Captures(s)
    case None => false
    case Some((whole, fraction)) =>
      CapturesArePlainDecimal(s, whole, fraction);
      StroopsOf(whole, fraction) == cents * STROOPS_PER_CENT
  }

  // ------------------------------------------------------------ agreement

  lemma {:induction false} SplitWithoutDot(s: string)
    requires '.' !in s
    ensures SplitDots(s) == [s]
  {
    if s != "" {
      SplitWithoutDot(s[1..]);
      assert [s[0]] + s[1..] == s;
    }
  }

  lemma {:induction false} SplitAtDot(a: string, b: string)
    requires '.' !in a
    ensures SplitDots(a + "." + b) == [a] + SplitDots(b)
  {
    var s := a + "." + b;
    if a == "" {
      assert s[1..] == b;
    } else {
      SplitAtDot(a[1..], b);
      assert s[1..] == a[1..] + "." + b;
      assert [a[0]] + a[1..] == a;
    }
  }

  function Joined(parts: seq<string>): string
    requires |parts| >= 1
  {
    if |parts| == 1 then parts[0] else parts[0] + "." + Joined(parts[1..])
  }

  lemma JoinedAfterDot(rest: seq<string>)
    requires |rest| >= 1
    ensures Joined([""] + rest) == "." + Joined(rest)
  {
    var parts := [""] + rest;
    assert parts[1..] == rest;
    assert Joined(parts) == "" + "." + Joined(rest);
    hide Joined;
    assert "" + "." == ".";
  }

  lemma JoinedAfterChar(first: char, rest: seq<string>)
    requires |rest| >= 1
    ensures Joined([[first] + rest[0]] + rest[1..]) == [first] + Joined(rest)
  {
    var parts := [[first] + rest[0]] + rest[1..];
    assert parts[0] == [first] + rest[0] && parts[1..] == rest[1..];
    if |rest| > 1 {
      Regroup([first], rest[0], "." + Joined(rest[1..]));
      assert Joined(parts) == parts[0] + "." + Joined(rest[1..]);
      Regroup(parts[0], ".", Joined(rest[1..]));
      Regroup(rest[0], ".", Joined(rest[1..]));
    }
  }

  lemma Regroup(a: string, b: string, c: string)
    ensures a + b + c == a + (b + c)
  {
  }

  lemma {:induction false} JoinedSplit(s: string)
    ensures Joined(SplitDots(s)) == s
  {
    if s != "" {
      JoinedSplit(s[1..]);
      JoinedAfterDot(SplitDots(s[1..]));
      JoinedAfterChar(s[0], SplitDots(s[1..]));
      hide Joined;
      assert [s[0]] + s[1..] == s;
    }
  }

  lemma DigitsHoldNoSpecial(s: string)
    requires AllDigits(s)
    ensures '.' !in s && 'e' !in s && 'E' !in s
  {
  }

  lemma PlainDecimalSplits(s: string, whole: string, fraction: string)
    requires IsPlainDecimal(s, whole, fraction)
    ensures s != "" && s[0] !in {'+', '-'} && 'e' !in s && 'E' !in s
    ensures SplitDots(s) == if s == whole then [whole] else [whole, fraction]
    ensures s == whole ==> fraction == ""
  {
    DigitsHoldNoSpecial(whole);
    DigitsHoldNoSpecial(fraction);
    SplitWithoutDot(fraction);
    if s == whole {
      SplitWithoutDot(s);
    } else {
      SplitAtDot(whole, fraction);
    }
    assert s[0] == whole[0];
  }

  /** On a plain decimal the checked u64 computation is the exact one, or reports overflow. */
  lemma ParsePlainDecimal(s: string, whole: string, fraction: string)
    requires IsPlainDecimal(s, whole, fraction)
    ensures ParseStroops(s) ==
            if StroopsOf(whole, fraction) <= MAX_U64 then Ok(StroopsOf(whole, fraction)) else Err(AmountOverflow)
  {
    PlainDecimalSplits(s, whole, fraction);
    NumeralPadded(fraction, 7 - |fraction|);
    hide Numeral, Pow10, SplitDots;
  }

  /** Anything else is a syntax error, never an overflow and never a value. */
  lemma ParseOther(s: string)
    requires forall whole, fraction :: !IsPlainDecimal(s, whole, fraction)
    ensures ParseStroops(s) == Err(InvalidDecimalAmount)
  {
    var parts := SplitDots(s);
    var whole := parts[0];
    JoinedSplit(s);
    if |parts| == 1 {
      assert !IsPlainDecimal(s, whole, "");
    } else if |parts| == 2 {
      assert Joined(parts[1..]) == parts[1];
      assert !IsPlainDecimal(s, whole, parts[1]);
    }
  }

  /** The Rust parser accepts exactly the TypeScript pattern's strings whose exact value fits in u64. */
  lemma ParseAgreesWithPattern(s: string)
    ensures Captures(s).None? <==> ParseStroops(s) == Err(InvalidDecimalAmount)
    ensures Captures(s).Some? ==>
              var (whole, fraction) := Captures(s).value;
              && IsPlainDecimal(s, whole, fraction)
              && ParseStroops(s) ==
                   if StroopsOf(whole, fraction) <= MAX_U64 then Ok(StroopsOf(whole, fraction))
                   else Err(AmountOverflow)
  {
    match Captures(s)
    case None =>
      forall whole, fraction ensures !IsPlainDecimal(s, whole, fraction) {
        CapturesArePlainDecimal(s, whole, fraction);
      }
      ParseOther(s);
    case Some((whole, fraction)) =>
      CapturesArePlainDecimal(s, whole, fraction);
      ParsePlainDecimal(s, whole, fraction);
  }

  /**
   * Both implementations give the same answer on every string for every representable amount.
   * Past that range Rust refuses with an overflow error whatever the string is.
   */
  lemma BothMatchersAgree(cents: nat, s: string)
    ensures cents <= MAX_EXACT_CENTS ==> (Matches(cents, s) == Ok(true) <==> StellarAmountMatches(s, cents))
    ensures cents > MAX_EXACT_CENTS ==> Matches(cents, s) == Err(AmountOverflow)
  {
    ParseAgreesWithPattern(s);
  }

  /** The TypeScript matcher accepts the rendering of every amount, however large. */
  lemma RenderedAmountMatches(cents: nat)
    ensures StellarAmountMatches(ToDecimal(cents), cents)
  {
    var whole, fraction := Render(cents / 100), CentDigits(cents % 100);
    assert IsPlainDecimal(ToDecimal(cents), whole, fraction);
    CapturesArePlainDecimal(ToDecimal(cents), whole, fraction);
    StroopsOfRendering(cents);
  }

  /** The two matchers agree on an amount for every string exactly when the amount is representable in stroops. */
  lemma MatchersAgreeExactlyInRange(cents: nat)
    ensures (forall s :: Matches(cents, s) == Ok(true) <==> StellarAmountMatches(s, cents)) <==> cents <= MAX_EXACT_CENTS
  {
    if cents <= MAX_EXACT_CENTS {
      forall s ensures Matches(cents, s) == Ok(true) <==> StellarAmountMatches(s, cents) {
        BothMatchersAgree(cents, s);
      }
    } else {
      RenderedAmountMatches(cents);
      BothMatchersAgree(cents, ToDecimal(cents));
    }
  }

  /** Melt requests are capped before any amount is matched, far inside the range of agreement. */
  lemma AdmittedAmountsAgree(cents: nat, s: string)
    requires MIN_MELT_AMOUNT <= cents <= MAX_MELT_AMOUNT
    ensures Matches(cents, s) == Ok(true) <==> StellarAmountMatches(s, cents)
  {
    BothMatchersAgree(cents, s);
  }

  /** Parsing to cents and comparing with cents are one relation. */
  lemma MatchesIffParsesTo(cents: nat, s: string)
    requires cents >= 1
    ensures Matches(cents, s) == Ok(true) <==> FromStellarDecimal(s) == Ok(cents)
  {
    var parsed := ParseStroops(s);
    if parsed.Ok? {
      ParseStaysInRange(s);
    }
  }

  lemma ParseStaysInRange(s: string)
    requires ParseStroops(s).Ok?
    ensures ParseStroops(s).value <= MAX_U64
  {
  }

  /** Rendering and parsing back is the identity exactly on the representable amounts. */
  lemma DecimalRoundTrip(cents: nat)
    requires 1 <= cents <= MAX_U64
    ensures FromStellarDecimal(ToDecimal(cents)) ==
            if cents <= MAX_EXACT_CENTS then Ok(cents) else Err(AmountOverflow)
  {
    var whole := Render(cents / 100);
    var fraction := CentDigits(cents % 100);
    assert IsPlainDecimal(ToDecimal(cents), whole, fraction);
    hide Render, CentDigits, Numeral, StroopsOf, ParseStroops, SplitDots, IsPlainDecimal;
    StroopsOfRendering(cents);
    ParsePlainDecimal(ToDecimal(cents), whole, fraction);
    CentsOfStroops(cents);
  }

  lemma CentsOfStroops(cents: nat)
    ensures cents * STROOPS_PER_CENT / STROOPS_PER_CENT == cents && cents * STROOPS_PER_CENT % STROOPS_PER_CENT == 0
    ensures cents <= MAX_EXACT_CENTS <==> cents * STROOPS_PER_CENT <= MAX_U64
  {
  }

  lemma StroopsOfRendering(cents: nat)
    ensures StroopsOf(Render(cents / 100), CentDigits(cents % 100)) == cents * STROOPS_PER_CENT
  {
    var fraction := CentDigits(cents % 100);
    NumeralOfRender(cents / 100);
    TwoDigitNumeral(cents % 100);
    NumeralPadded(fraction, 5);
    assert Pow10(5) == 100_000 by { assert Pow10(3) == 1000; }
    assert cents == 100 * (cents / 100) + cents % 100;
  }

  lemma TwoDigitNumeral(n: nat)
    requires n < 100
    ensures Numeral(CentDigits(n)) == n
  {
    var s := CentDigits(n);
    var tens := [DigitChar(n / 10)];
    assert tens[..0] == "";
    assert Numeral(tens) == n / 10;
    assert s[..1] == tens;
  }
}
