/** Fixed-point amounts as the ethers library converts them: `parseUnits`
    reads a decimal string into an integer count of the smallest unit
    (`10^-decimals`), `formatUnits` writes such an integer back as a decimal
    string. USDT amounts use 6 decimals, ether amounts 18. */
module Units {
  import opened Common
  import opened Digits
  import opened Text

  /** The short messages of ethers' two `parseUnits` errors; the thrown
      `message` appends the argument, the value, the code and the library
      version in parentheses. */
  const InvalidValueMessage := "invalid FixedNumber string value"
  const TooManyDecimalsMessage := "too many decimals for format"

  /** The parts of a string matching `-?[0-9]*\.?[0-9]*` that holds at least
      one digit: its sign, the digits before the point and those after. */
  datatype DecimalString = DecimalString(negative: bool, whole: string, fraction: string)

  function Lex(s: string): (r: Option<DecimalString>)
    ensures r.Some? ==> AllDigits(r.value.whole, 10) && AllDigits(r.value.fraction, 10)
    ensures r.Some? ==> |s| > 0 && (r.value.negative <==> s[0] == '-')
  {
    var negative := |s| > 0 && s[0] == '-';
    var body := if negative then s[1..] else s;
    var dot := IndexOf(body, '.');
    var whole := body[..dot];
    var fraction := if dot < |body| then body[dot + 1..] else "";
    if AllDigits(whole, 10) && AllDigits(fraction, 10) && |whole| + |fraction| > 0
    then Some(DecimalString(negative, whole, fraction))
    else None
  }

  predicate AllZeros(s: string)
  {
    forall i :: 0 <= i < |s| ==> s[i] == '0'
  }

  /** The fraction digits as a count of `10^-decimals` units: padded on the
      right with zeros, or cut to `decimals` digits. */
  function FractionUnits(fraction: string, decimals: nat): nat
    requires AllDigits(fraction, 10)
  {
    if |fraction| <= decimals then FromBase(fraction, 10) * Pow(10, decimals - |fraction|)
    else FromBase(fraction[..decimals], 10)
  }

  /** The amount a lexed decimal string denotes in `10^-decimals` units. */
  function Denotation(d: DecimalString, decimals: nat): (r: Result<int>)
    requires AllDigits(d.whole, 10) && AllDigits(d.fraction, 10)
    ensures r.Err? ==> r.error == Fail(TooManyDecimalsMessage)
    ensures r.Ok? && r.value != 0 ==> (r.value < 0 <==> d.negative)
  {
    if |d.fraction| > decimals && !AllZeros(d.fraction[decimals..]) then Err(Fail(TooManyDecimalsMessage))
    else
      var magnitude := FromBase(d.whole, 10) * Pow(10, decimals) + FractionUnits(d.fraction, decimals);
      Ok(if d.negative then -magnitude else magnitude)
  }

  /** `parseUnits(s, decimals)`: fails on a string outside the grammar and
      on digits beyond `decimals` places that are not all zeros. */
  function ParseUnits(s: string, decimals: nat): (r: Result<int>)
    ensures Lex(s).None? ==> r == Err(Fail(InvalidValueMessage))
    ensures r.Err? ==> r.error == Fail(InvalidValueMessage) || r.error == Fail(TooManyDecimalsMessage)
    ensures r.Ok? ==> |s| > 0 && (r.value != 0 ==> (r.value < 0 <==> s[0] == '-'))
  {
    match Lex(s)
    case None => Err(Fail(InvalidValueMessage))
    case Some(d) => Denotation(d, decimals)
  }

  /** `s` without its trailing zeros, keeping at least one character. */
  function TrimTrailingZeros(s: string): string
  {
    if |s| > 1 && s[|s| - 1] == '0' then TrimTrailingZeros(s[..|s| - 1]) else s
  }

  lemma DivModPositive(m: nat, p: nat)
    requires p >= 1
    ensures m / p >= 0 && 0 <= m % p < p && m == (m / p) * p + m % p
  {
  }

  /** The fraction digits `formatUnits` writes for a remainder below
      `10^decimals`. */
  function FractionDigits(r: nat, decimals: nat): string
  {
    TrimTrailingZeros(PadLeft(Decimal(r), decimals))
  }

  /** The pieces `formatUnits` writes for `v`: its sign, the whole part of
      `|v| / 10^decimals` and, when `decimals > 0`, the fraction digits of
      the remainder. */
  function Formatted(v: int, decimals: nat): DecimalString
  {
    var magnitude: nat := if v < 0 then -v else v;
    var p := Pow(10, decimals);
    DivModPositive(magnitude, p);
    var fraction := if decimals > 0 then FractionDigits(magnitude % p, decimals) else "";
    DecimalString(v < 0, Decimal(magnitude / p), fraction)
  }

  /** `formatUnits(v, decimals)`: an optional `-`, the whole part without
      leading zeros, and, when `decimals > 0`, a point followed by the
      fraction without trailing zeros but with at least one digit
      (`1500000` with 6 decimals is `"1.5"`, `250000000` is `"250.0"`). */
  function FormatUnits(v: int, decimals: nat): (r: string)
    ensures |r| > 0 && (r[0] == '-' <==> v < 0)
  {
    var magnitude: nat := if v < 0 then -v else v;
    DivModPositive(magnitude, Pow(10, decimals));
    ToBaseRoundTrip(magnitude / Pow(10, decimals), 10);
    Written(Formatted(v, decimals), decimals > 0)
  }

  /** Trimming drops a run of trailing zeros: what is left, followed by as
      many zeros as were dropped, is the string again. */
  lemma {:induction false} TrimTrailingZerosShape(s: string)
    ensures |TrimTrailingZeros(s)| <= |s|
    ensures TrimTrailingZeros(s) + Zeros(|s| - |TrimTrailingZeros(s)|) == s
    ensures |s| >= 1 ==> |TrimTrailingZeros(s)| >= 1
    decreases |s|
  {
    if |s| > 1 && s[|s| - 1] == '0' {
      var s' := s[..|s| - 1];
      TrimTrailingZerosShape(s');
      var t := TrimTrailingZeros(s');
      assert Zeros(|s| - |t|) == Zeros(|s'| - |t|) + "0";
      assert t + Zeros(|s| - |t|) == (t + Zeros(|s'| - |t|)) + "0";
    } else {
      assert s + Zeros(0) == s;
    }
  }

  /** Trimming keeps a string of digits a string of digits. */
  lemma TrimTrailingZerosDigits(s: string)
    requires AllDigits(s, 10)
    ensures AllDigits(TrimTrailingZeros(s), 10)
  {
    var t := TrimTrailingZeros(s);
    TrimTrailingZerosShape(s);
    forall i | 0 <= i < |t| ensures IsDigit(t[i], 10) {
      assert t[i] == (t + Zeros(|s| - |t|))[i];
    }
  }

  /** In digits followed by nothing or by a point, the first point is the
      one after the digits. */
  lemma DotAfterDigits(whole: string, tail: string)
    requires AllDigits(whole, 10)
    requires tail == [] || tail[0] == '.'
    ensures IndexOf(whole + tail, '.') == |whole|
  {
    var body := whole + tail;
    assert forall k :: 0 <= k < |whole| ==> body[k] == whole[k] && IsDigit(whole[k], 10);
    if tail != [] { assert body[|whole|] == '.'; } else { assert body == whole; }
    IndexOfFirst(body, '.', |whole|);
  }

  /** A lexed decimal string written out again: the sign, the whole digits
      and, when `dot` holds, the point and the fraction digits. */
  function Written(d: DecimalString, dot: bool): string
  {
    (if d.negative then "-" else "") + d.whole + (if dot then "." + d.fraction else "")
  }

  /** The strings `Lex` accepts: digits on both sides of an optional point,
      at least one of them. */
  predicate WellFormed(d: DecimalString, dot: bool)
  {
    AllDigits(d.whole, 10) && AllDigits(d.fraction, 10) && |d.whole| + |d.fraction| > 0
    && (!dot ==> d.fraction == "")
  }

  /** Reading an unsigned well-formed decimal string back. */
  lemma LexUnsigned(d: DecimalString, dot: bool)
    requires WellFormed(d, dot) && !d.negative
    ensures var body := Written(d, dot);
            |body| > 0 && body[0] != '-' && Lex(body) == Some(d)
  {
    var tail := if dot then "." + d.fraction else "";
    var body := d.whole + tail;
    assert Written(d, dot) == body;
    assert body[0] != '-' by {
      if |d.whole| > 0 { assert IsDigit(d.whole[0], 10); } else { assert body[0] == '.'; }
    }
    DotAfterDigits(d.whole, tail);
    assert body[..|d.whole|] == d.whole;
    if dot {
      assert body[|d.whole| + 1..] == d.fraction;
    }
  }

  /** A leading `-` only sets the sign. */
  lemma LexNegated(body: string)
    requires |body| > 0 && body[0] != '-' && Lex(body).Some?
    ensures Lex("-" + body) == Some(Lex(body).value.(negative := true))
  {
    assert ("-" + body)[1..] == body;
  }

  /** `Lex` reads back the pieces of every well-formed decimal string. */
  lemma LexWritten(d: DecimalString, dot: bool)
    requires WellFormed(d, dot)
    ensures Lex(Written(d, dot)) == Some(d)
  {
    var unsigned := d.(negative := false);
    var body := Written(unsigned, dot);
    LexUnsigned(unsigned, dot);
    if d.negative {
      assert Written(d, dot) == "-" + body;
      LexNegated(body);
    } else {
      assert d == unsigned;
    }
  }

  /** Trimming the trailing zeros of `decimals` fraction digits keeps at
      least one digit and the amount they denote. */
  lemma TrimmedFraction(padded: string, decimals: nat)
    requires AllDigits(padded, 10) && |padded| == decimals >= 1
    ensures var fraction := TrimTrailingZeros(padded);
            AllDigits(fraction, 10) && 1 <= |fraction| <= decimals
            && FractionUnits(fraction, decimals) == FromBase(padded, 10)
  {
    var fraction := TrimTrailingZeros(padded);
    TrimTrailingZerosShape(padded);
    TrimTrailingZerosDigits(padded);
    var k := decimals - |fraction|;
    FromBaseOfZeros(k, 10);
    FromBaseAppend(fraction, Zeros(k), 10);
    assert FromBase(fraction, 10) * Pow(10, k) == FromBase(padded, 10);
  }

  /** The fraction `formatUnits` writes for `r < 10^decimals` is a non-empty
      string of at most `decimals` digits that reads back as `r`. */
  lemma FractionDigitsValue(r: nat, decimals: nat)
    requires decimals >= 1 && r < Pow(10, decimals)
    ensures AllDigits(FractionDigits(r, decimals), 10)
    ensures 1 <= |FractionDigits(r, decimals)| <= decimals
    ensures FractionUnits(FractionDigits(r, decimals), decimals) == r
  {
    var padded := PadLeft(Decimal(r), decimals);
    assert |padded| == decimals by {
      ToBaseLength(r, 10, decimals);
      ToBaseRoundTrip(r, 10);
    }
    PadLeftValue(r, 10, decimals);
    TrimmedFraction(padded, decimals);
  }

  /** A well-formed decimal string denotes what its parts denote. */
  lemma ParseWritten(d: DecimalString, dot: bool, decimals: nat)
    requires WellFormed(d, dot)
    ensures ParseUnits(Written(d, dot), decimals) == Denotation(d, decimals)
  {
    LexWritten(d, dot);
  }

  /** With at most `decimals` fraction digits nothing is refused. */
  lemma DenotationUnits(d: DecimalString, decimals: nat)
    requires AllDigits(d.whole, 10) && AllDigits(d.fraction, 10)
    requires |d.fraction| <= decimals
    ensures var m := FromBase(d.whole, 10) * Pow(10, decimals) + FractionUnits(d.fraction, decimals);
            Denotation(d, decimals) == Ok(if d.negative then -m else m)
  {
  }

  /** With at most `decimals` fraction digits nothing is refused or cut. */
  lemma DenotationValue(d: DecimalString, decimals: nat)
    requires AllDigits(d.whole, 10) && AllDigits(d.fraction, 10)
    requires |d.fraction| <= decimals
    ensures var m := FromBase(d.whole, 10) * Pow(10, decimals) + FromBase(d.fraction, 10) * Pow(10, decimals - |d.fraction|);
            Denotation(d, decimals) == Ok(if d.negative then -m else m)
  {
  }

  /** Writing an amount and reading it back gives the same amount: the
      decimal string `formatUnits` produces denotes exactly `v`. */
  lemma FormatParseRoundTrip(v: int, decimals: nat)
    ensures ParseUnits(FormatUnits(v, decimals), decimals) == Ok(v)
  {
    var magnitude: nat := if v < 0 then -v else v;
    var p := Pow(10, decimals);
    DivModPositive(magnitude, p);
    var q, r := magnitude / p, magnitude % p;
    var d := Formatted(v, decimals);
    assert d.whole == Decimal(q);
    ToBaseRoundTrip(q, 10);
    if decimals > 0 {
      assert d.fraction == FractionDigits(r, decimals);
      FractionDigitsValue(r, decimals);
    } else {
      assert d.fraction == "" && r == 0;
    }
    assert FromBase(d.whole, 10) * p + FractionUnits(d.fraction, decimals) == magnitude;
    ParseWritten(d, decimals > 0, decimals);
    DenotationUnits(d, decimals);
  }

  /** Digits without a point are scaled by `10^decimals`. */
  lemma ParseWholeDigits(whole: string, decimals: nat)
    requires AllDigits(whole, 10) && |whole| > 0
    ensures ParseUnits(whole, decimals) == Ok(FromBase(whole, 10) * Pow(10, decimals))
  {
    var d := DecimalString(false, whole, "");
    assert Written(d, false) == whole;
    ParseWritten(d, false, decimals);
    DenotationValue(d, decimals);
  }

  /** A whole number of units is scaled by `10^decimals`. */
  lemma ParseWholeNumber(n: nat, decimals: nat)
    ensures ParseUnits(Decimal(n), decimals) == Ok(n * Pow(10, decimals))
  {
    ToBaseRoundTrip(n, 10);
    ParseWholeDigits(Decimal(n), decimals);
  }

  /** `W.F` with at most `decimals` fraction digits is `W * 10^decimals`
      plus `F` shifted into place; nothing is rounded. */
  lemma ParseWithFraction(whole: string, fraction: string, decimals: nat)
    requires AllDigits(whole, 10) && AllDigits(fraction, 10) && |whole| + |fraction| > 0
    requires |fraction| <= decimals
    ensures ParseUnits(whole + "." + fraction, decimals)
            == Ok(FromBase(whole, 10) * Pow(10, decimals) + FromBase(fraction, 10) * Pow(10, decimals - |fraction|))
  {
    ParsePointed(whole, fraction, decimals);
    DenotationValue(DecimalString(false, whole, fraction), decimals);
  }

  /** A digit other than zero beyond `decimals` places is refused. */
  lemma ParseRefusesExtraDigits(whole: string, fraction: string, decimals: nat)
    requires AllDigits(whole, 10) && AllDigits(fraction, 10)
    requires |fraction| > decimals && !AllZeros(fraction[decimals..])
    ensures ParseUnits(whole + "." + fraction, decimals) == Err(Fail(TooManyDecimalsMessage))
  {
    ParsePointed(whole, fraction, decimals);
  }

  lemma ParsePointed(whole: string, fraction: string, decimals: nat)
    requires AllDigits(whole, 10) && AllDigits(fraction, 10) && |whole| + |fraction| > 0
    ensures ParseUnits(whole + "." + fraction, decimals) == Denotation(DecimalString(false, whole, fraction), decimals)
  {
    var d := DecimalString(false, whole, fraction);
    assert Written(d, true) == whole + "." + fraction;
    ParseWritten(d, true, decimals);
  }
}
