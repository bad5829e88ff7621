/** An amount as exact decimal text, and back. Every currency carries two decimal places. */
module MoneyText {
  import opened Wrappers
  import opened Rounding
  import opened Text

  const MINOR_UNIT_DIGITS: nat := 2
  const MAX_SAFE_INTEGER: int := 9_007_199_254_740_991

  datatype MoneyError = Unreadable | TooPrecise | OutOfRange

  predicate IsSafe(minor: int) {
    -MAX_SAFE_INTEGER <= minor <= MAX_SAFE_INTEGER
  }

  datatype Decimal = Decimal(negative: bool, whole: string, fraction: string)

  /** Digits, and optionally a point with more digits: nothing else. */
  function ReadUnsigned(negative: bool, body: string): (d: Option<Decimal>)
    ensures d.Some? ==> AllDigits(d.value.whole) && AllDigits(d.value.fraction) && |d.value.whole| > 0
  {
    var run := DigitRun(body);
    if run == 0 then None
    else if run == |body| then Some(Decimal(negative, body[..run], ""))
    else if body[run] == '.' && run + 1 < |body| && AllDigits(body[run + 1..]) then
      Some(Decimal(negative, body[..run], body[run + 1..]))
    else None
  }

  /** With an optional minus in front. */
  function ReadDecimal(text: string): (d: Option<Decimal>)
    ensures d.Some? ==> AllDigits(d.value.whole) && AllDigits(d.value.fraction) && |d.value.whole| > 0
  {
    var negative := |text| > 0 && text[0] == '-';
    ReadUnsigned(negative, if negative then text[1..] else text)
  }

  function OfMajor(text: string): Result<int, MoneyError> {
    match ReadDecimal(Trim(text))
    case None => Err(Unreadable)
    case Some(d) =>
      if |d.fraction| > MINOR_UNIT_DIGITS then Err(TooPrecise)
      else
        var padded := d.fraction + Zeros(MINOR_UNIT_DIGITS - |d.fraction|);
        var magnitude: int := ParseNat(d.whole + padded);
        var total := if d.negative then -magnitude else magnitude;
        if IsSafe(total) then Ok(total) else Err(OutOfRange)
  }

  /** The digits of the magnitude, at least one of them before the point. */
  function PaddedDigits(minor: int): (s: string)
    ensures |s| > MINOR_UNIT_DIGITS && AllDigits(s)
  {
    var digits := PrintNat(Abs(minor));
    if |digits| > MINOR_UNIT_DIGITS then digits else Zeros(MINOR_UNIT_DIGITS + 1 - |digits|) + digits
  }

  function Assemble(negative: bool, whole: string, fraction: string): string {
    (if negative then "-" else "") + whole + "." + fraction
  }

  function ToMajorString(minor: int): string {
    var absolute := PaddedDigits(minor);
    var cut := |absolute| - MINOR_UNIT_DIGITS;
    Assemble(minor < 0, absolute[..cut], absolute[cut..])
  }

  lemma {:induction false} PaddedDigitsParse(minor: int)
    ensures ParseNat(PaddedDigits(minor)) == Abs(minor)
  {
    var digits := PrintNat(Abs(minor));
    PrintThenParse(Abs(minor));
    if |digits| <= MINOR_UNIT_DIGITS {
      LeadingZeros(MINOR_UNIT_DIGITS + 1 - |digits|, digits);
    }
  }

  /** Text of the printed shape is read back piece by piece. */
  lemma {:induction false} ReadsBack(negative: bool, whole: string, fraction: string)
    requires |whole| > 0 && AllDigits(whole) && |fraction| == MINOR_UNIT_DIGITS && AllDigits(fraction)
    ensures var text := Assemble(negative, whole, fraction);
            Trim(text) == text && ReadDecimal(text) == Some(Decimal(negative, whole, fraction))
  {
    var text := Assemble(negative, whole, fraction);
    assert text == Written(negative, whole, fraction);
    WrittenIsRead(negative, whole, fraction, text);
  }

  lemma {:induction false} TwoDecimalsRead(text: string, d: Decimal)
    requires ReadDecimal(Trim(text)) == Some(d) && |d.fraction| == MINOR_UNIT_DIGITS
    ensures AllDigits(d.whole + d.fraction)
    ensures var magnitude: int := ParseNat(d.whole + d.fraction);
            var total := if d.negative then -magnitude else magnitude;
            OfMajor(text) == if IsSafe(total) then Ok(total) else Err(OutOfRange)
  {
    assert d.fraction + Zeros(0) == d.fraction;
  }

  lemma {:induction false} TextRoundTrip(minor: int)
    requires IsSafe(minor)
    ensures OfMajor(ToMajorString(minor)) == Ok(minor)
  {
    PrintedReads(minor, PaddedDigits(minor), ToMajorString(minor));
  }

  lemma {:induction false} PrintedReads(minor: int, absolute: string, text: string)
    requires IsSafe(minor) && absolute == PaddedDigits(minor) && text == ToMajorString(minor)
    ensures OfMajor(text) == Ok(minor)
  {
    var cut := |absolute| - MINOR_UNIT_DIGITS;
    PaddedDigitsParse(minor);
    PrintedIs(minor, absolute, text);
    DigitsRead(minor, absolute[..cut], absolute[cut..], text);
    assert absolute[..cut] + absolute[cut..] == absolute;
  }

  lemma PrintedIs(minor: int, absolute: string, text: string)
    requires absolute == PaddedDigits(minor) && text == ToMajorString(minor)
    ensures var cut := |absolute| - MINOR_UNIT_DIGITS; text == Assemble(minor < 0, absolute[..cut], absolute[cut..])
  {}

  lemma {:induction false} DigitsRead(minor: int, whole: string, fraction: string, text: string)
    requires |whole| > 0 && |fraction| == MINOR_UNIT_DIGITS && AllDigits(whole) && AllDigits(fraction)
    requires text == Assemble(minor < 0, whole, fraction)
    ensures IsSafe(minor) && AllDigits(whole + fraction) && ParseNat(whole + fraction) == Abs(minor) ==> OfMajor(text) == Ok(minor)
  {
    ReadsBack(minor < 0, whole, fraction);
    TwoDecimalsRead(text, Decimal(minor < 0, whole, fraction));
  }

  lemma PrintingIsInjective(m: int, n: int)
    requires IsSafe(m) && IsSafe(n) && ToMajorString(m) == ToMajorString(n)
    ensures m == n
  {
    TextRoundTrip(m);
    TextRoundTrip(n);
  }

  /** The normal form: no needless zero in front, exactly two decimals, a minus only below zero. */
  predicate NormalForm(text: string) {
    var negative := |text| > 0 && text[0] == '-';
    var body := if negative then text[1..] else text;
    && |body| >= 4
    && body[|body| - 3] == '.'
    && Canonical(body[..|body| - 3])
    && AllDigits(body[|body| - 2..])
    && (negative ==> body != "0.00")
  }

  /** The parts of a normal form, and the one combination of them that is not one. */
  lemma {:induction false} NormalParts(negative: bool, whole: string, fraction: string)
    requires Canonical(whole) && |fraction| == 2 && AllDigits(fraction)
    ensures NormalForm(Assemble(negative, whole, fraction)) <==> !(negative && whole == "0" && fraction == "00")
  {
    var text := Assemble(negative, whole, fraction);
    assert IsDigit(whole[0]) && text[0] == if negative then '-' else whole[0];
    var body := if negative then text[1..] else text;
    assert body == whole + "." + fraction;
    assert body[..|body| - 3] == whole && body[|body| - 2..] == fraction && body[|body| - 3] == '.';
    if body == "0.00" {
      assert whole == "0.00"[..1] && fraction == "0.00"[2..];
    }
  }

  /** Normal text falls into those parts in one way. */
  lemma {:induction false} NormalSplits(text: string) returns (negative: bool, whole: string, fraction: string)
    requires NormalForm(text)
    ensures Canonical(whole) && |fraction| == 2 && AllDigits(fraction)
    ensures text == Assemble(negative, whole, fraction)
  {
    negative := text[0] == '-';
    var body := if negative then text[1..] else text;
    whole, fraction := body[..|body| - 3], body[|body| - 2..];
    assert body == whole + "." + fraction;
  }

  lemma {:induction false} PrintedParts(minor: int)
    ensures var absolute := PaddedDigits(minor);
            var cut := |absolute| - 2;
            && Canonical(absolute[..cut])
            && (absolute[..cut] == "0" && absolute[cut..] == "00" ==> minor == 0)
  {
    var digits, absolute := PrintNat(Abs(minor)), PaddedDigits(minor);
    PrintThenParse(Abs(minor));
    PaddedDigitsParse(minor);
    var cut := |absolute| - 2;
    if |digits| <= 2 {
      assert cut == 1;
    }
    if absolute[..cut] == "0" && absolute[cut..] == "00" {
      assert absolute == absolute[..cut] + absolute[cut..] == Zeros(3) + "";
      LeadingZeros(3, "");
    }
  }

  lemma {:induction false} PrintsNormalForm(minor: int)
    ensures NormalForm(ToMajorString(minor))
  {
    var absolute := PaddedDigits(minor);
    PrintedParts(minor);
    NormalParts(minor < 0, absolute[..|absolute| - 2], absolute[|absolute| - 2..]);
  }

  /** Padding is undone by dropping the zeros again, so normal text determines its own digits. */
  lemma {:induction false} CanonicalOrPadded(whole: string, fraction: string)
    requires Canonical(whole) && |fraction| == 2 && AllDigits(fraction)
    ensures PaddedDigits(ParseNat(whole + fraction)) == whole + fraction
  {
    var all := whole + fraction;
    if whole[0] != '0' {
      ParseThenPrint(all);
    } else {
      assert whole == "0" && all == Zeros(1) + fraction;
      LeadingZeros(1, fraction);
      if fraction[0] != '0' {
        ParseThenPrint(fraction);
      } else {
        var last := fraction[1..];
        assert fraction == Zeros(1) + last;
        LeadingZeros(1, last);
        ParseThenPrint(last);
        assert Zeros(2) + last == all;
      }
    }
  }

  /**
    Printing what was read gives a normal form that reads as the same amount; and text already in
    normal form, if it is accepted, is exactly what would be printed.
   */
  lemma {:induction false} NormalFormIsFixed(text: string)
    requires OfMajor(text).Ok?
    ensures var minor := OfMajor(text).value;
            && OfMajor(ToMajorString(minor)) == Ok(minor)
            && NormalForm(ToMajorString(minor))
            && (NormalForm(text) <==> ToMajorString(minor) == text)
  {
    var minor := OfMajor(text).value;
    TextRoundTrip(minor);
    PrintsNormalForm(minor);
    if NormalForm(text) {
      NormalIsPrinted(text);
    }
  }

  lemma {:induction false} NormalIsPrinted(text: string)
    requires NormalForm(text) && OfMajor(text).Ok?
    ensures ToMajorString(OfMajor(text).value) == text
  {
    var negative, whole, fraction := NormalSplits(text);
    NormalPartsPrint(negative, whole, fraction, text);
  }

  lemma {:induction false} NormalPartsPrint(negative: bool, whole: string, fraction: string, text: string)
    requires Canonical(whole) && |fraction| == 2 && AllDigits(fraction)
    requires text == Assemble(negative, whole, fraction) && NormalForm(text) && OfMajor(text).Ok?
    ensures ToMajorString(OfMajor(text).value) == text
  {
    var all := whole + fraction;
    ReadsBack(negative, whole, fraction);
    TwoDecimalsRead(text, Decimal(negative, whole, fraction));
    CanonicalOrPadded(whole, fraction);
    NormalParts(negative, whole, fraction);
    ZeroIsPlain(whole, fraction);
    assert all[..|all| - 2] == whole && all[|all| - 2..] == fraction;
  }

  lemma {:induction false} ZeroIsPlain(whole: string, fraction: string)
    requires Canonical(whole) && |fraction| == 2 && AllDigits(fraction)
    ensures ParseNat(whole + fraction) == 0 ==> whole == "0" && fraction == "00"
  {
    var all := whole + fraction;
    CanonicalOrPadded(whole, fraction);
    if ParseNat(all) == 0 {
      assert PrintNat(0) == "0" && all == Zeros(2) + "0";
      assert whole == all[..|whole|] && fraction == all[|whole|..];
    }
  }

  // ----- What any text is worth -----

  function Decimals(fraction: string): string {
    if fraction == "" then "" else "." + fraction
  }

  /** The text of a sign, whole digits and perhaps decimals. */
  function Written(negative: bool, whole: string, fraction: string): string {
    (if negative then "-" else "") + (whole + Decimals(fraction))
  }

  /** Hundredths: of no decimals, of tenths, or of hundredths. */
  function Hundredths(whole: nat, fraction: string): nat
    requires AllDigits(fraction) && |fraction| <= 2
  {
    whole * 100 + if fraction == "" then 0
                  else if |fraction| == 1 then DigitValue(fraction[0]) * 10
                  else DigitValue(fraction[0]) * 10 + DigitValue(fraction[1])
  }

  lemma {:induction false} WholeIsRead(negative: bool, whole: string)
    requires |whole| > 0 && AllDigits(whole)
    ensures ReadUnsigned(negative, whole) == Some(Decimal(negative, whole, ""))
  {
    assert whole[..|whole|] == whole;
    DigitRunIs(whole, |whole|);
  }

  lemma {:induction false} PointIsRead(negative: bool, body: string, whole: string, fraction: string)
    requires |whole| > 0 && AllDigits(whole) && |fraction| > 0 && AllDigits(fraction) && body == whole + "." + fraction
    ensures ReadUnsigned(negative, body) == Some(Decimal(negative, whole, fraction))
    ensures body[0] == whole[0] && body[|body| - 1] == fraction[|fraction| - 1]
  {
    assert body[..|whole|] == whole && body[|whole| + 1..] == fraction;
    DigitRunIs(body, |whole|);
  }

  lemma {:induction false} UnsignedIsRead(negative: bool, body: string, whole: string, fraction: string)
    requires |whole| > 0 && AllDigits(whole) && AllDigits(fraction) && body == whole + Decimals(fraction)
    ensures ReadUnsigned(negative, body) == Some(Decimal(negative, whole, fraction))
    ensures |body| > 0 && IsDigit(body[0]) && IsDigit(body[|body| - 1])
  {
    if fraction == "" {
      assert body == whole;
      WholeIsRead(negative, whole);
    } else {
      assert body == whole + "." + fraction;
      PointIsRead(negative, body, whole, fraction);
    }
  }

  lemma {:induction false} SignIsRead(negative: bool, body: string, text: string)
    requires |body| > 0 && IsDigit(body[0]) && IsDigit(body[|body| - 1]) && text == (if negative then "-" else "") + body
    ensures Trim(text) == text && ReadDecimal(text) == ReadUnsigned(negative, body)
  {
    assert text[|text| - 1] == body[|body| - 1] && text[0] == if negative then '-' else body[0];
    NothingToTrim(text);
    if negative {
      assert text[1..] == body;
    } else {
      assert text == body;
    }
  }

  lemma {:induction false} WrittenIsRead(negative: bool, whole: string, fraction: string, text: string)
    requires |whole| > 0 && AllDigits(whole) && AllDigits(fraction) && text == Written(negative, whole, fraction)
    ensures Trim(text) == text && ReadDecimal(text) == Some(Decimal(negative, whole, fraction))
  {
    var body := whole + Decimals(fraction);
    UnsignedIsRead(negative, body, whole, fraction);
    SignIsRead(negative, body, text);
  }

  lemma {:induction false} TwoMoreDigits(whole: string, padded: string)
    requires AllDigits(whole) && |padded| == 2 && AllDigits(padded)
    ensures AllDigits(whole + padded)
    ensures ParseNat(whole + padded) == ParseNat(whole) * 100 + DigitValue(padded[0]) * 10 + DigitValue(padded[1])
  {
    var all := whole + padded;
    assert all[..|all| - 1][..|all| - 2] == whole && all[|all| - 1] == padded[1] && all[..|all| - 1][|all| - 2] == padded[0];
  }

  lemma {:induction false} PaddedWorth(whole: string, fraction: string)
    requires AllDigits(whole) && AllDigits(fraction) && |fraction| <= 2
    ensures AllDigits(whole + (fraction + Zeros(2 - |fraction|)))
    ensures ParseNat(whole + (fraction + Zeros(2 - |fraction|))) == Hundredths(ParseNat(whole), fraction)
  {
    var padded := fraction + Zeros(2 - |fraction|);
    assert AllDigits(padded);
    TwoMoreDigits(whole, padded);
  }

  /** An amount is worth what its decimals say, one of them standing for tenths; more than two are refused, not rounded. */
  lemma {:induction false} WorthOf(negative: bool, whole: string, fraction: string, text: string)
    requires |whole| > 0 && AllDigits(whole) && AllDigits(fraction) && text == Written(negative, whole, fraction)
    ensures OfMajor(text) ==
      if |fraction| > 2 then Err(TooPrecise)
      else
        var hundredths: int := Hundredths(ParseNat(whole), fraction);
        var minor := if negative then -hundredths else hundredths;
        if IsSafe(minor) then Ok(minor) else Err(OutOfRange)
  {
    WrittenIsRead(negative, whole, fraction, text);
    if |fraction| <= 2 {
      PaddedWorth(whole, fraction);
      ReadWorth(text, Decimal(negative, whole, fraction), Hundredths(ParseNat(whole), fraction));
    }
  }

  lemma {:induction false} ReadWorth(text: string, d: Decimal, hundredths: int)
    requires ReadDecimal(Trim(text)) == Some(d) && |d.fraction| <= 2
    requires AllDigits(d.whole + (d.fraction + Zeros(2 - |d.fraction|)))
    requires ParseNat(d.whole + (d.fraction + Zeros(2 - |d.fraction|))) == hundredths
    ensures var minor := if d.negative then -hundredths else hundredths;
            OfMajor(text) == if IsSafe(minor) then Ok(minor) else Err(OutOfRange)
  {}

  lemma {:induction false} UnsignedIsWritten(negative: bool, body: string, d: Decimal)
    requires ReadUnsigned(negative, body) == Some(d)
    ensures d.negative == negative && body == d.whole + Decimals(d.fraction)
  {
    var run := DigitRun(body);
    assert body == body[..run] + body[run..];
    if run < |body| { assert body[run..] == "." + body[run + 1..]; }
  }

  lemma {:induction false} ReadIsWritten(text: string, d: Decimal)
    requires ReadDecimal(text) == Some(d)
    ensures text == Written(d.negative, d.whole, d.fraction)
  {
    var negative := |text| > 0 && text[0] == '-';
    var body := if negative then text[1..] else text;
    UnsignedIsWritten(negative, body, d);
    assert text == (if negative then "-" else "") + body;
  }

  /** Nothing else is read, but for white space around it. */
  lemma {:induction false} OnlyWrittenIsRead(text: string) returns (negative: bool, whole: string, fraction: string)
    requires OfMajor(text) != Err(Unreadable)
    ensures |whole| > 0 && AllDigits(whole) && AllDigits(fraction) && Trim(text) == Written(negative, whole, fraction)
  {
    var d := ReadDecimal(Trim(text)).value;
    ReadIsWritten(Trim(text), d);
    negative, whole, fraction := d.negative, d.whole, d.fraction;
  }

  lemma {:induction false} SpaceIsIgnored(text: string)
    ensures OfMajor(Trim(text)) == OfMajor(text)
  {
    TrimIsIdempotent(text);
  }
}
