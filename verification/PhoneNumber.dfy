/**
  Normalised phone numbers (ITU-T E.164, whose section 6.1 allows at most fifteen digits).
  The empty string stands for a missing number as well: `toE164` treats null, undefined and "" alike.
 */
module PhoneNumber {
  import opened Wrappers
  import opened Text

  const UAE := "971"
  const AE_MOBILE_PREFIXES := ["50", "52", "54", "55", "56", "58"]
  const AE_LANDLINE_PREFIXES := ["2", "3", "4", "6", "7", "9"]

  datatype PhoneKind = Mobile | Landline | Foreign

  predicate StartsWith(s: string, prefix: string) {
    prefix <= s
  }

  predicate StartsWithAny(s: string, prefixes: seq<string>) {
    exists i :: 0 <= i < |prefixes| && StartsWith(s, prefixes[i])
  }

  /** Arabic-Indic digits, in either of their two blocks, become the ASCII ones. */
  function LatinDigit(c: char): char {
    var code := c as int;
    if 0x0660 <= code <= 0x0669 then DigitChar(code - 0x0660)
    else if 0x06F0 <= code <= 0x06F9 then DigitChar(code - 0x06F0)
    else c
  }

  function Latinised(s: string): string {
    seq(|s|, i requires 0 <= i < |s| => LatinDigit(s[i]))
  }

  function DigitsOf(s: string): (digits: string)
    ensures AllDigits(digits)
  {
    if s == [] then []
    else if IsDigit(s[0]) then [s[0]] + DigitsOf(s[1..])
    else DigitsOf(s[1..])
  }

  predicate IsNationalAE(national: string) {
    if StartsWithAny(national, AE_MOBILE_PREFIXES) then |national| == 9
    else if StartsWithAny(national, AE_LANDLINE_PREFIXES) then |national| == 8
    else false
  }

  function Domestic(national: string): Option<string> {
    if IsNationalAE(national) then Some("+" + UAE + national) else None
  }

  function International(digits: string): Option<string> {
    if StartsWith(digits, UAE) then Domestic(digits[|UAE|..])
    else if 8 <= |digits| <= 15 then Some("+" + digits)
    else None
  }

  function Reduce(hadPlus: bool, digits: string): Option<string> {
    if digits == "" then None
    else if !hadPlus && StartsWith(digits, "00") then International(digits[2..])
    else if !hadPlus && !StartsWith(digits, UAE) then
      Domestic(if StartsWith(digits, "0") then digits[1..] else digits)
    else International(digits)
  }

  function ToE164(raw: string): Option<string> {
    var latinised := Latinised(raw);
    Reduce(StartsWith(TrimStart(latinised), "+"), DigitsOf(latinised))
  }

  function KindOf(e164: string): PhoneKind {
    if !StartsWith(e164, "+" + UAE) then Foreign
    else
      var national := e164[|UAE| + 1..];
      if StartsWithAny(national, AE_MOBILE_PREFIXES) then Mobile
      else if StartsWithAny(national, AE_LANDLINE_PREFIXES) then Landline
      else Foreign
  }

  function FormatPhone(e164: string): string {
    if KindOf(e164) == Foreign then e164
    else
      var national := e164[|UAE| + 1..];
      if |national| == 9 then
        "+" + UAE + " " + national[..2] + " " + national[2..5] + " " + national[5..]
      else
        "+" + UAE + " " + Slice(national, 0, 1) + " " + Slice(national, 1, 4) + " " + Slice(national, 4, |national|)
  }

  /** String.prototype.slice with non-negative arguments: indices past the end are cut back. */
  function Slice(s: string, from: nat, to: nat): string {
    var hi := if to < |s| then to else |s|;
    if from < hi then s[from..hi] else ""
  }

  function FromWhatsAppAddress(waId: string): Option<string> {
    var digits := DigitsOf(waId);
    if |digits| < 8 || |digits| > 15 then None else ToE164("+" + digits)
  }

  function ToWhatsAppAddress(e164: string): string {
    if StartsWith(e164, "+") then e164[1..] else e164
  }

  /** A valid number in the one form everything is reduced to. */
  predicate IsE164(e: string) {
    && |e| > 0 && e[0] == '+' && AllDigits(e[1..])
    && if StartsWith(e[1..], UAE) then IsNationalAE(e[1..][|UAE|..]) else 8 <= |e| - 1 <= 15
  }

  lemma {:induction false} DigitsOfConcat(a: string, b: string)
    ensures DigitsOf(a + b) == DigitsOf(a) + DigitsOf(b)
  {
    if a == [] {
      assert a + b == b;
    } else {
      assert (a + b)[1..] == a[1..] + b;
      DigitsOfConcat(a[1..], b);
    }
  }

  lemma {:induction false} DigitsOfDigits(s: string)
    requires AllDigits(s)
    ensures DigitsOf(s) == s
  {
    if s != [] {
      assert forall i :: 0 <= i < |s[1..]| ==> s[1..][i] == s[i + 1];
      DigitsOfDigits(s[1..]);
    }
  }

  lemma LatinisedIsNoOp(s: string)
    requires forall i :: 0 <= i < |s| ==> IsDigit(s[i]) || s[i] == '+' || s[i] == ' '
    ensures Latinised(s) == s
  {}

  lemma ReducesBare(digits: string)
    requires AllDigits(digits)
    ensures ToE164(digits) == Reduce(false, digits)
  {
    LatinisedIsNoOp(digits);
    DigitsOfDigits(digits);
  }

  lemma ReducesPlus(digits: string)
    requires AllDigits(digits)
    ensures ToE164("+" + digits) == Reduce(true, digits)
  {
    LatinisedIsNoOp("+" + digits);
    DigitsOfDigits(digits);
    DigitsOfConcat("+", digits);
  }

  /** Plain digits, with or without the plus, are reduced as they stand. */
  lemma ReducesPlain(digits: string)
    requires AllDigits(digits)
    ensures ToE164(digits) == Reduce(false, digits)
    ensures ToE164("+" + digits) == Reduce(true, digits)
  {
    ReducesBare(digits);
    ReducesPlus(digits);
  }

  lemma ReducedIsE164(hadPlus: bool, digits: string)
    requires AllDigits(digits)
    ensures Reduce(hadPlus, digits).Some? ==> IsE164(Reduce(hadPlus, digits).value)
  {
    if Reduce(hadPlus, digits).Some? {
      var e := Reduce(hadPlus, digits).value;
      if StartsWith(e, "+" + UAE) {
        assert e[1..][..3] == UAE;
      }
    }
  }

  /** The results of the reduction are exactly the numbers in the normal form, and it leaves those alone. */
  lemma NormalForm(raw: string, e: string)
    ensures ToE164(raw) == Some(e) ==> IsE164(e)
    ensures IsE164(e) <==> ToE164(e) == Some(e)
  {
    ReducedIsE164(StartsWith(TrimStart(Latinised(raw)), "+"), DigitsOf(Latinised(raw)));
    ReducedIsE164(StartsWith(TrimStart(Latinised(e)), "+"), DigitsOf(Latinised(e)));
    if IsE164(e) {
      assert e == "+" + e[1..];
      ReducesPlain(e[1..]);
      if StartsWith(e[1..], UAE) {
        assert e[1..] == UAE + e[1..][3..];
        assert "+" + UAE + e[1..][3..] == e;
      }
    }
  }

  lemma ReducesWithCountryCode(national: string)
    requires AllDigits(national)
    ensures AllDigits(UAE + national) && AllDigits("00" + UAE + national)
    ensures Reduce(true, UAE + national) == Domestic(national)
    ensures Reduce(false, UAE + national) == Domestic(national)
    ensures Reduce(false, "00" + UAE + national) == Domestic(national)
  {
    assert (UAE + national)[0] == '9' && (UAE + national)[3..] == national;
    assert ("00" + UAE + national)[2..] == UAE + national;
  }

  lemma ReducesLocally(national: string)
    requires AllDigits(national) && IsNationalAE(national)
    ensures Reduce(false, "0" + national) == Domestic(national)
    ensures Reduce(false, national) == if StartsWith(national, UAE) then None else Domestic(national)
  {
    assert national[0] != '0';
    assert ("0" + national)[0] == '0' && ("0" + national)[1] == national[0] && ("0" + national)[1..] == national;
    if StartsWith(national, UAE) {
      assert |national| == 8;
    }
  }

  /** The ways one UAE number is written agree; bare, unless its own digits look like the country code. */
  lemma SpellingsAgree(national: string)
    requires AllDigits(national) && IsNationalAE(national)
    ensures var e := Some("+" + UAE + national);
            && ToE164("+" + UAE + national) == e
            && ToE164("00" + UAE + national) == e
            && ToE164(UAE + national) == e
            && ToE164("0" + national) == e
            && (ToE164(national) == e <==> !StartsWith(national, UAE))
  {
    InternationalSpellings(national);
    LocalSpellings(national);
  }

  lemma InternationalSpellings(national: string)
    requires AllDigits(national)
    ensures ToE164("+" + UAE + national) == ToE164("00" + UAE + national) == ToE164(UAE + national) == Domestic(national)
  {
    ReducesWithCountryCode(national);
    ReducesPlain(UAE + national);
    WithZeros(national);
    assert "+" + (UAE + national) == "+" + UAE + national;
  }

  lemma WithZeros(national: string)
    requires AllDigits(national)
    ensures ToE164("00" + UAE + national) == Domestic(national)
  {
    ReducesWithCountryCode(national);
    ReducesPlain("00" + UAE + national);
  }

  lemma LocalSpellings(national: string)
    requires AllDigits(national) && IsNationalAE(national)
    ensures ToE164("0" + national) == Domestic(national)
    ensures ToE164(national) == if StartsWith(national, UAE) then None else Domestic(national)
  {
    ReducesLocally(national);
    ReducesPlain("0" + national);
    ReducesPlain(national);
  }

  lemma {:induction false} DigitsAppended(s: string, d: string)
    requires AllDigits(d)
    ensures DigitsOf(s + " " + d) == DigitsOf(s) + d
  {
    DigitsOfConcat(s + " ", d);
    DigitsOfConcat(s, " ");
    DigitsOfDigits(d);
    assert DigitsOf(" ") == "";
  }

  lemma Spaced(a: string, b: string, c: string)
    requires AllDigits(a) && AllDigits(b) && AllDigits(c)
    ensures ToE164("+" + UAE + " " + a + " " + b + " " + c) == Reduce(true, UAE + a + b + c)
  {
    var text := "+" + UAE + " " + a + " " + b + " " + c;
    LatinisedIsNoOp(text);
    DigitsAppended("+" + UAE + " " + a + " " + b, c);
    DigitsAppended("+" + UAE + " " + a, b);
    DigitsAppended("+" + UAE, a);
    DigitsOfConcat("+", UAE);
    DigitsOfDigits(UAE);
    assert DigitsOf("+") == "";
    assert text[0] == '+';
  }

  /** What a person is shown can be typed back in. */
  lemma FormatRoundTrip(e: string)
    requires IsE164(e)
    ensures ToE164(FormatPhone(e)) == Some(e)
  {
    NormalForm(e, e);
    if KindOf(e) != Foreign {
      var national := e[4..];
      assert e[1..][3..] == national;
      assert e == "+" + UAE + national;
      assert AllDigits(national) by { assert forall i :: 0 <= i < |national| ==> national[i] == e[1..][i + 3]; }
      ReducesWithCountryCode(national);
      if |national| == 9 {
        SpacedAt(national, 2, 5);
      } else {
        assert |national| == 8 && national[4..8] == national[4..];
        SpacedAt(national, 1, 4);
      }
    }
  }

  lemma SpacedAt(national: string, i: nat, j: nat)
    requires AllDigits(national) && i <= j <= |national|
    ensures ToE164("+" + UAE + " " + national[..i] + " " + national[i..j] + " " + national[j..]) == Reduce(true, UAE + national)
  {
    Spaced(national[..i], national[i..j], national[j..]);
    assert UAE + national[..i] + national[i..j] + national[j..] == UAE + national;
  }

  lemma SameCountryCode(digits: string)
    ensures StartsWith("+" + digits, "+" + UAE) <==> StartsWith(digits, UAE)
  {
    var e := "+" + digits;
    if StartsWith(digits, UAE) { assert e[..4] == "+" + digits[..3]; }
    if StartsWith(e, "+" + UAE) { assert digits[..3] == e[..4][1..] && ("+" + UAE)[1..] == UAE; }
  }

  /** Without its plus, the number is still read as itself exactly when it is one of the country's own. */
  lemma BareReading(e: string)
    requires IsE164(e)
    ensures ToE164(e[1..]) == Some(e) <==> StartsWith(e, "+" + UAE)
  {
    var digits := e[1..];
    assert e == "+" + digits;
    SameCountryCode(digits);
    NormalForm(e, e);
    ReducesPlain(digits);
    if StartsWith(digits, UAE) {
      assert digits == UAE + digits[3..];
    } else if StartsWith(digits, "00") {
      assert |digits[2..]| < |digits|;
      ReducedIsE164(false, digits);
    }
  }

  /**
    A WhatsApp address is the number without its plus, and comes back whole. Read with `ToE164`
    instead it comes back only when the number is a UAE one.
   */
  lemma WhatsAppRoundTrip(e: string)
    requires IsE164(e)
    ensures FromWhatsAppAddress(ToWhatsAppAddress(e)) == Some(e)
    ensures ToE164(ToWhatsAppAddress(e)) == Some(e) <==> StartsWith(e, "+" + UAE)
  {
    assert ToWhatsAppAddress(e) == e[1..] && e == "+" + e[1..];
    DigitsOfDigits(e[1..]);
    NormalForm(e, e);
    BareReading(e);
  }

  // ----- In plain digits -----

  lemma StartsWithOne(n: string, prefixes: seq<string>, length: nat)
    requires 0 < length && forall i :: 0 <= i < |prefixes| ==> |prefixes[i]| == length
    ensures StartsWithAny(n, prefixes) <==> |n| >= length && n[..length] in prefixes
  {
    if |n| >= length && n[..length] in prefixes {
      var i :| 0 <= i < |prefixes| && prefixes[i] == n[..length];
      assert StartsWith(n, prefixes[i]);
    }
    if i :| 0 <= i < |prefixes| && StartsWith(n, prefixes[i]) {
      assert n[..length] == prefixes[i];
    }
  }

  /** A mobile number of the country has nine digits and begins 50, 52, 54, 55, 56 or 58; a landline eight, and 2, 3, 4, 6, 7 or 9. */
  lemma NationalIff(n: string)
    requires AllDigits(n)
    ensures IsNationalAE(n) <==>
      || (|n| == 9 && n[0] == '5' && n[1] in {'0', '2', '4', '5', '6', '8'})
      || (|n| == 8 && n[0] in {'2', '3', '4', '6', '7', '9'})
  {
    StartsWithOne(n, AE_MOBILE_PREFIXES, 2);
    StartsWithOne(n, AE_LANDLINE_PREFIXES, 1);
    if |n| >= 2 {
      assert n[..2] == [n[0], n[1]] && n[..1] == [n[0]];
      assert n[..2] in AE_MOBILE_PREFIXES <==> n[0] == '5' && n[1] in {'0', '2', '4', '5', '6', '8'} by {
        assert forall c: char, d: char :: [c, d] in AE_MOBILE_PREFIXES ==> [c, d][0] == '5' && [c, d][1] in {'0', '2', '4', '5', '6', '8'};
        TwoChars(n[0], n[1]);
      }
      assert n[..1] in AE_LANDLINE_PREFIXES <==> n[0] in {'2', '3', '4', '6', '7', '9'} by { OneChar(n[0]); }
    }
  }

  lemma TwoChars(c: char, d: char)
    ensures [c, d] in AE_MOBILE_PREFIXES <==> c == '5' && d in {'0', '2', '4', '5', '6', '8'}
  {
    assert AE_MOBILE_PREFIXES[0] == "50" && AE_MOBILE_PREFIXES[1] == "52" && AE_MOBILE_PREFIXES[2] == "54";
    assert AE_MOBILE_PREFIXES[3] == "55" && AE_MOBILE_PREFIXES[4] == "56" && AE_MOBILE_PREFIXES[5] == "58";
  }

  lemma OneChar(c: char)
    ensures [c] in AE_LANDLINE_PREFIXES <==> c in {'2', '3', '4', '6', '7', '9'}
  {
    assert AE_LANDLINE_PREFIXES[0] == "2" && AE_LANDLINE_PREFIXES[1] == "3" && AE_LANDLINE_PREFIXES[2] == "4";
    assert AE_LANDLINE_PREFIXES[3] == "6" && AE_LANDLINE_PREFIXES[4] == "7" && AE_LANDLINE_PREFIXES[5] == "9";
  }

  /** Two zeros in front are read as the plus, whatever country follows; and another country's number as it stands. */
  lemma ZerosArePlus(digits: string)
    requires AllDigits(digits)
    ensures ToE164("00" + digits) == ToE164("+" + digits)
    ensures !StartsWith(digits, UAE) ==> ToE164("+" + digits) == if 8 <= |digits| <= 15 then Some("+" + digits) else None
  {
    assert ("00" + digits)[2..] == digits && ("00" + digits)[..2] == "00";
    ReducesBare("00" + digits);
    ReducesPlus(digits);
  }

  /** Without either, digits are a number of this country or none, with the country code, a zero in front, or neither. */
  lemma BareIsDomestic(digits: string, e: string)
    requires AllDigits(digits) && !StartsWith(digits, "00") && ToE164(digits) == Some(e)
    ensures StartsWith(e, "+" + UAE) && IsNationalAE(e[4..])
    ensures digits == e[1..] || digits == e[4..] || digits == "0" + e[4..]
  {
    ReducesBare(digits);
    if StartsWith(digits, UAE) {
      assert digits == UAE + digits[3..];
    } else if StartsWith(digits, "0") {
      assert digits == "0" + digits[1..];
    }
  }

  /** Arabic-Indic digits, of either block, are read as the digits they are. */
  function InArabic(digits: string, zero: int): string
    requires AllDigits(digits) && zero in {0x0660, 0x06F0}
  {
    seq(|digits|, i requires 0 <= i < |digits| => (zero + DigitValue(digits[i])) as char)
  }

  lemma ArabicReadsAlike(digits: string, zero: int, plus: bool)
    requires AllDigits(digits) && zero in {0x0660, 0x06F0}
    ensures var sign := if plus then "+" else ""; ToE164(sign + InArabic(digits, zero)) == ToE164(sign + digits)
  {
    var sign := if plus then "+" else "";
    assert Latinised(sign + InArabic(digits, zero)) == Latinised(sign + digits);
  }

  lemma KindByLength(e: string, national: string)
    requires IsE164(e) && e == "+" + UAE + national && AllDigits(national) && IsNationalAE(national)
    ensures e[4..] == national && KindOf(e) == if |e| == 13 then Mobile else Landline
  {
    NationalIff(national);
    StartsWithOne(national, AE_MOBILE_PREFIXES, 2);
    StartsWithOne(national, AE_LANDLINE_PREFIXES, 1);
    assert e[4..] == national;
  }

  lemma NationalPart(e: string) returns (national: string)
    requires IsE164(e) && StartsWith(e, "+" + UAE)
    ensures e == "+" + UAE + national && AllDigits(national) && IsNationalAE(national)
  {
    national := e[4..];
    assert e[..4] == "+" + UAE && e[1..][..3] == UAE && e[1..][3..] == national;
    assert forall i :: 0 <= i < |national| ==> national[i] == e[1..][i + 3];
  }

  /** What kind of number it is: another country's, or by its length. */
  lemma KindIs(e: string)
    requires IsE164(e)
    ensures KindOf(e) == if !StartsWith(e, "+" + UAE) then Foreign else if |e| == 13 then Mobile else Landline
  {
    if StartsWith(e, "+" + UAE) {
      var national := NationalPart(e);
      KindByLength(e, national);
    }
  }

  /** What a person is shown: the country code, the area or operator, a group of three, and what is left. */
  lemma ShownIn(e: string)
    requires IsE164(e)
    ensures FormatPhone(e) ==
      if !StartsWith(e, "+" + UAE) then e
      else if |e| == 13 then e[..4] + " " + e[4..6] + " " + e[6..9] + " " + e[9..]
      else e[..4] + " " + e[4..5] + " " + e[5..8] + " " + e[8..]
  {
    KindIs(e);
    if StartsWith(e, "+" + UAE) {
      var national := NationalPart(e);
      assert e[..4] == "+" + UAE && e[4..] == national;
      NationalIff(national);
      if |national| == 9 {
        assert national[..2] == e[4..6] && national[2..5] == e[6..9] && national[5..] == e[9..];
      } else {
        assert national[0..1] == e[4..5] && national[1..4] == e[5..8] && national[4..8] == e[8..];
      }
    }
  }
}
