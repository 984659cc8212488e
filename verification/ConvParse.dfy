/** Parsing integers with progress information in folly/Conv.h: spaces, a sign for signed targets, then digits. */
module ConvParse {
  import opened Conv

  predicate IsDigit(c: char) { '0' <= c <= '9' }

  predicate IsSpace(c: char) { c == ' ' || '\U{09}' <= c <= '\U{0D}' }

  // ---------------------------------------------------------------- what is parsed

  /** The first position from `i` on that is not a space. */
  function SkipSpaces(src: string, i: nat): (r: nat)
    requires i <= |src|
    ensures i <= r <= |src| && (r < |src| ==> !IsSpace(src[r])) && forall j :: i <= j < r ==> IsSpace(src[j])
    decreases |src| - i
  {
    if i < |src| && IsSpace(src[i]) then SkipSpaces(src, i + 1) else i
  }

  /** The first position from `i` on that is not a digit. */
  function DigitsEnd(src: string, i: nat): (r: nat)
    requires i <= |src|
    ensures i <= r <= |src| && (r < |src| ==> !IsDigit(src[r])) && forall j :: i <= j < r ==> IsDigit(src[j])
    decreases |src| - i
  {
    if i < |src| && IsDigit(src[i]) then DigitsEnd(src, i + 1) else i
  }

  function DigitsAt(src: string, i: nat): (r: Digits)
    requires i <= |src|
  {
    src[i..DigitsEnd(src, i)]
  }

  /** The smallest number a signed type of the same width cannot hold: 2^(w-1). */
  function Half(w: Width): (r: int)
    ensures 2 * r == w.Max() + 1
  {
    match w
    case W8 => 0x80
    case W16 => 0x8000
    case W32 => 0x8000_0000
    case W64 => 0x8000_0000_0000_0000
  }

  predicate InRange(w: Width, signed: bool, v: int) {
    if signed then 0 <= v + Half(w) && v < Half(w) else 0 <= v <= w.Max()
  }

  predicate HasSign(src: string, b: nat) { b < |src| && (src[b] == '-' || src[b] == '+') }

  /** Where the digits should start. */
  function NumberStart(signed: bool, src: string, b: nat): (r: nat) { if signed && HasSign(src, b) then b + 1 else b }

  function WithSign(negative: bool, x: nat): (r: int) { if negative then 0 - x else x }

  /** The number whose digits start at `m`. */
  function ParsedAt(w: Width, signed: bool, negative: bool, src: string, m: nat): (r: (Result<int>, string)) {
    if m < |src| && IsDigit(src[m]) && InRange(w, signed, WithSign(negative, Value(DigitsAt(src, m)))) then
      (Ok(WithSign(negative, Value(DigitsAt(src, m)))), src[DigitsEnd(src, m)..])
    else (RangeError, src)
  }

  /** A number in the range of the type, and what comes after its digits; on an error nothing is consumed. */
  function Parsed(w: Width, signed: bool, src: string): (r: (Result<int>, string)) {
    var b := SkipSpaces(src, 0);
    var m := NumberStart(signed, src, b);
    ParsedAt(w, signed, m > b && src[b] == '-', src, m)
  }

  // ---------------------------------------------------------------- negate and check the sign

  /** An unsigned number read as a signed one of the same width. */
  function ToSigned(w: Width, x: nat): (r: int)
    requires x <= w.Max()
  {
    if x < Half(w) then x else x - w.Max() - 1
  }

  /** Unsigned negation. */
  function Negated(w: Width, x: nat): (r: nat)
    requires x <= w.Max()
    ensures r <= w.Max()
  {
    if x == 0 then 0 else w.Max() + 1 - x
  }

  /** The sign after the conversion tells exactly whether the number was in range. */
  lemma SignTellsRange(w: Width, x: nat)
    requires x <= w.Max()
    ensures ToSigned(w, Negated(w, x)) <= 0 <==> x <= Half(w)
    ensures x <= Half(w) ==> ToSigned(w, Negated(w, x)) == 0 - x
    ensures ToSigned(w, x) >= 0 <==> x < Half(w)
    ensures x < Half(w) ==> ToSigned(w, x) == x
  {
  }

  // ---------------------------------------------------------------- the parser

  method FindFirstNonDigit(src: string, i: nat) returns (m: nat)
    requires i <= |src|
    ensures m == DigitsEnd(src, i)
  {
    m := i;
    while m < |src|
      invariant i <= m <= |src| && DigitsEnd(src, i) == DigitsEnd(src, m)
    {
      if !IsDigit(src[m]) { break; }
      m := m + 1;
    }
  }

  method FindFirstNonSpace(src: string) returns (b: nat)
    ensures b == SkipSpaces(src, 0)
  {
    b := 0;
    while b < |src|
      invariant 0 <= b <= |src| && SkipSpaces(src, 0) == SkipSpaces(src, b)
    {
      if !IsSpace(src[b]) { break; }
      b := b + 1;
    }
  }

  /** `to<Tgt>(StringPiece*)` */
  method Parse(w: Width, signed: bool, src: string) returns (r: Result<int>, rest: string)
    ensures (r, rest) == Parsed(w, signed, src)
  {
    var b := FindFirstNonSpace(src);
    if b == |src| { return RangeError, src; }
    var negative := false;
    var m := b;
    if signed && !IsDigit(src[m]) {
      if src[m] == '-' {
        negative := true;
      } else if src[m] != '+' {
        return RangeError, src;
      }
      m := m + 1;
    }
    if m == |src| || !IsDigit(src[m]) { return RangeError, src; }
    r, rest := ParseDigits(w, signed, negative, src, m);
  }

  /** From the first digit on: convert without sign, then negate and check. */
  method ParseDigits(w: Width, signed: bool, negative: bool, src: string, m: nat) returns (r: Result<int>, rest: string)
    requires m < |src| && IsDigit(src[m]) && (negative ==> signed)
    ensures (r, rest) == ParsedAt(w, signed, negative, src, m)
  {
    var e := FindFirstNonDigit(src, m + 1);
    var t := DigitsTo(w, DigitsAt(src, m));
    if t.RangeError? { return RangeError, src; }
    if !signed { return Ok(t.value), src[e..]; }
    SignTellsRange(w, t.value);
    var result := ToSigned(w, if negative then Negated(w, t.value) else t.value);
    if (if negative then result > 0 else result < 0) { return RangeError, src; }
    return Ok(result), src[e..];
  }

  /** A whole text as a signed number: an optional sign, then nothing but digits. */
  ghost predicate WholeText(s: string) { forall i :: 0 < i < |s| ==> IsDigit(s[i]) }

  /** `to<Tgt>(b, e)` for signed targets. */
  method ToSignedWhole(w: Width, s: string) returns (r: Result<int>)
    requires WholeText(s)
    ensures s == "" || (!IsDigit(s[0]) && !HasSign(s, 0)) || (HasSign(s, 0) && |s| == 1) ==> r.RangeError?
    ensures s != "" && IsDigit(s[0]) ==> r == if Value(s) < Half(w) then Ok(Value(s)) else RangeError
    ensures |s| > 1 && s[0] == '+' ==> r == if Value(s[1..]) < Half(w) then Ok(Value(s[1..])) else RangeError
    ensures |s| > 1 && s[0] == '-' ==> r == if Value(s[1..]) <= Half(w) then Ok(0 - Value(s[1..])) else RangeError
  {
    if s == "" { return RangeError; }
    var digits: string := s;
    if !IsDigit(s[0]) {
      if s[0] == '-' {
        var t := DigitsTo(w, s[1..]);
        if t.RangeError? { return RangeError; }
        SignTellsRange(w, t.value);
        var result := ToSigned(w, Negated(w, t.value));
        if result > 0 { return RangeError; }
        return Ok(result);
      }
      if s[0] != '+' { return RangeError; }
      digits := s[1..];
    }
    var t := DigitsTo(w, digits);
    if t.RangeError? { return RangeError; }
    SignTellsRange(w, t.value);
    var result := ToSigned(w, t.value);
    if result < 0 { return RangeError; }
    return Ok(result);
  }

  // ---------------------------------------------------------------- printing

  /** `toAppend` of a signed number: a minus sign and the digits of its absolute value. */
  function Printed(negative: bool, x: nat): (r: string) { (if negative then "-" else "") + Decimal(x) }

  lemma {:induction false} DigitsEndOf(src: string, i: nat, e: nat)
    requires i <= e <= |src| && (forall j :: i <= j < e ==> IsDigit(src[j])) && (e < |src| ==> !IsDigit(src[e]))
    ensures DigitsEnd(src, i) == e
    decreases e - i
  {
    if i < e { DigitsEndOf(src, i + 1, e); }
  }

  lemma ParseOfDigits(w: Width, signed: bool, negative: bool, src: string, m: nat, x: nat)
    requires m + |Decimal(x)| <= |src| && src[m..m + |Decimal(x)|] == Decimal(x)
    requires m + |Decimal(x)| < |src| ==> !IsDigit(src[m + |Decimal(x)|])
    ensures IsDigit(src[m])
    ensures ParsedAt(w, signed, negative, src, m) ==
            if InRange(w, signed, WithSign(negative, x)) then (Ok(WithSign(negative, x)), src[m + |Decimal(x)|..]) else (RangeError, src)
  {
    var e := m + |Decimal(x)|;
    forall j | m <= j < e ensures IsDigit(src[j]) { assert src[j] == src[m..e][j - m] == Decimal(x)[j - m]; }
    DigitsEndOf(src, m, e);
    ValueOfDecimal(x);
  }

  lemma Pieces(a: string, b: string, c: string, d: string)
    ensures var s := a + b + c + d;
      && s[..|a|] == a && s[|a|..|a| + |b|] == b && s[|a| + |b|..|a| + |b| + |c|] == c && s[|a| + |b| + |c|..] == d
  {
  }

  /** The white space of the "C" locale. */
  const WHITE: string := " \t\n\U{0B}\U{0C}\r"

  lemma SpaceIsExact(c: char)
    ensures IsSpace(c) <==> c in WHITE
  {
    assert WHITE[0] == ' ' && WHITE[1] == '\t' && WHITE[2] == '\n' && WHITE[3] == '\U{0B}' && WHITE[4] == '\U{0C}' && WHITE[5] == '\r';
  }

  lemma {:induction false} SkipsLead(src: string, i: nat, e: nat)
    requires i <= e <= |src| && (forall j :: i <= j < e ==> src[j] in WHITE) && (e < |src| ==> src[e] !in WHITE)
    ensures SkipSpaces(src, i) == e
    decreases e - i
  {
    if i < e {
      SpaceIsExact(src[i]);
      SkipsLead(src, i + 1, e);
    } else if e < |src| {
      SpaceIsExact(src[e]);
    }
  }

  ghost predicate AllWhite(lead: string) { forall j :: 0 <= j < |lead| ==> lead[j] in WHITE }

  lemma SkipsAllWhite(src: string, b: nat)
    requires b <= |src| && AllWhite(src[..b]) && (b < |src| ==> !IsSpace(src[b]))
    ensures SkipSpaces(src, 0) == b
  {
    forall j | 0 <= j < b ensures src[j] in WHITE { assert src[j] == src[..b][j]; }
    if b < |src| { SpaceIsExact(src[b]); }
    SkipsLead(src, 0, b);
  }

  ghost predicate IsSign(signed: bool, sign: string) { sign == "" || (signed && (sign == "-" || sign == "+")) }

  /** White space, then a digit, or for signed targets a sign before one. */
  lemma ParseFromStart(w: Width, signed: bool, sign: string, src: string, b: nat)
    requires IsSign(signed, sign)
    requires b + |sign| < |src| && src[b..b + |sign|] == sign && IsDigit(src[b + |sign|])
    requires AllWhite(src[..b])
    ensures Parsed(w, signed, src) == ParsedAt(w, signed, sign == "-", src, b + |sign|)
  {
    if sign != "" { assert src[b] == src[b..b + |sign|][0]; }
    SkipsAllWhite(src, b);
  }

  lemma ParseAtPlaces(w: Width, signed: bool, src: string, b: nat, m: nat, e: nat, sign: string, x: nat)
    requires b <= m <= e <= |src| && AllWhite(src[..b]) && src[b..m] == sign && src[m..e] == Decimal(x)
    requires IsSign(signed, sign) && (e < |src| ==> !IsDigit(src[e]))
    ensures var v := WithSign(sign == "-", x);
      Parsed(w, signed, src) == if InRange(w, signed, v) then (Ok(v), src[e..]) else (RangeError, src)
  {
    assert m == b + |sign| && e == m + |Decimal(x)|;
    ParseOfDigits(w, signed, sign == "-", src, m, x);
    assert Parsed(w, signed, src) == ParsedAt(w, signed, sign == "-", src, m) by { ParseFromStart(w, signed, sign, src, b); }
  }

  /**
   Any white space, a sign if the target is signed, digits, and anything that is not a digit: parsing gives the number and
   what follows the digits if the number is in range; if not, it is an error and nothing is consumed.
   */
  lemma ParseOfText(w: Width, signed: bool, lead: string, sign: string, x: nat, rest: string)
    requires AllWhite(lead) && IsSign(signed, sign) && (rest != "" ==> !IsDigit(rest[0]))
    ensures var src, v := lead + sign + Decimal(x) + rest, WithSign(sign == "-", x);
      Parsed(w, signed, src) == if InRange(w, signed, v) then (Ok(v), rest) else (RangeError, src)
  {
    var src, m := lead + sign + Decimal(x) + rest, |lead| + |sign|;
    var e := m + |Decimal(x)|;
    Pieces(lead, sign, Decimal(x), rest);
    if rest != "" { assert src[e] == src[e..][0]; }
    ParseAtPlaces(w, signed, src, |lead|, m, e, sign, x);
  }

  /** Parsing a printed number gives it back and stops right behind it. */
  lemma ParseOfPrinted(w: Width, signed: bool, negative: bool, x: nat, rest: string)
    requires InRange(w, signed, WithSign(negative, x)) && (negative ==> signed) && (rest != "" ==> !IsDigit(rest[0]))
    ensures Parsed(w, signed, Printed(negative, x) + rest) == (Ok(WithSign(negative, x)), rest)
  {
    var sign := if negative then "-" else "";
    ParseOfText(w, signed, "", sign, x, rest);
    assert "" + sign + Decimal(x) + rest == Printed(negative, x) + rest;
  }

  const TWO64: nat := 0x1_0000_0000_0000_0000

  /** No number of 64 bits has more than 20 digits, which is the size of the source's buffer. */
  lemma AtMostTwenty(v: nat)
    requires v < TWO64
    ensures |Decimal(v)| <= 20
  {
    if |Decimal(v)| > 20 {
      ValueOfDecimal(v);
      ValueAtLeast(Decimal(v));
      Powers();
      PowGrows(20, |Decimal(v)| - 1);
    }
  }

  function SignedText(value: int): (r: string) { if value < 0 then Printed(true, 0 - value) else Printed(false, value) }

  lemma Nothing(s: string)
    ensures "" + s == s
  {
  }

  lemma ParseOfSigned(w: Width, value: int, behind: string)
    requires InRange(w, true, value) && (behind != "" ==> !IsDigit(behind[0]))
    ensures Parsed(w, true, SignedText(value) + behind) == (Ok(value), behind)
  {
    if value < 0 { ParseOfPrinted(w, true, true, 0 - value, behind); } else { ParseOfPrinted(w, true, false, value, behind); }
  }

  lemma FitsWidest(w: Width, value: int)
    requires InRange(w, true, value)
    ensures InRange(W64, true, value)
  {
  }

  /** `toAppend` of a signed number: negation in 64 bits, so that the smallest number has its digits too. */
  method ToAppend(value: int, result: string) returns (text: string)
    requires InRange(W64, true, value)
    ensures text == result + SignedText(value)
  {
    var buffer := new char[20];
    text := result;
    if value < 0 {
      text := text + "-";
      var unsigned := value % TWO64;
      var negated := (0 - unsigned) % TWO64;
      assert unsigned == value + TWO64 && negated == 0 - value;
      AtMostTwenty(negated);
      var n := ToBuffer(negated, buffer);
      text := text + buffer[..n];
      assert result + "-" + Decimal(negated) == result + ("-" + Decimal(negated));
    } else {
      AtMostTwenty(value);
      var n := ToBuffer(value, buffer);
      text := text + buffer[..n];
      assert "" + Decimal(value) == Decimal(value);
    }
  }

  /** Printing any signed number and parsing the text, whatever follows it, gives the number back. */
  method PrintAndParseSigned(w: Width, value: int, behind: string) returns (r: Result<int>, rest: string)
    requires InRange(w, true, value) && (behind != "" ==> !IsDigit(behind[0]))
    ensures r == Ok(value) && rest == behind
  {
    FitsWidest(w, value);
    var text := ToAppend(value, "");
    Nothing(SignedText(value));
    r, rest := ParseBack(w, value, behind, text);
  }

  method ParseBack(w: Width, value: int, behind: string, text: string) returns (r: Result<int>, rest: string)
    requires InRange(w, true, value) && (behind != "" ==> !IsDigit(behind[0])) && text == SignedText(value)
    ensures r == Ok(value) && rest == behind
  {
    ParseOfSigned(w, value, behind);
    r, rest := Parse(w, true, text + behind);
  }
}
