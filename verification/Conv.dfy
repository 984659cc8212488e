/** Decimal conversion in folly/Conv.h: unsigned integers to digits, digits to integers. */
module Conv {
  type Digits = s: string | forall i :: 0 <= i < |s| ==> '0' <= s[i] <= '9'

  datatype Result<T> = Ok(value: T) | RangeError

  /** The unsigned targets, by their width in bits. */
  datatype Width = W8 | W16 | W32 | W64 {
    function Max(): (r: nat) {
      match this
      case W8 => 0xFF
      case W16 => 0xFFFF
      case W32 => 0xFFFF_FFFF
      case W64 => 0xFFFF_FFFF_FFFF_FFFF
    }

    /** `detail::MaxString` */
    function MaxString(): (r: Digits) {
      match this
      case W8 => "255"
      case W16 => "65535"
      case W32 => "4294967295"
      case W64 => "18446744073709551615"
    }
  }

  function DigitOf(c: char): (r: nat)
    requires '0' <= c <= '9'
  {
    c as int - '0' as int
  }

  function CharOf(d: nat): (r: char)
    requires d < 10
    ensures '0' <= r <= '9' && DigitOf(r) == d
  {
    (d + '0' as int) as char
  }

  /** What a string of digits stands for. */
  function Value(s: Digits): (r: nat) {
    if s == "" then 0 else 10 * Value(s[..|s| - 1]) + DigitOf(s[|s| - 1])
  }

  /** The digits of a number, without leading zeros. */
  function Decimal(v: nat): (r: Digits)
    ensures |r| >= 1 && (|r| > 1 ==> r[0] != '0')
  {
    if v < 10 then [CharOf(v)] else Decimal(v / 10) + [CharOf(v % 10)]
  }

  lemma {:induction false} ValueOfDecimal(v: nat)
    ensures Value(Decimal(v)) == v
  {
    if v >= 10 {
      ValueOfDecimal(v / 10);
      assert Decimal(v)[..|Decimal(v)| - 1] == Decimal(v / 10);
    } else {
      assert Decimal(v)[..0] == "";
    }
  }

  // ---------------------------------------------------------------- numbers to digits

  /** `digits10`, four orders of magnitude at a time. */
  method Digits10(v0: nat) returns (result: nat)
    ensures result == |Decimal(v0)|
  {
    var v := v0;
    result := 1;
    while v >= 10000
      invariant |Decimal(v0)| == |Decimal(v)| + result - 1
    {
      FourDigits(v);
      v := v / 10000;
      result := result + 4;
    }
    SmallDigits(v);
    if v < 10 { return result; }
    if v < 100 { return result + 1; }
    if v < 1000 { return result + 2; }
    return result + 3;
  }

  lemma FourDigits(v: nat)
    requires v >= 10000
    ensures |Decimal(v)| == |Decimal(v / 10000)| + 4
  {
    assert |Decimal(v)| == |Decimal(v / 10)| + 1;
    assert |Decimal(v / 10)| == |Decimal(v / 10 / 10)| + 1;
    assert |Decimal(v / 10 / 10)| == |Decimal(v / 10 / 10 / 10)| + 1;
    assert |Decimal(v / 10 / 10 / 10)| == |Decimal(v / 10 / 10 / 10 / 10)| + 1;
    assert v / 10 / 10 / 10 / 10 == v / 10000;
  }

  lemma SmallDigits(v: nat)
    requires v < 10000
    ensures |Decimal(v)| == if v < 10 then 1 else if v < 100 then 2 else if v < 1000 then 3 else 4
  {
    if v >= 10 { assert |Decimal(v)| == |Decimal(v / 10)| + 1; }
    if v >= 100 { assert |Decimal(v / 10)| == |Decimal(v / 10 / 10)| + 1; }
    if v >= 1000 { assert |Decimal(v / 10 / 10)| == |Decimal(v / 10 / 10 / 10)| + 1; }
  }

  /** `uint64ToBufferUnsafe`: exactly digits10(v) characters, from the last to the first. */
  method ToBuffer(v0: nat, buffer: array<char>) returns (result: nat)
    requires buffer.Length >= |Decimal(v0)|
    modifies buffer
    ensures result == |Decimal(v0)| && buffer[..result] == Decimal(v0) && buffer[result..] == old(buffer[result..])
  {
    var v := v0;
    result := Digits10(v);
    var pos := result - 1;
    while v >= 10
      invariant 0 <= pos < result <= buffer.Length && |Decimal(v)| == pos + 1
      invariant Decimal(v) + buffer[pos + 1..result] == Decimal(v0)
      invariant buffer[result..] == old(buffer[result..])
    {
      var q, r := v / 10, v % 10;
      buffer[pos] := CharOf(r);
      assert buffer[pos..result] == [CharOf(r)] + buffer[pos + 1..result];
      pos := pos - 1;
      v := q;
    }
    buffer[pos] := CharOf(v);
    assert buffer[..result] == [CharOf(v)] + buffer[1..result];
  }

  // ---------------------------------------------------------------- digits to numbers

  function Pow10(n: nat): (r: nat) { if n == 0 then 1 else 10 * Pow10(n - 1) }

  lemma {:induction false} ValueBound(s: Digits)
    ensures Value(s) < Pow10(|s|)
  {
    if s != "" { ValueBound(s[..|s| - 1]); }
  }

  /** A first digit other than zero decides the order of magnitude. */
  lemma {:induction false} ValueAtLeast(s: Digits)
    requires s != "" && s[0] != '0'
    ensures Value(s) >= Pow10(|s| - 1)
  {
    if |s| > 1 { ValueAtLeast(s[..|s| - 1]); } else { assert s[..0] == ""; }
  }

  lemma {:induction false} LeadingZero(s: Digits)
    requires s != "" && s[0] == '0'
    ensures Value(s) == Value(s[1..])
  {
    var n := |s| - 1;
    if n > 0 {
      LeadingZero(s[..n]);
      assert s[..n][1..] == s[1..][..n - 1];
    } else {
      assert s[..0] == "" && s[1..] == "";
    }
  }

  lemma {:induction false} PrefixValue(s: Digits, n: nat)
    requires n <= |s|
    ensures Value(s[..n]) <= Value(s)
    decreases |s|
  {
    if n < |s| {
      PrefixValue(s[..|s| - 1], n);
      assert s[..|s| - 1][..n] == s[..n];
    } else {
      assert s[..n] == s;
    }
  }

  /** `strncmp` on strings of the same length: is the first one not greater? */
  method NotAfter(a: Digits, b: Digits) returns (r: bool)
    requires |a| == |b|
    ensures r <==> Value(a) <= Value(b)
  {
    var i := 0;
    while i < |a|
      invariant 0 <= i <= |a| && a[..i] == b[..i]
    {
      if a[i] != b[i] {
        if a[i] < b[i] { FirstDifference(a, b, i); } else { FirstDifference(b, a, i); }
        return a[i] < b[i];
      }
      assert a[..i + 1] == a[..i] + [a[i]] && b[..i + 1] == b[..i] + [b[i]];
      i := i + 1;
    }
    assert a[..i] == a && b[..i] == b;
    return true;
  }

  /** The first difference decides. */
  lemma {:induction false} FirstDifference(a: Digits, b: Digits, i: nat)
    requires i < |a| == |b| && a[..i] == b[..i] && a[i] < b[i]
    ensures Value(a) < Value(b)
    decreases |a|
  {
    var n := |a| - 1;
    if i < n {
      assert a[..n][..i] == a[..i] && b[..n][..i] == b[..i];
      FirstDifference(a[..n], b[..n], i);
    }
  }

  lemma Push(s: Digits, c: char)
    requires '0' <= c <= '9'
    ensures Value(s + [c]) == 10 * Value(s) + DigitOf(c)
  {
    assert (s + [c])[..|s|] == s;
  }

  /** Three digits, and the first or last of them alone, appended to others. */
  lemma PushThree(s: Digits, t: Digits)
    requires |t| == 3
    ensures Value(s + t) == 1000 * Value(s) + 100 * DigitOf(t[0]) + 10 * DigitOf(t[1]) + DigitOf(t[2])
  {
    Push(s, t[0]);
    Push(s + [t[0]], t[1]);
    Push(s + [t[0]] + [t[1]], t[2]);
    assert s + t == s + [t[0]] + [t[1]] + [t[2]];
  }

  lemma PushTwo(s: Digits, t: Digits)
    requires |t| == 2
    ensures Value(s + t) == 100 * Value(s) + 10 * DigitOf(t[0]) + DigitOf(t[1])
  {
    Push(s, t[0]);
    Push(s + [t[0]], t[1]);
    assert s + t == s + [t[0]] + [t[1]];
  }

  lemma PushFour(s: Digits, t: Digits)
    requires |t| == 4
    ensures Value(s + t) == 10000 * Value(s) + 1000 * DigitOf(t[0]) + 100 * DigitOf(t[1]) + 10 * DigitOf(t[2]) + DigitOf(t[3])
  {
    PushThree(s, t[..3]);
    Push(s + t[..3], t[3]);
    assert s + t == s + t[..3] + [t[3]];
  }

  lemma PushFive(s: Digits, t: Digits)
    requires |t| == 5
    ensures Value(s + t) == 100000 * Value(s) + 10000 * DigitOf(t[0]) + 1000 * DigitOf(t[1]) + 100 * DigitOf(t[2]) + 10 * DigitOf(t[3]) + DigitOf(t[4])
  {
    PushFour(s, t[..4]);
    Push(s + t[..4], t[4]);
    assert s + t == s + t[..4] + [t[4]];
  }

  lemma PowFive(n: nat)
    ensures Pow10(n + 5) == 100000 * Pow10(n)
  {
    assert Pow10(n + 5) == 10 * Pow10(n + 4) && Pow10(n + 4) == 10 * Pow10(n + 3);
    assert Pow10(n + 3) == 10 * Pow10(n + 2) && Pow10(n + 2) == 10 * Pow10(n + 1) && Pow10(n + 1) == 10 * Pow10(n);
  }

  lemma Powers()
    ensures Pow10(2) == 100 && Pow10(3) == 1000 && Pow10(4) == 10000 && Pow10(5) == 100000
    ensures Pow10(9) == 1000000000 && Pow10(10) == 10000000000 && Pow10(19) == 10000000000000000000 && Pow10(20) == 100000000000000000000
  {
    assert Pow10(1) == 10 && Pow10(2) == 100;
    assert Pow10(3) == 1000 && Pow10(4) == 10000;
    PowFive(0);
    PowFive(4);
    PowFive(5);
    PowFive(9);
    PowFive(10);
    PowFive(14);
    PowFive(15);
  }

  lemma MaxString8()
    ensures Value("255") == 0xFF
  {
    PushThree("", "255");
    assert "" + "255" == "255";
  }

  lemma MaxString16()
    ensures Value("65535") == 0xFFFF
  {
    PushFive("", "65535");
    assert "" + "65535" == "65535";
  }

  lemma MaxString32()
    ensures Value("4294967295") == 0xFFFF_FFFF
  {
    PushFive("", "42949");
    assert "" + "42949" == "42949";
    PushFive("42949", "67295");
    assert "42949" + "67295" == "4294967295";
  }

  lemma MaxString64()
    ensures Value("18446744073709551615") == 0xFFFF_FFFF_FFFF_FFFF
  {
    MaxString64Middle();
    PushFive("184467440737095", "51615");
    assert "184467440737095" + "51615" == "18446744073709551615";
  }

  lemma MaxString64Middle()
    ensures Value("184467440737095") == 184467440737095
  {
    MaxString64High();
    PushFive("1844674407", "37095");
    assert "1844674407" + "37095" == "184467440737095";
  }

  lemma MaxString64High()
    ensures Value("1844674407") == 1844674407
  {
    PushFive("", "18446");
    assert "" + "18446" == "18446";
    PushFive("18446", "74407");
    assert "18446" + "74407" == "1844674407";
  }

  /** The table of maximal values as strings is right. */
  lemma MaxStringIsMax(w: Width)
    ensures Value(w.MaxString()) == w.Max() && Pow10(|w.MaxString()| - 1) <= w.Max() < Pow10(|w.MaxString()|)
  {
    Powers();
    match w
    case W8 => MaxString8();
    case W16 => MaxString16();
    case W32 => MaxString32();
    case W64 => MaxString64();
  }

  lemma {:induction false} PowGrows(a: nat, b: nat)
    requires a <= b
    ensures Pow10(a) <= Pow10(b)
    decreases b
  {
    if a < b { PowGrows(a, b - 1); }
  }

  /** `digits_to`: accepts a string of digits exactly if its value fits, and returns the value. */
  method DigitsTo(w: Width, s: Digits) returns (r: Result<nat>)
    ensures s == "" ==> r.RangeError?
    ensures s != "" ==> r == if Value(s) <= w.Max() then Ok(Value(s)) else RangeError
    decreases |s|
  {
    var size, limit := |s|, |w.MaxString()|;
    MaxStringIsMax(w);
    if size >= limit {
      if s[0] == '0' {
        r := StripZeros(w, s);
        return;
      }
      if size != limit {
        ValueAtLeast(s);
        PowGrows(limit, size - 1);
        return RangeError;
      }
      var fits := NotAfter(s, w.MaxString());
      if !fits { return RangeError; }
    } else {
      ValueBound(s);
      PowGrows(size, limit - 1);
    }
    r := Convert(w, s);
  }

  /** Leading zeros: go on behind them. */
  method StripZeros(w: Width, s: Digits) returns (r: Result<nat>)
    requires s != "" && s[0] == '0'
    ensures r == if Value(s) <= w.Max() then Ok(Value(s)) else RangeError
    decreases |s|, 0
  {
    var b := 1;
    LeadingZero(s);
    while true
      invariant 1 <= b <= |s| && Value(s[b..]) == Value(s)
      decreases |s| - b
    {
      if b == |s| {
        assert s[b..] == "";
        return Ok(0);
      }
      if s[b] != '0' {
        r := DigitsTo(w, s[b..]);
        return;
      }
      LeadingZero(s[b..]);
      assert s[b..][1..] == s[b + 1..];
      b := b + 1;
    }
  }

  /** Four digits at a time, then the last three to none; no step leaves the target type. */
  method Convert(w: Width, s: Digits) returns (r: Result<nat>)
    requires Value(s) <= w.Max()
    ensures r == if s == "" then RangeError else Ok(Value(s))
  {
    var result, b := 0, 0;
    while |s| - b >= 4
      invariant 0 <= b <= |s| && result == Value(s[..b]) <= w.Max()
    {
      NextFour(s, b);
      PrefixValue(s, b + 4);
      result := result * 10000;
      var sum := 1000 * DigitOf(s[b]) + 100 * DigitOf(s[b + 1]) + 10 * DigitOf(s[b + 2]) + DigitOf(s[b + 3]);
      result := result + sum;
      b := b + 4;
    }
    LastDigits(s, b);
    if |s| - b == 3 { return Ok(result * 1000 + 100 * DigitOf(s[b]) + 10 * DigitOf(s[b + 1]) + DigitOf(s[b + 2])); }
    if |s| - b == 2 { return Ok(result * 100 + 10 * DigitOf(s[b]) + DigitOf(s[b + 1])); }
    if |s| - b == 1 { return Ok(result * 10 + DigitOf(s[b])); }
    if s == "" { return RangeError; }
    return Ok(result);
  }

  lemma NextFour(s: Digits, b: nat)
    requires b + 4 <= |s|
    ensures Value(s[..b + 4]) == 10000 * Value(s[..b]) + 1000 * DigitOf(s[b]) + 100 * DigitOf(s[b + 1]) + 10 * DigitOf(s[b + 2]) + DigitOf(s[b + 3])
  {
    PushFour(s[..b], s[b..b + 4]);
    assert s[..b] + s[b..b + 4] == s[..b + 4];
  }

  lemma LastDigits(s: Digits, b: nat)
    requires b <= |s| < b + 4
    ensures |s| - b == 3 ==> Value(s) == 1000 * Value(s[..b]) + 100 * DigitOf(s[b]) + 10 * DigitOf(s[b + 1]) + DigitOf(s[b + 2])
    ensures |s| - b == 2 ==> Value(s) == 100 * Value(s[..b]) + 10 * DigitOf(s[b]) + DigitOf(s[b + 1])
    ensures |s| - b == 1 ==> Value(s) == 10 * Value(s[..b]) + DigitOf(s[b])
    ensures |s| == b ==> Value(s) == Value(s[..b])
  {
    assert s[..b] + s[b..] == s;
    if |s| - b == 3 { PushThree(s[..b], s[b..]); }
    else if |s| - b == 2 { PushTwo(s[..b], s[b..]); }
    else if |s| == b { assert s[..b] == s; }
  }

  /** Parsing what was printed gives the number back, in as many characters as `digits10` says. */
  method PrintAndParse(w: Width, v: nat) returns (text: string, r: Result<nat>)
    requires v <= w.Max()
    ensures r == Ok(v) && text == Decimal(v)
  {
    var n := Digits10(v);
    var buffer := new char[n];
    var written := ToBuffer(v, buffer);
    text := buffer[..written];
    ValueOfDecimal(v);
    r := DigitsTo(w, text);
  }
}
