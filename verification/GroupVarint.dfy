/**
 folly::GroupVarint for 32-bit values (groups of 4) and 64-bit values (groups of 5): a header
 with the length of every value of the group, then the values in as few bytes as they need.

 A value is the sequence of its bytes in memory, lowest first; Number says what it stands for.
 */
module GroupVarint {
  type Byte = x: int | 0 <= x < 256
  type Word = seq<Byte>

  /** Values per group, bytes per value, bytes of header. */
  datatype Format = Format(group: nat, width: nat, header: nat) {
    ghost predicate Valid() { this == Format(4, 4, 1) || this == Format(5, 8, 2) }

    function MaxSize(): (r: nat) { header + Times(width, group) }

    /** Is `n` a number of values that fills its groups? */
    predicate Whole(n: nat) { n == 0 || (0 < group <= n && Whole(n - group)) }
  }

  /** Multiples of the two widths, in bytes per value or lengths per header digit. */
  function Times(width: nat, n: nat): (r: nat) { if width == 4 then 4 * n else 8 * n }

  function Rest(width: nat, n: nat): (r: nat) { if width == 4 then n % 4 else n % 8 }

  function Quotient(width: nat, n: nat): (r: nat) { if width == 4 then n / 4 else n / 8 }

  function Zeros(n: nat): (r: seq<Byte>)
    ensures |r| == n && forall j :: 0 <= j < n ==> r[j] == 0
  {
    seq(n, _ => 0)
  }

  // ---------------------------------------------------------------- lengths

  predicate AllZero(v: Word) { forall j :: 0 <= j < |v| ==> v[j] == 0 }

  /** One less than the number of bytes a value needs. */
  function Key(v: Word): (r: nat)
    ensures v != [] ==> r < |v|
  {
    if |v| <= 1 then 0 else if v[|v| - 1] != 0 then |v| - 1 else Key(v[..|v| - 1])
  }

  /** The bytes above the key are zero. */
  lemma {:induction false} AboveKey(v: Word)
    requires v != []
    ensures AllZero(v[Key(v) + 1..])
  {
    if |v| > 1 && v[|v| - 1] == 0 {
      var w := v[..|v| - 1];
      AboveKey(w);
      assert v[Key(v) + 1..] == w[Key(v) + 1..] + [0];
    }
  }

  /** The key seen from the lowest byte. */
  lemma {:induction false} KeyOfTail(v: Word)
    requires v != []
    ensures Key(v) == if AllZero(v[1..]) then 0 else 1 + Key(v[1..])
  {
    if |v| > 1 {
      var n := |v| - 1;
      assert v[1..][n - 1] == v[n];
      if v[n] == 0 {
        KeyOfTail(v[..n]);
        assert v[..n][1..] == v[1..][..n - 1];
        assert v[1..] == v[..n][1..] + [0];
      }
    }
  }

  function Number(v: Word): (r: nat) {
    if v == [] then 0 else v[0] + 256 * Number(v[1..])
  }

  function Bytes(x: nat, n: nat): (r: Word)
    ensures |r| == n
    decreases n
  {
    if n == 0 then [] else [x % 256] + Bytes(x / 256, n - 1)
  }

  function Pow256(n: nat): (r: nat) { if n == 0 then 1 else 256 * Pow256(n - 1) }

  lemma {:induction false} NumberOfBytes(x: nat, n: nat)
    requires x < Pow256(n)
    ensures Number(Bytes(x, n)) == x
    decreases n
  {
    if n > 0 {
      NumberOfBytes(x / 256, n - 1);
      assert Bytes(x, n)[1..] == Bytes(x / 256, n - 1);
    }
  }

  function BitLength(x: nat): (r: nat)
    decreases x
  {
    if x == 0 then 0 else 1 + BitLength(x / 2)
  }

  function OrOne(x: nat): (r: nat) { if x % 2 == 0 then x + 1 else x }

  /** The source's `key`, by counting the leading zeros of a word of `width` bytes. */
  function KeyByLeadingZeros(width: nat, x: nat): (r: int)
    requires width > 0
  {
    width - 1 - (8 * width - BitLength(OrOne(x))) / 8
  }

  lemma HalveTwo(x: nat)
    requires x >= 4
    ensures BitLength(x) == 2 + BitLength(x / 4)
  {
    assert BitLength(x / 2) == 1 + BitLength(x / 2 / 2);
  }

  lemma HalveEight(x: nat)
    requires x >= 256
    ensures BitLength(x) == 8 + BitLength(x / 256)
  {
    HalveTwo(x);
    HalveTwo(x / 4);
    HalveTwo(x / 4 / 4);
    HalveTwo(x / 4 / 4 / 4);
    assert x / 4 / 4 / 4 / 4 == x / 256;
  }

  function Pow2(n: nat): (r: nat) { if n == 0 then 1 else 2 * Pow2(n - 1) }

  lemma {:induction false} LengthBound(x: nat, n: nat)
    requires x < Pow2(n)
    ensures BitLength(x) <= n
  {
    if x > 0 { LengthBound(x / 2, n - 1); }
  }

  lemma SmallLength(x: nat)
    requires 0 < x < 256
    ensures 1 <= BitLength(x) <= 8
  {
    assert Pow2(2) == 4 && Pow2(4) == 16 && Pow2(6) == 64 && Pow2(8) == 256;
    LengthBound(x, 8);
  }

  lemma {:induction false} ZeroNumber(v: Word)
    ensures AllZero(v) <==> Number(v) == 0
  {
    if v != [] {
      ZeroNumber(v[1..]);
      assert AllZero(v) <==> v[0] == 0 && AllZero(v[1..]);
    }
  }

  lemma OrOneKeepsLength(y: nat)
    requires y > 0
    ensures BitLength(OrOne(y)) == BitLength(y)
  {
    assert OrOne(y) / 2 == y / 2;
  }

  lemma {:induction false} KeyByLength(v: Word)
    requires v != []
    ensures 8 * Key(v) < BitLength(OrOne(Number(v))) <= 8 * Key(v) + 8
  {
    var x := Number(v);
    ZeroNumber(v[1..]);
    KeyOfTail(v);
    if AllZero(v[1..]) {
      SmallLength(OrOne(x));
    } else {
      KeyByLength(v[1..]);
      HalveEight(OrOne(x));
      assert OrOne(x) / 256 == x / 256 == Number(v[1..]);
      OrOneKeepsLength(x / 256);
    }
  }

  /** Counting the leading zeros of the number gives the number of bytes that count. */
  lemma KeyIsKey(width: nat, v: Word)
    requires |v| == width > 0
    ensures KeyByLeadingZeros(width, Number(v)) == Key(v)
  {
    KeyByLength(v);
  }

  // ---------------------------------------------------------------- headers

  ghost predicate Fits(f: Format, xs: seq<Word>) {
    forall j :: 0 <= j < |xs| ==> |xs[j]| == f.width
  }

  /** The keys of the values, the first one lowest; values that are missing count as zero, whose key is 0. */
  function HeaderValue(width: nat, xs: seq<Word>): (r: nat) {
    if xs == [] then 0 else Key(xs[0]) + Times(width, HeaderValue(width, xs[1..]))
  }

  /** `b0key`, `b1key`, ...: the `i`-th group of bits. */
  function Digit(width: nat, h: nat, i: nat): (r: nat)
    decreases i
  {
    if i == 0 then Rest(width, h) else Digit(width, Quotient(width, h), i - 1)
  }

  lemma {:induction false} DigitOfZero(width: nat, i: nat)
    ensures Digit(width, 0, i) == 0
    decreases i
  {
    if i > 0 { DigitOfZero(width, i - 1); }
  }

  lemma LowDigit(width: nat, k: nat, rest: nat)
    requires (width == 4 || width == 8) && k < width
    ensures Rest(width, k + Times(width, rest)) == k && Quotient(width, k + Times(width, rest)) == rest
  {
  }

  lemma {:induction false} DigitOfHeader(f: Format, xs: seq<Word>, i: nat)
    requires f.Valid() && Fits(f, xs)
    ensures Digit(f.width, HeaderValue(f.width, xs), i) == if i < |xs| then Key(xs[i]) else 0
    decreases i
  {
    if xs == [] {
      DigitOfZero(f.width, i);
    } else {
      LowDigit(f.width, Key(xs[0]), HeaderValue(f.width, xs[1..]));
      if i > 0 { DigitOfHeader(f, xs[1..], i - 1); }
    }
  }

  function PowWidth(width: nat, n: nat): (r: nat) { if n == 0 then 1 else Times(width, PowWidth(width, n - 1)) }

  lemma {:induction false} HeaderBound(f: Format, xs: seq<Word>, n: nat)
    requires f.Valid() && Fits(f, xs) && |xs| <= n
    ensures HeaderValue(f.width, xs) < PowWidth(f.width, n)
    decreases n
  {
    if xs != [] {
      HeaderBound(f, xs[1..], n - 1);
    } else if n > 0 {
      HeaderBound(f, xs, n - 1);
    }
  }

  lemma HeaderFits(f: Format, xs: seq<Word>)
    requires f.Valid() && |xs| <= f.group && Fits(f, xs)
    ensures HeaderValue(f.width, xs) < if f.header == 1 then 256 else 65536
  {
    HeaderBound(f, xs, f.group);
    assert PowWidth(f.width, 2) == Times(f.width, f.width);
    assert PowWidth(f.width, 4) == Times(f.width, Times(f.width, PowWidth(f.width, 2)));
  }

  /** The header as stored: one byte, or two with the lower one first. */
  function HeaderBytes(f: Format, h: nat): (r: seq<Byte>)
    ensures |r| == if f.header == 1 then 1 else 2
  {
    if f.header == 1 then [h % 256] else [h % 256, h / 256 % 256]
  }

  function LoadHeader(f: Format, mem: seq<Byte>, p: nat): (r: nat)
    requires p + (if f.header == 1 then 1 else 2) <= |mem|
  {
    if f.header == 1 then mem[p] else (mem[p] as int) + 256 * (mem[p + 1] as int)
  }

  lemma LoadsHeader(f: Format, mem: seq<Byte>, p: nat, h: nat)
    requires p + (if f.header == 1 then 1 else 2) <= |mem| && h < (if f.header == 1 then 256 else 65536) && mem[p] == HeaderBytes(f, h)[0]
    requires f.header != 1 ==> mem[p + 1] == HeaderBytes(f, h)[1]
    ensures LoadHeader(f, mem, p) == h
  {
  }

  // ---------------------------------------------------------------- the encoding

  function Header(f: Format, xs: seq<Word>): (r: seq<Byte>) { HeaderBytes(f, HeaderValue(f.width, xs)) }

  /** A value in as few bytes as it needs. */
  function Body(v: Word): (r: seq<Byte>)
    requires v != []
    ensures |r| == Key(v) + 1
  {
    v[..Key(v) + 1]
  }

  function Bodies(xs: seq<Word>): (r: seq<Byte>)
    requires forall j :: 0 <= j < |xs| ==> xs[j] != []
  {
    if xs == [] then [] else Body(xs[0]) + Bodies(xs[1..])
  }

  /** A group of up to `group` values, clipped after the last one. */
  function Group(f: Format, xs: seq<Word>): (r: seq<Byte>)
    requires forall j :: 0 <= j < |xs| ==> xs[j] != []
  {
    Header(f, xs) + Bodies(xs)
  }

  /** Full groups, and a clipped one for what is left. */
  function Encoded(f: Format, xs: seq<Word>): (r: seq<Byte>)
    requires f.group > 0 && forall j :: 0 <= j < |xs| ==> xs[j] != []
  {
    if xs == [] then []
    else if |xs| < f.group then Group(f, xs)
    else Group(f, xs[..f.group]) + Encoded(f, xs[f.group..])
  }

  /** Filling up with zero values does not change the header. */
  lemma {:induction false} HeaderPadded(width: nat, xs: seq<Word>, zeros: seq<Word>)
    requires forall j :: 0 <= j < |zeros| ==> Key(zeros[j]) == 0
    ensures HeaderValue(width, xs + zeros) == HeaderValue(width, xs)
    decreases |xs| + |zeros|
  {
    if xs != [] {
      assert (xs + zeros)[1..] == xs[1..] + zeros;
      HeaderPadded(width, xs[1..], zeros);
    } else if zeros != [] {
      assert (xs + zeros)[1..] == xs + zeros[1..];
      HeaderPadded(width, xs, zeros[1..]);
    } else {
      assert xs + zeros == xs;
    }
  }

  lemma Associate(a: seq<Byte>, b: seq<Byte>, c: seq<Byte>)
    ensures a + (b + c) == (a + b) + c
  {
  }

  lemma {:induction false} BodiesAppend(xs: seq<Word>, ys: seq<Word>)
    requires forall j :: 0 <= j < |xs| ==> xs[j] != []
    requires forall j :: 0 <= j < |ys| ==> ys[j] != []
    ensures Bodies(xs + ys) == Bodies(xs) + Bodies(ys)
  {
    if xs == [] {
      assert xs + ys == ys;
    } else {
      BodiesAppend(xs[1..], ys);
      assert (xs + ys)[0] == xs[0] && (xs + ys)[1..] == xs[1..] + ys;
      Associate(Body(xs[0]), Bodies(xs[1..]), Bodies(ys));
    }
  }

  lemma BodiesUpTo(xs: seq<Word>, i: nat)
    requires i < |xs| && forall j :: 0 <= j < |xs| ==> xs[j] != []
    ensures Bodies(xs[..i + 1]) == Bodies(xs[..i]) + Body(xs[i])
  {
    var one := [xs[i]];
    BodiesAppend(xs[..i], one);
    assert Bodies(one[1..]) == [];
    assert xs[..i] + [xs[i]] == xs[..i + 1];
  }

  /** `partialSize` */
  method PartialSize(f: Format, xs: seq<Word>) returns (s: nat)
    requires f.Valid() && Fits(f, xs)
    ensures s == f.header + |Bodies(xs)|
  {
    s := f.header + |xs|;
    var i := 0;
    while i < |xs|
      invariant 0 <= i <= |xs| && s == f.header + |xs| + |Bodies(xs[..i])| - i
    {
      BodiesUpTo(xs, i);
      KeyIsKey(f.width, xs[i]);
      s := s + KeyByLeadingZeros(f.width, Number(xs[i]));
      i := i + 1;
    }
    assert xs[..|xs|] == xs;
  }

  /** `storeUnaligned`: all bytes, though the next store may overwrite the upper ones. */
  method Store(buf: array<Byte>, at: nat, b: seq<Byte>)
    requires at + |b| <= buf.Length
    modifies buf
    ensures buf[..at] == old(buf[..at]) && buf[at..at + |b|] == b
  {
    forall i | 0 <= i < |b| { buf[at + i] := b[i]; }
  }

  /** Store the whole word and move on by the bytes that count. */
  method StoreBody(f: Format, buf: array<Byte>, p: nat, v: Word) returns (q: nat)
    requires f.Valid() && |v| == f.width && p + f.width <= buf.Length
    modifies buf
    ensures p < q <= p + f.width && buf[..q] == old(buf[..p]) + Body(v)
  {
    KeyIsKey(f.width, v);
    var k := KeyByLeadingZeros(f.width, Number(v));
    Store(buf, p, v);
    q := p + k + 1;
    StoredPrefix(buf[..], p, v, k + 1);
  }

  lemma StoredPrefix(s: seq<Byte>, p: nat, v: Word, n: nat)
    requires n <= |v| && p + |v| <= |s| && s[p..p + |v|] == v
    ensures s[..p + n] == s[..p] + v[..n]
  {
    forall j | 0 <= j < n ensures s[p + j] == v[j] { assert s[p..p + |v|][j] == v[j]; }
  }

  lemma RoomForOne(f: Format, i: nat, p: nat)
    requires f.Valid() && i < f.group && p <= f.header + Times(f.width, i)
    ensures p + f.width <= f.header + Times(f.width, i + 1) <= f.MaxSize()
  {
  }

  /** `encode`: a full group, into a buffer of `kMaxSize` bytes. */
  method Encode(f: Format, buf: array<Byte>, xs: seq<Word>) returns (p: nat)
    requires f.Valid() && |xs| == f.group && Fits(f, xs) && buf.Length == f.MaxSize()
    modifies buf
    ensures p <= buf.Length && buf[..p] == Group(f, xs)
  {
    Store(buf, 0, Header(f, xs));
    p := EncodeBodies(f, buf, xs, Header(f, xs));
  }

  method EncodeBodies(f: Format, buf: array<Byte>, xs: seq<Word>, ghost header: seq<Byte>) returns (p: nat)
    requires f.Valid() && |xs| == f.group && Fits(f, xs) && buf.Length == f.MaxSize() && |header| == f.header && buf[..f.header] == header
    modifies buf
    ensures p <= buf.Length && buf[..p] == header + Bodies(xs)
  {
    p := f.header;
    var i := 0;
    while i < f.group
      invariant 0 <= i <= f.group && f.header <= p <= f.header + Times(f.width, i)
      invariant buf[..p] == header + Bodies(xs[..i])
    {
      RoomForOne(f, i, p);
      p := StoreBody(f, buf, p, xs[i]);
      GroupUpTo(header, xs, i);
      i := i + 1;
    }
    assert xs[..f.group] == xs;
  }

  lemma GroupUpTo(header: seq<Byte>, xs: seq<Word>, i: nat)
    requires i < |xs| && forall j :: 0 <= j < |xs| ==> xs[j] != []
    ensures header + Bodies(xs[..i + 1]) == (header + Bodies(xs[..i])) + Body(xs[i])
  {
    BodiesUpTo(xs, i);
    Associate(header, Bodies(xs[..i]), Body(xs[i]));
  }
}
