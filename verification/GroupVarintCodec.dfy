/** folly::GroupVarintEncoder and GroupVarintDecoder: values one at a time, and an incomplete last group. */
module GroupVarintCodec {
  import opened GroupVarint

  // ---------------------------------------------------------------- decoding one group

  /** The bytes of `mem` from `p` on start with `s`. */
  ghost predicate StartsAt(mem: seq<Byte>, p: nat, s: seq<Byte>) {
    p <= |mem| && s <= mem[p..]
  }

  lemma StartsSplit(mem: seq<Byte>, p: nat, a: seq<Byte>, b: seq<Byte>)
    requires StartsAt(mem, p, a + b)
    ensures StartsAt(mem, p, a) && StartsAt(mem, p + |a|, b)
  {
    var rest := mem[p..];
    assert rest[..|a|] == (a + b)[..|a|] == a;
    assert mem[p + |a|..] == rest[|a|..];
    assert rest[|a|..][..|b|] == (a + b)[|a|..] == b;
  }

  /** A word made of the `k + 1` bytes at `q`: what a load and a mask leave of the bytes there. */
  function Cut(f: Format, mem: seq<Byte>, q: nat, k: nat): (r: Word)
    requires q + k + 1 <= |mem| && k < f.width
    ensures |r| == f.width
  {
    mem[q..q + k + 1] + Zeros(f.width - k - 1)
  }

  /** The lengths in the header of a group that starts with `xs` and was filled up with zeros. */
  lemma HeaderDigits(f: Format, mem: seq<Byte>, p: nat, xs: seq<Word>, i: nat)
    requires f.Valid() && |xs| <= f.group && Fits(f, xs) && StartsAt(mem, p, Header(f, xs))
    ensures Digit(f.width, LoadHeader(f, mem, p), i) == if i < |xs| then Key(xs[i]) else 0
  {
    HeaderFits(f, xs);
    var h := HeaderValue(f.width, xs);
    assert mem[p] == mem[p..][0] == HeaderBytes(f, h)[0];
    if f.header != 1 { assert mem[p + 1] == mem[p..][1] == HeaderBytes(f, h)[1]; }
    LoadsHeader(f, mem, p, h);
    DigitOfHeader(f, xs, i);
  }

  // ---------------------------------------------------------------- any bytes as a group

  lemma {:induction false} DigitBound(f: Format, h: nat, i: nat)
    requires f.Valid()
    ensures Digit(f.width, h, i) < f.width
    decreases i
  {
    if i > 0 { DigitBound(f, Quotient(f.width, h), i - 1); }
  }

  /** Lengths, each one less than a number of bytes. */
  ghost predicate Short(f: Format, lens: seq<nat>) {
    forall i :: 0 <= i < |lens| ==> lens[i] < f.width
  }

  ghost predicate InHeader(f: Format, h: nat, lens: seq<nat>) {
    && |lens| == f.group && Short(f, lens)
    && forall i: nat {:trigger Digit(f.width, h, i)} :: i < f.group ==> lens[i] == Digit(f.width, h, i)
  }

  lemma LengthsExist(f: Format, h: nat)
    requires f.Valid()
    ensures exists lens :: InHeader(f, h, lens)
  {
    var lens := seq(f.group, i requires 0 <= i < f.group => Digit(f.width, h, i));
    forall i | 0 <= i < f.group ensures lens[i] < f.width { DigitBound(f, h, i); }
    assert InHeader(f, h, lens);
  }

  /** The lengths in a header. */
  ghost function Lengths(f: Format, h: nat): (lens: seq<nat>)
    requires f.Valid()
    ensures InHeader(f, h, lens)
  {
    LengthsExist(f, h);
    var lens :| InHeader(f, h, lens);
    lens
  }

  /** Where value `i` of a group starts, and value `i - 1` ends, if its values start at `q`. */
  ghost function Start(q: nat, lens: seq<nat>, i: nat): (r: nat)
    requires i <= |lens|
  {
    if i == 0 then q else Start(q, lens, i - 1) + 1 + lens[i - 1]
  }

  lemma {:induction false} StartGrows(q: nat, lens: seq<nat>, i: nat, j: nat)
    requires i <= j <= |lens|
    ensures Start(q, lens, i) + j - i <= Start(q, lens, j)
    decreases j
  {
    if i < j { StartGrows(q, lens, i, j - 1); }
  }

  lemma {:induction false} StartShifts(q: nat, p: nat, lens: seq<nat>, i: nat)
    requires i <= |lens|
    ensures Start(p + q, lens, i) == p + Start(q, lens, i)
  {
    if i > 0 { StartShifts(q, p, lens, i - 1); }
  }

  lemma {:induction false} StartBound(f: Format, q: nat, lens: seq<nat>, i: nat)
    requires (f.width == 4 || f.width == 8) && Short(f, lens) && i <= |lens|
    ensures Start(q, lens, i) <= q + Times(f.width, i)
  {
    if i > 0 { StartBound(f, q, lens, i - 1); }
  }

  /** The values from number `i` on, as far as they are all there; number `i` starts at `q`. */
  ghost function ValuesFrom(f: Format, b: seq<Byte>, lens: seq<nat>, q: nat, i: nat): (r: seq<Word>)
    requires Short(f, lens) && i <= |lens|
    ensures Fits(f, r) && |r| <= |lens| - i
    decreases |lens| - i
  {
    if i == |lens| || q + lens[i] + 1 > |b| then []
    else [Cut(f, b, q, lens[i])] + ValuesFrom(f, b, lens, q + lens[i] + 1, i + 1)
  }

  /** Number `c` is how many values end within `size` bytes. */
  ghost predicate Reaches(q: nat, lens: seq<nat>, size: nat, c: nat) {
    c <= |lens| && (c > 0 ==> Start(q, lens, c) <= size) && (c < |lens| ==> size < Start(q, lens, c + 1))
  }

  lemma ReachIsUnique(q: nat, lens: seq<nat>, size: nat, c: nat, d: nat)
    requires Reaches(q, lens, size, c) && Reaches(q, lens, size, d)
    ensures c == d
  {
    if c < d { StartGrows(q, lens, c + 1, d); }
    if d < c { StartGrows(q, lens, d + 1, c); }
  }

  lemma {:induction false} CountFrom(f: Format, b: seq<Byte>, lens: seq<nat>, q: nat, i: nat)
    requires Short(f, lens) && i <= |lens| && (i > 0 ==> Start(q, lens, i) <= |b|)
    ensures Reaches(q, lens, |b|, i + |ValuesFrom(f, b, lens, Start(q, lens, i), i)|)
    decreases |lens| - i
  {
    if i < |lens| && Start(q, lens, i + 1) <= |b| { CountFrom(f, b, lens, q, i + 1); }
  }

  lemma {:induction false} KeyOfPadded(v: Word, n: nat)
    requires v != []
    ensures Key(v + Zeros(n)) < |v|
    decreases n
  {
    if n > 0 {
      var w := v + Zeros(n);
      assert w[..|w| - 1] == v + Zeros(n - 1);
      KeyOfPadded(v, n - 1);
    } else {
      assert v + Zeros(n) == v;
    }
  }

  lemma CutIsShort(f: Format, b: seq<Byte>, q: nat, k: nat)
    requires q + k + 1 <= |b| && k < f.width
    ensures |Body(Cut(f, b, q, k))| <= k + 1
  {
    KeyOfPadded(b[q..q + k + 1], f.width - k - 1);
  }

  /** A decoded value needs no more bytes than its length in the header says. */
  lemma {:induction false} KeysFit(f: Format, b: seq<Byte>, lens: seq<nat>, q: nat, i: nat)
    requires Short(f, lens) && i <= |lens|
    ensures var vs := ValuesFrom(f, b, lens, q, i);
      forall k {:trigger lens[k]} :: i <= k < i + |vs| ==> Key(vs[k - i]) <= lens[k]
    decreases |lens| - i
  {
    if i < |lens| && q + lens[i] + 1 <= |b| {
      CutIsShort(f, b, q, lens[i]);
      KeysFit(f, b, lens, q + lens[i] + 1, i + 1);
    }
  }

  /** The first `m` values need all the bytes their lengths say. */
  ghost predicate Tight(lens: seq<nat>, vs: seq<Word>, m: nat)
    requires m <= |vs| <= |lens|
  {
    forall j :: 0 <= j < m ==> Key(vs[j]) == lens[j]
  }

  lemma {:induction false} BodiesAgainstLengths(q: nat, lens: seq<nat>, vs: seq<Word>, m: nat)
    requires m <= |vs| <= |lens| && forall j :: 0 <= j < |vs| ==> vs[j] != [] && Key(vs[j]) <= lens[j]
    ensures q + |Bodies(vs[..m])| <= Start(q, lens, m)
    ensures q + |Bodies(vs[..m])| == Start(q, lens, m) <==> Tight(lens, vs, m)
  {
    if m > 0 {
      BodiesAgainstLengths(q, lens, vs, m - 1);
      BodiesUpTo(vs, m - 1);
      assert Tight(lens, vs, m) <==> Tight(lens, vs, m - 1) && Key(vs[m - 1]) == lens[m - 1];
    }
  }

  lemma AllKeysFit(f: Format, b: seq<Byte>, lens: seq<nat>, q: nat, vs: seq<Word>)
    requires f.width > 0 && Short(f, lens) && vs == ValuesFrom(f, b, lens, q, 0)
    ensures forall j :: 0 <= j < |vs| ==> vs[j] != [] && Key(vs[j]) <= lens[j]
  {
    KeysFit(f, b, lens, q, 0);
    forall j | 0 <= j < |vs| ensures vs[j] != [] && Key(vs[j]) <= lens[j] { assert vs[j - 0] == vs[j]; }
  }

  lemma ShortFrom(f: Format, b: seq<Byte>, lens: seq<nat>, q: nat, m: nat)
    requires f.width > 0 && Short(f, lens) && 0 < m <= |ValuesFrom(f, b, lens, q, 0)|
    ensures var vs := ValuesFrom(f, b, lens, q, 0);
      && q + |Bodies(vs[..m])| <= Start(q, lens, m) <= |b|
      && (q + |Bodies(vs[..m])| == Start(q, lens, m) <==> Tight(lens, vs, m))
  {
    var vs := ValuesFrom(f, b, lens, q, 0);
    AllKeysFit(f, b, lens, q, vs);
    BodiesAgainstLengths(q, lens, vs, m);
    CountFrom(f, b, lens, q, 0);
    StartGrows(q, lens, m, |vs|);
  }

  // The two functions that work on a group

  /** `decode`: a full group out of any `kMaxSize` bytes. */
  method Decode(f: Format, mem: seq<Byte>, p: nat) returns (vals: seq<Word>, n: nat)
    requires f.Valid() && p + f.MaxSize() <= |mem|
    ensures var lens := Lengths(f, LoadHeader(f, mem, p));
      |vals| == f.group && vals == ValuesFrom(f, mem, lens, p + f.header, 0) && n == Start(p + f.header, lens, f.group)
  {
    var h := LoadHeader(f, mem, p);
    ghost var lens := Lengths(f, h);
    ghost var all := ValuesFrom(f, mem, lens, p + f.header, 0);
    vals, n := [], p + f.header;
    while |vals| < f.group
      invariant |vals| <= f.group && n == Start(p + f.header, lens, |vals|)
      invariant vals + ValuesFrom(f, mem, lens, n, |vals|) == all
    {
      var k := Digit(f.width, h, |vals|);
      assert k == lens[|vals|];
      StartBound(f, p + f.header, lens, |vals|);
      StartGrows(p + f.header, lens, 0, |vals|);
      RoomForOne(f, |vals|, n - p);
      vals, n := DecodeValue(f, mem, lens, vals, n, k, all);
    }
  }

  /** One value: load, mask, and move on. */
  method DecodeValue(f: Format, mem: seq<Byte>, ghost lens: seq<nat>, vals: seq<Word>, n: nat, k: nat, ghost all: seq<Word>)
      returns (vals': seq<Word>, n': nat)
    requires Short(f, lens) && |vals| < |lens| && k == lens[|vals|] && n + f.width <= |mem|
    requires vals + ValuesFrom(f, mem, lens, n, |vals|) == all
    ensures |vals'| == |vals| + 1 && vals' + ValuesFrom(f, mem, lens, n', |vals'|) == all && n' == n + k + 1
  {
    vals', n' := vals + [Cut(f, mem, n, k)], n + k + 1;
    assert vals + ([Cut(f, mem, n, k)] + ValuesFrom(f, mem, lens, n', |vals'|)) == vals' + ValuesFrom(f, mem, lens, n', |vals'|);
  }

  /** `partialCount`: the most values that end within `size` bytes. */
  method PartialCount(f: Format, mem: seq<Byte>, p: nat, size: nat) returns (count: nat)
    requires f.Valid() && p + f.header <= |mem|
    ensures Reaches(f.header, Lengths(f, LoadHeader(f, mem, p)), size, count)
  {
    var v := LoadHeader(f, mem, p);
    ghost var lens := Lengths(f, v);
    var s := f.header;
    count := 0;
    while count < f.group
      invariant count <= f.group && s == Start(f.header, lens, count) && (count > 0 ==> s <= size)
    {
      assert Digit(f.width, v, count) == lens[count];
      s := s + 1 + Digit(f.width, v, count);
      if s > size { return; }
      count := count + 1;
    }
  }

  // ---------------------------------------------------------------- decoding any bytes

  /** The values at the start of `b`: as many of one group as are all there. */
  ghost function Values(f: Format, b: seq<Byte>): (r: seq<Word>)
    requires f.Valid()
    ensures Fits(f, r) && |r| <= f.group
  {
    if |b| < f.header then [] else ValuesFrom(f, b, Lengths(f, LoadHeader(f, b, 0)), f.header, 0)
  }

  /** The bytes of a full group at the start of `b`. */
  ghost function FullSize(f: Format, b: seq<Byte>): (r: nat)
    requires f.Valid() && |b| >= f.header
  {
    Start(f.header, Lengths(f, LoadHeader(f, b, 0)), f.group)
  }

  lemma FullGroupFits(f: Format, b: seq<Byte>)
    requires f.Valid() && |b| >= f.header
    ensures |Values(f, b)| == f.group <==> FullSize(f, b) <= |b|
  {
    var lens := Lengths(f, LoadHeader(f, b, 0));
    CountFrom(f, b, lens, f.header, 0);
    if FullSize(f, b) <= |b| { ReachIsUnique(f.header, lens, |b|, |Values(f, b)|, f.group); }
  }

  /** The lengths in the header of the group at the start of `b`. */
  ghost function LengthsAt(f: Format, b: seq<Byte>): (lens: seq<nat>)
    requires f.Valid() && |b| >= f.header
    ensures |lens| == f.group && Short(f, lens)
  {
    Lengths(f, LoadHeader(f, b, 0))
  }

  /** Decoded values need no more bytes than they were read from, and just as many if and only if they were encoded tightly. */
  lemma ValuesAreShort(f: Format, b: seq<Byte>, m: nat)
    requires f.Valid() && 0 < m <= |Values(f, b)|
    ensures f.header + |Bodies(Values(f, b)[..m])| <= Start(f.header, LengthsAt(f, b), m) <= |b|
    ensures f.header + |Bodies(Values(f, b)[..m])| == Start(f.header, LengthsAt(f, b), m) <==> Tight(LengthsAt(f, b), Values(f, b), m)
  {
    ShortFrom(f, b, LengthsAt(f, b), f.header, m);
  }

  /** The values one refill of the decoder finds in the unread bytes `b`, with at most `m` wanted. */
  ghost function Taken(f: Format, b: seq<Byte>, m: nat): (r: seq<Word>)
    requires f.Valid()
    ensures Fits(f, r) && |r| <= m && |r| <= f.group
  {
    if m < |Values(f, b)| then Values(f, b)[..m] else Values(f, b)
  }

  /** The bytes it moves over. */
  ghost function Consumed(f: Format, b: seq<Byte>, m: nat): (r: nat)
    requires f.Valid() && m > 0
    ensures r <= |b|
  {
    if m < |Values(f, b)| then ValuesAreShort(f, b, m); f.header + |Bodies(Values(f, b)[..m])|
    else if |Values(f, b)| == f.group then FullGroupFits(f, b); FullSize(f, b)
    else |b|
  }

  /** Stopped inside a group, the decoder is behind the last value it returned if and only if these values were encoded tightly. */
  lemma StopIsExactIffTight(f: Format, b: seq<Byte>, m: nat)
    requires f.Valid() && 0 < m < |Values(f, b)|
    ensures Consumed(f, b, m) == Start(f.header, LengthsAt(f, b), m) <==> Tight(LengthsAt(f, b), Values(f, b), m)
  {
    ValuesAreShort(f, b, m);
  }

  /** The values one refill finds, and the bytes it moves over. */
  datatype Step = Step(vs: seq<Word>, size: nat)

  /** Mentioned by the proofs that look into a step. */
  ghost predicate Ask(n: nat) { true }

  ghost predicate IsStep(f: Format, b: seq<Byte>, m: nat, s: Step)
    requires f.Valid() && m > 0
  {
    && Fits(f, s.vs) && |s.vs| <= m && s.size <= |b| && (s.vs == [] ==> s.size == |b|)
    && forall n: nat {:trigger Ask(n)} :: Ask(n) ==> s == Step(Taken(f, b, m), Consumed(f, b, m))
  }

  /** One refill: `Taken` and `Consumed`, by a choice that shows them only to proofs that ask. */
  ghost function Refill(f: Format, b: seq<Byte>, m: nat): (s: Step)
    requires f.Valid() && m > 0
    ensures IsStep(f, b, m, s)
  {
    assert IsStep(f, b, m, Step(Taken(f, b, m), Consumed(f, b, m)));
    var s :| IsStep(f, b, m, s);
    s
  }

  lemma RefillIs(f: Format, b: seq<Byte>, m: nat)
    requires f.Valid() && m > 0
    ensures Refill(f, b, m) == Step(Taken(f, b, m), Consumed(f, b, m))
  {
    assert Ask(0);
  }

  /** What decoding any bytes gives, with at most `m` values wanted: the values, and the bytes left over. */
  ghost function Decoding(f: Format, b: seq<Byte>, m: nat): (r: (seq<Word>, seq<Byte>))
    requires f.Valid()
    decreases m
  {
    if b == [] || m == 0 then ([], b)
    else
      var s := Refill(f, b, m);
      if s.vs == [] then ([], [])
      else
        var more := Decoding(f, b[s.size..], m - |s.vs|);
        (s.vs + more.0, more.1)
  }

  /** Decoding is one refill after the other, whether or not it finds a value. */
  lemma DecodingStep(f: Format, b: seq<Byte>, m: nat)
    requires f.Valid() && b != [] && m > 0
    ensures var s := Refill(f, b, m);
      var more := Decoding(f, b[s.size..], m - |s.vs|);
      Decoding(f, b, m).0 == s.vs + more.0 && Decoding(f, b, m).1 == more.1 && (s.vs == [] ==> more.0 == [])
  {
  }

  // ---------------------------------------------------------------- the values of an encoded list

  lemma CutOut(f: Format, b: seq<Byte>, q: nat, v: Word)
    requires |v| == f.width > 0 && StartsAt(b, q, Body(v))
    ensures q + Key(v) + 1 <= |b| && Cut(f, b, q, Key(v)) == v
  {
    AboveKey(v);
    var k := Key(v);
    forall j | 0 <= j <= k ensures b[q + j] == v[j] { assert b[q..][j] == Body(v)[j]; }
    forall j | k < j < |v| ensures v[j] == 0 { assert v[k + 1..][j - k - 1] == v[j]; }
  }

  lemma NextBody(xs: seq<Word>, i: nat)
    requires i < |xs| && forall j :: 0 <= j < |xs| ==> xs[j] != []
    ensures Bodies(xs[i..]) == Body(xs[i]) + Bodies(xs[i + 1..])
  {
    assert xs[i..][1..] == xs[i + 1..];
  }

  /** The lengths are those of `xs`, then zeros. */
  ghost predicate LengthsOf(lens: seq<nat>, xs: seq<Word>) {
    |xs| <= |lens| && forall i :: 0 <= i < |lens| ==> lens[i] == if i < |xs| then Key(xs[i]) else 0
  }

  lemma HeaderLengths(f: Format, b: seq<Byte>, xs: seq<Word>)
    requires f.Valid() && |xs| <= f.group && Fits(f, xs) && StartsAt(b, 0, Header(f, xs))
    ensures LengthsOf(Lengths(f, LoadHeader(f, b, 0)), xs)
  {
    forall i | 0 <= i < f.group ensures Lengths(f, LoadHeader(f, b, 0))[i] == if i < |xs| then Key(xs[i]) else 0 {
      HeaderDigits(f, b, 0, xs, i);
    }
  }

  lemma Prepend(xs: seq<Word>, i: nat, more: seq<Word>)
    requires i < |xs|
    ensures [xs[i]] + (xs[i + 1..] + more) == xs[i..] + more
  {
  }

  /** The values of an encoded group, clipped or not, are found again. */
  lemma {:induction false} ValuesInGroup(f: Format, b: seq<Byte>, lens: seq<nat>, xs: seq<Word>, q: nat, i: nat, more: seq<Word>)
    requires f.width > 0 && Short(f, lens) && i <= |xs| && Fits(f, xs) && LengthsOf(lens, xs) && StartsAt(b, q, Bodies(xs[i..]))
    requires more == ValuesFrom(f, b, lens, q + |Bodies(xs[i..])|, |xs|)
    ensures ValuesFrom(f, b, lens, q, i) == xs[i..] + more
    decreases |xs| - i
  {
    if i < |xs| {
      NextBody(xs, i);
      StartsSplit(b, q, Body(xs[i]), Bodies(xs[i + 1..]));
      CutOut(f, b, q, xs[i]);
      ValuesInGroup(f, b, lens, xs, q + Key(xs[i]) + 1, i + 1, more);
      Prepend(xs, i, more);
    }
  }

  lemma {:induction false} StartInGroup(q: nat, lens: seq<nat>, xs: seq<Word>, i: nat)
    requires i <= |xs| && (forall j :: 0 <= j < |xs| ==> xs[j] != []) && LengthsOf(lens, xs)
    ensures Start(q, lens, i) == q + |Bodies(xs[..i])|
  {
    if i > 0 {
      StartInGroup(q, lens, xs, i - 1);
      BodiesUpTo(xs, i - 1);
    }
  }

  lemma ClippedLengths(f: Format, b: seq<Byte>, lens: seq<nat>, xs: seq<Word>, q: nat)
    requires f.width > 0 && Short(f, lens) && Fits(f, xs) && LengthsOf(lens, xs) && StartsAt(b, q, Bodies(xs))
    ensures xs <= ValuesFrom(f, b, lens, q, 0) && Start(q, lens, |xs|) == q + |Bodies(xs)|
    ensures |xs| < |lens| ==> (|ValuesFrom(f, b, lens, q, 0)| == |xs| <==> |b| == q + |Bodies(xs)|)
  {
    assert xs[0..] == xs && xs[..|xs|] == xs;
    ValuesInGroup(f, b, lens, xs, q, 0, ValuesFrom(f, b, lens, q + |Bodies(xs)|, |xs|));
    StartInGroup(q, lens, xs, |xs|);
  }

  /**
   A group clipped after `xs`: these values are found whatever bytes come next, and a further one
   (a zero that filled the group up) just if a byte does come next.
   */
  lemma ClippedGroupDecodes(f: Format, b: seq<Byte>, xs: seq<Word>)
    requires f.Valid() && |xs| <= f.group && Fits(f, xs)
    requires StartsAt(b, 0, Header(f, xs)) && StartsAt(b, f.header, Bodies(xs))
    ensures xs <= Values(f, b)
    ensures |xs| < f.group ==> (|Values(f, b)| == |xs| <==> |b| == f.header + |Bodies(xs)|)
    ensures |xs| == f.group ==> FullSize(f, b) == f.header + |Bodies(xs)|
  {
    HeaderLengths(f, b, xs);
    ClippedLengths(f, b, Lengths(f, LoadHeader(f, b, 0)), xs, f.header);
  }

  /** The groups of the encoder are tight: stopped inside one, the decoder is where the next value starts. */
  lemma GroupsAreTight(f: Format, b: seq<Byte>, xs: seq<Word>, m: nat)
    requires f.Valid() && 0 < m <= |xs| <= f.group && Fits(f, xs)
    requires StartsAt(b, 0, Header(f, xs)) && StartsAt(b, f.header, Bodies(xs))
    ensures m <= |Values(f, b)| && |b| >= f.header && Tight(LengthsAt(f, b), Values(f, b), m)
    ensures m < |Values(f, b)| ==> Consumed(f, b, m) == Start(f.header, LengthsAt(f, b), m) == f.header + |Bodies(xs[..m])|
  {
    ClippedGroupDecodes(f, b, xs);
    HeaderLengths(f, b, xs);
    StartInGroup(f.header, LengthsAt(f, b), xs, m);
    forall j | 0 <= j < m ensures Key(Values(f, b)[j]) == LengthsAt(f, b)[j] { assert Values(f, b)[j] == xs[j]; }
    if m < |Values(f, b)| { StopIsExactIffTight(f, b, m); }
  }

  // ---------------------------------------------------------------- the encoder

  lemma {:induction false} EncodedAppend(f: Format, xs: seq<Word>, ys: seq<Word>)
    requires f.Valid() && Fits(f, xs) && Fits(f, ys) && f.Whole(|xs|)
    ensures Encoded(f, xs + ys) == Encoded(f, xs) + Encoded(f, ys)
    decreases |xs|
  {
    if xs == [] {
      assert xs + ys == ys;
    } else {
      var g := f.group;
      assert (xs + ys)[..g] == xs[..g] && (xs + ys)[g..] == xs[g..] + ys;
      EncodedAppend(f, xs[g..], ys);
      Associate(Group(f, xs[..g]), Encoded(f, xs[g..]), Encoded(f, ys));
    }
  }

  lemma EncodedGroup(f: Format, xs: seq<Word>)
    requires f.Valid() && Fits(f, xs) && 0 < |xs| <= f.group
    ensures Encoded(f, xs) == Group(f, xs)
  {
    if |xs| == f.group { assert xs[..f.group] == xs && Encoded(f, xs[f.group..]) == []; }
  }

  lemma EncodedMore(f: Format, base: seq<Byte>, done: seq<Word>, last: seq<Word>)
    requires f.Valid() && Fits(f, done) && Fits(f, last) && f.Whole(|done|) && 0 < |last| <= f.group
    ensures (base + Encoded(f, done)) + Group(f, last) == base + Encoded(f, done + last)
  {
    EncodedAppend(f, done, last);
    EncodedGroup(f, last);
    Associate(base, Encoded(f, done), Group(f, last));
  }

  lemma WholeMore(f: Format, n: nat)
    requires f.Valid() && f.Whole(n)
    ensures f.Whole(n + f.group)
  {
  }

  class Encoder {
    const f: Format
    const tmp: array<Byte>
    const buf: array<Word>
    var out: seq<Byte>
    var count: nat
    ghost var base: seq<Byte>    // the output before the first value
    ghost var done: seq<Word>    // the values already in the output

    ghost predicate Ready()
      reads this
    {
      f.Valid() && tmp.Length == f.MaxSize() && buf.Length == f.group && count <= f.group && Fits(f, done) && f.Whole(|done|)
    }

    ghost predicate Valid()
      reads this, tmp, buf
    {
      Ready() && count < f.group && Fits(f, buf[..count]) && out == base + Encoded(f, done)
    }

    /** The values added since `base`. */
    ghost function Values(): seq<Word>
      requires Ready()
      reads this, buf
    {
      done + buf[..count]
    }

    constructor (f: Format)
      requires f.Valid()
      ensures Valid() && fresh(tmp) && fresh(buf) && this.f == f && Values() == [] && base == []
    {
      this.f := f;
      tmp, buf := new Byte[f.MaxSize()], new Word[f.group](_ => []);
      out, count, base, done := [], 0, [], [];
    }

    method Add(x: Word)
      requires Valid() && |x| == f.width
      modifies this`out, this`count, this`done, tmp, buf
      ensures Valid() && Values() == old(Values()) + [x] && base == old(base)
    {
      buf[count] := x;
      count := count + 1;
      assert buf[..count] == old(buf[..count]) + [x];
      if count == f.group { Flush(); }
    }

    /** Encode the buffered values: a full group, or clipped. */
    method Flush()
      requires Ready() && count > 0 && Fits(f, buf[..count]) && out == base + Encoded(f, done)
      modifies this`out, this`count, this`done, tmp, buf
      ensures count == 0 && done == old(done + buf[..count]) && out == base + Encoded(f, done) && Fits(f, done)
      ensures old(count) == f.group ==> f.Whole(|done|)
    {
      ghost var last := buf[..count];
      WriteGroup(last);
      EncodedMore(f, base, done, last);
      WholeMore(f, |done|);
      done := done + last;
    }

    method WriteGroup(ghost last: seq<Word>)
      requires f.Valid() && tmp.Length == f.MaxSize() && buf.Length == f.group && Fits(f, last)
      requires 0 < count == |last| <= f.group && buf[..count] == last
      modifies this`out, this`count, tmp, buf
      ensures count == 0 && out == old(out) + Group(f, last)
    {
      var zero := Zeros(f.width);
      KeyOfTail(zero);
      forall i | count <= i < f.group { buf[i] := zero; }
      ghost var zeros := buf[count..];
      assert buf[..] == last + zeros;
      var p := Encode(f, tmp, buf[..]);
      var size := PartialSize(f, buf[..count]);
      ClippedGroup(f, last, zeros);
      assert buf[..count] == last;
      assert tmp[..size] == tmp[..p][..size];
      out := out + tmp[..size];
      count := 0;
    }

    method Finish()
      requires Valid()
      modifies this`out, this`count, this`base, this`done, tmp, buf
      ensures Valid() && Values() == [] && out == base == old(base) + Encoded(f, old(Values()))
    {
      if count > 0 { Flush(); } else { assert done + buf[..count] == done; }
      base, done := out, [];
    }
  }

  /** Clipping the group filled up with zeros after the last real value. */
  lemma ClippedGroup(f: Format, xs: seq<Word>, zeros: seq<Word>)
    requires f.Valid() && Fits(f, xs) && Fits(f, zeros) && forall j :: 0 <= j < |zeros| ==> Key(zeros[j]) == 0
    ensures |Group(f, xs)| <= |Group(f, xs + zeros)| && Group(f, xs + zeros)[..|Group(f, xs)|] == Group(f, xs)
  {
    BodiesAppend(xs, zeros);
    HeaderPadded(f.width, xs, zeros);
    Associate(Header(f, xs), Bodies(xs), Bodies(zeros));
  }
}
