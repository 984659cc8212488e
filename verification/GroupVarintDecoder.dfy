/** folly::GroupVarintDecoder on any bytes, and the way there and back for whole lists. */
module GroupVarintDecoder {
  import opened GroupVarint
  import opened GroupVarintCodec

  // ---------------------------------------------------------------- a group in memory, with anything behind it

  /** The `size` bytes at `p` that count; what lies behind them may be left over from earlier use. */
  ghost function Window(mem: seq<Byte>, p: nat, size: nat): (b: seq<Byte>)
    requires p + size <= |mem|
    ensures |b| == size
  {
    mem[p..p + size]
  }

  lemma SameHeader(f: Format, mem: seq<Byte>, p: nat, size: nat)
    requires f.Valid() && p + size <= |mem| && size >= f.header
    ensures LoadHeader(f, Window(mem, p, size), 0) == LoadHeader(f, mem, p)
  {
  }

  lemma SameCut(f: Format, mem: seq<Byte>, p: nat, size: nat, q: nat, k: nat)
    requires p + size <= |mem| && q + k + 1 <= size && k < f.width
    ensures Cut(f, mem, p + q, k) == Cut(f, Window(mem, p, size), q, k)
  {
    var b := Window(mem, p, size);
    var x, y := mem[p + q..p + q + k + 1], b[q..q + k + 1];
    forall j | 0 <= j < |x| ensures x[j] == y[j] { assert b[q + j] == mem[p + (q + j)]; }
    assert x == y;
  }

  /** The values that count do not depend on the bytes behind. */
  lemma {:induction false} SameValues(f: Format, mem: seq<Byte>, p: nat, size: nat, lens: seq<nat>, q: nat, i: nat)
    requires p + size <= |mem| && Short(f, lens) && i <= |lens|
    ensures ValuesFrom(f, Window(mem, p, size), lens, q, i) <= ValuesFrom(f, mem, lens, p + q, i)
    decreases |lens| - i
  {
    if i < |lens| && q + lens[i] + 1 <= size {
      SameCut(f, mem, p, size, q, lens[i]);
      SameValues(f, mem, p, size, lens, q + lens[i] + 1, i + 1);
    }
  }

  lemma DecodedValues(f: Format, mem: seq<Byte>, p: nat, size: nat)
    requires f.Valid() && p + size <= |mem| && p + f.header <= |mem|
    ensures Values(f, Window(mem, p, size)) <= ValuesFrom(f, mem, Lengths(f, LoadHeader(f, mem, p)), p + f.header, 0)
  {
    if size >= f.header {
      SameHeader(f, mem, p, size);
      SameValues(f, mem, p, size, Lengths(f, LoadHeader(f, mem, p)), f.header, 0);
    }
  }

  /** Nor does the number of them. */
  lemma SameCount(f: Format, mem: seq<Byte>, p: nat, size: nat, c: nat)
    requires f.Valid() && p + size <= |mem| && p + f.header <= |mem|
    requires Reaches(f.header, Lengths(f, LoadHeader(f, mem, p)), size, c)
    ensures c == |Values(f, Window(mem, p, size))|
  {
    var lens := Lengths(f, LoadHeader(f, mem, p));
    if size < f.header {
      StartGrows(f.header, lens, 0, c);
    } else {
      SameHeader(f, mem, p, size);
      CountFrom(f, Window(mem, p, size), lens, f.header, 0);
      ReachIsUnique(f.header, lens, size, c, |Values(f, Window(mem, p, size))|);
    }
  }

  /** The group is complete if the place `decode` returns is within the data. */
  lemma FullGroup(f: Format, mem: seq<Byte>, p: nat, size: nat, n: nat)
    requires f.Valid() && p + size <= |mem| && p + f.header <= |mem| && n == Start(p + f.header, Lengths(f, LoadHeader(f, mem, p)), f.group)
    ensures n <= p + size <==> |Values(f, Window(mem, p, size))| == f.group
    ensures n <= p + size ==> size >= f.header && n == p + FullSize(f, Window(mem, p, size))
  {
    var lens := Lengths(f, LoadHeader(f, mem, p));
    StartShifts(f.header, p, lens, f.group);
    StartGrows(f.header, lens, 0, f.group);
    if size >= f.header {
      SameHeader(f, mem, p, size);
      FullGroupFits(f, Window(mem, p, size));
    }
  }

  /** How many of the decoded values there are, and where the next group starts. */
  method Choose(f: Format, mem: seq<Byte>, p: nat, end: nat, remaining: nat, vals: seq<Word>, n: nat) returns (c: nat, k: nat)
    requires f.Valid() && p < end <= |mem| && p + f.header <= |mem| && remaining > 0 && |vals| == f.group && Fits(f, vals)
    requires n == Start(p + f.header, Lengths(f, LoadHeader(f, mem, p)), f.group) && Values(f, Window(mem, p, end - p)) <= vals
    ensures c <= |vals| && Refill(f, Window(mem, p, end - p), remaining) == Step(vals[..c], k)
  {
    FullGroup(f, mem, p, end - p, n);
    if n <= end {
      if remaining >= f.group {
        c, k := f.group, n - p;
      } else {
        c := remaining;
        k := PartialSize(f, vals[..c]);
      }
    } else {
      c := PartialCount(f, mem, p, end - p);
      SameCount(f, mem, p, end - p, c);
      if remaining >= c {
        k := end - p;
      } else {
        c := remaining;
        k := PartialSize(f, vals[..c]);
      }
    }
    assert vals[..c] == Taken(f, Window(mem, p, end - p), remaining);
    RefillIs(f, Window(mem, p, end - p), remaining);
  }

  /** `decode` and what there is of it. */
  method DecodeWindow(f: Format, mem: seq<Byte>, p: nat, end: nat, remaining: nat) returns (vals: seq<Word>, c: nat, k: nat)
    requires f.Valid() && p < end <= |mem| && p + f.MaxSize() <= |mem| && remaining > 0
    ensures |vals| == f.group && Fits(f, vals) && c <= f.group
    ensures Refill(f, Window(mem, p, end - p), remaining) == Step(vals[..c], k)
  {
    var n;
    vals, n := Decode(f, mem, p);
    DecodedValues(f, mem, p, end - p);
    c, k := Choose(f, mem, p, end, remaining, vals, n);
  }

  /** What one refill leaves to come. */
  lemma RefillMeans(f: Format, b: seq<Byte>, m: nat, vals: seq<Word>, c: nat, k: nat)
    requires f.Valid() && b != [] && m > 0 && c <= |vals| && Refill(f, b, m) == Step(vals[..c], k)
    ensures c <= m && k <= |b| && (c == 0 ==> k == |b| && Decoding(f, b[k..], m - c).0 == [])
    ensures Decoding(f, b, m).0 == vals[..c] + Decoding(f, b[k..], m - c).0 && Decoding(f, b, m).1 == Decoding(f, b[k..], m - c).1
  {
    DecodingStep(f, b, m);
  }

  /** `b` are the last bytes of `data`; only proofs that ask look at the bytes. */
  ghost predicate EndsWith(data: seq<Byte>, b: seq<Byte>) {
    |b| <= |data| && forall n: nat {:trigger Ask(n)} :: Ask(n) ==> data[|data| - |b|..] == b
  }

  lemma SkipBytes(data: seq<Byte>, mem: seq<Byte>, p: nat, end: nat, k: nat)
    requires p + k <= end <= |mem| && EndsWith(data, Window(mem, p, end - p))
    ensures Window(mem, p + k, end - (p + k)) == Window(mem, p, end - p)[k..] && EndsWith(data, Window(mem, p + k, end - (p + k)))
  {
    assert Ask(0);
    assert data[|data| - (end - (p + k))..] == data[|data| - (end - p)..][k..];
  }

  lemma TailOfSum(a: seq<Word>, b: seq<Word>)
    requires a != []
    ensures (a + b)[0] == a[0] && (a + b)[1..] == a[1..] + b
  {
  }

  // ---------------------------------------------------------------- the decoder

  class Decoder {
    const f: Format
    const data: seq<Byte>
    const tmp: array<Byte>
    var inTmp: bool          // do the pointers point into tmp_?
    var p: nat
    var end: nat
    var limit: nat
    var buf: seq<Word>
    var pos: nat
    var count: nat
    var remaining: nat

    function Mem(): seq<Byte>
      reads this, tmp
    {
      if inTmp then tmp[..] else data
    }

    ghost predicate Shape()
      reads this, tmp
    {
      && f.Valid() && tmp.Length == 2 * f.MaxSize() && |buf| == f.group && Fits(f, buf) && pos <= count <= f.group
      && p <= end <= limit == |Mem()| && (if inTmp then end < f.MaxSize() else end == limit)
    }

    ghost function Unread(): seq<Byte>
      requires Shape()
      reads this, tmp
    {
      Window(Mem(), p, end - p)
    }

    /** The unread bytes are the last ones of the original data. */
    ghost predicate Valid()
      reads this, tmp
    {
      Shape() && EndsWith(data, Unread())
    }

    /** What is still to come: the values, and the bytes behind them. */
    ghost function Pending(): (r: (seq<Word>, seq<Byte>))
      requires Shape()
      reads this, tmp
    {
      var more := Decoding(f, Unread(), remaining);
      (buf[pos..count] + more.0, more.1)
    }

    constructor (f: Format, data: seq<Byte>, maxCount: nat)
      requires f.Valid()
      ensures Valid() && fresh(tmp) && this.f == f && this.data == data
      ensures Pending().0 == Decoding(f, data, maxCount).0 && Pending().1 == Decoding(f, data, maxCount).1
    {
      this.f, this.data := f, data;
      tmp := new Byte[2 * f.MaxSize()];
      inTmp, p, end, limit := false, 0, |data|, |data|;
      buf := seq(f.group, _ => Zeros(f.width));
      pos, count, remaining := 0, 0, maxCount;
      new;
      assert Unread() == data && data[|data| - |data|..] == data;
    }

    /** `memcpy` to the start of `tmp_`. */
    method CopyToTmp(bytes: seq<Byte>)
      requires |bytes| <= tmp.Length
      modifies tmp
      ensures tmp[..][0..|bytes|] == bytes
    {
      forall i | 0 <= i < |bytes| { tmp[i] := bytes[i]; }
    }

    /** Make a whole group readable: near the end of the data, from a copy. */
    method MakeReadable()
      requires Valid()
      modifies this`inTmp, this`p, this`end, this`limit, tmp
      ensures Valid() && p + f.MaxSize() <= limit && Unread() == old(Unread())
    {
      if limit - p < f.MaxSize() {
        CopyToTmp(Mem()[p..end]);
        inTmp, p, end, limit := true, 0, end - p, tmp.Length;
      }
    }

    method Next() returns (ok: bool, val: Word)
      requires Valid()
      modifies this`inTmp, this`p, this`end, this`limit, this`buf, this`pos, this`count, this`remaining, tmp
      ensures Valid() && ok == (old(Pending()).0 != [])
      ensures Pending().1 == old(Pending()).1 && (ok ==> val == old(Pending()).0[0] && Pending().0 == old(Pending()).0[1..])
      ensures !ok ==> Pending().0 == [] && pos == count && (p == end || remaining == 0)
    {
      if pos == count {
        if end - p == 0 || remaining == 0 { return false, []; }
        MakeReadable();
        Refill();
        if count == 0 { return false, []; }
      }
      ok := true;
      val := Pop();
    }

    method Pop() returns (val: Word)
      requires Valid() && pos < count
      modifies this`pos
      ensures Valid() && old(Pending()).0 != [] && val == old(Pending()).0[0]
      ensures Pending().0 == old(Pending()).0[1..] && Pending().1 == old(Pending()).1
    {
      val := buf[pos];
      TailOfSum(buf[pos..count], Decoding(f, Unread(), remaining).0);
      assert buf[pos..count][1..] == buf[pos + 1..count];
      pos := pos + 1;
    }

    /** Decode the next group, or what there is of it. */
    method Refill()
      requires Valid() && pos == count && p < end && remaining > 0 && p + f.MaxSize() <= limit
      modifies this`p, this`buf, this`pos, this`count, this`remaining
      ensures Valid() && pos == 0 && Pending().0 == old(Pending()).0 && Pending().1 == old(Pending()).1
      ensures count == 0 ==> Pending().0 == [] && p == end
    {
      ghost var b, m := Unread(), remaining;
      var vals, c, k := DecodeWindow(f, Mem(), p, end, remaining);
      RefillMeans(f, b, m, vals, c, k);
      Accept(vals, c, k);
      assert buf[pos..count] == vals[..c];
    }

    method Accept(vals: seq<Word>, c: nat, k: nat)
      requires Valid() && |vals| == f.group && Fits(f, vals) && c <= f.group && c <= remaining && k <= end - p
      modifies this`p, this`buf, this`pos, this`count, this`remaining
      ensures Valid() && pos == 0 && count == c && buf == vals && remaining == old(remaining) - c
      ensures p == old(p) + k && Unread() == old(Unread())[k..]
    {
      SkipBytes(data, Mem(), p, end, k);
      p, buf, pos, count, remaining := p + k, vals, 0, c, remaining - c;
    }

    /** What follows the decoded values; the source checks that `Next` has run out. */
    method Rest() returns (rest: seq<Byte>)
      requires Valid() && pos == count && (p == end || remaining == 0)
      ensures rest == Pending().1 && Pending().0 == []
    {
      rest := data[|data| - (end - p)..];
      assert Ask(0);
    }
  }

  // ---------------------------------------------------------------- whole lists

  /** Numbers as they lie in memory. */
  function Words(f: Format, xs: seq<nat>): (r: seq<Word>)
    ensures Fits(f, r) && |r| == |xs| && forall i :: 0 <= i < |xs| ==> r[i] == Bytes(xs[i], f.width)
  {
    seq(|xs|, i requires 0 <= i < |xs| => Bytes(xs[i], f.width))
  }

  method EncodeAll(f: Format, ws: seq<Word>) returns (out: seq<Byte>)
    requires f.Valid() && Fits(f, ws)
    ensures out == Encoded(f, ws)
  {
    var e := new Encoder(f);
    for i := 0 to |ws|
      invariant e.Valid() && e.f == f && fresh(e) && fresh(e.tmp) && fresh(e.buf) && e.base == [] && e.Values() == ws[..i]
    {
      e.Add(ws[i]);
      assert ws[..i] + [ws[i]] == ws[..i + 1];
    }
    assert ws[..|ws|] == ws;
    e.Finish();
    out := e.out;
  }

  lemma MoveOne(vals: seq<Word>, pending: seq<Word>)
    requires pending != []
    ensures vals + pending == (vals + [pending[0]]) + pending[1..]
  {
  }

  /** Any bytes: read values until there are no more, then ask for the rest. */
  method DecodeAll(f: Format, data: seq<Byte>, maxCount: nat) returns (vals: seq<Word>, rest: seq<Byte>)
    requires f.Valid()
    ensures vals == Decoding(f, data, maxCount).0 && rest == Decoding(f, data, maxCount).1
  {
    var d := new Decoder(f, data, maxCount);
    ghost var all := d.Pending();
    vals := [];
    var more := true;
    while more
      invariant d.Valid() && fresh(d) && fresh(d.tmp) && vals + d.Pending().0 == all.0 && d.Pending().1 == all.1
      invariant !more ==> d.Pending().0 == [] && d.pos == d.count && (d.p == d.end || d.remaining == 0)
      decreases |d.Pending().0|, more
    {
      ghost var pending := d.Pending().0;
      var v;
      more, v := d.Next();
      if more {
        MoveOne(vals, pending);
        vals := vals + [v];
      }
    }
    rest := d.Rest();
  }

  // ---------------------------------------------------------------- there and back

  /** The values of the next group. */
  function Chunk(f: Format, ys: seq<Word>): (r: nat) { if |ys| < f.group then |ys| else f.group }

  lemma FirstGroup(f: Format, ys: seq<Word>, tail: seq<Byte>) returns (c: nat, rest: seq<Byte>)
    requires f.Valid() && Fits(f, ys) && ys != []
    ensures c == Chunk(f, ys) && rest == Encoded(f, ys[c..]) + tail && (c < f.group ==> rest == tail)
    ensures Encoded(f, ys) + tail == Header(f, ys[..c]) + (Bodies(ys[..c]) + rest)
  {
    c := Chunk(f, ys);
    var h, b, r := Header(f, ys[..c]), Bodies(ys[..c]), Encoded(f, ys[c..]);
    rest := r + tail;
    if |ys| < f.group { assert ys[..c] == ys && r == [] && rest == tail; }
    assert Encoded(f, ys) == (h + b) + r;
    Associate(h, b, r);
    Associate(h, b + r, tail);
    Associate(b, r, tail);
  }

  lemma StartsWith(a: seq<Byte>, b: seq<Byte>, c: seq<Byte>)
    ensures var s := a + (b + c);
      StartsAt(s, 0, a) && StartsAt(s, |a|, b) && s[|a| + |b|..] == c
  {
    var s := a + (b + c);
    assert s[0..] == s && s[|a|..] == b + c;
    assert s[|a| + |b|..] == s[|a|..][|b|..];
  }

  /** One refill takes the group it finds, whole or clipped, if it is asked for no less. */
  lemma OneGroup(f: Format, b: seq<Byte>, g: seq<Word>, rest: seq<Byte>, m: nat)
    requires f.Valid() && Fits(f, g) && 0 < |g| <= f.group && b == Header(f, g) + (Bodies(g) + rest)
    requires m >= |g| && (|g| < f.group ==> m == |g| || rest == [])
    ensures Refill(f, b, m) == Step(g, f.header + |Bodies(g)|) && b[f.header + |Bodies(g)|..] == rest
  {
    StartsWith(Header(f, g), Bodies(g), rest);
    ClippedGroupDecodes(f, b, g);
    assert Taken(f, b, m) == g;
    RefillIs(f, b, m);
  }

  lemma OneGroupMore(f: Format, b: seq<Byte>, g: seq<Word>, rest: seq<Byte>, m: nat)
    requires f.Valid() && Fits(f, g) && 0 < |g| <= f.group && b == Header(f, g) + (Bodies(g) + rest)
    requires m >= |g| && (|g| < f.group ==> m == |g| || rest == [])
    ensures Decoding(f, b, m).0 == g + Decoding(f, rest, m - |g|).0 && Decoding(f, b, m).1 == Decoding(f, rest, m - |g|).1
  {
    OneGroup(f, b, g, rest, m);
    DecodingStep(f, b, m);
  }

  /** Asked for fewer values than the group holds, one refill takes those and stops behind them. */
  lemma PartOfGroup(f: Format, b: seq<Byte>, g: seq<Word>, rest: seq<Byte>, m: nat)
    requires f.Valid() && Fits(f, g) && 0 < m < |g| <= f.group && b == Header(f, g) + (Bodies(g) + rest)
    ensures f.header + |Bodies(g[..m])| <= |b|
    ensures Decoding(f, b, m).0 == g[..m] && Decoding(f, b, m).1 == b[f.header + |Bodies(g[..m])|..]
  {
    StartsWith(Header(f, g), Bodies(g), rest);
    ClippedGroupDecodes(f, b, g);
    assert Values(f, b)[..m] == g[..m];
    RefillIs(f, b, m);
    DecodingStep(f, b, m);
  }

  lemma Whole(ys: seq<Word>, c: nat, all: seq<Word>)
    requires c <= |ys| && all == ys[..c] + ys[c..]
    ensures all == ys
  {
  }

  /**
   Decoding the encoding of a list, with any bytes after it and the number of values as limit,
   gives the list and those bytes; with nothing after it any larger limit will do.
   */
  lemma {:induction false} DecodingOfEncoded(f: Format, b: seq<Byte>, ys: seq<Word>, tail: seq<Byte>, m: nat)
    requires f.Valid() && Fits(f, ys) && b == Encoded(f, ys) + tail && (m == |ys| || (m >= |ys| && tail == []))
    ensures Decoding(f, b, m).0 == ys && Decoding(f, b, m).1 == tail
    decreases |ys|
  {
    if ys == [] {
      assert b == tail;
    } else {
      var c, rest := FirstGroup(f, ys, tail);
      DecodingOfEncoded(f, rest, ys[c..], tail, m - c);
      OneGroupMore(f, b, ys[..c], rest, m);
      Whole(ys, c, Decoding(f, b, m).0);
    }
  }

  /** The bytes of the encoding up to value `m`. */
  ghost function Behind(f: Format, ys: seq<Word>, m: nat): (r: nat)
    requires f.Valid() && Fits(f, ys) && m <= |ys|
    decreases |ys|
  {
    var c := Chunk(f, ys);
    if m == 0 then 0
    else if m < c then f.header + |Bodies(ys[..m])|
    else f.header + |Bodies(ys[..c])| + Behind(f, ys[c..], m - c)
  }

  lemma {:induction false} BehindPrefix(f: Format, ys: seq<Word>, m: nat)
    requires f.Valid() && Fits(f, ys) && m <= |ys|
    ensures Behind(f, ys, m) == |Encoded(f, ys[..m])|
    decreases |ys|
  {
    var c := Chunk(f, ys);
    if 0 < m < f.group {
      EncodedGroup(f, ys[..m]);
    } else if m >= f.group {
      BehindPrefix(f, ys[c..], m - c);
      assert ys[..m][..c] == ys[..c] && ys[..m][c..] == ys[c..][..m - c];
    }
  }

  /** Behind the first `k` bytes of what follows the group. */
  lemma DropGroup(b: seq<Byte>, h: seq<Byte>, g: seq<Byte>, rest: seq<Byte>, k: nat)
    requires b == h + (g + rest) && k <= |rest|
    ensures |h| + |g| + k <= |b| && b[|h| + |g| + k..] == rest[k..]
  {
  }

  /** Mentioned by the proofs that look into a stop. */
  ghost predicate Look(n: nat) { true }

  /** `b` decodes, up to `m` values, to `vs`, and leaves what is behind `k` bytes; only proofs that look see the decoding. */
  ghost predicate StopsAt(f: Format, b: seq<Byte>, m: nat, vs: seq<Word>, k: nat)
    requires f.Valid()
  {
    k <= |b| && forall n: nat {:trigger Look(n)} :: Look(n) ==> Decoding(f, b, m).0 == vs && Decoding(f, b, m).1 == b[k..]
  }

  lemma StopsLater(f: Format, b: seq<Byte>, g: seq<Word>, rest: seq<Byte>, m: nat, vs: seq<Word>, k: nat)
    requires f.Valid() && Fits(f, g) && 0 < |g| <= m && |g| <= f.group && b == Header(f, g) + (Bodies(g) + rest)
    requires (|g| < f.group ==> m == |g|) && StopsAt(f, rest, m - |g|, vs, k)
    ensures StopsAt(f, b, m, g + vs, f.header + |Bodies(g)| + k)
  {
    assert Look(0);
    OneGroupMore(f, b, g, rest, m);
    DropGroup(b, Header(f, g), Bodies(g), rest, k);
  }

  lemma JoinPrefix(ys: seq<Word>, c: nat, m: nat)
    requires c <= m <= |ys|
    ensures ys[..c] + ys[c..][..m - c] == ys[..m]
  {
  }

  lemma StopsInGroup(f: Format, b: seq<Byte>, ys: seq<Word>, c: nat, rest: seq<Byte>, m: nat)
    requires f.Valid() && Fits(f, ys) && 0 < m < c <= |ys| && c <= f.group && b == Header(f, ys[..c]) + (Bodies(ys[..c]) + rest)
    ensures StopsAt(f, b, m, ys[..m], f.header + |Bodies(ys[..m])|)
  {
    assert ys[..c][..m] == ys[..m];
    PartOfGroup(f, b, ys[..c], rest, m);
  }

  lemma StopsAtOnce(f: Format, b: seq<Byte>, ys: seq<Word>)
    requires f.Valid()
    ensures StopsAt(f, b, 0, ys[..0], 0)
  {
    assert ys[..0] == [] && b[0..] == b;
  }

  lemma StopsPastGroup(f: Format, b: seq<Byte>, ys: seq<Word>, c: nat, rest: seq<Byte>, m: nat, k: nat)
    requires f.Valid() && Fits(f, ys) && 0 < c <= m <= |ys| && c <= f.group && b == Header(f, ys[..c]) + (Bodies(ys[..c]) + rest)
    requires (c < f.group ==> m == c) && StopsAt(f, rest, m - c, ys[c..][..m - c], k)
    ensures StopsAt(f, b, m, ys[..m], f.header + |Bodies(ys[..c])| + k)
  {
    JoinPrefix(ys, c, m);
    StopsLater(f, b, ys[..c], rest, m, ys[c..][..m - c], k);
  }

  /** From the stop behind the first group, or in it, to the stop in the whole. */
  lemma StopsStep(f: Format, b: seq<Byte>, ys: seq<Word>, c: nat, rest: seq<Byte>, m: nat)
    requires f.Valid() && Fits(f, ys) && 0 < m <= |ys| && c == Chunk(f, ys) && b == Header(f, ys[..c]) + (Bodies(ys[..c]) + rest)
    requires m >= c ==> StopsAt(f, rest, m - c, ys[c..][..m - c], Behind(f, ys[c..], m - c))
    ensures StopsAt(f, b, m, ys[..m], Behind(f, ys, m))
  {
    if m < c {
      StopsInGroup(f, b, ys, c, rest, m);
    } else {
      StopsPastGroup(f, b, ys, c, rest, m, Behind(f, ys[c..], m - c));
    }
  }

  lemma {:induction false} StopsBehind(f: Format, b: seq<Byte>, ys: seq<Word>, tail: seq<Byte>, m: nat)
    requires f.Valid() && Fits(f, ys) && b == Encoded(f, ys) + tail && m <= |ys|
    ensures StopsAt(f, b, m, ys[..m], Behind(f, ys, m))
    decreases |ys|
  {
    if m == 0 {
      StopsAtOnce(f, b, ys);
    } else {
      var c, rest := FirstGroup(f, ys, tail);
      if m >= c { StopsBehind(f, rest, ys[c..], tail, m - c); }
      StopsStep(f, b, ys, c, rest, m);
    }
  }

  /** With a smaller limit: the first values of the list, and all bytes behind the encoding of these values. */
  lemma DecodingOfSome(f: Format, b: seq<Byte>, ys: seq<Word>, tail: seq<Byte>, m: nat)
    requires f.Valid() && Fits(f, ys) && b == Encoded(f, ys) + tail && m <= |ys|
    ensures |Encoded(f, ys[..m])| <= |b| && Decoding(f, b, m).0 == ys[..m] && Decoding(f, b, m).1 == b[|Encoded(f, ys[..m])|..]
  {
    StopsBehind(f, b, ys, tail, m);
    assert Look(0);
    BehindPrefix(f, ys, m);
  }

  /**
   Bytes the encoder did not write: the value 5 in two bytes. Stopped behind it, the decoder
   is one byte short of where the next value, 7, starts.
   */
  lemma LooseStop()
    ensures var f, b := Format(4, 4, 1), [1, 5, 0, 7, 0, 0];
      && Values(f, b) == [[5, 0, 0, 0], [7, 0, 0, 0], [0, 0, 0, 0], [0, 0, 0, 0]]
      && Start(f.header, LengthsAt(f, b), 1) == 3 && Consumed(f, b, 1) == 2
      && Decoding(f, b, 1).0 == [[5, 0, 0, 0]] && Decoding(f, b, 1).1 == [0, 7, 0, 0]
  {
    var f, b: seq<Byte> := Format(4, 4, 1), [1, 5, 0, 7, 0, 0];
    LooseLengths(f, b);
    LooseValues(f, b, LengthsAt(f, b));
    RefillIs(f, b, 1);
    DecodingStep(f, b, 1);
  }

  lemma LooseLengths(f: Format, b: seq<Byte>)
    requires f == Format(4, 4, 1) && b == [1, 5, 0, 7, 0, 0]
    ensures LengthsAt(f, b) == [1, 0, 0, 0]
  {
    assert Digit(4, 1, 0) == 1 && Digit(4, 1, 1) == 0 && Digit(4, 1, 2) == 0 && Digit(4, 1, 3) == 0;
  }

  lemma LooseValues(f: Format, b: seq<Byte>, lens: seq<nat>)
    requires f == Format(4, 4, 1) && b == [1, 5, 0, 7, 0, 0] && lens == [1, 0, 0, 0]
    ensures ValuesFrom(f, b, lens, 1, 0) == [[5, 0, 0, 0], [7, 0, 0, 0], [0, 0, 0, 0], [0, 0, 0, 0]]
    ensures |Body([5, 0, 0, 0])| == 1 && Start(1, lens, 1) == 3
  {
    assert Cut(f, b, 1, 1) == [5, 0, 0, 0] && Cut(f, b, 3, 0) == [7, 0, 0, 0];
    assert Cut(f, b, 4, 0) == [0, 0, 0, 0] && Cut(f, b, 5, 0) == [0, 0, 0, 0];
    assert ValuesFrom(f, b, lens, 5, 3) == [[0, 0, 0, 0]];
    assert ValuesFrom(f, b, lens, 4, 2) == [[0, 0, 0, 0], [0, 0, 0, 0]];
    assert ValuesFrom(f, b, lens, 3, 1) == [[7, 0, 0, 0], [0, 0, 0, 0], [0, 0, 0, 0]];
    var v: Word := [5, 0, 0, 0];
    assert v[..3] == [5, 0, 0] && v[..3][..2] == [5, 0] && v[..3][..2][..1] == [5];
    assert Key(v) == Key(v[..3]) == Key(v[..3][..2]) == 0;
  }

  /** The encoder's output through the decoder, for lists of numbers. */
  method RoundTrip(f: Format, xs: seq<nat>, tail: seq<Byte>, maxCount: nat) returns (ys: seq<nat>, rest: seq<Byte>)
    requires f.Valid() && (forall i :: 0 <= i < |xs| ==> xs[i] < Pow256(f.width)) && (maxCount == |xs| || (maxCount >= |xs| && tail == []))
    ensures ys == xs && rest == tail
  {
    var out := EncodeAll(f, Words(f, xs));
    var vals;
    vals, rest := DecodeAll(f, out + tail, maxCount);
    DecodingOfEncoded(f, out + tail, Words(f, xs), tail, maxCount);
    forall i | 0 <= i < |xs| ensures Number(vals[i]) == xs[i] { NumberOfBytes(xs[i], f.width); }
    ys := seq(|vals|, i requires 0 <= i < |vals| => Number(vals[i]));
  }
}
