/**
 folly::hash::SpookyHashV1::Short, the hash of messages under 192 bytes. The mixing steps
 are arbitrary functions.
 */
module SpookyShort {
  import M = Modular

  type Byte = x: int | 0 <= x < 256
  type Word = x: int | 0 <= x < 0x1_0000_0000_0000_0000

  const SC_CONST: Word := 0xdeadbeefdeadbeef

  datatype Four = Four(a: Word, b: Word, c: Word, d: Word)

  /** `add` is the addition of the eight bytes of a word. */
  datatype ShortMixer = ShortMixer(add: (Word, seq<Byte>) -> Word, mix: Four -> Four, end: Four -> Four)

  function Add(x: Word, y: nat): (r: Word) { (x + y) % 0x1_0000_0000_0000_0000 }

  /** A byte shifted left by a power of two. */
  function Shl(x: Byte, p: nat): (r: nat) { (x as int) * p }

  // ---------------------------------------------------------------- short messages

  /** A little-endian number. */
  function LE(b: seq<Byte>): (r: nat) {
    if b == [] then 0 else b[0] + 256 * LE(b[1..])
  }

  /** Two words at `p` to `c` and `d`, then mix. */
  function ShortHalf(m: ShortMixer, f: Four, msg: seq<Byte>, p: nat): (r: Four)
    requires p + 16 <= |msg|
  {
    m.mix(f.(c := m.add(f.c, msg[p..p + 8]), d := m.add(f.d, msg[p + 8..p + 16])))
  }

  /** Two more words to `a` and `b`. */
  function ShortNext(m: ShortMixer, f: Four, msg: seq<Byte>, p: nat): (r: Four)
    requires p + 32 <= |msg|
  {
    var g := ShortHalf(m, f, msg, p);
    g.(a := m.add(g.a, msg[p + 16..p + 24]), b := m.add(g.b, msg[p + 24..p + 32]))
  }

  /** The whole 32-byte groups from `p` on, then 16 more bytes if there are as many. */
  function ShortBody(m: ShortMixer, f: Four, msg: seq<Byte>, p: nat): (r: Four)
    requires p <= |msg|
    decreases |msg| - p
  {
    if p + 32 <= |msg| then ShortBody(m, ShortNext(m, f, msg, p), msg, p + 32)
    else if p + 16 <= |msg| then ShortHalf(m, f, msg, p)
    else f
  }

  /** The last 0 to 15 bytes with the length of the whole message: low eight bytes to `c`, the others to `d`. */
  function ShortTail(f: Four, tail: seq<Byte>, length: nat): (r: Four)
    requires |tail| < 16
  {
    var top := Add(0, (length % 256) * 0x100_0000_0000_0000);
    if tail == [] then f.(c := Add(f.c, SC_CONST), d := Add(top, SC_CONST))
    else if |tail| <= 8 then f.(c := Add(f.c, LE(tail)), d := top)
    else f.(c := Add(f.c, LE(tail[..8])), d := Add(top, LE(tail[8..])))
  }

  function ShortStart(seed1: Word, seed2: Word): (r: Four) { Four(seed1, seed2, SC_CONST, SC_CONST) }

  function ShortHash(m: ShortMixer, msg: seq<Byte>, seed1: Word, seed2: Word): (r: (Word, Word)) {
    var f := ShortBody(m, ShortStart(seed1, seed2), msg, 0);
    var g := m.end(ShortTail(f, msg[|msg| - |msg| % 16..], |msg|));
    (g.a, g.b)
  }

  lemma AddAdd(x: Word, y: nat, z: nat)
    ensures Add(Add(x, y), z) == Add(x, y + z)
  {
  }

  /** All complete sets of 32 bytes. */
  method ShortGroups(m: ShortMixer, f0: Four, msg: seq<Byte>) returns (f: Four, p: nat)
    ensures p <= |msg| < p + 32 && p % 32 == 0 && ShortBody(m, f, msg, p) == ShortBody(m, f0, msg, 0)
  {
    f, p := f0, 0;
    var end := |msg| / 32 * 32;
    while p < end
      invariant 0 <= p <= end && p % 32 == 0
      invariant ShortBody(m, f, msg, p) == ShortBody(m, f0, msg, 0)
    {
      f := ShortNext(m, f, msg, p);
      p := p + 32;
    }
  }

  /** Behind the groups of 32, at most one half group of 16 is whole. */
  lemma HalfGroup(n: nat, p: nat)
    requires p <= n < p + 32 && p % 32 == 0
    ensures n - n % 16 == if n - p >= 16 then p + 16 else p
  {
    var q := p / 32;
    if n - p >= 16 { M.MulDiv(2 * q + 1, 16, n - p - 16); } else { M.MulDiv(2 * q, 16, n - p); }
  }

  /** Everything but the last 0 to 15 bytes. */
  method Body(m: ShortMixer, f0: Four, msg: seq<Byte>) returns (f: Four, p: nat)
    ensures p == |msg| - |msg| % 16 && f == ShortBody(m, f0, msg, 0)
  {
    f, p := f0, 0;
    if |msg| > 15 {
      f, p := ShortGroups(m, f, msg);
      HalfGroup(|msg|, p);
      if |msg| - p >= 16 {
        f, p := ShortHalf(m, f, msg, p), p + 16;
      }
    }
  }

  method Short(m: ShortMixer, msg: seq<Byte>, seed1: Word, seed2: Word) returns (hash1: Word, hash2: Word)
    ensures (hash1, hash2) == ShortHash(m, msg, seed1, seed2)
  {
    var f, p := Body(m, ShortStart(seed1, seed2), msg);
    f := Last(f, msg[p..], |msg|);
    f := m.end(f);
    hash1, hash2 := f.a, f.b;
  }

  /** The switch on the number of bytes left. */
  method Last(f: Four, tail: seq<Byte>, length: nat) returns (g: Four)
    requires |tail| < 16
    ensures g == ShortTail(f, tail, length)
  {
    var c, d := f.c, Add(0, (length % 256) * 0x100_0000_0000_0000);
    var n := |tail|;
    if n >= 12 {
      d := Upper(d, tail[8..]);
      c := Add(c, LE(tail[..8]));
    } else if n >= 8 {
      if n > 8 { d := Few(d, tail[8..]); }
      c := Add(c, LE(tail[..8]));
      assert n == 8 ==> tail[..8] == tail;
    } else if n >= 4 {
      c := Upper(c, tail);
    } else if n >= 1 {
      c := Few(c, tail);
    } else {
      c, d := Add(c, SC_CONST), Add(d, SC_CONST);
    }
    g := f.(c := c, d := d);
  }

  /** Cases 11 to 9, and 3 to 1: byte by byte, the last one first. */
  method Few(x: Word, b: seq<Byte>) returns (r: Word)
    requires 1 <= |b| <= 3
    ensures r == Add(x, LE(b))
  {
    SumTo3(b);
    r := x;
    ghost var sum := 0;
    if |b| >= 3 { r, sum := Add(r, Shl(b[2], 0x1_0000)), Shl(b[2], 0x1_0000); }
    if |b| >= 2 { AddAdd(x, sum, Shl(b[1], 0x100)); r, sum := Add(r, Shl(b[1], 0x100)), sum + Shl(b[1], 0x100); }
    AddAdd(x, sum, b[0]);
    r := Add(r, b[0]);
  }

  /** Cases 15 to 12, and 7 to 4: up to three bytes, then the 32-bit word before them. */
  method Upper(x: Word, b: seq<Byte>) returns (r: Word)
    requires 4 <= |b| <= 7
    ensures r == Add(x, LE(b))
  {
    Split4(b);
    SumTo3(b[4..]);
    r := x;
    ghost var sum := 0;
    if |b| >= 7 { r, sum := Add(r, Shl(b[6], 0x1_0000_0000_0000)), Shl(b[6], 0x1_0000_0000_0000); }
    if |b| >= 6 { AddAdd(x, sum, Shl(b[5], 0x100_0000_0000)); r, sum := Add(r, Shl(b[5], 0x100_0000_0000)), sum + Shl(b[5], 0x100_0000_0000); }
    if |b| >= 5 { AddAdd(x, sum, Shl(b[4], 0x1_0000_0000)); r, sum := Add(r, Shl(b[4], 0x1_0000_0000)), sum + Shl(b[4], 0x1_0000_0000); }
    AddAdd(x, sum, LE(b[..4]));
    r := Add(r, LE(b[..4]));
  }

  lemma SumTo3(b: seq<Byte>)
    requires |b| <= 3
    ensures LE(b) == (if |b| >= 3 then Shl(b[2], 0x1_0000) else 0) + (if |b| >= 2 then Shl(b[1], 0x100) else 0) + (if |b| >= 1 then b[0] else 0)
  {
    if |b| >= 1 { assert LE(b) == b[0] + 256 * LE(b[1..]); }
    if |b| >= 2 { assert LE(b[1..]) == b[1] + 256 * LE(b[1..][1..]); }
    if |b| >= 3 { assert LE(b[1..][1..]) == b[2] + 256 * LE(b[1..][1..][1..]); }
  }

  lemma Split2(b: seq<Byte>)
    requires |b| >= 2
    ensures LE(b) == b[0] + 0x100 * b[1] + 0x1_0000 * LE(b[2..])
  {
    assert b[1..][1..] == b[2..];
    assert LE(b[1..]) == b[1] + 256 * LE(b[1..][1..]);
  }

  /** Split a little-endian number after its first four bytes. */
  lemma Split4(b: seq<Byte>)
    requires |b| >= 4
    ensures LE(b) == LE(b[..4]) + 0x1_0000_0000 * LE(b[4..])
  {
    Split2(b);
    Split2(b[2..]);
    assert b[2..][2..] == b[4..];
    Split2(b[..4]);
    Split2(b[..4][2..]);
    assert b[..4][2..][2..] == [];
  }
}
