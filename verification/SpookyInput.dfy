/**
 What SpookyHashV1 feeds to its mixing functions: each word or block of the message once and in
 order, and with the padding enough to tell the message.
 */
module SpookyInput {
  import M = Modular
  import opened SpookyShort
  import opened SpookyHash

  // ---------------------------------------------------------------- long messages

  /** The padding loses nothing. */
  lemma LastBlockTellsRest(a: seq<Byte>, b: seq<Byte>)
    requires |a| < BLOCK_SIZE && |b| < BLOCK_SIZE && LastBlock(a) == LastBlock(b)
    ensures a == b
  {
    assert LastBlock(a)[BLOCK_SIZE - 1] == |a| && LastBlock(b)[BLOCK_SIZE - 1] == |b|;
    assert LastBlock(a)[..|a|] == a && LastBlock(b)[..|b|] == b;
  }

  /** Block number `i`: 96 bytes of the message, or the padded rest. */
  function Block(msg: seq<Byte>, i: nat): (r: seq<Byte>)
    requires i <= |msg| / BLOCK_SIZE
    ensures |r| == BLOCK_SIZE
  {
    if i < |msg| / BLOCK_SIZE then msg[BLOCK_SIZE * i..BLOCK_SIZE * (i + 1)] else LastBlock(msg[BLOCK_SIZE * i..])
  }

  function Blocks(msg: seq<Byte>): (r: seq<seq<Byte>>) {
    seq(|msg| / BLOCK_SIZE + 1, i requires 0 <= i <= |msg| / BLOCK_SIZE => Block(msg, i))
  }

  function MixEach(m: Mixer, h: Words, blocks: seq<seq<Byte>>): (r: Words) {
    if blocks == [] then h else m.mix(blocks[|blocks| - 1], MixEach(m, h, blocks[..|blocks| - 1]))
  }

  lemma {:induction false} WholeBlocksMixed(m: Mixer, h: Words, msg: seq<Byte>, n: nat)
    requires n <= |msg| / BLOCK_SIZE
    ensures MixBlocks(m, h, msg[..BLOCK_SIZE * n]) == MixEach(m, h, Blocks(msg)[..n])
  {
    if n > 0 {
      WholeBlocksMixed(m, h, msg, n - 1);
      MixNext(m, h, msg, 0, BLOCK_SIZE * (n - 1));
      assert msg[0..BLOCK_SIZE * n] == msg[..BLOCK_SIZE * n] && msg[0..BLOCK_SIZE * (n - 1)] == msg[..BLOCK_SIZE * (n - 1)];
      assert Blocks(msg)[..n][..n - 1] == Blocks(msg)[..n - 1] && Blocks(msg)[..n][n - 1] == Block(msg, n - 1);
    }
  }

  /** A message of 192 bytes or more is hashed by mixing its blocks, the padded one last, into the seeded state. */
  lemma LongHashMixesBlocks(m: Mixer, msg: seq<Byte>, seed1: Word, seed2: Word)
    requires |msg| >= 192
    ensures HashSpec(m, msg, seed1, seed2) == var h := m.end(MixEach(m, Start(seed1, seed2), Blocks(msg))); (h[0], h[1])
  {
    var n := |msg| / BLOCK_SIZE;
    WholeBlocksMixed(m, Start(seed1, seed2), msg, n);
    assert |msg| - |msg| % BLOCK_SIZE == BLOCK_SIZE * n;
    assert Blocks(msg)[n] == Block(msg, n) == LastBlock(msg[BLOCK_SIZE * n..]);
  }

  /** The blocks that are mixed tell the message, its length included. */
  lemma BlocksTellMessage(a: seq<Byte>, b: seq<Byte>)
    requires Blocks(a) == Blocks(b)
    ensures a == b
  {
    var n := |a| / BLOCK_SIZE;
    assert |Blocks(a)| == n + 1 && |Blocks(b)| == |b| / BLOCK_SIZE + 1;
    assert Blocks(a)[n] == Block(a, n) && Blocks(b)[n] == Block(b, n);
    LastBlockTellsRest(a[BLOCK_SIZE * n..], b[BLOCK_SIZE * n..]);
    forall j | 0 <= j < BLOCK_SIZE * n ensures a[j] == b[j] {
      var i := j / BLOCK_SIZE;
      assert Blocks(a)[i] == Block(a, i) && Blocks(b)[i] == Block(b, i);
      assert Block(a, i)[j - BLOCK_SIZE * i] == a[j] && Block(b, i)[j - BLOCK_SIZE * i] == b[j];
    }
    assert a == a[..BLOCK_SIZE * n] + a[BLOCK_SIZE * n..];
    assert b == b[..BLOCK_SIZE * n] + b[BLOCK_SIZE * n..];
  }

  // ---------------------------------------------------------------- short messages

  /** Eight bytes are word `i` of the message: in turn to `c`, to `d` and mix, to `a`, to `b`. */
  function Feed(m: ShortMixer, f: Four, i: nat, word: seq<Byte>): (r: Four) {
    if i % 4 == 0 then f.(c := m.add(f.c, word))
    else if i % 4 == 1 then m.mix(f.(d := m.add(f.d, word)))
    else if i % 4 == 2 then f.(a := m.add(f.a, word))
    else f.(b := m.add(f.b, word))
  }

  /** The first `n` words, one after the other. */
  function FeedWords(m: ShortMixer, f: Four, msg: seq<Byte>, n: nat): (r: Four)
    requires 8 * n <= |msg|
  {
    if n == 0 then f else Feed(m, FeedWords(m, f, msg, n - 1), n - 1, msg[8 * (n - 1)..8 * n])
  }

  /** One word more. */
  lemma FeedOne(m: ShortMixer, f: Four, msg: seq<Byte>, n: nat, turn: nat)
    requires 8 * n + 8 <= |msg| && n % 4 == turn
    ensures FeedWords(m, f, msg, n + 1) == Feed(m, FeedWords(m, f, msg, n), turn, msg[8 * n..8 * n + 8])
  {
  }

  lemma Turns(q: nat)
    ensures (4 * q) % 4 == 0 && (4 * q + 1) % 4 == 1 && (4 * q + 2) % 4 == 2 && (4 * q + 3) % 4 == 3
  {
  }

  lemma FeedHalf(m: ShortMixer, f: Four, msg: seq<Byte>, q: nat)
    requires 32 * q + 16 <= |msg|
    ensures FeedWords(m, f, msg, 4 * q + 2) == ShortHalf(m, FeedWords(m, f, msg, 4 * q), msg, 32 * q)
  {
    Turns(q);
    FeedOne(m, f, msg, 4 * q, 0);
    FeedOne(m, f, msg, 4 * q + 1, 1);
  }

  lemma FeedNext(m: ShortMixer, f: Four, msg: seq<Byte>, q: nat)
    requires 32 * q + 32 <= |msg|
    ensures FeedWords(m, f, msg, 4 * q + 4) == ShortNext(m, FeedWords(m, f, msg, 4 * q), msg, 32 * q)
  {
    FeedHalf(m, f, msg, q);
    Turns(q);
    FeedOne(m, f, msg, 4 * q + 2, 2);
    FeedOne(m, f, msg, 4 * q + 3, 3);
  }

  /** At most one half group is left. */
  lemma BodyEnds(m: ShortMixer, f: Four, msg: seq<Byte>, q: nat)
    requires 32 * q <= |msg| < 32 * q + 32
    ensures ShortBody(m, FeedWords(m, f, msg, 4 * q), msg, 32 * q) == FeedWords(m, f, msg, |msg| / 16 * 2)
  {
    if 32 * q + 16 <= |msg| {
      FeedHalf(m, f, msg, q);
      M.MulDiv(2 * q + 1, 16, |msg| - 32 * q - 16);
    } else {
      M.MulDiv(2 * q, 16, |msg| - 32 * q);
    }
  }

  lemma BodyGoesOn(m: ShortMixer, f: Four, msg: seq<Byte>, p: nat)
    requires p + 32 <= |msg|
    ensures ShortBody(m, f, msg, p) == ShortBody(m, ShortNext(m, f, msg, p), msg, p + 32)
  {
  }

  lemma {:induction false} BodyFeedsFrom(m: ShortMixer, f: Four, msg: seq<Byte>, q: nat)
    requires 32 * q <= |msg|
    ensures ShortBody(m, FeedWords(m, f, msg, 4 * q), msg, 32 * q) == FeedWords(m, f, msg, |msg| / 16 * 2)
    decreases |msg| - 32 * q
  {
    if 32 * q + 32 <= |msg| {
      BodyGoesOn(m, FeedWords(m, f, msg, 4 * q), msg, 32 * q);
      FeedNext(m, f, msg, q);
      BodyFeedsFrom(m, f, msg, q + 1);
    } else {
      BodyEnds(m, f, msg, q);
    }
  }

  /** A message under 192 bytes is hashed by feeding its words one by one into the seeded state, then the rest with the length. */
  lemma ShortHashFeedsWords(m: Mixer, msg: seq<Byte>, seed1: Word, seed2: Word)
    requires |msg| < 192
    ensures HashSpec(m, msg, seed1, seed2) ==
      var f := FeedWords(m.short, ShortStart(seed1, seed2), msg, |msg| / 16 * 2);
      var g := m.short.end(ShortTail(f, Rest(msg), |msg|));
      (g.a, g.b)
  {
    BodyFeedsFrom(m.short, ShortStart(seed1, seed2), msg, 0);
  }

  // ---------------------------------------------------------------- the rest of a short message

  function Pow256(n: nat): (r: nat)
    ensures r > 0
  {
    if n == 0 then 1 else 256 * Pow256(n - 1)
  }

  lemma {:induction false} LEBounded(b: seq<Byte>)
    ensures LE(b) < Pow256(|b|)
  {
    if b != [] { LEBounded(b[1..]); }
  }

  /** Bytes are told by their little-endian number and how many they are. */
  lemma {:induction false} LETellsBytes(a: seq<Byte>, b: seq<Byte>)
    requires |a| == |b| && LE(a) == LE(b)
    ensures a == b
  {
    if a != [] {
      assert a[0] == b[0] && LE(a[1..]) == LE(b[1..]);
      LETellsBytes(a[1..], b[1..]);
      assert a == [a[0]] + a[1..] && b == [b[0]] + b[1..];
    }
  }

  lemma Powers()
    ensures Pow256(6) == 0x1_0000_0000_0000 && Pow256(7) == 0x100_0000_0000_0000 && Pow256(8) == 0x1_0000_0000_0000_0000
  {
    assert Pow256(2) == 0x1_0000 && Pow256(4) == 0x1_0000_0000;
    assert Pow256(6) == 0x1_0000_0000_0000;
  }

  lemma {:induction false} PowersGrow(i: nat, j: nat)
    requires i <= j
    ensures Pow256(i) <= Pow256(j)
    decreases j
  {
    if i < j { PowersGrow(i, j - 1); }
  }

  lemma LEBelow(b: seq<Byte>, n: nat)
    requires |b| <= n
    ensures LE(b) < Pow256(n)
  {
    LEBounded(b);
    PowersGrow(|b|, n);
  }

  lemma AddTells(x: Word, y: nat, z: nat)
    requires Add(x, y) == Add(x, z) && y < 0x1_0000_0000_0000_0000 && z < 0x1_0000_0000_0000_0000
    ensures y == z
  {
  }

  /** What goes to `c` and, besides the length, to `d`. */
  function Low(tail: seq<Byte>): (r: nat) { if tail == [] then SC_CONST else if |tail| <= 8 then LE(tail) else LE(tail[..8]) }

  function High(tail: seq<Byte>): (r: nat) { if |tail| <= 8 then 0 else LE(tail[8..]) }

  lemma TopByte(k: nat, x: nat)
    requires k < 256 && x < 0x100_0000_0000_0000
    ensures Add(Add(0, k * 0x100_0000_0000_0000), x) == k * 0x100_0000_0000_0000 + x
  {
  }

  lemma TopByteOfConst(k: nat)
    requires k < 256
    ensures Add(Add(0, k * 0x100_0000_0000_0000), SC_CONST) == ((k + 0xde) % 256) * 0x100_0000_0000_0000 + 0xadbeefdeadbeef
  {
    TopByte(k, 0);
    var y := if k + 0xde < 256 then k + 0xde else k + 0xde - 256;
    assert y == (k + 0xde) % 256;
  }

  lemma LowAndHighFit(tail: seq<Byte>)
    requires |tail| < 16
    ensures Low(tail) < 0x1_0000_0000_0000_0000 && High(tail) < 0x100_0000_0000_0000
    ensures |tail| <= 14 ==> High(tail) < 0x1_0000_0000_0000
  {
    Powers();
    if |tail| <= 8 { LEBelow(tail, 8); } else {
      LEBelow(tail[..8], 8);
      LEBelow(tail[8..], 7);
      if |tail| <= 14 { LEBelow(tail[8..], 6); }
    }
  }

  lemma TailWords(f: Four, tail: seq<Byte>, length: nat)
    requires 0 < |tail| < 16
    ensures var g := ShortTail(f, tail, length);
      g.c == Add(f.c, Low(tail)) && g.d == (length % 256) * 0x100_0000_0000_0000 + High(tail)
  {
    LowAndHighFit(tail);
    TopByte(length % 256, 0);
    TopByte(length % 256, High(tail));
  }

  lemma NoTailWords(f: Four, length: nat)
    ensures var g := ShortTail(f, [], length);
      g.c == Add(f.c, SC_CONST) && g.d == ((length % 256 + 0xde) % 256) * 0x100_0000_0000_0000 + 0xadbeefdeadbeef
  {
    TopByteOfConst(length % 256);
  }

  /** A number is told by its parts above and below bit 56. */
  lemma PartsTold(x: nat, y: nat, u: nat, v: nat)
    requires x * 0x100_0000_0000_0000 + u == y * 0x100_0000_0000_0000 + v && u < 0x100_0000_0000_0000 && v < 0x100_0000_0000_0000
    ensures x == y && u == v
  {
  }

  lemma SixteenthOfByte(n: nat)
    ensures (n % 256) % 16 == n % 16
  {
    var q, a := n / 256, (n % 256) / 16;
    M.MulDiv(16 * q + a, 16, (n % 256) % 16);
  }

  lemma ConstShifts(n: nat)
    requires n % 16 == 0
    ensures ((n % 256 + 0xde) % 256) % 16 == 14
  {
    SixteenthOfByte(n);
    SixteenthOfByte(n % 256 + 0xde);
    M.MulDiv((n % 256) / 16 + 13, 16, 14);
  }

  /** The top byte of `sc_const` moves the length to another remainder modulo 16, so an empty rest looks like no other. */
  lemma EmptyRestIsTold(f: Four, tail: seq<Byte>, length: nat, other: nat)
    requires 0 < |tail| == length % 16 && other % 16 == 0
    ensures ShortTail(f, tail, length).d != ShortTail(f, [], other).d
  {
    TailWords(f, tail, length);
    NoTailWords(f, other);
    LowAndHighFit(tail);
    SixteenthOfByte(length);
    ConstShifts(other);
    if ShortTail(f, tail, length).d == ShortTail(f, [], other).d {
      PartsTold(length % 256, (other % 256 + 0xde) % 256, High(tail), 0xadbeefdeadbeef);
    }
  }

  lemma SameTail(a: seq<Byte>, b: seq<Byte>)
    requires 0 < |a| == |b| < 16 && Low(a) == Low(b) && High(a) == High(b)
    ensures a == b
  {
    if |a| <= 8 { LETellsBytes(a, b); } else {
      LETellsBytes(a[..8], b[..8]);
      LETellsBytes(a[8..], b[8..]);
      assert a == a[..8] + a[8..] && b == b[..8] + b[8..];
    }
  }

  lemma RestsTold(f: Four, a: seq<Byte>, m: nat, b: seq<Byte>, n: nat)
    requires 0 < |a| == m % 16 && 0 < |b| == n % 16 && ShortTail(f, a, m) == ShortTail(f, b, n)
    ensures a == b && m % 256 == n % 256
  {
    TailWords(f, a, m);
    TailWords(f, b, n);
    LowAndHighFit(a);
    LowAndHighFit(b);
    AddTells(f.c, Low(a), Low(b));
    PartsTold(m % 256, n % 256, High(a), High(b));
    SixteenthOfByte(m);
    SixteenthOfByte(n);
    SameTail(a, b);
  }

  lemma NoRestsTold(f: Four, m: nat, n: nat)
    requires ShortTail(f, [], m) == ShortTail(f, [], n)
    ensures m % 256 == n % 256
  {
    NoTailWords(f, m);
    NoTailWords(f, n);
    PartsTold((m % 256 + 0xde) % 256, (n % 256 + 0xde) % 256, 0xadbeefdeadbeef, 0xadbeefdeadbeef);
    ShiftTold(m % 256, n % 256);
  }

  lemma ShiftTold(x: nat, y: nat)
    requires x < 256 && y < 256 && (x + 0xde) % 256 == (y + 0xde) % 256
    ensures x == y
  {
  }

  /** The last two words tell the rest of the message and the length modulo 256. */
  lemma TailTellsRest(f: Four, a: seq<Byte>, m: nat, b: seq<Byte>, n: nat)
    requires |a| == m % 16 && |b| == n % 16 && ShortTail(f, a, m) == ShortTail(f, b, n)
    ensures a == b && m % 256 == n % 256
  {
    if a != [] && b != [] { RestsTold(f, a, m, b, n); }
    else if a != [] { EmptyRestIsTold(f, a, m, n); }
    else if b != [] { EmptyRestIsTold(f, b, n, m); }
    else { NoRestsTold(f, m, n); }
  }

  lemma ShortLengthTold(m: nat, n: nat)
    requires m < BUF_SIZE && n < BUF_SIZE && m % 256 == n % 256
    ensures m == n
  {
  }

  /** The words that are fed. */
  function WordsOf(msg: seq<Byte>): (r: seq<seq<Byte>>) {
    seq(|msg| / 16 * 2, i requires 0 <= i < |msg| / 16 * 2 => msg[8 * i..8 * i + 8])
  }

  lemma WordTellsByte(a: seq<Byte>, b: seq<Byte>, i: nat, k: nat)
    requires |a| == |b| && WordsOf(a) == WordsOf(b) && i < |a| / 16 * 2 && k < 8
    ensures a[8 * i + k] == b[8 * i + k]
  {
    assert WordsOf(a)[i][k] == a[8 * i + k] && WordsOf(b)[i][k] == b[8 * i + k];
  }

  lemma WordsTellBytes(a: seq<Byte>, b: seq<Byte>)
    requires |a| == |b| && WordsOf(a) == WordsOf(b)
    ensures a[..|a| - |a| % 16] == b[..|b| - |b| % 16]
  {
    forall j | 0 <= j < |a| - |a| % 16 ensures a[j] == b[j] { WordTellsByte(a, b, j / 8, j % 8); }
  }

  /** The last 0 to 15 bytes. */
  function Rest(msg: seq<Byte>): (r: seq<Byte>)
    ensures |r| == |msg| % 16
  {
    msg[|msg| - |msg| % 16..]
  }

  lemma WordsAndRestTellMessage(a: seq<Byte>, b: seq<Byte>)
    requires |a| == |b| && WordsOf(a) == WordsOf(b) && Rest(a) == Rest(b)
    ensures a == b
  {
    WordsTellBytes(a, b);
    var n := |a| - |a| % 16;
    assert a == a[..n] + Rest(a) && b == b[..n] + Rest(b);
  }

  /** For messages that Short is used for, the words and the padded rest tell the message, its length included. */
  lemma ShortInputTellsMessage(f: Four, a: seq<Byte>, b: seq<Byte>)
    requires |a| < BUF_SIZE && |b| < BUF_SIZE && WordsOf(a) == WordsOf(b) && ShortTail(f, Rest(a), |a|) == ShortTail(f, Rest(b), |b|)
    ensures a == b
  {
    TailTellsRest(f, Rest(a), |a|, Rest(b), |b|);
    ShortLengthTold(|a|, |b|);
    WordsAndRestTellMessage(a, b);
  }

  // ---------------------------------------------------------------- seeds

  /** The first seed is every third variable from the first on, the second seed every third from the second on. */
  lemma SeedsHaveTheirPlaces(seed1: Word, seed2: Word, i: nat)
    requires i < NUM_VARS
    ensures Start(seed1, seed2)[i] == [seed1, seed2, SC_CONST][i % 3]
    ensures ShortStart(seed1, seed2).a == seed1 && ShortStart(seed1, seed2).b == seed2
  {
  }
}
