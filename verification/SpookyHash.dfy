/**
 folly::hash::SpookyHashV1: hashing a message in one call and in fragments.

 The mixing steps are arbitrary functions: what is proved holds for every choice of them.
 */
module SpookyHash {
  import opened SpookyShort

  const NUM_VARS: nat := 12
  const BLOCK_SIZE: nat := 96
  const BUF_SIZE: nat := 192

  type Words = h: seq<Word> | |h| == 12 witness [0, 0, 0, 0, 0, 0, 0, 0, 0, 0, 0, 0]

  datatype Mixer = Mixer(mix: (seq<Byte>, Words) -> Words, end: Words -> Words, short: ShortMixer)

  // ---------------------------------------------------------------- long messages

  function Start(seed1: Word, seed2: Word): (r: Words) {
    [seed1, seed2, SC_CONST, seed1, seed2, SC_CONST, seed1, seed2, SC_CONST, seed1, seed2, SC_CONST]
  }

  /** Mix in whole blocks, as many as there are. */
  function MixBlocks(m: Mixer, h: Words, msg: seq<Byte>): (r: Words)
    decreases |msg|
  {
    if |msg| < BLOCK_SIZE then h else MixBlocks(m, m.mix(msg[..BLOCK_SIZE], h), msg[BLOCK_SIZE..])
  }

  /** The last partial block: zeros, and its length in the last byte. */
  function LastBlock(rest: seq<Byte>): (r: seq<Byte>)
    requires |rest| < BLOCK_SIZE
    ensures |r| == BLOCK_SIZE
  {
    rest + seq(BLOCK_SIZE - 1 - |rest|, _ => 0) + [|rest|]
  }

  /** What is hashed: whole blocks, the padded rest, and the final mixing. */
  function LongHash(m: Mixer, msg: seq<Byte>, seed1: Word, seed2: Word): (r: (Word, Word)) {
    var whole := |msg| - |msg| % BLOCK_SIZE;
    var h := m.end(m.mix(LastBlock(msg[whole..]), MixBlocks(m, Start(seed1, seed2), msg[..whole])));
    (h[0], h[1])
  }

  function HashSpec(m: Mixer, msg: seq<Byte>, seed1: Word, seed2: Word): (r: (Word, Word)) {
    if |msg| < BUF_SIZE then ShortHash(m.short, msg, seed1, seed2) else LongHash(m, msg, seed1, seed2)
  }

  lemma {:induction false} MixMore(m: Mixer, h: Words, a: seq<Byte>, b: seq<Byte>)
    requires |a| % BLOCK_SIZE == 0
    ensures MixBlocks(m, h, a + b) == MixBlocks(m, MixBlocks(m, h, a), b)
    decreases |a|
  {
    if a == [] {
      assert a + b == b;
    } else {
      assert (a + b)[..BLOCK_SIZE] == a[..BLOCK_SIZE] && (a + b)[BLOCK_SIZE..] == a[BLOCK_SIZE..] + b;
      MixMore(m, m.mix(a[..BLOCK_SIZE], h), a[BLOCK_SIZE..], b);
    }
  }

  lemma MixOne(m: Mixer, h: Words, block: seq<Byte>)
    requires |block| == BLOCK_SIZE
    ensures MixBlocks(m, h, block) == m.mix(block, h)
  {
    assert block[..BLOCK_SIZE] == block;
  }

  lemma MixNext(m: Mixer, h: Words, msg: seq<Byte>, from: nat, p: nat)
    requires from <= p && p + BLOCK_SIZE <= |msg| && (p - from) % BLOCK_SIZE == 0
    ensures MixBlocks(m, h, msg[from..p + BLOCK_SIZE]) == m.mix(msg[p..p + BLOCK_SIZE], MixBlocks(m, h, msg[from..p]))
  {
    assert msg[from..p] + msg[p..p + BLOCK_SIZE] == msg[from..p + BLOCK_SIZE];
    MixMore(m, h, msg[from..p], msg[p..p + BLOCK_SIZE]);
    MixOne(m, MixBlocks(m, h, msg[from..p]), msg[p..p + BLOCK_SIZE]);
  }

  /** Mix whole blocks of `msg` from `from` on; the loop of Hash128 and of Update. */
  method MixAll(m: Mixer, h0: Words, msg: seq<Byte>, from: nat, end: nat) returns (h: Words)
    requires from <= end <= |msg| && (end - from) % BLOCK_SIZE == 0
    ensures h == MixBlocks(m, h0, msg[from..end])
  {
    h := h0;
    var p := from;
    while p < end
      invariant from <= p <= end && (p - from) % BLOCK_SIZE == 0
      invariant h == MixBlocks(m, h0, msg[from..p])
    {
      MixNext(m, h0, msg, from, p);
      h := m.mix(msg[p..p + BLOCK_SIZE], h);
      p := p + BLOCK_SIZE;
    }
  }

  method Hash128(m: Mixer, msg: seq<Byte>, seed1: Word, seed2: Word) returns (hash1: Word, hash2: Word)
    ensures (hash1, hash2) == HashSpec(m, msg, seed1, seed2)
  {
    var length := |msg|;
    if length < BUF_SIZE {
      hash1, hash2 := Short(m.short, msg, seed1, seed2);
      return;
    }
    var end := length / BLOCK_SIZE * BLOCK_SIZE;
    var h := MixAll(m, Start(seed1, seed2), msg, 0, end);
    var remainder := length - end;
    var buf := msg[end..] + seq(BLOCK_SIZE - remainder, _ => 0);
    buf := buf[BLOCK_SIZE - 1 := remainder];
    assert buf == LastBlock(msg[end..]);
    assert msg[0..end] == msg[..end];
    h := m.mix(buf, h);
    h := m.end(h);
    hash1, hash2 := h[0], h[1];
  }

  /** Where the whole blocks from `from` on end. */
  function WholeBlocks(from: nat, length: nat): (end: nat)
    requires from <= length
    ensures from <= end <= length < end + BLOCK_SIZE && (end - from) % BLOCK_SIZE == 0
  {
    from + (length - from) / BLOCK_SIZE * BLOCK_SIZE
  }

  // ---------------------------------------------------------------- fragments

  lemma Joined(a: seq<Byte>, b: seq<Byte>, i: nat, j: nat)
    requires i <= |a| && j <= |b|
    ensures a[i..] + b[..j] == (a + b)[i..|a| + j]
  {
  }

  class SpookyHashV1 {
    const mixer: Mixer
    const data: array<Byte>
    const state: array<Word>
    var length: nat
    var remainder: nat
    ghost var seeds: (Word, Word)
    ghost var msg: seq<Byte>      // everything since Init

    ghost predicate Valid()
      reads this, data, state
    {
      && data.Length == BUF_SIZE && state.Length == NUM_VARS
      && length == |msg| && remainder < BUF_SIZE && remainder <= |msg| && data[..remainder] == msg[|msg| - remainder..]
      && if |msg| < BUF_SIZE then remainder == |msg| && state[0] == seeds.0 && state[1] == seeds.1
         else (|msg| - remainder) % BLOCK_SIZE == 0 && state[..] == MixBlocks(mixer, Start(seeds.0, seeds.1), msg[..|msg| - remainder])
    }

    constructor (mixer: Mixer)
      ensures fresh(data) && fresh(state) && data.Length == BUF_SIZE && state.Length == NUM_VARS && this.mixer == mixer
    {
      this.mixer := mixer;
      data, state := new Byte[BUF_SIZE], new Word[NUM_VARS];
      length, remainder, seeds, msg := 0, 0, (0, 0), [];
    }

    method Init(seed1: Word, seed2: Word)
      requires data.Length == BUF_SIZE && state.Length == NUM_VARS
      modifies this`length, this`remainder, this`seeds, this`msg, state
      ensures Valid() && msg == [] && seeds == (seed1, seed2)
    {
      length, remainder := 0, 0;
      state[0], state[1] := seed1, seed2;
      seeds, msg := (seed1, seed2), [];
    }

    /** `memcpy` of `bytes` into the buffer at `at`. */
    method Stash(at: nat, bytes: seq<Byte>)
      requires at + |bytes| <= data.Length
      modifies data
      ensures data[..at + |bytes|] == old(data[..at]) + bytes
    {
      forall i | 0 <= i < |bytes| { data[at + i] := bytes[i]; }
    }

    method Load() returns (h: Words)
      requires Valid()
      ensures h == MixBlocks(mixer, Start(seeds.0, seeds.1), msg[..|msg| - remainder])
    {
      if length < BUF_SIZE { h := Start(state[0], state[1]); } else { h := state[..]; }
    }

    method Save(h: Words)
      requires state.Length == NUM_VARS
      modifies state
      ensures state[..] == h
    {
      forall i | 0 <= i < NUM_VARS { state[i] := h[i]; }
    }

    method Update(message: seq<Byte>)
      requires Valid()
      modifies this`length, this`remainder, this`msg, data, state
      ensures Valid() && msg == old(msg) + message && seeds == old(seeds)
    {
      var newLength := |message| + remainder;
      if newLength < BUF_SIZE {
        Stash(remainder, message);
        assert (msg + message)[|msg| - remainder..] == msg[|msg| - remainder..] + message;
        assert (msg + message)[..|msg| - remainder] == msg[..|msg| - remainder];
        length, remainder, msg := length + |message|, newLength, msg + message;
        return;
      }
      UpdateLong(message);
    }

    /** Fill up the buffer. */
    method Fill(message: seq<Byte>)
      requires data.Length == BUF_SIZE && remainder < BUF_SIZE && remainder <= |msg| && data[..remainder] == msg[|msg| - remainder..]
      requires |message| + remainder >= BUF_SIZE
      modifies data
      ensures data[..] == (msg + message)[|msg| - remainder..|msg| - remainder + BUF_SIZE]
    {
      Joined(msg, message, |msg| - remainder, BUF_SIZE - remainder);
      Stash(remainder, message[..BUF_SIZE - remainder]);
      assert data[..] == data[..BUF_SIZE];
    }

    /** Start from the stored state, and if anything is stuffed away fill up the buffer and mix it. */
    method Resume(message: seq<Byte>) returns (h: Words, from: nat)
      requires Valid() && |message| + remainder >= BUF_SIZE
      modifies data
      ensures from <= |message| && (|msg| + from) % BLOCK_SIZE == 0
      ensures h == MixBlocks(mixer, Start(seeds.0, seeds.1), (msg + message)[..|msg| + from])
    {
      ghost var all, done := msg + message, |msg| - remainder;
      assert all[..done] == msg[..done];
      h := Load();
      from := 0;
      if remainder > 0 {
        from := BUF_SIZE - remainder;
        Fill(message);
        MixTwo(mixer, Start(seeds.0, seeds.1), all, done, data[..]);
        assert data[..][..BLOCK_SIZE] == data[..BLOCK_SIZE] && data[..][BLOCK_SIZE..] == data[BLOCK_SIZE..];
        h := mixer.mix(data[..BLOCK_SIZE], h);
        h := mixer.mix(data[BLOCK_SIZE..], h);
      }
    }

    /** Enough for at least one block: mix, and stash what is left. */
    method UpdateLong(message: seq<Byte>)
      requires Valid() && |message| + remainder >= BUF_SIZE
      modifies this`length, this`remainder, this`msg, data, state
      ensures Valid() && msg == old(msg) + message && seeds == old(seeds)
    {
      var h, from := Resume(message);
      var end := WholeBlocks(from, |message|);
      h := MixAll(mixer, h, message, from, end);
      MixMessage(mixer, Start(seeds.0, seeds.1), msg, message, from, end);
      PutAway(h, message, end);
    }

    /** Stuff away the last few bytes and the variables. */
    method PutAway(h: Words, message: seq<Byte>, end: nat)
      requires data.Length == BUF_SIZE && state.Length == NUM_VARS && length == |msg|
      requires end <= |message| < end + BLOCK_SIZE && (|msg| + end) % BLOCK_SIZE == 0 && |msg| + |message| >= BUF_SIZE
      requires h == MixBlocks(mixer, Start(seeds.0, seeds.1), (msg + message)[..|msg| + end])
      modifies this`length, this`remainder, this`msg, data, state
      ensures Valid() && msg == old(msg) + message
    {
      Stash(0, message[end..]);
      Save(h);
      assert (msg + message)[|msg| + end..] == message[end..];
      length, remainder, msg := length + |message|, |message| - end, msg + message;
    }

    /** The buffer can hold two blocks; mix a whole first one. */
    method MixWhole() returns (h: Words, at: nat)
      requires Valid() && length >= BUF_SIZE
      ensures at <= remainder < at + BLOCK_SIZE <= BUF_SIZE && remainder - at == |msg| % BLOCK_SIZE
      ensures h == MixBlocks(mixer, Start(seeds.0, seeds.1), msg[..|msg| - |msg| % BLOCK_SIZE])
    {
      h := Load();
      at := 0;
      if remainder >= BLOCK_SIZE {
        ghost var done := |msg| - remainder;
        assert data[..BLOCK_SIZE] == data[..remainder][..BLOCK_SIZE] == msg[done..done + BLOCK_SIZE];
        MixOn(mixer, Start(seeds.0, seeds.1), msg, done, done + BLOCK_SIZE, data[..BLOCK_SIZE]);
        MixOne(mixer, h, data[..BLOCK_SIZE]);
        h := mixer.mix(data[..BLOCK_SIZE], h);
        at := BLOCK_SIZE;
      }
    }

    /** Zeros after the last bytes, and their number at the end of the block. */
    method PadBlock(at: nat, rest: nat)
      requires rest < BLOCK_SIZE && at + BLOCK_SIZE <= data.Length
      modifies data
      ensures data[at..at + BLOCK_SIZE] == LastBlock(old(data[at..at + rest])) && data[..at + rest] == old(data[..at + rest])
    {
      forall i | at + rest <= i < at + BLOCK_SIZE { data[i] := 0; }
      data[at + BLOCK_SIZE - 1] := rest;
    }

    /** Report the hash of everything so far; the buffer past `remainder` is scratch. */
    method Final() returns (hash1: Word, hash2: Word)
      requires Valid()
      modifies data
      ensures Valid() && (hash1, hash2) == HashSpec(mixer, msg, seeds.0, seeds.1)
    {
      if length < BUF_SIZE {
        assert data[..length] == msg;
        hash1, hash2 := Short(mixer.short, data[..length], state[0], state[1]);
        return;
      }
      var h, at := MixWhole();
      assert data[at..remainder] == data[..remainder][at..] == msg[|msg| - |msg| % BLOCK_SIZE..];
      PadBlock(at, remainder - at);
      h := mixer.mix(data[at..at + BLOCK_SIZE], h);
      h := mixer.end(h);
      hash1, hash2 := h[0], h[1];
    }

    /** The hash so far, as one value. */
    method Report() returns (h: (Word, Word))
      requires Valid()
      modifies data
      ensures Valid() && h == HashSpec(mixer, msg, seeds.0, seeds.1)
    {
      var hash1, hash2 := Final();
      h := (hash1, hash2);
    }
  }

  /** Mixing goes on from `a` to `b`. */
  lemma MixOn(m: Mixer, h: Words, all: seq<Byte>, a: nat, b: nat, piece: seq<Byte>)
    requires a <= b <= |all| && a % BLOCK_SIZE == 0 && piece == all[a..b]
    ensures MixBlocks(m, h, all[..b]) == MixBlocks(m, MixBlocks(m, h, all[..a]), piece)
  {
    assert all[..b] == all[..a] + piece;
    MixMore(m, h, all[..a], piece);
  }

  lemma MixMessage(m: Mixer, h: Words, msg: seq<Byte>, message: seq<Byte>, from: nat, end: nat)
    requires from <= end <= |message| && (|msg| + from) % BLOCK_SIZE == 0
    ensures MixBlocks(m, h, (msg + message)[..|msg| + end]) == MixBlocks(m, MixBlocks(m, h, (msg + message)[..|msg| + from]), message[from..end])
  {
    assert message[from..end] == (msg + message)[|msg| + from..|msg| + end];
    MixOn(m, h, msg + message, |msg| + from, |msg| + end, message[from..end]);
  }

  lemma MixTwo(m: Mixer, h: Words, all: seq<Byte>, a: nat, buf: seq<Byte>)
    requires a + BUF_SIZE <= |all| && a % BLOCK_SIZE == 0 && buf == all[a..a + BUF_SIZE]
    ensures MixBlocks(m, h, all[..a + BUF_SIZE]) == m.mix(buf[BLOCK_SIZE..], m.mix(buf[..BLOCK_SIZE], MixBlocks(m, h, all[..a])))
  {
    MixOn(m, h, all, a, a + BUF_SIZE, buf);
    MixOne(m, m.mix(buf[..BLOCK_SIZE], MixBlocks(m, h, all[..a])), buf[BLOCK_SIZE..]);
  }

  function Concat(fragments: seq<seq<Byte>>): (r: seq<Byte>) {
    if fragments == [] then [] else Concat(fragments[..|fragments| - 1]) + fragments[|fragments| - 1]
  }

  /**
   Init, Update on each fragment and Final give what one call gives for the concatenation; asking
   for the hash after every fragment disturbs nothing.
   */
  method HashFragments(s: SpookyHashV1, fragments: seq<seq<Byte>>, seed1: Word, seed2: Word) returns (hashes: seq<(Word, Word)>)
    requires s.data.Length == BUF_SIZE && s.state.Length == NUM_VARS
    modifies s, s.data, s.state
    ensures |hashes| == |fragments| + 1
    ensures forall i :: 0 <= i <= |fragments| ==> hashes[i] == HashSpec(s.mixer, Concat(fragments[..i]), seed1, seed2)
  {
    s.Init(seed1, seed2);
    var h := s.Report();
    hashes := [h];
    for i := 0 to |fragments|
      invariant s.Valid() && s.seeds == (seed1, seed2) && s.msg == Concat(fragments[..i]) && |hashes| == i + 1
      invariant forall j :: 0 <= j <= i ==> hashes[j] == HashSpec(s.mixer, Concat(fragments[..j]), seed1, seed2)
    {
      s.Update(fragments[i]);
      assert fragments[..i + 1][..i] == fragments[..i];
      h := s.Report();
      hashes := hashes + [h];
    }
  }
}
