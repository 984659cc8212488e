/** Every sequence of fbstring operations behaves as on plain values, whatever blocks are shared. */
module FBStringPrograms {
  import opened FBStringHeap
  import opened FBString

  datatype Op =
    | New(id: nat, data: seq<Byte>)
    | CopyOf(id: nat, src: nat)
    | MoveOf(id: nat, src: nat)
    | Delete(id: nat)
    | ShrinkBy(id: nat, delta: nat)
    | ReserveFor(id: nat, n: nat)
    | ExpandBy(id: nat, delta: nat)
    | Push(id: nat, x: Byte)
    | Put(id: nat, i: nat, x: Byte)
    | Append(id: nat, src: nat, off: nat, n: nat)
    | AppendChars(id: nat, text: seq<Byte>)
    | Terminate(id: nat)

  type Strings = map<nat, seq<Byte>>

  /** What the source asks of its callers. */
  ghost predicate Legal(v: Strings, op: Op) {
    match op
    case New(id, data) => id !in v
    case CopyOf(id, src) => id !in v && src in v
    case MoveOf(id, src) => id !in v && src in v
    case ShrinkBy(id, delta) => id in v && delta <= |v[id]|
    case Put(id, i, x) => id in v && i < |v[id]|
    case Append(id, src, off, n) => id in v && src in v && off + n <= |v[src]|
    case _ => op.id in v
  }

  /** What an operation may do to plain values: nothing to any string but its own, and to the source of a move. */
  ghost predicate Means(v: Strings, op: Op, v': Strings) {
    if !Legal(v, op) then v' == v else
      match op
      case New(id, data) => Becomes(v, v', id, data)
      case CopyOf(id, src) => Becomes(v, v', id, v[src])
      case MoveOf(id, src) => v' == v[id := v[src]] || v' == v[id := v[src]][src := []]
      case Delete(id) => v' == v - {id}
      case ShrinkBy(id, delta) => Becomes(v, v', id, v[id][..|v[id]| - delta])
      case ReserveFor(id, n) => v' == v
      case ExpandBy(id, delta) => id in v' && Becomes(v, v', id, v'[id]) && v[id] <= v'[id] && |v'[id]| == |v[id]| + delta
      case Push(id, x) => Becomes(v, v', id, v[id] + [x])
      case Put(id, i, x) => Becomes(v, v', id, Overwritten(v[id], i, [x]))
      case Append(id, src, off, n) => Becomes(v, v', id, v[id] + v[src][off..off + n])
      case AppendChars(id, text) => Becomes(v, v', id, v[id] + text)
      case Terminate(id) => v' == v
  }

  ghost predicate Explains(trace: seq<Strings>, ops: seq<Op>) {
    |trace| == |ops| + 1 && forall i :: 0 <= i < |ops| ==> Means(trace[i], ops[i], trace[i + 1])
  }

  predicate Permitted(h: StringHeap, op: Op)
    requires h.Valid()
    reads h
  {
    match op
    case New(id, data) => id !in h.cores
    case CopyOf(id, src) => id !in h.cores && src in h.cores
    case MoveOf(id, src) => id !in h.cores && src in h.cores
    case ShrinkBy(id, delta) => id in h.cores && delta <= h.Size(id)
    case Put(id, i, x) => id in h.cores && i < h.Size(id)
    case Append(id, src, off, n) => id in h.cores && src in h.cores && off + n <= h.Size(src)
    case _ => op.id in h.cores
  }

  lemma PermittedIsLegal(h: StringHeap, op: Op)
    requires h.Valid()
    ensures Permitted(h, op) <==> Legal(h.Contents(), op)
  {
    if op.id in h.cores { h.SizeIsLength(op.id); }
    if op.Append? && op.src in h.cores { h.SizeIsLength(op.src); }
  }

  method Make(h: StringHeap, op: Op)
    requires h.Valid() && Legal(h.Contents(), op) && (op.New? || op.CopyOf? || op.MoveOf? || op.Delete?)
    modifies h`cores, h`blocks, h`next
    ensures h.Valid() && Means(old(h.Contents()), op, h.Contents())
  {
    match op
    case New(id, data) => h.Create(id, data);
    case CopyOf(id, src) => h.Copy(id, src);
    case MoveOf(id, src) => DoMove(h, id, src);
    case Delete(id) => h.Destroy(id);
  }

  method DoMove(h: StringHeap, id: nat, src: nat)
    requires h.Valid() && id !in h.cores && src in h.cores
    modifies h`cores, h`blocks, h`next
    ensures h.Valid() && Means(old(h.Contents()), MoveOf(id, src), h.Contents())
  {
    ghost var v := h.Contents();
    ghost var small := h.cores[src].Small?;
    h.Move(id, src);
    if small { assert v[id := v[src]][src := v[src]] == v[id := v[src]]; }
  }

  method Resize(h: StringHeap, op: Op)
    requires h.Valid() && Legal(h.Contents(), op) && (op.ShrinkBy? || op.ReserveFor? || op.ExpandBy?)
    modifies h`cores, h`blocks, h`next
    ensures h.Valid() && Means(old(h.Contents()), op, h.Contents())
  {
    h.SizeIsLength(op.id);
    match op
    case ShrinkBy(id, delta) => h.Shrink(id, delta);
    case ReserveFor(id, n) => h.Reserve(id, n);
    case ExpandBy(id, delta) => h.ExpandNoInit(id, delta); h.SizeIsLength(id);
  }

  method Change(h: StringHeap, op: Op)
    requires h.Valid() && Legal(h.Contents(), op) && !op.New? && !op.CopyOf? && !op.MoveOf? && !op.Delete?
    modifies h`cores, h`blocks, h`next
    ensures h.Valid() && Means(old(h.Contents()), op, h.Contents())
  {
    h.SizeIsLength(op.id);
    match op
    case Push(id, x) => h.PushBack(id, x);
    case Put(id, i, x) => h.SetAt(id, i, x);
    case Append(id, src, off, n) => DoAppend(h, id, src, off, n);
    case AppendChars(id, text) => DoAppendChars(h, id, text);
    case Terminate(id) => h.CStr(id);
    case ShrinkBy(_, _) => Resize(h, op);
    case ReserveFor(_, _) => Resize(h, op);
    case ExpandBy(_, _) => Resize(h, op);
  }

  lemma AppendNothing(v: Strings, id: nat, src: nat, off: nat)
    requires Legal(v, Append(id, src, off, 0))
    ensures Means(v, Append(id, src, off, 0), v)
  {
    assert v[id] + v[src][off..off + 0] == v[id];
  }

  /** `append` looks at nothing when there is nothing to append. */
  method DoAppend(h: StringHeap, id: nat, src: nat, off: nat, n: nat)
    requires h.Valid() && Legal(h.Contents(), Append(id, src, off, n))
    modifies h`cores, h`blocks, h`next
    ensures h.Valid() && Means(old(h.Contents()), Append(id, src, off, n), h.Contents())
  {
    h.SizeIsLength(src);
    if n > 0 {
      h.AppendFrom(id, src, off, n);
    } else {
      AppendNothing(h.Contents(), id, src, off);
    }
  }

  method DoAppendChars(h: StringHeap, id: nat, text: seq<Byte>)
    requires h.Valid() && id in h.cores
    modifies h`cores, h`blocks, h`next
    ensures h.Valid() && Means(old(h.Contents()), AppendChars(id, text), h.Contents())
  {
    if text != [] {
      h.AppendText(id, text);
    } else {
      assert h.Contents()[id] + text == h.Contents()[id];
    }
  }

  // ---------------------------------------------------------------- reference counts over whole programs

  /** What is allocated: the string objects and the blocks. */
  datatype Memory = Memory(cores: Cores, blocks: Blocks)

  /** Every count is the number of sharers, who agree on everything; a medium block has one user, and no block has none. */
  ghost predicate CountsExact(m: Memory) {
    && (forall a :: a in m.blocks ==> Users(m.cores, a) != {} && |Users(m.cores, a)| == if m.blocks[a].refs == 0 then 1 else m.blocks[a].refs)
    && (forall i :: i in m.cores && m.cores[i].Big? ==> m.cores[i].data in m.blocks)
    && forall a, i, j :: i in Users(m.cores, a) && j in Users(m.cores, a) ==> m.cores[i] == m.cores[j]
  }

  /** The blocks freed between two moments are exactly those that lost their last user. */
  ghost predicate FreesAtLast(m: Memory, m': Memory) {
    forall a :: a in m.blocks ==> Users(m.cores, a) != {} && (a !in m'.blocks <==> Users(m'.cores, a) == {})
  }

  lemma CountsAreExact(m: Memory)
    requires HeapOK(m.cores, m.blocks)
    ensures CountsExact(m)
  {
    forall a | a in m.blocks ensures Users(m.cores, a) != {} && |Users(m.cores, a)| == if m.blocks[a].refs == 0 then 1 else m.blocks[a].refs {
      assert BlockOK(m.cores, m.blocks, a);
    }
    forall i | i in m.cores && m.cores[i].Big? ensures m.cores[i].data in m.blocks { assert CoreOK(m.blocks, m.cores[i]); }
  }

  lemma FreedAtLast(m: Memory, m': Memory)
    requires CountsExact(m) && CountsExact(m')
    ensures FreesAtLast(m, m')
  {
    forall a | a in m.blocks && a !in m'.blocks ensures Users(m'.cores, a) == {} {
      forall i ensures i !in Users(m'.cores, a) { }
    }
  }

  method ExecuteOne(h: StringHeap, op: Op)
    requires h.Valid()
    modifies h`cores, h`blocks, h`next
    ensures h.Valid() && Means(old(h.Contents()), op, h.Contents())
    ensures CountsExact(Memory(h.cores, h.blocks)) && FreesAtLast(old(Memory(h.cores, h.blocks)), Memory(h.cores, h.blocks))
  {
    ghost var m := Memory(h.cores, h.blocks);
    CountsAreExact(m);
    PermittedIsLegal(h, op);
    if Permitted(h, op) {
      if op.New? || op.CopyOf? || op.MoveOf? || op.Delete? { Make(h, op); } else { Change(h, op); }
    }
    CountsAreExact(Memory(h.cores, h.blocks));
    FreedAtLast(m, Memory(h.cores, h.blocks));
  }

  /** Every moment of a program has exact counts, and every step frees at the last user. */
  ghost predicate KeepsCounts(memory: seq<Memory>) {
    && (forall i :: 0 <= i < |memory| ==> CountsExact(memory[i]))
    && forall i :: 0 < i < |memory| ==> FreesAtLast(memory[i - 1], memory[i])
  }

  lemma KeepsCountsMore(memory: seq<Memory>, m: Memory)
    requires KeepsCounts(memory) && memory != [] && CountsExact(m) && FreesAtLast(memory[|memory| - 1], m)
    ensures KeepsCounts(memory + [m])
  {
  }

  lemma ExplainsMore(trace: seq<Strings>, ops: seq<Op>, op: Op, v: Strings)
    requires Explains(trace, ops) && Means(trace[|ops|], op, v)
    ensures Explains(trace + [v], ops + [op])
  {
  }

  /** Any sequence of operations on any number of strings; those a caller may not make are passed over. */
  method Execute(h: StringHeap, ops: seq<Op>) returns (ghost trace: seq<Strings>, ghost memory: seq<Memory>)
    requires h.Valid()
    modifies h`cores, h`blocks, h`next
    ensures h.Valid() && Explains(trace, ops) && trace[0] == old(h.Contents()) && trace[|ops|] == h.Contents()
    ensures |memory| == |ops| + 1 && memory[0] == old(Memory(h.cores, h.blocks)) && memory[|ops|] == Memory(h.cores, h.blocks)
    ensures KeepsCounts(memory)
  {
    trace, memory := [h.Contents()], [Memory(h.cores, h.blocks)];
    CountsAreExact(memory[0]);
    for i := 0 to |ops|
      invariant h.Valid() && Explains(trace, ops[..i]) && trace[0] == old(h.Contents()) && trace[i] == h.Contents()
      invariant |memory| == i + 1 && memory[0] == old(Memory(h.cores, h.blocks)) && memory[i] == Memory(h.cores, h.blocks)
      invariant KeepsCounts(memory)
    {
      ExecuteOne(h, ops[i]);
      ExplainsMore(trace, ops[..i], ops[i], h.Contents());
      KeepsCountsMore(memory, Memory(h.cores, h.blocks));
      assert ops[..i + 1] == ops[..i] + [ops[i]];
      trace, memory := trace + [h.Contents()], memory + [Memory(h.cores, h.blocks)];
    }
    assert ops[..|ops|] == ops;
  }
}
