/** The invariant of IndexedMemPool is kept by every step. */
module IndexedMemPoolProof {
  import opened IndexedMemPool

  lemma InitInv(s: State)
    requires Init(s)
    ensures Inv(s)
  {
  }

  // ---------------------------------------------------------------- tagged pointers

  lemma TagMath(p: TaggedPtr, idx: nat)
    ensures Tag(WithIdx(p, idx)) == Tag(p) + 1 && Size(WithIdx(p, idx)) == Size(p)
    ensures Tag(WithEmpty(p)) == Tag(p) + 1 && Size(WithEmpty(p)) == 0 && WithEmpty(p).idx == 0
    ensures Size(p) < 255 ==> var q := WithSizeIncr(WithIdx(p, idx)); Tag(q) == Tag(p) + 1 && Size(q) == Size(p) + 1 && q.idx == idx
    ensures Size(p) > 0 ==> var q := WithSizeDecr(WithIdx(p, idx)); Tag(q) == Tag(p) + 1 && Size(q) == Size(p) - 1 && q.idx == idx
  {
    SizeMath(p, idx, 0);
  }

  lemma SizeMath(p: TaggedPtr, idx: nat, size: nat)
    requires size <= 255
    ensures var q := WithSize(WithIdx(p, idx), size); Tag(q) == Tag(p) + 1 && Size(q) == size && q.idx == idx
  {
  }

  // ---------------------------------------------------------------- what the steps share

  ghost predicate SameMemory(s: State, s': State) {
    && s'.limit == s.limit && s'.cap == s.cap && s'.heads == s.heads && s'.ghead == s.ghead
    && s'.localNext == s.localNext && s'.globalNext == s.globalNext && s'.size == s.size
  }

  ghost predicate SameThreads(s: State, s': State, t: Tid) {
    forall u :: u != t ==> (u in s.threads <==> u in s'.threads) && (u in s.threads ==> s'.threads[u] == s.threads[u])
  }

  ghost function CarryOf(s: State, t: Tid): seq<nat> {
    if t in s.threads then Carry(s.threads[t]) else []
  }

  lemma SameMemoryPc(s: State, s': State, pc: Pc)
    requires SameMemory(s, s') && PcOK(s, pc)
    ensures PcOK(s', pc)
  {
  }

  /** Steps that leave memory, lists and places alone, and what the thread carries. */
  lemma PlainInv(s: State, s': State, t: Tid)
    requires Inv(s) && SameMemory(s, s') && SameThreads(s, s', t) && CarryOf(s', t) == CarryOf(s, t)
    requires s'.locals == s.locals && s'.global == s.global && s'.place == s.place
    requires t in s'.threads ==> PcOK(s', s'.threads[t])
    ensures Inv(s')
  {
    forall u | u in s'.threads ensures PcOK(s', s'.threads[u]) && CarryPlaced(s', u, Carry(s'.threads[u])) {
      if u != t { SameMemoryPc(s, s', s.threads[u]); }
      else if u in s.threads { assert CarryPlaced(s, u, Carry(s.threads[u])); }
    }
    PlainFound(s, s', t);
    PlainLists(s, s');
  }

  lemma PlainFound(s: State, s': State, t: Tid)
    requires AllFound(s) && SameThreads(s, s', t) && CarryOf(s', t) == CarryOf(s, t) && s'.localNext == s.localNext
    requires s'.locals == s.locals && s'.global == s.global && s'.place == s.place
    ensures AllFound(s')
  {
    forall i ensures Found(s', i) { assert Found(s, i); }
  }

  lemma PlainLists(s: State, s': State)
    requires LocalsOK(s) && GlobalOK(s) && SameMemory(s, s') && s'.locals == s.locals && s'.global == s.global
    ensures LocalsOK(s') && GlobalOK(s')
  {
    forall l: nat | l < |s'.locals| ensures LocalOK(s', l) { assert LocalOK(s, l); }
    forall g: nat | g < |s'.global| ensures GlobalAt(s', g) { assert GlobalAt(s, g); }
  }

  lemma TopIsConstructed(s: State, l: nat)
    requires Shape(s) && Domain(s) && ListsPlaced(s) && LocalsOK(s) && l < |s.heads|
    ensures s.heads[l].idx <= s.size && s.heads[l].idx <= s.cap
    ensures s.heads[l].idx != 0 ==> s.locals[l] != [] && s.heads[l].idx in s.place && s.place[s.heads[l].idx] == Local(l, |s.locals[l]| - 1)
  {
    assert LocalOK(s, l);
    if s.locals[l] != [] { assert s.locals[l][|s.locals[l]| - 1] in s.place; }
  }

  lemma TopChunkIsConstructed(s: State)
    requires Shape(s) && Domain(s) && ListsPlaced(s) && GlobalOK(s)
    ensures s.ghead.idx <= s.size && s.ghead.idx <= s.cap
    ensures s.ghead.idx != 0 ==> s.global != [] && s.ghead.idx in s.place && s.place[s.ghead.idx] == Global(|s.global| - 1, s.limit)
    ensures s.global != [] ==> s.ghead.idx != 0
  {
    if s.global != [] {
      var g := |s.global| - 1;
      assert GlobalAt(s, g);
      assert s.global[g][s.limit] in s.place;
    }
  }

  lemma ReadHeadSelf(s: State, s': State, t: Tid)
    requires Shape(s) && Domain(s) && ListsPlaced(s) && LocalsOK(s) && ThreadsOK(s) && ReadStep(s, s', t)
    requires s.threads[t].PopLoad? || s.threads[t].PushLoad? || s.threads[t].PushCas?
    ensures t in s'.threads && PcOK(s', s'.threads[t])
  {
    assert PcOK(s, s.threads[t]);
    TopIsConstructed(s, s.threads[t].l);
  }

  lemma ReadGlobalSelf(s: State, s': State, t: Tid)
    requires Shape(s) && Domain(s) && ListsPlaced(s) && GlobalOK(s) && ThreadsOK(s) && ReadStep(s, s', t)
    requires s.threads[t].GLoad? || s.threads[t].GPushLoad?
    ensures t in s'.threads && PcOK(s', s'.threads[t])
  {
    assert PcOK(s, s.threads[t]);
    TopChunkIsConstructed(s);
  }

  lemma ReadPopSelf(s: State, s': State, t: Tid)
    requires ReadStep(s, s', t) && PcOK(s, s.threads[t])
    requires var pc := s.threads[t]; pc.PopNext? || pc.PopCas? || pc.Grow? || pc.GNext? || pc.GCas?
    ensures t in s'.threads && PcOK(s', s'.threads[t])
  {
  }

  lemma ReadChunkSelf(s: State, s': State, t: Tid)
    requires ReadStep(s, s', t) && PcOK(s, s.threads[t])
    requires var pc := s.threads[t]; pc.BulkNext? || pc.BulkCas? || pc.GPushCas?
    ensures t in s'.threads && PcOK(s', s'.threads[t])
  {
  }

  lemma ReadSelf(s: State, s': State, t: Tid)
    requires Shape(s) && Domain(s) && ListsPlaced(s) && LocalsOK(s) && GlobalOK(s) && ThreadsOK(s) && ReadStep(s, s', t)
    ensures t in s'.threads && PcOK(s', s'.threads[t])
  {
    var pc := s.threads[t];
    if pc.PopLoad? || pc.PushLoad? || pc.PushCas? { ReadHeadSelf(s, s', t); }
    else if pc.GLoad? || pc.GPushLoad? { ReadGlobalSelf(s, s', t); }
    else {
      assert PcOK(s, pc);
      if pc.BulkNext? || pc.BulkCas? || pc.GPushCas? { ReadChunkSelf(s, s', t); } else { ReadPopSelf(s, s', t); }
    }
  }

  lemma ReadMoves(s: State, s': State, t: Tid)
    requires ReadStep(s, s', t)
    ensures SameMemory(s, s') && SameThreads(s, s', t) && CarryOf(s', t) == CarryOf(s, t)
    ensures s'.locals == s.locals && s'.global == s.global && s'.place == s.place
  {
    var pc := s.threads[t];
    if pc.PushLoad? || pc.PushCas? || pc.GPushLoad? || pc.GPushCas? { PushReadMoves(s, s', t); }
  }

  lemma PushReadMoves(s: State, s': State, t: Tid)
    requires ReadStep(s, s', t)
    requires var pc := s.threads[t]; pc.PushLoad? || pc.PushCas? || pc.GPushLoad? || pc.GPushCas?
    ensures SameMemory(s, s') && SameThreads(s, s', t) && CarryOf(s', t) == CarryOf(s, t)
    ensures s'.locals == s.locals && s'.global == s.global && s'.place == s.place
  {
  }

  lemma ReadInv(s: State, s': State, t: Tid)
    requires Inv(s) && ReadStep(s, s', t)
    ensures Inv(s')
  {
    ReadMoves(s, s', t);
    ReadSelf(s, s', t);
    PlainInv(s, s', t);
  }

  lemma EdgeInv(s: State, s': State, t: Tid)
    requires Inv(s) && ((exists l :: CallAlloc(s, s', t, l)) || Return(s, s', t))
    ensures Inv(s')
  {
    PlainInv(s, s', t);
  }

  // ---------------------------------------------------------------- one index changes its place

  /** Index `i` leaves its place for another; lists and other threads do not notice. */
  ghost predicate Moves(s: State, s': State, t: Tid, i: nat) {
    && SameThreads(s, s', t) && s'.limit == s.limit && s'.cap == s.cap && s'.locals == s.locals && s'.global == s.global
    && i in s'.place && s'.place == s.place[i := s'.place[i]]
  }

  /** Nothing else than thread `t`, or a caller, holds `i`. */
  ghost predicate Loose(s: State, t: Tid, i: nat) {
    i in s.place ==> s.place[i] == Own || (s.place[i].Flight? && s.place[i].t == t)
  }

  lemma MovesPlaced(s: State, s': State, t: Tid, i: nat)
    requires ListsPlaced(s) && ThreadsPlaced(s) && Moves(s, s', t, i) && Loose(s, t, i)
    requires t in s'.threads ==> CarryPlaced(s', t, Carry(s'.threads[t]))
    ensures ListsPlaced(s') && ThreadsPlaced(s')
  {
    forall u | u in s'.threads ensures CarryPlaced(s', u, Carry(s'.threads[u])) {
      if u != t { assert CarryPlaced(s, u, Carry(s.threads[u])); }
    }
  }

  lemma MovesFound(s: State, s': State, t: Tid, i: nat)
    requires AllFound(s) && Moves(s, s', t, i) && |s'.localNext| == |s.localNext| && Found(s', i)
    requires forall j :: 0 <= j < |s.localNext| && j != i ==> s'.localNext[j] == s.localNext[j]
    requires forall j, p :: j in s.place && j != i ==> s.place[j] != Flight(t, p)
    ensures AllFound(s')
  {
    forall j ensures Found(s', j) { assert Found(s, j); }
  }

  lemma OnlyCarried(s: State, t: Tid)
    requires AllFound(s)
    ensures forall j, p :: j in s.place && s.place[j] == Flight(t, p) ==> j in CarryOf(s, t)
  {
    forall j, p | j in s.place && s.place[j] == Flight(t, p) ensures j in CarryOf(s, t) { assert Found(s, j); }
  }

  lemma CallRecycleInv(s: State, s': State, t: Tid, l: nat, idx: nat)
    requires Inv(s) && CallRecycle(s, s', t, l, idx)
    ensures Inv(s')
  {
    assert Moves(s, s', t, idx);
    MovesPlaced(s, s', t, idx);
    OnlyCarried(s, t);
    assert Found(s', idx);
    MovesFound(s, s', t, idx);
    PlainLists(s, s');
    forall u | u in s'.threads ensures PcOK(s', s'.threads[u]) {
      if u != t { SameMemoryPc(s, s', s.threads[u]); }
    }
  }

  // ---------------------------------------------------------------- writes to a slot in flight

  ghost predicate InFlight(s: State, t: Tid, i: nat) {
    i in s.place && s.place[i].Flight? && s.place[i].t == t
  }

  ghost predicate WritesSlot(s: State, s': State, i: nat) {
    && s'.limit == s.limit && s'.cap == s.cap && s'.heads == s.heads && s'.ghead == s.ghead && s'.size == s.size
    && s'.locals == s.locals && s'.global == s.global
    && |s'.localNext| == |s.localNext| && |s'.globalNext| == |s.globalNext|
    && (forall j :: 0 <= j < |s.localNext| && j != i ==> s'.localNext[j] == s.localNext[j])
    && (forall j :: 0 <= j < |s.globalNext| && j != i ==> s'.globalNext[j] == s.globalNext[j])
  }

  lemma WriteKeepsLinks(s: State, s': State, i: nat, list: seq<nat>)
    requires WritesSlot(s, s', i) && Linked(s.localNext, list) && i !in list
    ensures Linked(s'.localNext, list)
  {
    forall p: nat | p < |list| ensures LinkAt(s'.localNext, list, p) { assert LinkAt(s.localNext, list, p); }
  }

  lemma WriteKeepsLists(s: State, s': State, t: Tid, i: nat)
    requires LocalsOK(s) && GlobalOK(s) && ListsPlaced(s) && InFlight(s, t, i) && WritesSlot(s, s', i)
    ensures LocalsOK(s') && GlobalOK(s')
  {
    forall l: nat | l < |s'.locals| ensures LocalOK(s', l) {
      assert LocalOK(s, l);
      WriteKeepsLinks(s, s', i, s.locals[l]);
    }
    forall g: nat | g < |s'.global| ensures GlobalAt(s', g) {
      assert GlobalAt(s, g);
      assert s.global[g][s.limit] in s.place;
      WriteKeepsLinks(s, s', i, s.global[g]);
    }
  }

  lemma WriteKeepsChunk(s: State, s': State, t: Tid, i: nat, u: Tid, chunk: seq<nat>)
    requires InFlight(s, t, i) && WritesSlot(s, s', i) && u != t && CarryPlaced(s, u, chunk) && ChunkOK(s, chunk)
    ensures ChunkOK(s', chunk)
  {
    WriteKeepsLinks(s, s', i, chunk);
  }

  lemma WriteKeepsPc(s: State, s': State, t: Tid, i: nat, u: Tid)
    requires Shape(s) && Domain(s) && LocalsOK(s) && GlobalOK(s) && ListsPlaced(s) && ThreadsPlaced(s) && ThreadsOK(s)
    requires InFlight(s, t, i) && WritesSlot(s, s', i) && u in s.threads && u != t
    ensures PcOK(s', s.threads[u])
  {
    var pc := s.threads[u];
    assert PcOK(s, pc) && CarryPlaced(s, u, Carry(pc));
    if pc.BulkNext? || pc.BulkCas? || pc.GPushLoad? || pc.GPushNext? || pc.GPushCas? { WriteKeepsCarrier(s, s', t, i, u); }
    else if pc.PopCas? { TopIsConstructed(s, pc.l); }
    else if pc.GCas? { TopChunkIsConstructed(s); }
    else if pc.PushCas? { assert pc.idx == Carry(pc)[0]; }
  }

  lemma WriteKeepsCarrier(s: State, s': State, t: Tid, i: nat, u: Tid)
    requires Shape(s) && Domain(s) && LocalsOK(s) && GlobalOK(s) && ListsPlaced(s) && ThreadsPlaced(s) && ThreadsOK(s)
    requires InFlight(s, t, i) && WritesSlot(s, s', i) && u in s.threads && u != t
    requires var pc := s.threads[u]; pc.BulkNext? || pc.BulkCas? || pc.GPushLoad? || pc.GPushNext? || pc.GPushCas?
    ensures PcOK(s', s.threads[u])
  {
    var pc := s.threads[u];
    assert PcOK(s, pc) && CarryPlaced(s, u, Carry(pc));
    WriteKeepsChunk(s, s', t, i, u, pc.chunk);
    assert pc.idx == Carry(pc)[s.limit];
  }

  lemma SlotHolds(s: State, t: Tid)
    requires ThreadsOK(s) && ThreadsPlaced(s) && t in s.threads && (s.threads[t].Mark? || s.threads[t].PushNext? || s.threads[t].GPushNext?)
    ensures InFlight(s, t, s.threads[t].idx) && s.threads[t].idx in Carry(s.threads[t])
  {
    var pc := s.threads[t];
    assert PcOK(s, pc) && CarryPlaced(s, t, Carry(pc));
    assert pc.idx == Carry(pc)[if pc.GPushNext? then s.limit else 0];
  }

  lemma SlotMoves(s: State, s': State, t: Tid)
    requires Shape(s) && SlotStep(s, s', t)
    ensures WritesSlot(s, s', s.threads[t].idx) && SameThreads(s, s', t)
  {
  }

  lemma SlotSelf(s: State, s': State, t: Tid)
    requires ThreadsOK(s) && ThreadsPlaced(s) && SlotStep(s, s', t)
    ensures t in s'.threads && PcOK(s', s'.threads[t])
  {
    var pc := s.threads[t];
    assert PcOK(s, pc) && CarryPlaced(s, t, Carry(pc));
  }

  lemma MarkLists(s: State, s': State, t: Tid)
    requires ListsPlaced(s) && ThreadsPlaced(s) && SlotStep(s, s', t) && s.threads[t].Mark? && InFlight(s, t, s.threads[t].idx)
    ensures ListsPlaced(s') && ThreadsPlaced(s')
  {
    MovesPlaced(s, s', t, s.threads[t].idx);
  }

  lemma MarkFound(s: State, s': State, t: Tid)
    requires AllFound(s) && SlotStep(s, s', t) && s.threads[t].Mark? && InFlight(s, t, s.threads[t].idx)
    ensures AllFound(s')
  {
    OnlyCarried(s, t);
    MovesFound(s, s', t, s.threads[t].idx);
  }

  lemma WriteFound(s: State, s': State, t: Tid)
    requires AllFound(s) && ThreadsPlaced(s) && ThreadsOK(s) && SlotStep(s, s', t) && !s.threads[t].Mark?
    ensures AllFound(s')
  {
    SlotHolds(s, t);
    forall i ensures Found(s', i) { assert Found(s, i); }
  }

  lemma SlotInv(s: State, s': State, t: Tid)
    requires Inv(s) && SlotStep(s, s', t)
    ensures Inv(s')
  {
    var i := s.threads[t].idx;
    SlotHolds(s, t);
    SlotMoves(s, s', t);
    SlotSelf(s, s', t);
    WriteKeepsLists(s, s', t, i);
    forall u | u in s'.threads ensures PcOK(s', s'.threads[u]) {
      if u != t { WriteKeepsPc(s, s', t, i, u); }
    }
    if s.threads[t].Mark? {
      MarkLists(s, s', t);
      MarkFound(s, s', t);
    } else {
      WriteFound(s, s', t);
      assert ThreadsPlaced(s') by {
        forall u | u in s'.threads ensures CarryPlaced(s', u, Carry(s'.threads[u])) { assert CarryPlaced(s, u, Carry(s.threads[u])); }
      }
    }
  }

  // ---------------------------------------------------------------- heads change

  /** The head of list `l` changes and its tag goes up. */
  ghost predicate HeadMoves(s: State, s': State, l: nat) {
    && s'.limit == s.limit && s'.cap == s.cap && s'.size == s.size && s'.ghead == s.ghead && s'.global == s.global
    && s'.localNext == s.localNext && s'.globalNext == s.globalNext
    && l < |s.heads| == |s'.heads| && s'.heads == s.heads[l := s'.heads[l]] && Tag(s'.heads[l]) == Tag(s.heads[l]) + 1
    && |s.locals| == |s.heads| && |s'.locals| == |s.locals| && s'.locals == s.locals[l := s'.locals[l]]
  }

  lemma HeadMovesPc(s: State, s': State, l: nat, pc: Pc)
    requires HeadMoves(s, s', l) && PcOK(s, pc)
    ensures PcOK(s', pc)
  {
  }

  lemma HeadMovesLists(s: State, s': State, l: nat)
    requires LocalsOK(s) && GlobalOK(s) && HeadMoves(s, s', l) && LocalOK(s', l)
    ensures LocalsOK(s') && GlobalOK(s')
  {
    forall m: nat | m < |s'.locals| ensures LocalOK(s', m) { assert LocalOK(s, m); }
    forall g: nat | g < |s'.global| ensures GlobalAt(s', g) { assert GlobalAt(s, g); }
  }

  lemma HeadInv(s: State, s': State, t: Tid, l: nat)
    requires Shape(s) && LocalsOK(s) && GlobalOK(s) && ThreadsOK(s) && SameThreads(s, s', t) && HeadMoves(s, s', l) && LocalOK(s', l)
    requires t in s'.threads && PcOK(s', s'.threads[t])
    ensures Shape(s') && LocalsOK(s') && GlobalOK(s') && ThreadsOK(s')
  {
    HeadMovesLists(s, s', l);
    forall u | u in s'.threads ensures PcOK(s', s'.threads[u]) {
      if u != t { HeadMovesPc(s, s', l, s.threads[u]); }
    }
  }

  lemma OthersCarry(s: State, s': State, t: Tid)
    requires ThreadsPlaced(s) && SameThreads(s, s', t) && t in s'.threads && CarryPlaced(s', t, Carry(s'.threads[t]))
    requires forall u, p, i :: u != t && i in s.place && s.place[i] == Flight(u, p) ==> i in s'.place && s'.place[i] == s.place[i]
    ensures ThreadsPlaced(s')
  {
    forall u | u in s'.threads ensures CarryPlaced(s', u, Carry(s'.threads[u])) {
      if u != t { assert CarryPlaced(s, u, Carry(s.threads[u])); }
    }
  }

  ghost predicate Pops(s: State, s': State, t: Tid) {
    && PopOk(s, s', t) && SameThreads(s, s', t)
    && var pc := s.threads[t];
       var list := s.locals[pc.l];
       && list != [] && pc.h.idx == list[|list| - 1] && pc.h.idx in s.place && s.place[pc.h.idx] == Local(pc.l, |list| - 1)
       && s'.place == s.place[pc.h.idx := Flight(t, 0)]
       && (forall i, p :: i in s.place ==> s.place[i] != Flight(t, p))
  }

  lemma PopLists(s: State, s': State, t: Tid)
    requires ListsPlaced(s) && ThreadsPlaced(s) && Pops(s, s', t)
    ensures ListsPlaced(s') && ThreadsPlaced(s')
  {
    OthersCarry(s, s', t);
  }

  lemma PopFound(s: State, s': State, t: Tid)
    requires AllFound(s) && Pops(s, s', t)
    ensures AllFound(s')
  {
    forall j ensures Found(s', j) { assert Found(s, j); }
  }

  lemma PopPlaces(s: State, s': State, t: Tid)
    requires Shape(s) && Domain(s) && ListsPlaced(s) && ThreadsPlaced(s) && AllFound(s) && LocalsOK(s) && ThreadsOK(s) && PopOk(s, s', t)
    ensures Domain(s') && ListsPlaced(s') && ThreadsPlaced(s') && AllFound(s')
  {
    var pc := s.threads[t];
    assert PcOK(s, pc) && LocalOK(s, pc.l);
    TopIsConstructed(s, pc.l);
    OnlyCarried(s, t);
    assert Pops(s, s', t);
    PopLists(s, s', t);
    PopFound(s, s', t);
  }

  lemma LinkedWithoutTop(next: seq<nat>, list: seq<nat>)
    requires list != [] && Linked(next, list)
    ensures Linked(next, list[..|list| - 1]) && Top(list) < |next| && next[Top(list)] == Top(list[..|list| - 1])
  {
    var rest := list[..|list| - 1];
    forall p: nat | p < |rest| ensures LinkAt(next, rest, p) { assert LinkAt(next, list, p); }
    assert LinkAt(next, list, |rest|);
  }

  lemma LinkedWithTop(next: seq<nat>, list: seq<nat>, i: nat)
    requires Linked(next, list) && i < |next| && next[i] == Top(list)
    ensures Linked(next, list + [i]) && Top(list + [i]) == i
  {
    var longer := list + [i];
    forall p: nat | p < |longer| ensures LinkAt(next, longer, p) { if p < |list| { assert LinkAt(next, list, p); } }
  }

  lemma PopHead(s: State, s': State, t: Tid)
    requires Shape(s) && LocalsOK(s) && ThreadsOK(s) && PopOk(s, s', t)
    ensures HeadMoves(s, s', s.threads[t].l) && LocalOK(s', s.threads[t].l) && t in s'.threads && PcOK(s', s'.threads[t]) && SameThreads(s, s', t)
  {
    var pc := s.threads[t];
    assert PcOK(s, pc) && LocalOK(s, pc.l);
    TagMath(pc.h, pc.next);
    LinkedWithoutTop(s.localNext, s.locals[pc.l]);
  }

  lemma PopInv(s: State, s': State, t: Tid)
    requires Inv(s) && PopOk(s, s', t)
    ensures Inv(s')
  {
    PopPlaces(s, s', t);
    PopHead(s, s', t);
    HeadInv(s, s', t, s.threads[t].l);
  }

  ghost predicate Pushes(s: State, s': State, t: Tid) {
    && PushOk(s, s', t) && Size(s.threads[t].h) != s.limit && SameThreads(s, s', t)
    && var pc := s.threads[t];
       && pc.idx in s.place && s.place[pc.idx] == Flight(t, 0) && s'.place == s.place[pc.idx := Local(pc.l, |s.locals[pc.l]|)]
       && (forall i, p :: i in s.place && s.place[i] == Flight(t, p) ==> i == pc.idx)
  }

  lemma PushLists(s: State, s': State, t: Tid)
    requires ListsPlaced(s) && ThreadsPlaced(s) && Pushes(s, s', t)
    ensures ListsPlaced(s') && ThreadsPlaced(s')
  {
    var pc := s.threads[t];
    var list := s.locals[pc.l];
    assert s'.locals[pc.l] == list + [pc.idx];
    OthersCarry(s, s', t);
  }

  lemma PushFound(s: State, s': State, t: Tid)
    requires AllFound(s) && Pushes(s, s', t)
    ensures AllFound(s')
  {
    var pc := s.threads[t];
    assert s'.locals[pc.l] == s.locals[pc.l] + [pc.idx];
    forall j ensures Found(s', j) { assert Found(s, j); }
  }

  lemma PushPlaces(s: State, s': State, t: Tid)
    requires Domain(s) && ListsPlaced(s) && ThreadsPlaced(s) && AllFound(s) && PushOk(s, s', t) && Size(s.threads[t].h) != s.limit
    ensures Domain(s') && ListsPlaced(s') && ThreadsPlaced(s') && AllFound(s')
  {
    var pc := s.threads[t];
    assert CarryPlaced(s, t, Carry(pc));
    assert s.place[pc.idx] == Flight(t, 0) by { assert Carry(pc)[0] == pc.idx; }
    OnlyCarried(s, t);
    assert Pushes(s, s', t);
    PushLists(s, s', t);
    PushFound(s, s', t);
  }

  lemma PushHead(s: State, s': State, t: Tid)
    requires Shape(s) && LocalsOK(s) && ThreadsOK(s) && PushOk(s, s', t) && Size(s.threads[t].h) != s.limit
    ensures HeadMoves(s, s', s.threads[t].l) && LocalOK(s', s.threads[t].l) && t in s'.threads && PcOK(s', s'.threads[t]) && SameThreads(s, s', t)
  {
    var pc := s.threads[t];
    assert PcOK(s, pc) && LocalOK(s, pc.l);
    TagMath(pc.h, pc.idx);
    LinkedWithTop(s.localNext, s.locals[pc.l], pc.idx);
  }

  lemma PushInv(s: State, s': State, t: Tid)
    requires Inv(s) && PushOk(s, s', t) && Size(s.threads[t].h) != s.limit
    ensures Inv(s')
  {
    PushPlaces(s, s', t);
    PushHead(s, s', t);
    HeadInv(s, s', t, s.threads[t].l);
  }

  ghost predicate Steals(s: State, s': State, t: Tid) {
    && PushOk(s, s', t) && Size(s.threads[t].h) == s.limit && s'.place.Keys == s.place.Keys
    && var pc := s.threads[t];
       && pc.idx in s.place && s.place[pc.idx] == Flight(t, 0) && s'.place[pc.idx] == Flight(t, |s.locals[pc.l]|)
       && (forall i :: i in s.place && i != pc.idx ==>
             s'.place[i] == if s.place[i].Local? && s.place[i].l == pc.l then Flight(t, s.place[i].p) else s.place[i])
       && (forall i, p :: i in s.place && s.place[i] == Flight(t, p) ==> i == pc.idx)
  }

  lemma StealRelocates(s: State, s': State, t: Tid)
    requires ThreadsPlaced(s) && AllFound(s) && PushOk(s, s', t) && Size(s.threads[t].h) == s.limit
    ensures Steals(s, s', t)
  {
    var pc := s.threads[t];
    assert CarryPlaced(s, t, Carry(pc));
    assert s.place[pc.idx] == Flight(t, 0) by { assert Carry(pc)[0] == pc.idx; }
    OnlyCarried(s, t);
  }

  lemma StealCarry(s: State, s': State, t: Tid)
    requires ListsPlaced(s) && Steals(s, s', t)
    ensures CarryPlaced(s', t, s.locals[s.threads[t].l] + [s.threads[t].idx])
  {
    var pc := s.threads[t];
    var list := s.locals[pc.l];
    forall p | 0 <= p < |list| ensures list[p] in s'.place && s'.place[list[p]] == Flight(t, p) {
      assert s.place[list[p]] == Local(pc.l, p);
    }
  }

  lemma StealOthers(s: State, s': State, t: Tid, u: Tid, carry: seq<nat>)
    requires Steals(s, s', t) && u != t && CarryPlaced(s, u, carry)
    ensures CarryPlaced(s', u, carry)
  {
  }

  lemma StealThreads(s: State, s': State, t: Tid)
    requires ThreadsPlaced(s) && ListsPlaced(s) && Steals(s, s', t)
    ensures ThreadsPlaced(s')
  {
    StealCarry(s, s', t);
    forall u | u in s'.threads ensures CarryPlaced(s', u, Carry(s'.threads[u])) {
      if u != t { StealOthers(s, s', t, u, Carry(s.threads[u])); }
    }
  }

  lemma StealLists(s: State, s': State, t: Tid)
    requires ListsPlaced(s) && Steals(s, s', t)
    ensures ListsPlaced(s')
  {
  }

  lemma StealFound(s: State, s': State, t: Tid)
    requires AllFound(s) && Steals(s, s', t)
    ensures AllFound(s')
  {
    forall j ensures Found(s', j) { assert Found(s, j); }
  }

  lemma StealPlaces(s: State, s': State, t: Tid)
    requires Inv(s) && PushOk(s, s', t) && Size(s.threads[t].h) == s.limit
    ensures ListsPlaced(s') && ThreadsPlaced(s') && AllFound(s') && Domain(s')
  {
    StealRelocates(s, s', t);
    StealThreads(s, s', t);
    StealLists(s, s', t);
    StealFound(s, s', t);
    assert forall i :: i in s'.place <==> i in s.place;
  }

  lemma StealHead(s: State, s': State, t: Tid)
    requires Shape(s) && LocalsOK(s) && ThreadsOK(s) && PushOk(s, s', t) && Size(s.threads[t].h) == s.limit
    ensures HeadMoves(s, s', s.threads[t].l) && LocalOK(s', s.threads[t].l) && t in s'.threads && PcOK(s', s'.threads[t]) && SameThreads(s, s', t)
  {
    var pc := s.threads[t];
    assert PcOK(s, pc) && LocalOK(s, pc.l);
    TagMath(pc.h, 0);
    LinkedWithTop(s.localNext, s.locals[pc.l], pc.idx);
  }

  lemma StealInv(s: State, s': State, t: Tid)
    requires Inv(s) && PushOk(s, s', t) && Size(s.threads[t].h) == s.limit
    ensures Inv(s')
  {
    StealPlaces(s, s', t);
    StealHead(s, s', t);
    HeadInv(s, s', t, s.threads[t].l);
  }

  ghost predicate Settles(s: State, s': State, t: Tid) {
    && BulkOk(s, s', t) && s'.place.Keys == s.place.Keys
    && var pc := s.threads[t];
       && CarryPlaced(s, t, pc.chunk) && |pc.chunk| == s.limit + 1 && pc.idx == pc.chunk[s.limit] && s.locals[pc.l] == []
       && pc.idx in s.place && s'.place[pc.idx] == Flight(t, 0)
       && (forall i :: i in s.place && i != pc.idx ==>
             s'.place[i] == if s.place[i].Flight? && s.place[i].t == t then Local(pc.l, s.place[i].p) else s.place[i])
  }

  lemma BulkSettles(s: State, s': State, t: Tid)
    requires ThreadsPlaced(s) && ThreadsOK(s) && LocalsOK(s) && BulkOk(s, s', t)
    requires forall l, p :: 0 <= l < |s.locals| && 0 <= p < |s.locals[l]| ==> s.locals[l][p] > 0
    ensures Settles(s, s', t)
  {
    var pc := s.threads[t];
    assert PcOK(s, pc) && LocalOK(s, pc.l) && CarryPlaced(s, t, pc.chunk);
    assert s.place[pc.idx] == Flight(t, s.limit) by { assert pc.chunk[s.limit] == pc.idx; }
  }

  lemma SettleThreads(s: State, s': State, t: Tid)
    requires ThreadsPlaced(s) && Settles(s, s', t)
    ensures ThreadsPlaced(s')
  {
    OthersCarry(s, s', t);
  }

  lemma SettleLists(s: State, s': State, t: Tid)
    requires ListsPlaced(s) && Settles(s, s', t)
    ensures ListsPlaced(s')
  {
    var pc := s.threads[t];
    forall p | 0 <= p < s.limit ensures pc.chunk[p] in s'.place && s'.place[pc.chunk[p]] == Local(pc.l, p) {
      assert s.place[pc.chunk[p]] == Flight(t, p) && s.place[pc.idx] == Flight(t, s.limit);
    }
  }

  lemma SettleFound(s: State, s': State, t: Tid)
    requires AllFound(s) && Settles(s, s', t)
    ensures AllFound(s')
  {
    var pc := s.threads[t];
    forall j ensures Found(s', j) {
      assert Found(s, j);
      assert j in s.place && s.place[j].Flight? && s.place[j].t == t && j != pc.idx ==> s.place[j].p < s.limit;
    }
  }

  lemma BulkPlaces(s: State, s': State, t: Tid)
    requires Inv(s) && BulkOk(s, s', t)
    ensures ListsPlaced(s') && ThreadsPlaced(s') && AllFound(s') && Domain(s')
  {
    BulkSettles(s, s', t);
    SettleThreads(s, s', t);
    SettleLists(s, s', t);
    SettleFound(s, s', t);
    assert forall i :: i in s'.place <==> i in s.place;
  }

  lemma BulkHead(s: State, s': State, t: Tid)
    requires Shape(s) && LocalsOK(s) && ThreadsOK(s) && BulkOk(s, s', t)
    ensures HeadMoves(s, s', s.threads[t].l) && LocalOK(s', s.threads[t].l) && t in s'.threads && PcOK(s', s'.threads[t]) && SameThreads(s, s', t)
  {
    var pc := s.threads[t];
    assert PcOK(s, pc) && LocalOK(s, pc.l);
    SizeMath(pc.h, pc.next, s.limit);
    LinkedWithoutTop(s.localNext, pc.chunk);
  }

  lemma BulkInv(s: State, s': State, t: Tid)
    requires Inv(s) && BulkOk(s, s', t)
    ensures Inv(s')
  {
    BulkPlaces(s, s', t);
    BulkHead(s, s', t);
    HeadInv(s, s', t, s.threads[t].l);
  }

  // ---------------------------------------------------------------- the global list

  ghost predicate GlobalMoves(s: State, s': State) {
    && s'.limit == s.limit && s'.cap == s.cap && s'.size == s.size && s'.heads == s.heads && s'.locals == s.locals
    && s'.localNext == s.localNext && s'.globalNext == s.globalNext && Tag(s'.ghead) == Tag(s.ghead) + 1
  }

  lemma GlobalMovesPc(s: State, s': State, pc: Pc)
    requires GlobalMoves(s, s') && PcOK(s, pc)
    ensures PcOK(s', pc)
  {
  }

  lemma GlobalInv(s: State, s': State, t: Tid)
    requires Shape(s) && LocalsOK(s) && ThreadsOK(s) && SameThreads(s, s', t) && GlobalMoves(s, s')
    requires t in s'.threads && PcOK(s', s'.threads[t])
    ensures Shape(s') && LocalsOK(s') && ThreadsOK(s')
  {
    forall l: nat | l < |s'.locals| ensures LocalOK(s', l) { assert LocalOK(s, l); }
    forall u | u in s'.threads ensures PcOK(s', s'.threads[u]) {
      if u != t { GlobalMovesPc(s, s', s.threads[u]); }
    }
  }

  ghost predicate Lifts(s: State, s': State, t: Tid) {
    && GPopOk(s, s', t) && s.global != [] && s'.place.Keys == s.place.Keys
    && (forall i :: i in s.place ==>
          s'.place[i] == if s.place[i].Global? && s.place[i].g == |s.global| - 1 then Flight(t, s.place[i].p) else s.place[i])
    && (forall i, p :: i in s.place ==> s.place[i] != Flight(t, p))
  }

  lemma GPopThreads(s: State, s': State, t: Tid)
    requires ThreadsPlaced(s) && ListsPlaced(s) && Lifts(s, s', t)
    ensures ThreadsPlaced(s')
  {
    assert CarryPlaced(s', t, s.global[|s.global| - 1]);
    OthersCarry(s, s', t);
  }

  lemma GPopLists(s: State, s': State, t: Tid)
    requires ListsPlaced(s) && Lifts(s, s', t)
    ensures ListsPlaced(s')
  {
  }

  lemma GPopFound(s: State, s': State, t: Tid)
    requires AllFound(s) && Lifts(s, s', t)
    ensures AllFound(s')
  {
    forall j ensures Found(s', j) { assert Found(s, j); }
  }

  lemma GPopPlaces(s: State, s': State, t: Tid)
    requires Inv(s) && GPopOk(s, s', t) && s.global != []
    ensures ListsPlaced(s') && ThreadsPlaced(s') && AllFound(s') && Domain(s')
  {
    OnlyCarried(s, t);
    assert Lifts(s, s', t);
    GPopThreads(s, s', t);
    GPopLists(s, s', t);
    GPopFound(s, s', t);
    assert forall i :: i in s'.place <==> i in s.place;
  }

  lemma GPopGlobal(s: State, s': State, t: Tid)
    requires GlobalOK(s) && GPopOk(s, s', t) && PcOK(s, s.threads[t]) && s.global != []
    ensures GlobalOK(s') && GlobalMoves(s, s') && SameThreads(s, s', t) && t in s'.threads && PcOK(s', s'.threads[t])
  {
    var pc := s.threads[t];
    TagMath(pc.gh, pc.next);
    var g := |s.global| - 1;
    assert GlobalAt(s, g);
    forall k: nat | k < |s'.global| ensures GlobalAt(s', k) { assert GlobalAt(s, k); }
  }

  lemma GPopInv(s: State, s': State, t: Tid)
    requires Inv(s) && GPopOk(s, s', t)
    ensures Inv(s')
  {
    assert PcOK(s, s.threads[t]);
    TopChunkIsConstructed(s);
    GPopPlaces(s, s', t);
    GPopGlobal(s, s', t);
    GlobalInv(s, s', t);
  }

  ghost predicate Drops(s: State, s': State, t: Tid) {
    && GPushOk(s, s', t) && s'.place.Keys == s.place.Keys && CarryPlaced(s, t, s.threads[t].chunk)
    && forall i :: i in s.place ==>
         s'.place[i] == if s.place[i].Flight? && s.place[i].t == t then Global(|s.global|, s.place[i].p) else s.place[i]
  }

  lemma GPushThreads(s: State, s': State, t: Tid)
    requires ThreadsPlaced(s) && Drops(s, s', t)
    ensures ThreadsPlaced(s')
  {
    OthersCarry(s, s', t);
  }

  lemma GPushLists(s: State, s': State, t: Tid)
    requires ListsPlaced(s) && Drops(s, s', t)
    ensures ListsPlaced(s')
  {
  }

  lemma GPushFound(s: State, s': State, t: Tid)
    requires AllFound(s) && Drops(s, s', t)
    ensures AllFound(s')
  {
    forall j ensures Found(s', j) { assert Found(s, j); }
  }

  lemma GPushPlaces(s: State, s': State, t: Tid)
    requires Inv(s) && GPushOk(s, s', t)
    ensures ListsPlaced(s') && ThreadsPlaced(s') && AllFound(s') && Domain(s')
  {
    assert CarryPlaced(s, t, Carry(s.threads[t]));
    assert Drops(s, s', t);
    GPushThreads(s, s', t);
    GPushLists(s, s', t);
    GPushFound(s, s', t);
    assert forall i :: i in s'.place <==> i in s.place;
  }

  lemma GPushGlobal(s: State, s': State, t: Tid)
    requires GlobalOK(s) && GPushOk(s, s', t) && PcOK(s, s.threads[t])
    ensures GlobalOK(s')
  {
    forall k: nat | k < |s'.global| ensures GlobalAt(s', k) { if k < |s.global| { assert GlobalAt(s, k); } }
  }

  lemma GPushInv(s: State, s': State, t: Tid)
    requires Inv(s) && GPushOk(s, s', t)
    ensures Inv(s')
  {
    var pc := s.threads[t];
    assert PcOK(s, pc);
    TagMath(pc.gh, pc.idx);
    GPushPlaces(s, s', t);
    GlobalInv(s, s', t);
    GPushGlobal(s, s', t);
  }

  // ---------------------------------------------------------------- new slots

  lemma GrowPc(s: State, s': State, pc: Pc)
    requires PcOK(s, pc) && s'.limit == s.limit && s'.cap == s.cap && s'.heads == s.heads && s'.ghead == s.ghead
    requires s'.localNext == s.localNext && s'.globalNext == s.globalNext && s.size <= s'.size
    ensures PcOK(s', pc)
  {
  }

  lemma GrowPlaces(s: State, s': State, t: Tid)
    requires Domain(s) && ListsPlaced(s) && ThreadsPlaced(s) && GrowOk(s, s', t)
    ensures ListsPlaced(s') && ThreadsPlaced(s') && Domain(s')
  {
    OthersCarry(s, s', t);
  }

  lemma GrowFound(s: State, s': State, t: Tid)
    requires Domain(s) && AllFound(s) && GrowOk(s, s', t)
    ensures AllFound(s')
  {
    OnlyCarried(s, t);
    forall j ensures Found(s', j) { assert Found(s, j); }
  }

  lemma GrowInv(s: State, s': State, t: Tid)
    requires Inv(s) && GrowOk(s, s', t)
    ensures Inv(s')
  {
    assert PcOK(s, s.threads[t]);
    GrowPlaces(s, s', t);
    GrowFound(s, s', t);
    forall u | u in s'.threads ensures PcOK(s', s'.threads[u]) {
      if u != t { GrowPc(s, s', s.threads[u]); }
    }
    forall l: nat | l < |s'.locals| ensures LocalOK(s', l) { assert LocalOK(s, l); }
    forall g: nat | g < |s'.global| ensures GlobalAt(s', g) { assert GlobalAt(s, g); }
  }

  lemma StepInv(s: State, s': State, t: Tid)
    requires Inv(s) && Step(s, s', t)
    ensures Inv(s')
  {
    if ReadStep(s, s', t) { ReadInv(s, s', t); }
    else if SlotStep(s, s', t) { SlotInv(s, s', t); }
    else if PopOk(s, s', t) { PopInv(s, s', t); }
    else if PushOk(s, s', t) { if Size(s.threads[t].h) == s.limit { StealInv(s, s', t); } else { PushInv(s, s', t); } }
    else if BulkOk(s, s', t) { BulkInv(s, s', t); }
    else if GPopOk(s, s', t) { GPopInv(s, s', t); }
    else if GPushOk(s, s', t) { GPushInv(s, s', t); }
    else if GrowOk(s, s', t) { GrowInv(s, s', t); }
    else if exists l, idx :: CallRecycle(s, s', t, l, idx) {
      var l, idx :| CallRecycle(s, s', t, l, idx);
      CallRecycleInv(s, s', t, l, idx);
    } else { EdgeInv(s, s', t); }
  }

  lemma NextInv(s: State, s': State)
    requires Inv(s) && Next(s, s')
    ensures Inv(s')
  {
    var t :| Step(s, s', t);
    StepInv(s, s', t);
  }
}
