/** folly::IndexedMemPool over whole runs: exclusive ownership, exact lists, and the capacity guarantee. */
module IndexedMemPoolTheorems {
  import opened IndexedMemPool
  import opened IndexedMemPoolProof

  ghost predicate StepAt(run: seq<State>, i: nat) {
    i + 1 < |run| ==> Next(run[i], run[i + 1])
  }

  ghost predicate IsRun(run: seq<State>) {
    |run| > 0 && Init(run[0]) && forall i: nat :: StepAt(run, i)
  }

  lemma {:induction false} RunInv(run: seq<State>, i: nat)
    requires IsRun(run) && i < |run|
    ensures Inv(run[i])
  {
    if i == 0 {
      InitInv(run[0]);
    } else {
      RunInv(run, i - 1);
      assert StepAt(run, i - 1);
      NextInv(run[i - 1], run[i]);
    }
  }

  // ---------------------------------------------------------------- ownership

  ghost function Owned(s: State): set<nat> {
    set i | i in s.place && s.place[i] == Own
  }

  /** Index `i` is at place `x`: owned by a caller, on a list, or carried by a thread. */
  ghost predicate IsAt(s: State, i: nat, x: Place) {
    match x
    case Own => i in Owned(s)
    case Local(l, p) => l < |s.locals| && p < |s.locals[l]| && s.locals[l][p] == i
    case Global(g, p) => g < |s.global| && p < |s.global[g]| && s.global[g][p] == i
    case Flight(t, p) => t in s.threads && p < |Carry(s.threads[t])| && Carry(s.threads[t])[p] == i
  }

  /** Every constructed index is in one place and no other; unconstructed ones are nowhere. */
  lemma OnePlacePerIndex(run: seq<State>, n: nat, i: nat, x: Place)
    requires IsRun(run) && n < |run|
    ensures var s := run[n]; 1 <= i <= s.size && i <= s.cap <==> i in s.place
    ensures var s := run[n]; IsAt(s, i, x) <==> i in s.place && s.place[i] == x
  {
    RunInv(run, n);
    var s := run[n];
    assert Found(s, i);
    if x.Flight? && x.t in s.threads { assert CarryPlaced(s, x.t, Carry(s.threads[x.t])); }
  }

  /** `allocIndex` hands out an index that nobody owns, that is on no list, and that no other thread carries. */
  lemma GrantIsExclusive(run: seq<State>, n: nat, t: Tid, u: Tid)
    requires IsRun(run) && n + 1 < |run| && SlotStep(run[n], run[n + 1], t) && run[n].threads[t].Mark?
    ensures var s, idx := run[n], run[n].threads[t].idx;
      && 1 <= idx <= s.cap && idx !in Owned(s) && Owned(run[n + 1]) == Owned(s) + {idx}
      && (forall l :: 0 <= l < |s.locals| ==> idx !in s.locals[l]) && (forall g :: 0 <= g < |s.global| ==> idx !in s.global[g])
      && (u in s.threads && u != t ==> idx !in Carry(s.threads[u]))
  {
    RunInv(run, n);
    var s := run[n];
    var idx := s.threads[t].idx;
    SlotHolds(s, t);
    if u in s.threads { assert CarryPlaced(s, u, Carry(s.threads[u])); }
  }

  /** Away from threads, `isAllocated` says who owns what. */
  lemma AllocatedIffOwned(run: seq<State>, n: nat, i: nat)
    requires IsRun(run) && n < |run| && i in run[n].place && !run[n].place[i].Flight?
    ensures i < |run[n].localNext| && (run[n].localNext[i] == ALLOCATED <==> i in Owned(run[n]))
  {
    RunInv(run, n);
    var s := run[n];
    assert Found(s, i);
    match s.place[i] {
      case Own =>
      case Local(l, p) =>
        assert LocalOK(s, l) && LinkAt(s.localNext, s.locals[l], p);
        if p > 0 { assert s.locals[l][p - 1] in s.place; }
      case Global(g, p) =>
        assert GlobalAt(s, g) && LinkAt(s.localNext, s.global[g], p);
        if p > 0 { assert s.global[g][p - 1] in s.place; }
      case Flight(_, _) =>
    }
  }

  // ---------------------------------------------------------------- the lists in memory

  /** Follow `next` for `n` steps from `i`. */
  ghost function Walk(next: seq<nat>, i: nat, n: nat): seq<nat>
    decreases n
  {
    if n == 0 || i >= |next| then [i] else [i] + Walk(next, next[i], n - 1)
  }

  ghost function Reverse(list: seq<nat>): seq<nat> {
    if list == [] then [] else [list[|list| - 1]] + Reverse(list[..|list| - 1])
  }

  lemma {:induction false} WalkIsList(next: seq<nat>, list: seq<nat>)
    requires Linked(next, list)
    ensures Walk(next, Top(list), |list|) == Reverse(list) + [0]
    decreases |list|
  {
    if list != [] {
      LinkedWithoutTop(next, list);
      WalkIsList(next, list[..|list| - 1]);
    }
  }

  /** Each local list in memory is as long as its size field says, at most the limit, and ends in 0. */
  lemma LocalListsAreExact(run: seq<State>, n: nat, l: nat)
    requires IsRun(run) && n < |run| && l < |run[n].heads|
    ensures var s := run[n];
      && |s.locals| == |s.heads| && Size(s.heads[l]) == |s.locals[l]| <= s.limit
      && Walk(s.localNext, s.heads[l].idx, Size(s.heads[l])) == Reverse(s.locals[l]) + [0]
  {
    RunInv(run, n);
    assert LocalOK(run[n], l);
    WalkIsList(run[n].localNext, run[n].locals[l]);
  }

  /** The heads of the global sublists, bottom first. */
  ghost function Tops(global: seq<seq<nat>>): seq<nat> {
    seq(|global|, g requires 0 <= g < |global| => Top(global[g]))
  }

  lemma TopsLinked(s: State)
    requires GlobalOK(s)
    ensures Linked(s.globalNext, Tops(s.global)) && s.ghead.idx == Top(Tops(s.global))
  {
    forall g: nat | g < |s.global| ensures LinkAt(s.globalNext, Tops(s.global), g) { assert GlobalAt(s, g); }
  }

  /** The global list in memory chains its sublists, and each sublist in memory has LocalListLimit + 1 nodes and ends in 0. */
  lemma GlobalListIsExact(run: seq<State>, n: nat, g: nat)
    requires IsRun(run) && n < |run|
    ensures var s := run[n]; Walk(s.globalNext, s.ghead.idx, |s.global|) == Reverse(Tops(s.global)) + [0]
    ensures var s := run[n]; g < |s.global| ==>
      |s.global[g]| == s.limit + 1 && Walk(s.localNext, Top(s.global[g]), s.limit + 1) == Reverse(s.global[g]) + [0]
  {
    RunInv(run, n);
    var s := run[n];
    TopsLinked(s);
    WalkIsList(s.globalNext, Tops(s.global));
    if g < |s.global| {
      assert GlobalAt(s, g);
      WalkIsList(s.localNext, s.global[g]);
    }
  }

  /** A slot is read through a remembered head only if the index is constructed. */
  lemma RememberedSlotsExist(run: seq<State>, n: nat, t: Tid)
    requires IsRun(run) && n < |run| && t in run[n].threads
    ensures var s, pc := run[n], run[n].threads[t];
      && (pc.PopNext? ==> 1 <= pc.h.idx <= s.size && pc.h.idx <= s.cap)
      && (pc.GNext? ==> 1 <= pc.gh.idx <= s.size && pc.gh.idx <= s.cap)
  {
    RunInv(run, n);
    assert PcOK(run[n], run[n].threads[t]);
  }

  // ---------------------------------------------------------------- the capacity guarantee

  /** What a thread that runs alone knows of the lists it found empty. */
  ghost predicate SawEmpty(s: State, pc: Pc) {
    match pc
    case GLoad(l, h) => l < |s.locals| && s.locals[l] == []
    case GNext(l, h, gh) => l < |s.locals| && s.locals[l] == []
    case GCas(l, h, gh, next) => l < |s.locals| && s.locals[l] == []
    case Grow(l) => l < |s.locals| && s.locals[l] == [] && s.global == []
    case GrowInc(l) => l < |s.locals| && s.locals[l] == [] && s.global == [] && s.size < s.cap
    case Granted(l, idx) => idx == 0 ==> l < |s.locals| && s.locals[l] == [] && s.global == [] && s.size >= s.cap
    case _ => true
  }

  ghost predicate Alone(s: State, t: Tid) {
    s.threads.Keys == {t}
  }

  lemma AloneReads(s: State, s': State, t: Tid)
    requires Inv(s) && ReadStep(s, s', t) && SawEmpty(s, s.threads[t])
    ensures t in s'.threads && SawEmpty(s', s'.threads[t])
  {
    var pc := s.threads[t];
    assert PcOK(s, pc);
    if pc.PopLoad? {
      assert LocalOK(s, pc.l);
      if s.locals[pc.l] != [] { assert s.locals[pc.l][|s.locals[pc.l]| - 1] in s.place; }
    } else if pc.GLoad? {
      TopChunkIsConstructed(s);
    }
  }

  lemma AloneMarks(s: State, s': State, t: Tid)
    requires Domain(s) && ThreadsOK(s) && ThreadsPlaced(s) && SlotStep(s, s', t)
    ensures t in s'.threads && SawEmpty(s', s'.threads[t])
  {
    if s.threads[t].Mark? { SlotHolds(s, t); }
  }

  lemma AloneWrites(s: State, s': State, t: Tid)
    requires t in s.threads && SawEmpty(s, s.threads[t]) && t in s'.threads
    requires Return(s, s', t) || PopOk(s, s', t) || PushOk(s, s', t) || BulkOk(s, s', t) || GPopOk(s, s', t) || GPushOk(s, s', t) || GrowOk(s, s', t)
    ensures SawEmpty(s', s'.threads[t])
  {
  }

  lemma AloneStep(s: State, s': State, t: Tid)
    requires Inv(s) && Alone(s, t) && Alone(s', t) && Next(s, s') && SawEmpty(s, s.threads[t])
    ensures SawEmpty(s', s'.threads[t])
  {
    var u :| Step(s, s', u);
    assert t in s.threads && t in s'.threads;
    assert u == t by { OnlyMover(s, s', u, t); }
    if ReadStep(s, s', t) { AloneReads(s, s', t); }
    else if SlotStep(s, s', t) { AloneMarks(s, s', t); }
    else { AloneWrites(s, s', t); }
  }

  /** With one thread around before and after, nobody else can have moved. */
  lemma OnlyMover(s: State, s': State, u: Tid, t: Tid)
    requires Step(s, s', u) && Alone(s, t) && Alone(s', t)
    ensures u == t
  {
    assert u in s.threads || u in s'.threads;
  }

  lemma AloneNext(run: seq<State>, i: nat, t: Tid)
    requires IsRun(run) && i + 1 < |run| && Alone(run[i], t) && Alone(run[i + 1], t) && t in run[i].threads && SawEmpty(run[i], run[i].threads[t])
    ensures t in run[i + 1].threads && SawEmpty(run[i + 1], run[i + 1].threads[t])
  {
    RunInv(run, i);
    assert StepAt(run, i);
    AloneStep(run[i], run[i + 1], t);
  }

  lemma {:induction false} AloneRun(run: seq<State>, b: nat, e: nat, t: Tid)
    requires IsRun(run) && b <= e < |run| && (forall i :: b <= i <= e ==> Alone(run[i], t))
    requires t in run[b].threads && SawEmpty(run[b], run[b].threads[t])
    ensures t in run[e].threads && SawEmpty(run[e], run[e].threads[t])
  {
    assert Alone(run[e], t);
    if b < e {
      AloneRun(run, b, e - 1, t);
      AloneNext(run, e - 1, t);
    }
  }

  ghost function Elements(list: seq<nat>): set<nat> { set i | i in list }

  lemma {:induction false} ElementsBounded(list: seq<nat>)
    ensures |Elements(list)| <= |list|
  {
    if list == [] {
      assert Elements(list) == {};
    } else {
      var n := |list| - 1;
      ElementsBounded(list[..n]);
      assert Elements(list) == Elements(list[..n]) + {list[n]};
    }
  }

  /** Everything on the first `n` local lists except list `l`. */
  ghost function Elsewhere(s: State, n: nat, l: nat): set<nat>
    requires n <= |s.locals|
  {
    if n == 0 then {} else Elsewhere(s, n - 1, l) + if n - 1 == l then {} else Elements(s.locals[n - 1])
  }

  /** `limit` for each of the first `n` lists except list `l`. */
  function Room(n: nat, l: nat, limit: nat): (r: nat) {
    if n == 0 then 0 else Room(n - 1, l, limit) + if n - 1 == l then 0 else limit
  }

  lemma {:induction false} RoomIsProduct(n: nat, l: nat, limit: nat)
    ensures l >= n ==> Room(n, l, limit) == n * limit
    ensures l < n ==> Room(n, l, limit) == (n - 1) * limit
  {
    if n > 0 { RoomIsProduct(n - 1, l, limit); }
  }

  lemma {:induction false} ElsewhereBounded(s: State, n: nat, l: nat)
    requires n <= |s.locals| && forall m :: 0 <= m < |s.locals| ==> |s.locals[m]| <= s.limit
    ensures |Elsewhere(s, n, l)| <= Room(n, l, s.limit)
  {
    if n > 0 {
      ElsewhereBounded(s, n - 1, l);
      ElementsBounded(s.locals[n - 1]);
    }
  }

  lemma {:induction false} ElsewhereHolds(s: State, n: nat, l: nat, m: nat, i: nat)
    requires n <= |s.locals| && m < n && m != l && i in s.locals[m]
    ensures i in Elsewhere(s, n, l)
  {
    if m < n - 1 { ElsewhereHolds(s, n - 1, l, m, i); }
  }

  ghost function UpTo(n: nat): (r: set<nat>)
    ensures |r| == n && forall i :: i in r <==> 1 <= i <= n
  {
    if n == 0 then {} else UpTo(n - 1) + {n}
  }

  /** With list `l` and the global list empty and nothing in flight, the rest is owned or on the other lists. */
  lemma RestIsElsewhere(s: State, t: Tid, l: nat)
    requires Inv(s) && Alone(s, t) && Carry(s.threads[t]) == [] && l < |s.locals| && s.locals[l] == [] && s.global == [] && s.size >= s.cap
    ensures UpTo(s.cap) <= Owned(s) + Elsewhere(s, |s.locals|, l)
  {
    forall i | i in UpTo(s.cap) ensures i in Owned(s) + Elsewhere(s, |s.locals|, l) {
      assert i in s.place && Found(s, i);
      assert s.place[i].Own? || s.place[i].Local?;
      if s.place[i].Local? { ElsewhereHolds(s, |s.locals|, l, s.place[i].l, i); }
    }
  }

  /**
   `allocIndex` called with no other call in progress returns 0 only when at least `capacity()`
   indices, the slots less a full local list for every other stripe, are allocated.
   */
  lemma ZeroOnlyAtCapacity(run: seq<State>, b: nat, e: nat, t: Tid, l: nat)
    requires IsRun(run) && b < e < |run| && CallAlloc(run[b], run[b + 1], t, l) && (forall i :: b < i <= e ==> Alone(run[i], t))
    requires t in run[e].threads && run[e].threads[t].Granted? && run[e].threads[t].idx == 0
    ensures |Owned(run[e])| >= run[e].cap - (|run[e].heads| - 1) * run[e].limit
  {
    AloneRun(run, b + 1, e, t);
    RunInv(run, e);
    CapacityCount(run[e], t, run[e].threads[t].l);
  }

  lemma CapacityCount(s: State, t: Tid, l: nat)
    requires Inv(s) && Alone(s, t) && s.threads[t] == Granted(l, 0) && SawEmpty(s, s.threads[t])
    ensures |Owned(s)| >= s.cap - (|s.heads| - 1) * s.limit
  {
    RestIsElsewhere(s, t, l);
    forall m | 0 <= m < |s.locals| ensures |s.locals[m]| <= s.limit { assert LocalOK(s, m); }
    ElsewhereBounded(s, |s.locals|, l);
    RoomIsProduct(|s.locals|, l, s.limit);
    SubsetSize(UpTo(s.cap), Owned(s) + Elsewhere(s, |s.locals|, l));
  }

  lemma {:induction false} SubsetSize(a: set<nat>, b: set<nat>)
    requires a <= b
    ensures |a| <= |b|
  {
    if a != {} {
      var x :| x in a;
      SubsetSize(a - {x}, b - {x});
    }
  }

  // ---------------------------------------------------------------- capacity formulas, on 32 bits

  function MaxIndexForCapacity(capacity: nat, lists: nat, limit: nat): (r: nat)
    requires lists > 0
  {
    var wanted := capacity + (lists - 1) * limit;
    if wanted < 0xFFFF_FFFE then wanted else 0xFFFF_FFFE
  }

  function CapacityForMaxIndex(maxIndex: nat, lists: nat, limit: nat): (r: nat)
    requires lists > 0
  {
    (maxIndex - (lists - 1) * limit) % 0x1_0000_0000
  }

  /** The capacity asked for is the one reported exactly when slots for it and for the other stripes can be numbered. */
  lemma CapacityIsKept(capacity: nat, lists: nat, limit: nat)
    requires capacity < 0x1_0000_0000 && lists > 0 && (lists - 1) * limit <= 0xFFFF_FFFE
    ensures CapacityForMaxIndex(MaxIndexForCapacity(capacity, lists, limit), lists, limit) == capacity
            <==> capacity + (lists - 1) * limit <= 0xFFFF_FFFE
  {
  }

  /** The largest capacity that can be asked for, with the default 32 lists of 200, is reported as 6201 less. */
  lemma CapacityCanBeLost()
    ensures CapacityForMaxIndex(MaxIndexForCapacity(0xFFFF_FFFF, 32, 200), 32, 200) == 0xFFFF_FFFE - 6200
  {
  }
}
