/**
 What every step on one folly::AtomicHashArray keeps, and what follows over whole runs.
 */
module AtomicHashArrayProof {
  import opened Options
  import opened AtomicHashArray

  lemma InitInv(s: State)
    requires Init(s)
    ensures Inv(s)
  {
    assert Owing(s, Pending) == {} && Owing(s, Uncounted) == {} && Owing(s, Unerased) == {};
    assert Taken(s) == {} && ErasedCells(s) == {};
  }

  // ---------------------------------------------------------------- what never goes back

  /** A published cell keeps its value, and its key until the key is erased; `isFull_` is never cleared. */
  ghost predicate Grows(s: State, s': State) {
    && s'.cap == s.cap && s'.mask == s.mask && s'.hash == s.hash && |s'.cells| == |s.cells|
    && (s.full != 0 ==> s'.full != 0)
    && forall i :: 0 <= i < |s.cells| && Permanent(s.cells[i]) ==>
        Permanent(s'.cells[i]) && s'.cells[i].val == s.cells[i].val
        && (s'.cells[i].key == s.cells[i].key || s'.cells[i].key == Erased)
  }

  lemma PassedStays(s: State, s': State, k: int, n: nat)
    requires Shape(s) && Grows(s, s') && Passed(s, k, n)
    ensures Passed(s', k, n)
  {
    forall m: nat | m < n && m < s.cap ensures Permanent(s'.cells[At(s', k, m)]) && s'.cells[At(s', k, m)].key != Live(k) {
      assert At(s', k, m) == At(s, k, m);
      assert Permanent(s.cells[At(s, k, m)]);
    }
  }

  /** Only `t` moves, and locked cells of other threads stay locked. */
  ghost predicate OnlyMoves(s: State, s': State, t: Tid) {
    && |s'.cells| == |s.cells|
    && forall u :: u != t ==> (u in s.threads <==> u in s'.threads) && (u in s.threads ==> s'.threads[u] == s.threads[u])
  }

  ghost predicate Spares(s: State, s': State, t: Tid) {
    && OnlyMoves(s, s', t)
    && forall u :: u in s.threads && u != t && Holds(s.threads[u]) && s.threads[u].idx < |s.cells| ==>
        s'.cells[s.threads[u].idx] == s.cells[s.threads[u].idx]
  }

  lemma StepSparesCell(s: State, s': State, t: Tid, u: Tid)
    requires Shape(s) && ThreadsOK(s) && OneHolder(s) && Step(s, s', t)
    requires u in s.threads && u != t && Holds(s.threads[u])
    ensures s.threads[u].idx < |s.cells| == |s'.cells| && s'.cells[s.threads[u].idx] == s.cells[s.threads[u].idx]
  {
    assert PcOK(s, u, s.threads[u]) && PcOK(s, t, s.threads[t]);
  }

  lemma InsertLocalMoves(s: State, s': State, t: Tid)
    requires InsertLocal(s, s', t)
    ensures OnlyMoves(s, s', t)
  {
  }

  lemma InsertCounterMoves(s: State, s': State, t: Tid)
    requires InsertCounter(s, s', t)
    ensures OnlyMoves(s, s', t)
  {
  }

  lemma InsertCellMoves(s: State, s': State, t: Tid)
    requires InsertCell(s, s', t)
    ensures OnlyMoves(s, s', t)
  {
  }

  lemma FindStepMoves(s: State, s': State, t: Tid)
    requires FindStep(s, s', t)
    ensures OnlyMoves(s, s', t)
  {
  }

  lemma EraseStepMoves(s: State, s': State, t: Tid)
    requires EraseStep(s, s', t)
    ensures OnlyMoves(s, s', t)
  {
  }

  lemma StepMoves(s: State, s': State, t: Tid)
    requires Step(s, s', t)
    ensures OnlyMoves(s, s', t)
  {
    if InsertLocal(s, s', t) { InsertLocalMoves(s, s', t); }
    else if InsertCounter(s, s', t) { InsertCounterMoves(s, s', t); }
    else if InsertCell(s, s', t) { InsertCellMoves(s, s', t); }
    else if FindStep(s, s', t) { FindStepMoves(s, s', t); }
    else { EraseStepMoves(s, s', t); }
  }

  lemma StepSpares(s: State, s': State, t: Tid)
    requires Shape(s) && ThreadsOK(s) && OneHolder(s) && Step(s, s', t)
    ensures Spares(s, s', t)
  {
    StepMoves(s, s', t);
    forall u | u in s.threads && u != t && Holds(s.threads[u]) && s.threads[u].idx < |s.cells|
      ensures s'.cells[s.threads[u].idx] == s.cells[s.threads[u].idx]
    {
      StepSparesCell(s, s', t, u);
    }
  }

  lemma StepGrows(s: State, s': State, t: Tid)
    requires Shape(s) && ThreadsOK(s) && Step(s, s', t)
    ensures Grows(s, s')
  {
    assert PcOK(s, t, s.threads[t]);
  }

  lemma StaysOut(s: State, s': State, t: Tid)
    requires Step(s, s', t) && s.full != 0 && !InLockRegion(s.threads[t])
    ensures s'.full != 0 && t in s'.threads && !InLockRegion(s'.threads[t])
  {
  }

  lemma EdgeStaysOut(s: State, s': State, t: Tid)
    requires Call(s, s', t) || Return(s, s', t)
    ensures s'.full == s.full && OnlyMoves(s, s', t) && (t in s'.threads ==> !InLockRegion(s'.threads[t]))
  {
  }

  /** `Sealed` is for ever: a thread can pass the check of `isFull_` only while it is clear. */
  lemma SealedStays(s: State, s': State, t: Tid)
    requires Sealed(s) && (Call(s, s', t) || Step(s, s', t) || Return(s, s', t))
    ensures Sealed(s')
  {
    if Step(s, s', t) {
      StepMoves(s, s', t);
      StaysOut(s, s', t);
    } else {
      EdgeStaysOut(s, s', t);
    }
  }

  /** Once no key can be gained, none is. */
  lemma NothingGained(s: State, s': State, t: Tid)
    requires Shape(s) && ThreadsOK(s) && NeverGains(s) && (Call(s, s', t) || Step(s, s', t) || Return(s, s', t))
    ensures NeverGains(s')
    ensures forall k :: IsLive(s', k) ==> IsLive(s, k)
  {
    if Sealed(s) { SealedStays(s, s', t); }
    if Step(s, s', t) {
      StepGrows(s, s', t);
      assert PcOK(s, t, s.threads[t]);
      forall i | 0 <= i < |s.cells| && s'.cells[i].key.Live? ensures s'.cells[i].key == s.cells[i].key {
        assert Sealed(s) ==> !InLockRegion(s.threads[t]);
        assert AllPermanent(s) ==> Permanent(s.cells[i]);
      }
    }
    forall k | IsLive(s', k) ensures IsLive(s, k) {
      var i :| 0 <= i < |s'.cells| && s'.cells[i].key == Live(k);
      assert s.cells[i].key == Live(k);
    }
  }

  lemma DeadStays(s: State, s': State, t: Tid, k: int)
    requires Shape(s) && ThreadsOK(s) && Dead(s, k) && (Call(s, s', t) || Step(s, s', t) || Return(s, s', t))
    ensures Dead(s', k)
  {
    NothingGained(s, s', t);
  }

  lemma PcStays(s: State, s': State, t: Tid, u: Tid)
    requires Shape(s) && ThreadsOK(s) && Grows(s, s') && Spares(s, s', t) && u in s.threads && u != t
    requires Call(s, s', t) || Step(s, s', t) || Return(s, s', t)
    ensures u in s'.threads && PcOK(s', u, s'.threads[u])
  {
    var pc := s.threads[u];
    assert PcOK(s, u, pc);
    assert At(s', pc.k, pc.n) == At(s, pc.k, pc.n);
    if Passed(s, pc.k, pc.n) { PassedStays(s, s', pc.k, pc.n); }
    if Sealed(s) { SealedStays(s, s', t); }
    if Dead(s, pc.k) { DeadStays(s, s', t, pc.k); }
  }

  ghost predicate SelfOK(s: State, t: Tid)
    requires Shape(s)
  {
    forall u :: u == t && u in s.threads ==> PcOK(s, u, s.threads[u])
  }

  lemma ThreadsStay(s: State, s': State, t: Tid)
    requires Shape(s) && ThreadsOK(s) && Grows(s, s') && Spares(s, s', t) && SelfOK(s', t)
    requires Call(s, s', t) || Step(s, s', t) || Return(s, s', t)
    ensures ThreadsOK(s')
  {
    forall u | u in s'.threads ensures PcOK(s', u, s'.threads[u]) {
      if u != t { PcStays(s, s', t, u); }
    }
  }

  // ---------------------------------------------------------------- what the paths say

  /** A live key occupies exactly one cell. */
  lemma LiveOnce(s: State, i: nat, j: nat)
    requires Shape(s) && PathsOK(s) && i < s.cap && j < s.cap && s.cells[i].key.Live? && s.cells[i].key == s.cells[j].key
    ensures i == j
  {
    var k := s.cells[i].key.k;
    assert PathOK(s, i) && PathOK(s, j);
    assert At(s, k, Pos(s, k, i)) == i && At(s, k, Pos(s, k, j)) == j;
  }

  /** Stopping a probe at a cell that is not taken for good is sound: the key is nowhere. */
  lemma StopIsSound(s: State, k: int, n: nat)
    requires Shape(s) && PathsOK(s) && n < s.cap && Passed(s, k, n) && !Permanent(s.cells[At(s, k, n)])
    ensures !IsLive(s, k)
  {
    forall i: nat | i < |s.cells| ensures s.cells[i].key != Live(k) {
      assert PathOK(s, i) && At(s, k, Pos(s, k, i)) == i;
    }
  }

  lemma AllPassed(s: State, k: int)
    requires Shape(s) && Passed(s, k, s.cap)
    ensures AllPermanent(s) && !IsLive(s, k)
  {
    forall i: nat | i < |s.cells| ensures Permanent(s.cells[i]) && s.cells[i].key != Live(k) {
      assert At(s, k, Pos(s, k, i)) == i;
    }
  }

  lemma PassOne(s: State, k: int, n: nat)
    requires Shape(s) && n < s.cap && Passed(s, k, n) && Permanent(s.cells[At(s, k, n)]) && s.cells[At(s, k, n)].key != Live(k)
    ensures Passed(s, k, n + 1)
  {
  }

  lemma NextAt(s: State, k: int, n: nat)
    requires s.cap > 0 && s.mask > 0 && n + 1 < s.cap
    ensures ProbeNext(s.cap, At(s, k, n)) == At(s, k, n + 1)
  {
  }

  // ---------------------------------------------------------------- the moving thread

  lemma CompareSelf(s: State, s': State, t: Tid)
    requires InsertLocal(s, s', t) && s.threads[t].stage.Compare? && Shape(s) && PcOK(s, t, s.threads[t])
    ensures Shape(s') && SelfOK(s', t)
  {
    var pc := s.threads[t];
    if Permanent(s.cells[pc.idx]) && s.cells[pc.idx].key != Live(pc.k) {
      PassOne(s, pc.k, pc.n);
      if pc.n + 1 < s.cap {
        NextAt(s, pc.k, pc.n);
        PassedStays(s, s', pc.k, pc.n + 1);
      } else {
        AllPassed(s, pc.k);
        assert AllPermanent(s');
      }
    } else {
      PassedStays(s, s', pc.k, pc.n);
    }
  }

  lemma SpinSelf(s: State, s': State, t: Tid)
    requires Shape(s) && ThreadsOK(s) && InsertLocal(s, s', t) && s.threads[t].stage.Spin? && Sealed(s)
    ensures Shape(s') && SelfOK(s', t)
  {
    assert PcOK(s, t, s.threads[t]);
    PassedStays(s, s', s.threads[t].k, s.threads[t].n);
    SealedStays(s, s', t);
  }

  lemma RecheckSelf(s: State, s': State, t: Tid)
    requires Shape(s) && ThreadsOK(s) && PathsOK(s) && InsertLocal(s, s', t) && s.threads[t].stage.Recheck?
    ensures Shape(s') && SelfOK(s', t)
  {
    var pc := s.threads[t];
    assert PcOK(s, t, pc);
    PassedStays(s, s', pc.k, pc.n);
    SealedStays(s, s', t);
    if s.cells[pc.idx].key == Empty { StopIsSound(s, pc.k, pc.n); }
  }

  lemma ProbeSelf(s: State, s': State, t: Tid)
    requires Shape(s) && ThreadsOK(s) && InsertLocal(s, s', t) && (s.threads[t].stage.Probe? || s.threads[t].stage.Check?)
    ensures Shape(s') && SelfOK(s', t)
  {
    assert PcOK(s, t, s.threads[t]);
    PassedStays(s, s', s.threads[t].k, s.threads[t].n);
  }

  lemma LocalSelf(s: State, s': State, t: Tid)
    requires Shape(s) && ThreadsOK(s) && PathsOK(s) && CountersOK(s) && (s.full == NO_PENDING_INSERTS ==> Sealed(s))
    requires InsertLocal(s, s', t)
    ensures Shape(s') && SelfOK(s', t)
  {
    match s.threads[t].stage
    case Spin =>
      if s.full != NO_PENDING_INSERTS {
        assert PcOK(s, t, s.threads[t]);
        NoPendingSeals(s);
      }
      SpinSelf(s, s', t);
    case Recheck => RecheckSelf(s, s', t);
    case Compare =>
      assert PcOK(s, t, s.threads[t]);
      CompareSelf(s, s', t);
    case _ => ProbeSelf(s, s', t);
  }

  /** A full read of zero pending inserts, taken while `isFull_` is set, means nobody is past the check. */
  lemma NoPendingSeals(s: State)
    requires CountersOK(s) && s.pending == 0 && s.full != 0
    ensures Sealed(s)
  {
    forall t | t in s.threads ensures !InLockRegion(s.threads[t]) {
      assert t !in Owing(s, Pending);
    }
  }

  lemma CounterSelf(s: State, s': State, t: Tid)
    requires Shape(s) && ThreadsOK(s) && InsertCounter(s, s', t)
    ensures Shape(s') && SelfOK(s', t)
  {
    assert PcOK(s, t, s.threads[t]);
    if s.threads[t].stage.Seal? {
      PassedStays(s, s', s.threads[t].k, s.threads[t].n);
      SealedStays(s, s', t);
    } else {
      CountSelf(s, s', t);
    }
  }

  lemma CountSelf(s: State, s': State, t: Tid)
    requires InsertCounter(s, s', t) && !s.threads[t].stage.Seal? && Shape(s) && PcOK(s, t, s.threads[t])
    ensures Shape(s') && SelfOK(s', t)
  {
    var pc := s.threads[t];
    if Passed(s, pc.k, pc.n) { PassedStays(s, s', pc.k, pc.n); }
  }

  lemma CellSelf(s: State, s': State, t: Tid)
    requires Shape(s) && ThreadsOK(s) && InsertCell(s, s', t) && Grows(s, s')
    ensures Shape(s') && SelfOK(s', t)
  {
    var pc := s.threads[t];
    assert PcOK(s, t, pc);
    PassedStays(s, s', pc.k, pc.n);
  }

  lemma ReadSelf(s: State, s': State, t: Tid)
    requires Shape(s) && ThreadsOK(s) && (FindStep(s, s', t) || EraseStep(s, s', t))
    ensures Shape(s') && SelfOK(s', t)
  {
    if FindStep(s, s', t) { FindSelf(s, s', t); } else { EraseSelf(s, s', t); }
  }

  lemma FindSelf(s: State, s': State, t: Tid)
    requires Shape(s) && ThreadsOK(s) && FindStep(s, s', t)
    ensures Shape(s') && SelfOK(s', t)
  {
    var pc := s.threads[t];
    assert PcOK(s, t, pc);
    if pc.n + 1 < s.cap { NextAt(s, pc.k, pc.n); }
  }

  lemma EraseSelf(s: State, s': State, t: Tid)
    requires Shape(s) && ThreadsOK(s) && EraseStep(s, s', t)
    ensures Shape(s') && SelfOK(s', t)
  {
    var pc := s.threads[t];
    assert PcOK(s, t, pc);
    if pc.n + 1 < s.cap { NextAt(s, pc.k, pc.n); }
  }

  // ---------------------------------------------------------------- cells and counters

  lemma SameCells(s: State, s': State)
    requires Shape(s) && PathsOK(s) && ValuesOK(s) && Grows(s, s') && s'.cells == s.cells
    ensures Shape(s') && PathsOK(s') && ValuesOK(s') && Taken(s') == Taken(s) && ErasedCells(s') == ErasedCells(s)
  {
    forall i: nat | i < s'.cap ensures PathOK(s', i) {
      assert PathOK(s, i);
      if s.cells[i].key.Live? { PassedStays(s, s', s.cells[i].key.k, Pos(s, s.cells[i].key.k, i)); }
    }
  }

  /** One cell changes, and not to a live key unless its path allows it. */
  lemma OneCell(s: State, s': State, c: nat)
    requires Shape(s) && PathsOK(s) && ValuesOK(s) && Grows(s, s') && c < s.cap
    requires forall i :: 0 <= i < s.cap && i != c ==> s'.cells[i] == s.cells[i]
    requires s'.cells[c].key.Live? ==> Passed(s, s'.cells[c].key.k, Pos(s, s'.cells[c].key.k, c))
    requires Permanent(s'.cells[c]) ==> s'.cells[c].val.Some?
    ensures Shape(s') && PathsOK(s') && ValuesOK(s')
  {
    forall i: nat | i < s'.cap ensures PathOK(s', i) {
      assert PathOK(s, i);
      if s'.cells[i].key.Live? { PassedStays(s, s', s'.cells[i].key.k, Pos(s, s'.cells[i].key.k, i)); }
    }
  }

  ghost function Share(s: State, t: Tid, duty: Duty): int {
    if t in s.threads && Owes(duty, s.threads[t]) then 1 else 0
  }

  lemma Drop(a: set<Tid>, t: Tid)
    ensures |a| == |a - {t}| + (if t in a then 1 else 0)
  {
    if t in a { assert a == (a - {t}) + {t}; } else { assert a == a - {t}; }
  }

  lemma OwingMoves(s: State, s': State, t: Tid, duty: Duty)
    requires OnlyMoves(s, s', t)
    ensures |Owing(s', duty)| - Share(s', t, duty) == |Owing(s, duty)| - Share(s, t, duty)
  {
    Drop(Owing(s, duty), t);
    Drop(Owing(s', duty), t);
    assert Owing(s', duty) - {t} == Owing(s, duty) - {t};
  }

  lemma CountersMove(s: State, s': State, t: Tid)
    requires CountersOK(s) && OnlyMoves(s, s', t)
    requires s'.pending - s.pending == Share(s', t, Pending) - Share(s, t, Pending)
    requires (|Taken(s')| - s'.entries) - (|Taken(s)| - s.entries) == Share(s', t, Uncounted) - Share(s, t, Uncounted)
    requires (|ErasedCells(s')| - s'.erases) - (|ErasedCells(s)| - s.erases) == Share(s', t, Unerased) - Share(s, t, Unerased)
    ensures CountersOK(s')
  {
    OwingMoves(s, s', t, Pending);
    OwingMoves(s, s', t, Uncounted);
    OwingMoves(s, s', t, Unerased);
  }

  // ---------------------------------------------------------------- every step keeps the invariant

  lemma Assemble(s: State, s': State, t: Tid)
    requires Inv(s) && (Call(s, s', t) || Step(s, s', t) || Return(s, s', t))
    requires Grows(s, s') && Spares(s, s', t) && Shape(s') && SelfOK(s', t)
    requires PathsOK(s') && ValuesOK(s') && OneHolder(s') && CountersOK(s')
    requires s'.full == NO_PENDING_INSERTS ==> Sealed(s')
    ensures Inv(s')
  {
    ThreadsStay(s, s', t);
  }

  /** Steps that write no cell. */
  lemma NoCellInv(s: State, s': State, t: Tid)
    requires Inv(s) && Step(s, s', t) && s'.cells == s.cells
    requires s'.full == NO_PENDING_INSERTS ==> s.full == NO_PENDING_INSERTS || Sealed(s)
    requires Shape(s') && SelfOK(s', t) && CountersOK(s') && (t in s'.threads && Holds(s'.threads[t]) ==> Holds(s.threads[t]) && s.threads[t].idx == s'.threads[t].idx)
    ensures Inv(s')
  {
    StepGrows(s, s', t);
    StepSpares(s, s', t);
    SameCells(s, s');
    if Sealed(s) { SealedStays(s, s', t); }
    Assemble(s, s', t);
  }

  /** The step changes no cell and only the counters that go with what `t` owes. */
  ghost predicate Bookkeeping(s: State, s': State, t: Tid) {
    && s'.cells == s.cells && OnlyMoves(s, s', t)
    && s'.pending - s.pending == Share(s', t, Pending) - Share(s, t, Pending)
    && s.entries - s'.entries == Share(s', t, Uncounted) - Share(s, t, Uncounted)
    && s.erases - s'.erases == Share(s', t, Unerased) - Share(s, t, Unerased)
  }

  lemma Booked(s: State, s': State, t: Tid)
    requires CountersOK(s) && Bookkeeping(s, s', t)
    ensures CountersOK(s')
  {
    assert Taken(s') == Taken(s) && ErasedCells(s') == ErasedCells(s);
    CountersMove(s, s', t);
  }

  lemma LocalBooks(s: State, s': State, t: Tid)
    requires InsertLocal(s, s', t)
    ensures Bookkeeping(s, s', t) && s'.full == s.full && (t in s'.threads ==> !Holds(s'.threads[t]))
  {
    InsertLocalMoves(s, s', t);
  }

  lemma FindBooks(s: State, s': State, t: Tid)
    requires FindStep(s, s', t)
    ensures Bookkeeping(s, s', t) && s'.full == s.full && (t in s'.threads ==> !Holds(s'.threads[t]))
  {
    FindStepMoves(s, s', t);
  }

  lemma CounterBooks(s: State, s': State, t: Tid)
    requires InsertCounter(s, s', t)
    ensures Bookkeeping(s, s', t) && (t in s'.threads ==> !Holds(s'.threads[t]))
    ensures s'.full == NO_PENDING_INSERTS ==> s.full == NO_PENDING_INSERTS || s.threads[t].stage.Seal?
  {
    InsertCounterMoves(s, s', t);
  }

  lemma LocalInv(s: State, s': State, t: Tid)
    requires Inv(s) && (InsertLocal(s, s', t) || FindStep(s, s', t))
    ensures Inv(s')
  {
    if InsertLocal(s, s', t) {
      LocalSelf(s, s', t);
      LocalBooks(s, s', t);
    } else {
      ReadSelf(s, s', t);
      FindBooks(s, s', t);
    }
    Booked(s, s', t);
    NoCellInv(s, s', t);
  }

  lemma CounterInv(s: State, s': State, t: Tid)
    requires Inv(s) && InsertCounter(s, s', t)
    ensures Inv(s')
  {
    CounterSelf(s, s', t);
    CounterBooks(s, s', t);
    Booked(s, s', t);
    assert PcOK(s, t, s.threads[t]);
    NoCellInv(s, s', t);
  }

  lemma PublishCounters(s: State, s': State, t: Tid)
    requires CountersOK(s) && InsertCell(s, s', t) && s.threads[t].stage.Publish? && s.cells[s.threads[t].idx].key == Locked
    ensures CountersOK(s')
  {
    InsertCellMoves(s, s', t);
    assert ErasedCells(s') == ErasedCells(s);
    assert Taken(s') == Taken(s) + {s.threads[t].idx} && s.threads[t].idx !in Taken(s);
    CountersMove(s, s', t);
  }

  lemma CellCounters(s: State, s': State, t: Tid)
    requires CountersOK(s) && InsertCell(s, s', t) && (Holds(s.threads[t]) ==> s.cells[s.threads[t].idx].key == Locked)
    ensures CountersOK(s')
  {
    if s.threads[t].stage.Publish? {
      PublishCounters(s, s', t);
    } else {
      InsertCellMoves(s, s', t);
      assert ErasedCells(s') == ErasedCells(s) && Taken(s') == Taken(s);
      CountersMove(s, s', t);
    }
  }

  lemma CellPaths(s: State, s': State, t: Tid)
    requires Shape(s) && ThreadsOK(s) && PathsOK(s) && ValuesOK(s) && InsertCell(s, s', t) && Grows(s, s')
    ensures Shape(s') && PathsOK(s') && ValuesOK(s')
  {
    var pc := s.threads[t];
    assert PcOK(s, t, pc);
    assert Pos(s, pc.k, pc.idx) == pc.n;
    if s'.cells == s.cells {
      SameCells(s, s');
    } else {
      assert s'.cells[pc.idx].key.Live? ==> s'.cells[pc.idx].key == Live(pc.k);
      assert forall i :: 0 <= i < s.cap && i != pc.idx ==> s'.cells[i] == s.cells[i];
      CellPath(s, s', pc);
    }
  }

  lemma CellPath(s: State, s': State, pc: Pc)
    requires Shape(s) && PathsOK(s) && ValuesOK(s) && Grows(s, s') && pc.idx < s.cap
    requires forall i :: 0 <= i < s.cap && i != pc.idx ==> s'.cells[i] == s.cells[i]
    requires s'.cells[pc.idx].key.Live? ==> s'.cells[pc.idx].key == Live(pc.k) && Passed(s, pc.k, pc.n) && Pos(s, pc.k, pc.idx) == pc.n
    requires Permanent(s'.cells[pc.idx]) ==> s'.cells[pc.idx].val.Some?
    ensures Shape(s') && PathsOK(s') && ValuesOK(s')
  {
    OneCell(s, s', pc.idx);
  }

  lemma CellHolder(s: State, s': State, t: Tid)
    requires Shape(s) && ThreadsOK(s) && OneHolder(s) && InsertCell(s, s', t)
    ensures OneHolder(s')
  {
    assert PcOK(s, t, s.threads[t]);
    forall u | u in s.threads && u != t && Holds(s.threads[u]) ensures s.cells[s.threads[u].idx].key == Locked {
      assert PcOK(s, u, s.threads[u]);
    }
  }

  lemma CellInv(s: State, s': State, t: Tid)
    requires Inv(s) && InsertCell(s, s', t)
    ensures Inv(s')
  {
    assert PcOK(s, t, s.threads[t]);
    StepGrows(s, s', t);
    StepSpares(s, s', t);
    CellSelf(s, s', t);
    CellCounters(s, s', t);
    CellPaths(s, s', t);
    CellHolder(s, s', t);
    if Sealed(s) { SealedStays(s, s', t); }
    Assemble(s, s', t);
  }

  lemma EraseCounters(s: State, s': State, t: Tid)
    requires CountersOK(s) && EraseStep(s, s', t)
    ensures CountersOK(s') && s'.full == s.full
  {
    var pc := s.threads[t];
    StepMoves(s, s', t);
    assert Taken(s') == Taken(s);
    if pc.erase.EraseCas? && s.cells[pc.idx].key == Live(pc.k) {
      assert ErasedCells(s') == ErasedCells(s) + {pc.idx} && pc.idx !in ErasedCells(s);
    } else {
      assert ErasedCells(s') == ErasedCells(s);
    }
    CountersMove(s, s', t);
  }

  lemma ErasePaths(s: State, s': State, t: Tid)
    requires Shape(s) && PathsOK(s) && ValuesOK(s) && EraseStep(s, s', t) && Grows(s, s')
    ensures Shape(s') && PathsOK(s') && ValuesOK(s')
  {
    var c := s.threads[t].idx;
    assert PathOK(s, c);
    OneCell(s, s', c);
  }

  lemma EraseHolder(s: State, s': State, t: Tid)
    requires OneHolder(s) && EraseStep(s, s', t)
    ensures OneHolder(s')
  {
    EraseStepMoves(s, s', t);
    assert t in s'.threads && !Holds(s'.threads[t]);
  }

  lemma EraseInv(s: State, s': State, t: Tid)
    requires Inv(s) && EraseStep(s, s', t)
    ensures Inv(s')
  {
    StepGrows(s, s', t);
    StepSpares(s, s', t);
    ReadSelf(s, s', t);
    EraseCounters(s, s', t);
    ErasePaths(s, s', t);
    EraseHolder(s, s', t);
    if Sealed(s) { SealedStays(s, s', t); }
    Assemble(s, s', t);
  }

  lemma StepInv(s: State, s': State, t: Tid)
    requires Inv(s) && Step(s, s', t)
    ensures Inv(s')
  {
    if InsertLocal(s, s', t) || FindStep(s, s', t) { LocalInv(s, s', t); }
    else if InsertCounter(s, s', t) { CounterInv(s, s', t); }
    else if InsertCell(s, s', t) { CellInv(s, s', t); }
    else { EraseInv(s, s', t); }
  }

  lemma EdgeBooks(s: State, s': State, t: Tid)
    requires Call(s, s', t) || Return(s, s', t)
    ensures Bookkeeping(s, s', t) && Grows(s, s') && s'.full == s.full && (t in s'.threads ==> !Holds(s'.threads[t]))
  {
  }

  lemma EdgeSelf(s: State, s': State, t: Tid)
    requires Shape(s) && (Call(s, s', t) || Return(s, s', t))
    ensures Shape(s') && SelfOK(s', t)
  {
  }

  lemma EdgeHolder(s: State, s': State, t: Tid)
    requires OneHolder(s) && OnlyMoves(s, s', t) && s'.cells == s.cells && (t in s'.threads ==> !Holds(s'.threads[t]))
    ensures OneHolder(s') && Spares(s, s', t)
  {
  }

  lemma EdgeInv(s: State, s': State, t: Tid)
    requires Inv(s) && (Call(s, s', t) || Return(s, s', t))
    ensures Inv(s')
  {
    EdgeBooks(s, s', t);
    EdgeSelf(s, s', t);
    EdgeHolder(s, s', t);
    Booked(s, s', t);
    SameCells(s, s');
    if Sealed(s) { SealedStays(s, s', t); }
    Assemble(s, s', t);
  }

  lemma NextInv(s: State, s': State)
    requires Inv(s) && Next(s, s')
    ensures Inv(s')
  {
    var t :| Call(s, s', t) || Step(s, s', t) || Return(s, s', t);
    if Step(s, s', t) { StepInv(s, s', t); } else { EdgeInv(s, s', t); }
  }
}
