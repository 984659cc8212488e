/** Whole calls on an AtomicHashArray: every answer says what the array was, or became, at an instant of the call. */
module AtomicHashArrayCalls {
  import opened Options
  import opened AtomicHashArray
  import opened AtomicHashArrayProof
  import opened AtomicHashArrayTheorems

  // ---------------------------------------------------------------- what the deciding steps do

  /** The cell holds the key and a value. */
  ghost predicate HoldsKey(s: State, k: int, c: nat) {
    c < |s.cells| && s.cells[c].key == Live(k) && s.cells[c].val.Some?
  }

  /** Cell `c` is overwritten, and no other. */
  ghost predicate Sets(s: State, s': State, c: nat, cell: Cell) { c < |s.cells| && s'.cells == s.cells[c := cell] }

  /** Key `k`, live nowhere before, becomes live in one cell with value `v`; nothing else changes in the cells. */
  ghost predicate PublishEffect(s: State, s': State, k: int, v: int) {
    !IsLive(s, k) && exists c :: Sets(s, s', c, Cell(Live(k), Some(v)))
  }

  /** Key `k`, live in one cell before, is live nowhere after; nothing else changes in the cells. */
  ghost predicate EraseEffect(s: State, s': State, k: int) {
    && !IsLive(s', k)
    && exists c: nat :: HoldsKey(s, k, c) && Sets(s, s', c, s.cells[c].(key := Erased))
  }

  /** An insert past its publication, one past an exception of the constructor, an erase past its mark. */
  ghost predicate Published(pc: Pc) { pc.Ins? && (pc.stage.PubDec? || pc.stage.Count? || pc.stage.MaybeFull? || pc.stage.Inserted?) }
  ghost predicate Aborted(pc: Pc) { pc.Ins? && (pc.stage.Abort? || pc.stage.AbortDec? || pc.stage.Threw?) }
  ghost predicate Removed(pc: Pc) { pc.Erase? && (pc.erase.EraseCount? || pc.erase.EraseOne?) }

  lemma InsertStepKeeps(s: State, s': State, t: Tid)
    requires Step(s, s', t) && s.threads[t].Ins?
    ensures var pc := s.threads[t]; t in s'.threads && s'.threads[t].Ins? && s'.threads[t].k == pc.k && s'.threads[t].v == pc.v
    ensures Published(s'.threads[t]) && !Published(s.threads[t]) ==> InsertCell(s, s', t) && s.threads[t].stage.Publish?
    ensures Aborted(s'.threads[t]) && !Aborted(s.threads[t]) ==> s.threads[t].stage.Build?
    ensures s'.threads[t].stage.Collided? ==> s.cells[s.threads[t].idx].key == Live(s.threads[t].k) && s'.threads[t].idx == s.threads[t].idx
  {
  }

  lemma PublishTakesEffect(s: State, s': State, t: Tid)
    requires Inv(s) && InsertCell(s, s', t) && s.threads[t].stage.Publish?
    ensures PublishEffect(s, s', s.threads[t].k, s.threads[t].v)
  {
    var pc := s.threads[t];
    assert PcOK(s, t, pc);
    StopIsSound(s, pc.k, pc.n);
    assert Sets(s, s', pc.idx, Cell(Live(pc.k), Some(pc.v)));
  }

  lemma FindStepKeeps(s: State, s': State, t: Tid)
    requires Step(s, s', t) && s.threads[t].Find?
    ensures t in s'.threads && s'.threads[t].Find? && s'.threads[t].k == s.threads[t].k && s.threads[t].find.FindProbe? && FindStep(s, s', t)
    ensures s'.threads[t].find.FindHit? ==> s.cells[s.threads[t].idx].key == Live(s.threads[t].k) && s'.threads[t].idx == s.threads[t].idx
  {
  }

  lemma EraseStepKeeps(s: State, s': State, t: Tid)
    requires Step(s, s', t) && s.threads[t].Erase?
    ensures t in s'.threads && s'.threads[t].Erase? && s'.threads[t].k == s.threads[t].k && EraseStep(s, s', t)
    ensures Removed(s'.threads[t]) && !Removed(s.threads[t]) ==>
      s.threads[t].erase.EraseCas? && s.cells[s.threads[t].idx].key == Live(s.threads[t].k)
    ensures s'.threads[t].erase.EraseNone? ==> s.threads[t].erase.EraseProbe? || s.threads[t].erase.EraseCas?
    ensures Removed(s.threads[t]) ==> Removed(s'.threads[t])
  {
  }

  lemma EraseTakesEffect(s: State, s': State, t: Tid)
    requires Inv(s) && EraseStep(s, s', t) && s.threads[t].erase.EraseCas? && s.cells[s.threads[t].idx].key == Live(s.threads[t].k)
    ensures EraseEffect(s, s', s.threads[t].k)
  {
    var pc := s.threads[t];
    assert HoldsKey(s, pc.k, pc.idx) && Sets(s, s', pc.idx, s.cells[pc.idx].(key := Erased));
    forall i: nat | i < |s'.cells| ensures s'.cells[i].key != Live(pc.k) {
      if i != pc.idx && s.cells[i].key == Live(pc.k) { LiveOnce(s, i, pc.idx); }
    }
  }

  // ---------------------------------------------------------------- calls

  /** Thread `t` is in a call from state `b + 1` to state `e`. */
  ghost predicate InCall(run: seq<State>, b: nat, e: nat, t: Tid) {
    b < e < |run| && forall i: nat :: b < i <= e ==> t in run[i].threads
  }

  lemma MovesOrWaits(run: seq<State>, i: nat, t: Tid)
    requires IsRun(run) && i + 1 < |run| && t in run[i].threads && t in run[i + 1].threads
    ensures run[i + 1].threads[t] == run[i].threads[t] || Step(run[i], run[i + 1], t)
  {
    assert StepAt(run, i);
    var u :| Call(run[i], run[i + 1], u) || Step(run[i], run[i + 1], u) || Return(run[i], run[i + 1], u);
    if u != t && Step(run[i], run[i + 1], u) { StepMoves(run[i], run[i + 1], u); }
  }

  /** The same operation on the same key, and for an insert with the same value. */
  ghost predicate SameCall(pc: Pc, pc': Pc) {
    && pc'.k == pc.k && (pc.Ins? <==> pc'.Ins?) && (pc.Find? <==> pc'.Find?) && (pc.Ins? ==> pc'.v == pc.v)
  }

  lemma {:induction false} CallIsKept(run: seq<State>, b: nat, e: nat, t: Tid)
    requires IsRun(run) && InCall(run, b, e, t)
    ensures SameCall(run[b + 1].threads[t], run[e].threads[t])
    decreases e
  {
    if e > b + 1 {
      CallIsKept(run, b, e - 1, t);
      MovesOrWaits(run, e - 1, t);
      var s, s' := run[e - 1], run[e];
      if s'.threads[t] != s.threads[t] {
        if s.threads[t].Ins? { InsertStepKeeps(s, s', t); }
        else if s.threads[t].Find? { FindStepKeeps(s, s', t); }
        else { EraseStepKeeps(s, s', t); }
      }
    }
  }

  // ---------------------------------------------------------------- insert

  lemma {:induction false} PublishedSince(run: seq<State>, b: nat, e: nat, t: Tid, k: int, v: int) returns (m: nat)
    requires IsRun(run) && InCall(run, b, e, t) && CallInsert(run[b], run[b + 1], t, k, v) && Published(run[e].threads[t])
    ensures b < m < e && InsertCell(run[m], run[m + 1], t) && PublishEffect(run[m], run[m + 1], k, v)
    decreases e
  {
    if b < e - 1 && Published(run[e - 1].threads[t]) {
      m := PublishedSince(run, b, e - 1, t, k, v);
    } else {
      m := e - 1;
      CallIsKept(run, b, m, t);
      MovesOrWaits(run, m, t);
      InsertStepKeeps(run[m], run[m + 1], t);
      RunInv(run, m);
      PublishTakesEffect(run[m], run[m + 1], t);
    }
  }

  lemma {:induction false} AbortedSince(run: seq<State>, b: nat, e: nat, t: Tid, k: int, v: int) returns (m: nat)
    requires IsRun(run) && InCall(run, b, e, t) && CallInsert(run[b], run[b + 1], t, k, v) && Aborted(run[e].threads[t])
    ensures b < m < e && run[m].threads[t].Ins? && run[m].threads[t].stage.Build? && Aborted(run[m + 1].threads[t])
    decreases e
  {
    if b < e - 1 && Aborted(run[e - 1].threads[t]) {
      m := AbortedSince(run, b, e - 1, t, k, v);
    } else {
      m := e - 1;
      CallIsKept(run, b, m, t);
      MovesOrWaits(run, m, t);
      InsertStepKeeps(run[m], run[m + 1], t);
    }
  }

  lemma {:induction false} CollidedSince(run: seq<State>, b: nat, e: nat, t: Tid, k: int, v: int) returns (m: nat)
    requires IsRun(run) && InCall(run, b, e, t) && CallInsert(run[b], run[b + 1], t, k, v) && run[e].threads[t].Ins? && run[e].threads[t].stage.Collided?
    ensures b < m < e && HoldsKey(run[m], k, run[e].threads[t].idx)
    decreases e
  {
    assert e > b + 1;
    CallIsKept(run, b, e - 1, t);
    MovesOrWaits(run, e - 1, t);
    if run[e - 1].threads[t] == run[e].threads[t] {
      m := CollidedSince(run, b, e - 1, t, k, v);
    } else {
      m := e - 1;
      InsertStepKeeps(run[m], run[m + 1], t);
      RunInv(run, m);
    }
  }

  /** `isFull_` is set by inserts that see at least `maxEntries_` entries. */
  ghost predicate FullHasEntries(s: State) {
    s.full != 0 ==> s.entries >= s.max
  }

  lemma CounterStepFills(s: State, s': State, t: Tid)
    requires FullHasEntries(s) && InsertCounter(s, s', t) && (s.threads[t].stage.Seal? ==> s.full != 0)
    ensures FullHasEntries(s')
  {
  }

  lemma OtherStepFills(s: State, s': State, t: Tid)
    requires InsertLocal(s, s', t) || InsertCell(s, s', t) || FindStep(s, s', t) || EraseStep(s, s', t)
    ensures s'.full == s.full && s'.entries == s.entries && s'.max == s.max
  {
  }

  lemma SealerSawFull(s: State, t: Tid)
    requires Inv(s) && t in s.threads && s.threads[t].Ins? && s.threads[t].stage.Seal?
    ensures s.full != 0
  {
    assert PcOK(s, t, s.threads[t]);
  }

  lemma FullHasEntriesStep(s: State, s': State, t: Tid)
    requires Inv(s) && FullHasEntries(s) && (Call(s, s', t) || Step(s, s', t) || Return(s, s', t))
    ensures FullHasEntries(s')
  {
    if InsertCounter(s, s', t) {
      if s.threads[t].stage.Seal? { SealerSawFull(s, t); }
      CounterStepFills(s, s', t);
    } else if Step(s, s', t) {
      OtherStepFills(s, s', t);
    }
  }

  lemma {:induction false} FullHasEntriesAlways(run: seq<State>, i: nat)
    requires IsRun(run) && i < |run|
    ensures FullHasEntries(run[i])
  {
    if i > 0 {
      FullHasEntriesAlways(run, i - 1);
      RunInv(run, i - 1);
      assert StepAt(run, i - 1);
      var t :| Call(run[i - 1], run[i], t) || Step(run[i - 1], run[i], t) || Return(run[i - 1], run[i], t);
      FullHasEntriesStep(run[i - 1], run[i], t);
    }
  }

  /**
   What an `insert(k, v)` says when it returns. Inserted: a step of the call made `k`, live nowhere, live with value
   `v`. Collided: the cell it names held `k` with a value during the call. Full: `k` is not here and
   never will be, and `maxEntries_` entries were made or no cell is left. Threw: the constructor did.
   */
  lemma InsertAnswers(run: seq<State>, b: nat, e: nat, t: Tid, k: int, v: int)
    requires IsRun(run) && InCall(run, b, e, t) && CallInsert(run[b], run[b + 1], t, k, v)
    ensures run[e].threads[t].Ins?
    ensures run[e].threads[t].stage.Inserted? ==>
      exists m: nat :: b < m < e && InsertCell(run[m], run[m + 1], t) && PublishEffect(run[m], run[m + 1], k, v)
    ensures run[e].threads[t].stage.Collided? ==> exists m: nat :: b < m < e && HoldsKey(run[m], k, run[e].threads[t].idx)
    ensures run[e].threads[t].stage.Full? ==> Dead(run[e], k) && (run[e].entries >= run[e].max || AllPermanent(run[e]))
    ensures run[e].threads[t].stage.Threw? ==>
      exists m: nat :: b < m < e && run[m].threads[t].Ins? && run[m].threads[t].stage.Build? && Aborted(run[m + 1].threads[t])
  {
    CallIsKept(run, b, e, t);
    var pc := run[e].threads[t];
    if pc.stage.Inserted? { var m := PublishedSince(run, b, e, t, k, v); }
    if pc.stage.Collided? { var m := CollidedSince(run, b, e, t, k, v); }
    if pc.stage.Full? {
      FullIsDead(run, e, t);
      FullHasEntriesAlways(run, e);
    }
    if pc.stage.Threw? { var m := AbortedSince(run, b, e, t, k, v); }
  }

  // ---------------------------------------------------------------- find

  lemma {:induction false} FindDecided(run: seq<State>, b: nat, e: nat, t: Tid, k: int) returns (m: nat)
    requires IsRun(run) && InCall(run, b, e, t) && CallFind(run[b], run[b + 1], t, k) && run[e].threads[t].Find? && !run[e].threads[t].find.FindProbe?
    ensures b < m < e && run[m + 1].threads[t] == run[e].threads[t] && FindStep(run[m], run[m + 1], t) && Finding(run, b + 1, m, t, k)
    decreases e
  {
    m := e - 1;
    CallIsKept(run, b, m, t);
    MovesOrWaits(run, m, t);
    if run[m].threads[t].find.FindProbe? {
      FindStepKeeps(run[m], run[m + 1], t);
      StillProbing(run, b, m, t, k);
    } else {
      if run[m].threads[t] != run[e].threads[t] { FindStepKeeps(run[m], run[m + 1], t); }
      m := FindDecided(run, b, m, t, k);
    }
  }

  lemma {:induction false} StillProbing(run: seq<State>, b: nat, e: nat, t: Tid, k: int)
    requires IsRun(run) && InCall(run, b, e, t) && CallFind(run[b], run[b + 1], t, k) && run[e].threads[t].Find? && run[e].threads[t].find.FindProbe?
    ensures Finding(run, b + 1, e, t, k)
    decreases e
  {
    CallIsKept(run, b, e, t);
    if e > b + 1 {
      CallIsKept(run, b, e - 1, t);
      MovesOrWaits(run, e - 1, t);
      if run[e - 1].threads[t] != run[e].threads[t] { FindStepKeeps(run[e - 1], run[e], t); }
      StillProbing(run, b, e - 1, t, k);
    }
  }

  /** What a `find(k)` says when it returns. Hit: the cell it names held `k` with a value during the call. Miss: `k` was not live at some instant of it. */
  lemma FindAnswers(run: seq<State>, b: nat, e: nat, t: Tid, k: int)
    requires IsRun(run) && InCall(run, b, e, t) && CallFind(run[b], run[b + 1], t, k)
    ensures run[e].threads[t].Find?
    ensures run[e].threads[t].find.FindHit? ==> exists m: nat :: b < m < e && HoldsKey(run[m], k, run[e].threads[t].idx)
    ensures run[e].threads[t].find.FindMiss? ==> exists m: nat :: b < m < e && !IsLive(run[m], k)
  {
    CallIsKept(run, b, e, t);
    if !run[e].threads[t].find.FindProbe? {
      var m := FindDecided(run, b, e, t, k);
      RunInv(run, m);
      if run[e].threads[t].find.FindHit? {
        FindStepKeeps(run[m], run[m + 1], t);
        assert HoldsKey(run[m], k, run[e].threads[t].idx);
      } else {
        FindMissIsJustified(run, b + 1, m, t, k);
      }
    }
  }

  // ---------------------------------------------------------------- erase

  ghost predicate StillErasing(pc: Pc) { pc.Erase? && (pc.erase.EraseProbe? || pc.erase.EraseCas?) }

  lemma {:induction false} ErasingSoFar(run: seq<State>, b: nat, e: nat, t: Tid, k: int)
    requires IsRun(run) && InCall(run, b, e, t) && CallErase(run[b], run[b + 1], t, k) && StillErasing(run[e].threads[t])
    ensures Erasing(run, b + 1, e, t, k)
    decreases e
  {
    CallIsKept(run, b, e, t);
    if e > b + 1 {
      CallIsKept(run, b, e - 1, t);
      MovesOrWaits(run, e - 1, t);
      if run[e - 1].threads[t] != run[e].threads[t] { EraseStepKeeps(run[e - 1], run[e], t); }
      ErasingSoFar(run, b, e - 1, t, k);
    }
  }

  lemma {:induction false} RemovedSince(run: seq<State>, b: nat, e: nat, t: Tid, k: int) returns (m: nat)
    requires IsRun(run) && InCall(run, b, e, t) && CallErase(run[b], run[b + 1], t, k) && Removed(run[e].threads[t])
    ensures b < m < e && EraseStep(run[m], run[m + 1], t) && EraseEffect(run[m], run[m + 1], k)
    decreases e
  {
    if b < e - 1 && Removed(run[e - 1].threads[t]) {
      m := RemovedSince(run, b, e - 1, t, k);
    } else {
      m := e - 1;
      CallIsKept(run, b, m, t);
      MovesOrWaits(run, m, t);
      EraseStepKeeps(run[m], run[m + 1], t);
      RunInv(run, m);
      EraseTakesEffect(run[m], run[m + 1], t);
    }
  }

  lemma {:induction false} MissedSince(run: seq<State>, b: nat, e: nat, t: Tid, k: int) returns (m: nat)
    requires IsRun(run) && InCall(run, b, e, t) && CallErase(run[b], run[b + 1], t, k) && run[e].threads[t].Erase? && run[e].threads[t].erase.EraseNone?
    ensures b < m < e && !IsLive(run[m], k)
    decreases e
  {
    m := e - 1;
    CallIsKept(run, b, m, t);
    MovesOrWaits(run, m, t);
    if run[m].threads[t] == run[e].threads[t] {
      m := MissedSince(run, b, m, t, k);
    } else {
      EraseStepKeeps(run[m], run[m + 1], t);
      ErasingSoFar(run, b, m, t, k);
      EraseMissIsJustified(run, b + 1, m, t, k);
      m :| b + 1 <= m <= e - 1 && !IsLive(run[m], k);
    }
  }

  /** What an `erase(k)` says when it returns. One: a step of the call took `k`, live before, out. None: `k` was not live at some instant of the call. */
  lemma EraseAnswers(run: seq<State>, b: nat, e: nat, t: Tid, k: int)
    requires IsRun(run) && InCall(run, b, e, t) && CallErase(run[b], run[b + 1], t, k)
    ensures run[e].threads[t].Erase?
    ensures run[e].threads[t].erase.EraseOne? ==>
      exists m: nat :: b < m < e && EraseStep(run[m], run[m + 1], t) && EraseEffect(run[m], run[m + 1], k)
    ensures run[e].threads[t].erase.EraseNone? ==> exists m: nat :: b < m < e && !IsLive(run[m], k)
  {
    CallIsKept(run, b, e, t);
    if run[e].threads[t].erase.EraseOne? { var m := RemovedSince(run, b, e, t, k); }
    if run[e].threads[t].erase.EraseNone? { var m := MissedSince(run, b, e, t, k); }
  }
}
