/** Whole calls of `allocIndex` and `recycleIndex`: what a call does with the index it is given or gives out. */
module IndexedMemPoolCalls {
  import opened IndexedMemPool
  import opened IndexedMemPoolProof
  import opened IndexedMemPoolTheorems

  /** Thread `t` is in a call from state `b + 1` to state `e`. */
  ghost predicate InCall(run: seq<State>, b: nat, e: nat, t: Tid) {
    b < e < |run| && forall i: nat :: b < i <= e ==> t in run[i].threads
  }

  /** A step of a thread within its call. */
  ghost predicate OwnStep(s: State, s': State, t: Tid) {
    || ReadStep(s, s', t) || SlotStep(s, s', t)
    || PopOk(s, s', t) || PushOk(s, s', t) || BulkOk(s, s', t) || GPopOk(s, s', t) || GPushOk(s, s', t) || GrowOk(s, s', t)
  }

  lemma OthersWaitForReads(s: State, s': State, u: Tid, t: Tid)
    requires (ReadStep(s, s', u) || SlotStep(s, s', u)) && t != u && t in s.threads && t in s'.threads
    ensures s'.threads[t] == s.threads[t]
  {
  }

  lemma OthersGoOn(s: State, s': State, u: Tid, t: Tid)
    requires Step(s, s', u) && t != u && t in s.threads && t in s'.threads
    ensures s'.threads[t] == s.threads[t]
  {
    if ReadStep(s, s', u) || SlotStep(s, s', u) { OthersWaitForReads(s, s', u, t); }
  }

  lemma MovesOrWaits(run: seq<State>, i: nat, t: Tid)
    requires IsRun(run) && i + 1 < |run| && t in run[i].threads && t in run[i + 1].threads
    ensures run[i + 1].threads[t] == run[i].threads[t] || OwnStep(run[i], run[i + 1], t)
  {
    assert StepAt(run, i);
    var u :| Step(run[i], run[i + 1], u);
    if u != t { OthersGoOn(run[i], run[i + 1], u, t); }
  }

  // ---------------------------------------------------------------- who owns what

  /** A step takes from the owned indices the one whose recycling begins, adds the one that is granted, and else leaves them as they are. */
  ghost predicate Ownership(s: State, s': State) {
    || Owned(s') == Owned(s)
    || (exists idx :: RecycleBegins(s, s', idx) && idx in Owned(s) && Owned(s') == Owned(s) - {idx})
    || (exists t :: SlotStep(s, s', t) && Grants(s, s', t))
  }

  ghost predicate Grants(s: State, s': State, t: Tid) {
    && t in s.threads && s.threads[t].Mark?
    && s.threads[t].idx !in Owned(s) && Owned(s') == Owned(s) + {s.threads[t].idx}
  }

  /** A local head is 0 if and only if its list is empty; if not it points to the top. */
  lemma HeadIsTop(s: State, l: nat)
    requires Inv(s) && l < |s.heads|
    ensures l < |s.locals| && (s.heads[l].idx == 0 <==> s.locals[l] == [])
    ensures s.heads[l].idx != 0 ==> s.heads[l].idx in s.place && s.place[s.heads[l].idx].Local?
  {
    assert LocalOK(s, l);
    if |s.locals[l]| > 0 { assert s.locals[l][|s.locals[l]| - 1] in s.place; }
  }

  /** The index a thread is about to push, mark or hand on is not owned. */
  lemma HeldIsNotOwned(s: State, t: Tid)
    requires Inv(s) && t in s.threads
    ensures var pc := s.threads[t]; pc.Mark? || pc.PushCas? || pc.BulkCas? ==> pc.idx in s.place && s.place[pc.idx].Flight?
  {
    var pc := s.threads[t];
    assert CarryPlaced(s, t, Carry(pc)) && PcOK(s, pc);
    if pc.Mark? || pc.PushCas? || pc.BulkCas? { assert pc.idx == Carry(pc)[|Carry(pc)| - 1]; }
  }

  lemma ListStepsKeepOwned(s: State, s': State, t: Tid)
    requires Inv(s) && (PopOk(s, s', t) || PushOk(s, s', t) || BulkOk(s, s', t) || GPopOk(s, s', t) || GPushOk(s, s', t) || GrowOk(s, s', t))
    ensures Owned(s') == Owned(s)
  {
    HeldIsNotOwned(s, t);
    assert PcOK(s, s.threads[t]);
    if PopOk(s, s', t) { HeadIsTop(s, s.threads[t].l); }
  }

  lemma PlainStepsKeepOwned(s: State, s': State, t: Tid)
    requires Return(s, s', t) || ReadStep(s, s', t) || (exists l :: CallAlloc(s, s', t, l)) || (SlotStep(s, s', t) && !s.threads[t].Mark?)
    ensures Owned(s') == Owned(s)
  {
    assert s'.place == s.place;
  }

  lemma MarkGrants(s: State, s': State, t: Tid)
    requires Inv(s) && SlotStep(s, s', t) && s.threads[t].Mark?
    ensures Grants(s, s', t)
  {
    HeldIsNotOwned(s, t);
  }

  lemma OwnershipStep(s: State, s': State, t: Tid)
    requires Inv(s) && Step(s, s', t)
    ensures Ownership(s, s')
  {
    if l, idx :| CallRecycle(s, s', t, l, idx) {
      assert RecycleBegins(s, s', idx);
    } else if SlotStep(s, s', t) && s.threads[t].Mark? {
      MarkGrants(s, s', t);
    } else if PopOk(s, s', t) || PushOk(s, s', t) || BulkOk(s, s', t) || GPopOk(s, s', t) || GPushOk(s, s', t) || GrowOk(s, s', t) {
      ListStepsKeepOwned(s, s', t);
    } else {
      PlainStepsKeepOwned(s, s', t);
    }
  }

  ghost predicate RecycleBegins(s: State, s': State, idx: nat) {
    exists t, l :: CallRecycle(s, s', t, l, idx)
  }

  /** The recycling of `idx` begins with step `i`. */
  ghost predicate RecycleBeginsAt(run: seq<State>, i: nat, idx: nat) {
    i + 1 < |run| && RecycleBegins(run[i], run[i + 1], idx)
  }

  /** An owned index stays owned until its owner begins to recycle it. */
  lemma {:induction false} OwnedUntilRecycled(run: seq<State>, b: nat, e: nat, idx: nat)
    requires IsRun(run) && b <= e < |run| && idx in Owned(run[b]) && forall i: nat :: b <= i < e ==> !RecycleBeginsAt(run, i, idx)
    ensures idx in Owned(run[e])
    decreases e
  {
    if b < e {
      OwnedUntilRecycled(run, b, e - 1, idx);
      RunInv(run, e - 1);
      assert StepAt(run, e - 1) && !RecycleBeginsAt(run, e - 1, idx);
      var t :| Step(run[e - 1], run[e], t);
      OwnershipStep(run[e - 1], run[e], t);
    }
  }

  // ---------------------------------------------------------------- recycleIndex

  ghost predicate RecyclePc(pc: Pc, l: nat, idx: nat) {
    match pc
    case PushLoad(m, i) => m == l && i == idx
    case PushNext(m, i, _) => m == l && i == idx
    case PushCas(m, i, _) => m == l && i == idx
    case GPushLoad(m, i, back, chunk) => m == l && i == idx && !back
    case GPushNext(m, i, back, _, chunk) => m == l && i == idx && !back
    case GPushCas(m, i, back, _, chunk) => m == l && i == idx && !back
    case Recycled => true
    case _ => false
  }

  /** Step `s` to `s'` pushes `idx` on local list `l`. */
  ghost predicate PushesLocal(s: State, s': State, l: nat, idx: nat) {
    l < |s.locals| && s'.locals == s.locals[l := s.locals[l] + [idx]] && s'.global == s.global && |s.locals[l]| < s.limit
  }

  /** Step `s` to `s'` takes the whole of local list `l`, which is full. */
  ghost predicate Steals(s: State, s': State, l: nat) {
    l < |s.locals| && s'.locals == s.locals[l := []] && s'.global == s.global && |s.locals[l]| == s.limit
  }

  /** Step `s` to `s'` pushes `chunk` on the global list. */
  ghost predicate PushesGlobal(s: State, s': State, chunk: seq<nat>) {
    s'.locals == s.locals && s'.global == s.global + [chunk]
  }

  /** What a step of the call may be, told by where it leads. */
  ghost predicate RecycleMoves(s: State, s': State, pc: Pc, pc': Pc, l: nat, idx: nat) {
    && RecyclePc(pc', l, idx)
    && (pc'.Recycled? ==> PushesLocal(s, s', l, idx) || (pc.GPushCas? && PushesGlobal(s, s', Carry(pc))))
    && (Carrying(pc') ==>
          if Carrying(pc) then Carry(pc') == Carry(pc) else Steals(s, s', l) && Carry(pc') == s.locals[l] + [idx])
  }

  lemma RecyclePushes(s: State, s': State, t: Tid, l: nat, idx: nat)
    requires t in s.threads && RecyclePc(s.threads[t], l, idx) && PushOk(s, s', t) && LocalsOK(s)
    ensures t in s'.threads && RecycleMoves(s, s', s.threads[t], s'.threads[t], l, idx)
  {
    assert LocalOK(s, l);
  }

  lemma RecycleStep(s: State, s': State, t: Tid, l: nat, idx: nat)
    requires t in s.threads && RecyclePc(s.threads[t], l, idx) && OwnStep(s, s', t) && LocalsOK(s)
    ensures t in s'.threads && RecycleMoves(s, s', s.threads[t], s'.threads[t], l, idx)
  {
    if PushOk(s, s', t) { RecyclePushes(s, s', t, l, idx); }
  }

  ghost predicate Carrying(pc: Pc) { pc.GPushLoad? || pc.GPushNext? || pc.GPushCas? }

  lemma RecycleNext(run: seq<State>, i: nat, t: Tid, l: nat, idx: nat)
    requires IsRun(run) && i + 1 < |run| && t in run[i].threads && t in run[i + 1].threads && RecyclePc(run[i].threads[t], l, idx)
    ensures RecyclePc(run[i + 1].threads[t], l, idx)
    ensures run[i + 1].threads[t] == run[i].threads[t] || (OwnStep(run[i], run[i + 1], t) && LocalsOK(run[i]))
  {
    MovesOrWaits(run, i, t);
    RunInv(run, i);
    if run[i + 1].threads[t] != run[i].threads[t] { RecycleStep(run[i], run[i + 1], t, l, idx); }
  }

  lemma {:induction false} RecycleIsKept(run: seq<State>, b: nat, e: nat, t: Tid, l: nat, idx: nat)
    requires IsRun(run) && InCall(run, b, e, t) && CallRecycle(run[b], run[b + 1], t, l, idx)
    ensures RecyclePc(run[e].threads[t], l, idx)
    decreases e
  {
    if e > b + 1 {
      RecycleIsKept(run, b, e - 1, t, l, idx);
      RecycleNext(run, e - 1, t, l, idx);
    }
  }

  /** A call that carries a list stole it, full, from list `l`, and put `idx` on top. */
  lemma {:induction false} StolenSince(run: seq<State>, b: nat, e: nat, t: Tid, l: nat, idx: nat) returns (m: nat)
    requires IsRun(run) && InCall(run, b, e, t) && CallRecycle(run[b], run[b + 1], t, l, idx) && Carrying(run[e].threads[t])
    ensures b < m < e && Steals(run[m], run[m + 1], l) && Carry(run[e].threads[t]) == run[m].locals[l] + [idx]
    decreases e
  {
    m := e - 1;
    assert m > b;
    RecycleIsKept(run, b, m, t, l, idx);
    RecycleNext(run, m, t, l, idx);
    if run[m].threads[t] == run[e].threads[t] {
      m := StolenSince(run, b, m, t, l, idx);
    } else {
      RecycleStep(run[m], run[e], t, l, idx);
      if Carrying(run[m].threads[t]) { m := StolenSince(run, b, m, t, l, idx); }
    }
  }

  lemma {:induction false} RecycledSince(run: seq<State>, b: nat, e: nat, t: Tid, l: nat, idx: nat) returns (m: nat)
    requires IsRun(run) && InCall(run, b, e, t) && CallRecycle(run[b], run[b + 1], t, l, idx) && run[e].threads[t].Recycled?
    ensures b < m < e && !run[m].threads[t].Recycled?
    ensures PushesLocal(run[m], run[m + 1], l, idx) || (run[m].threads[t].GPushCas? && PushesGlobal(run[m], run[m + 1], Carry(run[m].threads[t])))
    decreases e
  {
    m := e - 1;
    assert m > b;
    RecycleIsKept(run, b, m, t, l, idx);
    RecycleNext(run, m, t, l, idx);
    if run[m].threads[t].Recycled? {
      m := RecycledSince(run, b, m, t, l, idx);
    } else {
      RecycleStep(run[m], run[e], t, l, idx);
    }
  }

  /** Until it is back on a list the index is carried by the call, so that nobody owns it. */
  lemma RecyclingIsNotOwned(run: seq<State>, b: nat, i: nat, t: Tid, l: nat, idx: nat)
    requires IsRun(run) && InCall(run, b, i, t) && CallRecycle(run[b], run[b + 1], t, l, idx) && !run[i].threads[t].Recycled?
    ensures idx !in Owned(run[i])
  {
    RecycleIsKept(run, b, i, t, l, idx);
    RunInv(run, i);
    var carry := Carry(run[i].threads[t]);
    assert CarryPlaced(run[i], t, carry) && PcOK(run[i], run[i].threads[t]);
    assert carry[|carry| - 1] == idx;
  }

  /** Once back, a call stays back. */
  lemma {:induction false} NotYetRecycled(run: seq<State>, b: nat, i: nat, m: nat, t: Tid, l: nat, idx: nat)
    requires IsRun(run) && b < i <= m && InCall(run, b, m, t) && CallRecycle(run[b], run[b + 1], t, l, idx) && !run[m].threads[t].Recycled?
    ensures !run[i].threads[t].Recycled?
    decreases m
  {
    if i < m {
      MovesOrWaits(run, m - 1, t);
      NotYetRecycled(run, b, i, m - 1, t, l, idx);
    }
  }

  /**
   A call of `recycleIndex(idx)` takes `idx`, and only `idx`, from the owned indices when it begins. When it is over it has,
   at step `m`, pushed `idx` on its local list, which had room, or it has, at steps `from` and `m`, moved its full local list
   with `idx` on top to the global list. Until step `m` nobody owns `idx`.
   */
  lemma RecycleGivesBack(run: seq<State>, b: nat, e: nat, t: Tid, l: nat, idx: nat) returns (from: nat, m: nat)
    requires IsRun(run) && InCall(run, b, e, t) && CallRecycle(run[b], run[b + 1], t, l, idx) && run[e].threads[t].Recycled?
    ensures idx in Owned(run[b]) && Owned(run[b + 1]) == Owned(run[b]) - {idx}
    ensures b < from <= m < e && forall i: nat :: b < i <= m ==> idx !in Owned(run[i])
    ensures PushesLocal(run[m], run[m + 1], l, idx)
            || (from < m && Steals(run[from], run[from + 1], l) && PushesGlobal(run[m], run[m + 1], run[from].locals[l] + [idx]))
  {
    m := RecycledSince(run, b, e, t, l, idx);
    from := m;
    if !PushesLocal(run[m], run[m + 1], l, idx) { from := StolenSince(run, b, m, t, l, idx); }
    forall i: nat | b < i <= m ensures idx !in Owned(run[i]) {
      NotYetRecycled(run, b, i, m, t, l, idx);
      RecyclingIsNotOwned(run, b, i, t, l, idx);
    }
  }

  // ---------------------------------------------------------------- allocIndex

  ghost predicate AllocPc(pc: Pc, l: nat) {
    match pc
    case PopLoad(m) => m == l
    case PopNext(m, _) => m == l
    case PopCas(m, _, _) => m == l
    case BulkNext(m, _, _, _) => m == l
    case BulkCas(m, _, _, _, _) => m == l
    case Grow(m) => m == l
    case GrowInc(m) => m == l
    case Mark(m, _) => m == l
    case Granted(m, _) => m == l
    case GLoad(m, _) => m == l
    case GNext(m, _, _) => m == l
    case GCas(m, _, _, _) => m == l
    case GPushLoad(m, _, back, _) => m == l && back
    case GPushNext(m, _, back, _, _) => m == l && back
    case GPushCas(m, _, back, _, _) => m == l && back
    case _ => false
  }

  /** Between the load of an empty local head and the end of `globalPop`. */
  ghost predicate InGlobalPop(pc: Pc) { pc.GLoad? || pc.GNext? || pc.GCas? }

  /** After `globalPop` found nothing. */
  ghost predicate Growing(pc: Pc) { pc.Grow? || pc.GrowInc? }

  ghost predicate Failed(pc: Pc) { pc.Granted? && pc.idx == 0 }

  /** Step `s` to `s'` takes `idx` off the top of local list `l`. */
  ghost predicate PopsLocal(s: State, s': State, l: nat, idx: nat) {
    l < |s.locals| == |s'.locals| && s.locals[l] == s'.locals[l] + [idx] && s'.global == s.global && s'.size == s.size
  }

  /** Step `s` to `s'` puts the global sublist `chunk` on the empty local list `l`, but for its top `idx`. */
  ghost predicate Refills(s: State, s': State, l: nat, idx: nat, chunk: seq<nat>) {
    l < |s.locals| == |s'.locals| && s.locals[l] == [] && s'.locals[l] + [idx] == chunk && s'.global == s.global && s'.size == s.size
  }

  /** Step `s` to `s'` constructs slot `idx`. */
  ghost predicate Constructs(s: State, s': State, idx: nat) {
    idx == s'.size == s.size + 1 <= s.cap && s'.locals == s.locals && s'.global == s.global
  }

  ghost predicate Obtains(s: State, s': State, t: Tid, l: nat, idx: nat) {
    PopsLocal(s, s', l, idx) || (t in s.threads && Refills(s, s', l, idx, Carry(s.threads[t]))) || Constructs(s, s', idx)
  }

  /** What a step of the call may be, told by where it leads. */
  ghost predicate AllocMoves(s: State, pc: Pc, pc': Pc, l: nat) {
    && AllocPc(pc', l)
    && (pc'.Granted? && pc'.idx != 0 ==> pc == Mark(l, pc'.idx))
    && (Growing(pc') ==> Growing(pc) || (pc.GLoad? && s.ghead.idx == 0))
    && (InGlobalPop(pc') ==> InGlobalPop(pc) || (pc.PopLoad? && l < |s.heads| && s.heads[l].idx == 0))
    && (Failed(pc') && !pc.Mark? ==> Growing(pc) && s.size >= s.cap)
  }

  lemma AllocReads(s: State, s': State, t: Tid, l: nat)
    requires t in s.threads && AllocPc(s.threads[t], l) && ReadStep(s, s', t)
    ensures t in s'.threads && AllocMoves(s, s.threads[t], s'.threads[t], l)
  {
  }

  lemma AllocWrites(s: State, s': State, t: Tid, l: nat)
    requires t in s.threads && AllocPc(s.threads[t], l) && OwnStep(s, s', t) && !ReadStep(s, s', t)
    ensures t in s'.threads && AllocMoves(s, s.threads[t], s'.threads[t], l)
  {
  }

  lemma AllocStep(s: State, s': State, t: Tid, l: nat)
    requires t in s.threads && AllocPc(s.threads[t], l) && OwnStep(s, s', t)
    ensures t in s'.threads && AllocMoves(s, s.threads[t], s'.threads[t], l)
  {
    if ReadStep(s, s', t) { AllocReads(s, s', t, l); } else { AllocWrites(s, s', t, l); }
  }

  lemma PopObtains(s: State, s': State, t: Tid)
    requires Inv(s) && PopOk(s, s', t)
    ensures PopsLocal(s, s', s.threads[t].l, s.threads[t].h.idx)
  {
    var pc := s.threads[t];
    assert PcOK(s, pc) && LocalOK(s, pc.l);
    HeadIsTop(s, pc.l);
  }

  lemma BulkObtains(s: State, s': State, t: Tid)
    requires Inv(s) && BulkOk(s, s', t)
    ensures Refills(s, s', s.threads[t].l, s.threads[t].idx, Carry(s.threads[t]))
  {
    var pc := s.threads[t];
    assert PcOK(s, pc);
    HeadIsTop(s, pc.l);
  }

  lemma ObtainStep(s: State, s': State, t: Tid, l: nat)
    requires Inv(s) && t in s.threads && AllocPc(s.threads[t], l) && OwnStep(s, s', t) && t in s'.threads && s'.threads[t].Mark?
    ensures Obtains(s, s', t, l, s'.threads[t].idx)
  {
    if PopOk(s, s', t) { PopObtains(s, s', t); }
    else if BulkOk(s, s', t) { BulkObtains(s, s', t); }
    else { assert GrowOk(s, s', t); }
  }

  lemma AllocNext(run: seq<State>, i: nat, t: Tid, l: nat)
    requires IsRun(run) && i + 1 < |run| && t in run[i].threads && t in run[i + 1].threads && AllocPc(run[i].threads[t], l)
    ensures AllocPc(run[i + 1].threads[t], l)
    ensures run[i + 1].threads[t] == run[i].threads[t] || OwnStep(run[i], run[i + 1], t)
  {
    MovesOrWaits(run, i, t);
    if run[i + 1].threads[t] != run[i].threads[t] { AllocStep(run[i], run[i + 1], t, l); }
  }

  lemma {:induction false} AllocIsKept(run: seq<State>, b: nat, e: nat, t: Tid, l: nat)
    requires IsRun(run) && InCall(run, b, e, t) && CallAlloc(run[b], run[b + 1], t, l)
    ensures AllocPc(run[e].threads[t], l)
    decreases e
  {
    if e > b + 1 {
      AllocIsKept(run, b, e - 1, t, l);
      AllocNext(run, e - 1, t, l);
    }
  }

  lemma ObtainAt(run: seq<State>, i: nat, t: Tid, l: nat)
    requires IsRun(run) && i + 1 < |run| && t in run[i].threads && AllocPc(run[i].threads[t], l) && OwnStep(run[i], run[i + 1], t)
    requires t in run[i + 1].threads && run[i + 1].threads[t].Mark?
    ensures Obtains(run[i], run[i + 1], t, l, run[i + 1].threads[t].idx)
  {
    assert Inv(run[i]) by { RunInv(run, i); }
    ObtainStep(run[i], run[i + 1], t, l);
  }

  lemma {:induction false} ObtainedSince(run: seq<State>, b: nat, e: nat, t: Tid, l: nat) returns (m: nat)
    requires IsRun(run) && InCall(run, b, e, t) && CallAlloc(run[b], run[b + 1], t, l) && run[e].threads[t].Mark?
    ensures b < m < e && Obtains(run[m], run[m + 1], t, l, run[e].threads[t].idx)
    decreases e
  {
    m := e - 1;
    assert m > b;
    AllocIsKept(run, b, m, t, l);
    AllocNext(run, m, t, l);
    if run[m].threads[t] == run[e].threads[t] {
      m := ObtainedSince(run, b, m, t, l);
    } else {
      ObtainAt(run, m, t, l);
    }
  }

  lemma {:induction false} GrantedSince(run: seq<State>, b: nat, e: nat, t: Tid, l: nat) returns (m: nat)
    requires IsRun(run) && InCall(run, b, e, t) && CallAlloc(run[b], run[b + 1], t, l) && run[e].threads[t].Granted? && run[e].threads[t].idx != 0
    ensures b < m < e && SlotStep(run[m], run[m + 1], t) && run[m].threads[t] == Mark(l, run[e].threads[t].idx)
    decreases e
  {
    m := e - 1;
    assert m > b;
    AllocIsKept(run, b, m, t, l);
    AllocNext(run, m, t, l);
    if run[m].threads[t] == run[e].threads[t] {
      m := GrantedSince(run, b, m, t, l);
    } else {
      AllocStep(run[m], run[e], t, l);
    }
  }

  /**
   A call of `allocIndex` that returns an index got it, at step `from`, from the top of its local list, from the top of a
   sublist of the global list whose rest refilled its empty local list, or by constructing the next slot. At step `m`
   it granted the index, that nobody owned, to the caller.
   */
  lemma AllocGrants(run: seq<State>, b: nat, e: nat, t: Tid, l: nat) returns (from: nat, m: nat)
    requires IsRun(run) && InCall(run, b, e, t) && CallAlloc(run[b], run[b + 1], t, l) && run[e].threads[t].Granted? && run[e].threads[t].idx != 0
    ensures var idx := run[e].threads[t].idx;
      && b < from < m < e && Obtains(run[from], run[from + 1], t, l, idx)
      && idx <= run[m].cap && idx !in Owned(run[m]) && Owned(run[m + 1]) == Owned(run[m]) + {idx}
  {
    m := GrantedSince(run, b, e, t, l);
    from := ObtainedSince(run, b, m, t, l);
    GrantIsExclusive(run, m, t, t);
  }

  // ---------------------------------------------------------------- allocIndex that fails

  lemma MarkedIsNotZero(run: seq<State>, n: nat, t: Tid)
    requires IsRun(run) && n < |run| && t in run[n].threads
    ensures run[n].threads[t].Mark? ==> run[n].threads[t].idx != 0
  {
    RunInv(run, n);
    HeldIsNotOwned(run[n], t);
  }

  lemma {:induction false} FailedSince(run: seq<State>, b: nat, e: nat, t: Tid, l: nat) returns (m: nat)
    requires IsRun(run) && InCall(run, b, e, t) && CallAlloc(run[b], run[b + 1], t, l) && Failed(run[e].threads[t])
    ensures b < m < e && Growing(run[m].threads[t]) && run[m].size >= run[m].cap
    decreases e
  {
    m := e - 1;
    assert m > b;
    AllocIsKept(run, b, m, t, l);
    AllocNext(run, m, t, l);
    if run[m].threads[t] == run[e].threads[t] {
      m := FailedSince(run, b, m, t, l);
    } else {
      MarkedIsNotZero(run, m, t);
      AllocStep(run[m], run[e], t, l);
    }
  }

  lemma {:induction false} GrowingSince(run: seq<State>, b: nat, e: nat, t: Tid, l: nat) returns (m: nat)
    requires IsRun(run) && InCall(run, b, e, t) && CallAlloc(run[b], run[b + 1], t, l) && Growing(run[e].threads[t])
    ensures b < m < e && run[m].threads[t].GLoad? && run[m].ghead.idx == 0
    decreases e
  {
    m := e - 1;
    assert m > b;
    AllocIsKept(run, b, m, t, l);
    AllocNext(run, m, t, l);
    if run[m].threads[t] != run[e].threads[t] { AllocStep(run[m], run[e], t, l); }
    if Growing(run[m].threads[t]) { m := GrowingSince(run, b, m, t, l); }
  }

  lemma {:induction false} GlobalPopSince(run: seq<State>, b: nat, e: nat, t: Tid, l: nat) returns (m: nat)
    requires IsRun(run) && InCall(run, b, e, t) && CallAlloc(run[b], run[b + 1], t, l) && InGlobalPop(run[e].threads[t])
    ensures b < m < e && l < |run[m].heads| && run[m].heads[l].idx == 0
    decreases e
  {
    m := e - 1;
    assert m > b;
    AllocIsKept(run, b, m, t, l);
    AllocNext(run, m, t, l);
    if run[m].threads[t] != run[e].threads[t] { AllocStep(run[m], run[e], t, l); }
    if InGlobalPop(run[m].threads[t]) { m := GlobalPopSince(run, b, m, t, l); }
  }

  /** A call of `allocIndex` that returns 0 found, one after the other, its local list empty, the global list empty, and every slot constructed. */
  lemma AllocFails(run: seq<State>, b: nat, e: nat, t: Tid, l: nat) returns (i: nat, j: nat, k: nat)
    requires IsRun(run) && InCall(run, b, e, t) && CallAlloc(run[b], run[b + 1], t, l) && Failed(run[e].threads[t])
    ensures b < i < j < k < e
    ensures l < |run[i].locals| && run[i].locals[l] == [] && run[j].global == [] && run[k].size >= run[k].cap
  {
    k := FailedSince(run, b, e, t, l);
    j := GrowingSince(run, b, k, t, l);
    i := GlobalPopSince(run, b, j, t, l);
    RunInv(run, i);
    HeadIsTop(run[i], l);
    RunInv(run, j);
    TopChunkIsConstructed(run[j]);
  }
}
