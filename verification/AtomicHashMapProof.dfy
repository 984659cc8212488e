/** The invariant of AtomicHashMap is kept by every step. */
module AtomicHashMapProof {
  import opened AtomicHashMap
  import A = AtomicHashArray
  import P = AtomicHashArrayProof

  lemma InitInv(s: State)
    requires Init(s)
    ensures Inv(s)
  {
    P.InitInv(s.subs[0]);
    EmptyHasNoKeys(s.subs[0]);
  }

  lemma EmptyHasNoKeys(a: A.State)
    requires A.Init(a)
    ensures forall k :: !A.IsLive(a, k)
    ensures a.threads == map[]
  {
  }

  // ---------------------------------------------------------------- one submap moves

  ghost predicate SubMove(a: A.State, a': A.State, t: Tid) {
    A.Call(a, a', t) || A.Step(a, a', t) || A.Return(a, a', t)
  }

  /** What the chain needs to know of a move of `t` inside a submap. */
  ghost predicate Harmless(a: A.State, a': A.State, t: Tid) {
    && A.Inv(a')
    && (forall k :: A.Dead(a, k) ==> A.Dead(a', k))
    && (forall k :: A.IsLive(a', k) && !A.IsLive(a, k) ==> t in a.threads && a.threads[t].Ins? && a.threads[t].k == k)
    && (forall u :: u != t ==> (u in a.threads <==> u in a'.threads) && (u in a.threads ==> a'.threads[u] == a.threads[u]))
  }

  lemma MoveIsHarmless(a: A.State, a': A.State, t: Tid)
    requires A.Inv(a) && SubMove(a, a', t)
    ensures Harmless(a, a', t)
  {
    MoveKeepsDead(a, a', t);
    MoveGains(a, a', t);
    MoveSpares(a, a', t);
    MoveInv(a, a', t);
  }

  lemma MoveInv(a: A.State, a': A.State, t: Tid)
    requires A.Inv(a) && SubMove(a, a', t)
    ensures A.Inv(a')
  {
    if A.Step(a, a', t) { P.StepInv(a, a', t); } else { P.EdgeInv(a, a', t); }
  }

  lemma MoveSpares(a: A.State, a': A.State, t: Tid)
    requires SubMove(a, a', t)
    ensures forall u :: u != t ==> (u in a.threads <==> u in a'.threads) && (u in a.threads ==> a'.threads[u] == a.threads[u])
  {
    if A.Step(a, a', t) { P.StepMoves(a, a', t); }
  }

  lemma MoveGains(a: A.State, a': A.State, t: Tid)
    requires SubMove(a, a', t)
    ensures forall k :: A.IsLive(a', k) && !A.IsLive(a, k) ==> t in a.threads && a.threads[t].Ins? && a.threads[t].k == k
  {
    if A.Step(a, a', t) { StepGains(a, a', t); }
  }

  lemma MoveKeepsDead(a: A.State, a': A.State, t: Tid)
    requires A.Inv(a) && SubMove(a, a', t)
    ensures forall k :: A.Dead(a, k) ==> A.Dead(a', k)
  {
    forall k | A.Dead(a, k) ensures A.Dead(a', k) { P.DeadStays(a, a', t, k); }
  }

  lemma StepGains(a: A.State, a': A.State, t: Tid)
    requires A.Step(a, a', t)
    ensures forall k :: A.IsLive(a', k) && !A.IsLive(a, k) ==> t in a.threads && a.threads[t].Ins? && a.threads[t].k == k
  {
    forall k | A.IsLive(a', k) && !A.IsLive(a, k) ensures t in a.threads && a.threads[t].Ins? && a.threads[t].k == k {
      var i :| 0 <= i < |a'.cells| && a'.cells[i].key == A.Live(k);
      assert i < |a.cells| ==> a.cells[i].key != A.Live(k);
    }
  }

  lemma StepKeepsCall(a: A.State, a': A.State, t: Tid, op: Op, k: int)
    requires A.Step(a, a', t) && Matches(op, k, a.threads[t])
    ensures t in a'.threads && Matches(op, k, a'.threads[t])
  {
  }

  // ---------------------------------------------------------------- moves inside submap i

  ghost predicate OneSub(s: State, s': State, t: Tid, i: nat) {
    && i < s.numMaps && i < |s.subs| && |s'.subs| == |s.subs| && s'.subs == s.subs[i := s'.subs[i]]
    && s'.numMaps == s.numMaps && s'.locked == s.locked
    && t in s.threads && t in s'.threads && s'.threads == s.threads[t := s'.threads[t]]
    && SubMove(s.subs[i], s'.subs[i], t)
  }

  lemma DeadBelowStays(s: State, s': State, t: Tid, i: nat, k: int, n: nat)
    requires OneSub(s, s', t, i) && Harmless(s.subs[i], s'.subs[i], t) && DeadBelow(s, k, n)
    ensures DeadBelow(s', k, n)
  {
  }

  lemma GainerHasPassed(s: State, t: Tid, i: nat, k: int)
    requires ThreadsOK(s) && Accounted(s) && i < |s.subs| && t in s.subs[i].threads
    requires s.subs[i].threads[t].Ins? && s.subs[i].threads[t].k == k
    ensures DeadBelow(s, k, i)
  {
    assert PcOK(s, t, s.threads[t]);
  }

  lemma ChainStays(s: State, s': State, t: Tid, i: nat)
    requires ChainOK(s) && ThreadsOK(s) && Accounted(s) && OneSub(s, s', t, i) && Harmless(s.subs[i], s'.subs[i], t)
    ensures ChainOK(s')
  {
    forall m: nat, k | m < |s'.subs| && A.IsLive(s'.subs[m], k) ensures DeadBelow(s', k, m) {
      if m == i && !A.IsLive(s.subs[i], k) { GainerHasPassed(s, t, i, k); }
      assert A.IsLive(s.subs[m], k) ==> DeadBelow(s, k, m);
      DeadBelowStays(s, s', t, i, k, m);
    }
  }

  lemma OthersStay(s: State, s': State, t: Tid, i: nat, u: Tid)
    requires ThreadsOK(s) && OneSub(s, s', t, i) && Harmless(s.subs[i], s'.subs[i], t) && u in s.threads && u != t
    ensures PcOK(s', u, s'.threads[u])
  {
    var pc := s.threads[u];
    assert PcOK(s, u, pc);
    match pc {
      case Enter(op, k, v, n, j) => if op.Insert? { DeadBelowStays(s, s', t, i, k, j); }
      case In(op, k, v, n, j) => if op.Insert? { DeadBelowStays(s, s', t, i, k, j); }
      case Grow(k, v, n) => DeadBelowStays(s, s', t, i, k, n);
      case Alloc(k, v, n) => DeadBelowStays(s, s', t, i, k, n);
      case Publish(k, v, n) => DeadBelowStays(s, s', t, i, k, n);
      case Wait(k, v, n) => DeadBelowStays(s, s', t, i, k, n);
      case _ =>
    }
  }

  /** Everything but the moving thread's own assertion. */
  lemma SubInv(s: State, s': State, t: Tid, i: nat)
    requires Inv(s) && OneSub(s, s', t, i) && Harmless(s.subs[i], s'.subs[i], t)
    requires PcOK(s', t, s'.threads[t]) && !Making(s'.threads[t])
    requires t in s'.subs[i].threads ==> s'.threads[t].In? && s'.threads[t].i == i
    requires forall m :: 0 <= m < |s.subs| && m != i ==> t !in s.subs[m].threads
    ensures Inv(s')
  {
    ChainStays(s, s', t, i);
    forall u | u in s'.threads ensures PcOK(s', u, s'.threads[u]) {
      if u != t { OthersStay(s, s', t, i, u); }
    }
    assert Accounted(s') by {
      forall m, u | 0 <= m < |s'.subs| && u in s'.subs[m].threads
        ensures u in s'.threads && s'.threads[u].In? && s'.threads[u].i == m
      {
        if u != t { assert u in s.subs[m].threads; }
      }
    }
  }

  lemma EnterInv(s: State, s': State, t: Tid)
    requires Inv(s) && DoEnter(s, s', t)
    ensures Inv(s')
  {
    var pc := s.threads[t];
    var i := pc.i;
    assert PcOK(s, t, pc);
    assert SubMove(s.subs[i], s'.subs[i], t) by { EnterMoves(s.subs[i], s'.subs[i], t, pc.op, pc.k, pc.v); }
    MoveIsHarmless(s.subs[i], s'.subs[i], t);
    if pc.op.Insert? { DeadBelowStays(s, s', t, i, pc.k, i); }
    EnterMoves(s.subs[i], s'.subs[i], t, pc.op, pc.k, pc.v);
    SubInv(s, s', t, i);
  }

  lemma EnterMoves(a: A.State, a': A.State, t: Tid, op: Op, k: int, v: int)
    requires CallSub(a, a', t, op, k, v)
    ensures SubMove(a, a', t) && t in a'.threads && Matches(op, k, a'.threads[t])
  {
    match op {
      case Insert => assert A.CallInsert(a, a', t, k, v);
      case Find => assert A.CallFind(a, a', t, k);
      case Erase => assert A.CallErase(a, a', t, k);
    }
  }

  lemma InnerInv(s: State, s': State, t: Tid)
    requires Inv(s) && Inner(s, s', t)
    ensures Inv(s')
  {
    var pc := s.threads[t];
    var i := pc.i;
    assert PcOK(s, t, pc);
    MoveIsHarmless(s.subs[i], s'.subs[i], t);
    assert OneSub(s, s', t, i) by { assert s'.threads == s.threads[t := s'.threads[t]]; }
    StepKeepsCall(s.subs[i], s'.subs[i], t, pc.op, pc.k);
    if pc.op.Insert? { DeadBelowStays(s, s', t, i, pc.k, i); }
    SubInv(s, s', t, i);
  }

  lemma LeaveSelf(s: State, s': State, t: Tid)
    requires Inv(s) && Leave(s, s', t) && OneSub(s, s', t, s.threads[t].i) && Harmless(s.subs[s.threads[t].i], s'.subs[s.threads[t].i], t)
    ensures PcOK(s', t, s'.threads[t])
  {
    var pc := s.threads[t];
    assert PcOK(s, t, pc);
    if pc.op.Insert? && s.subs[pc.i].threads[t].stage.Full? { FullStaysDead(s, s', t); }
  }

  lemma FullStaysDead(s: State, s': State, t: Tid)
    requires Inv(s) && Leave(s, s', t) && OneSub(s, s', t, s.threads[t].i) && Harmless(s.subs[s.threads[t].i], s'.subs[s.threads[t].i], t)
    requires s.threads[t].op.Insert? && s.subs[s.threads[t].i].threads[t].Ins? && s.subs[s.threads[t].i].threads[t].stage.Full?
    ensures DeadBelow(s', s.threads[t].k, s.threads[t].i + 1)
  {
    var pc := s.threads[t];
    var i: nat := pc.i;
    assert PcOK(s, t, pc);
    assert A.Inv(s.subs[i]) && A.PcOK(s.subs[i], t, s.subs[i].threads[t]);
    assert A.Dead(s.subs[i], pc.k);
    assert DeadBelow(s, pc.k, i + 1);
    DeadBelowStays(s, s', t, i, pc.k, i + 1);
  }

  lemma LeaveInv(s: State, s': State, t: Tid)
    requires Inv(s) && Leave(s, s', t)
    ensures Inv(s')
  {
    var pc := s.threads[t];
    var i := pc.i;
    assert PcOK(s, t, pc);
    MoveIsHarmless(s.subs[i], s'.subs[i], t);
    LeaveSelf(s, s', t);
    assert t !in s'.subs[i].threads;
    SubInv(s, s', t, i);
  }

  // ---------------------------------------------------------------- moves along the chain

  /** The submaps stay as they are. */
  ghost predicate SubsStay(s: State, s': State, t: Tid) {
    && s'.subs == s.subs && s.numMaps <= s'.numMaps
    && forall u :: u != t ==> (u in s.threads <==> u in s'.threads) && (u in s.threads ==> s'.threads[u] == s.threads[u])
  }

  lemma DeadBelowSame(s: State, s': State)
    requires s'.subs == s.subs
    ensures forall k, n :: DeadBelow(s', k, n) == DeadBelow(s, k, n)
  {
  }

  lemma OtherKept(s: State, s': State, t: Tid, u: Tid)
    requires ThreadsOK(s) && OneMaker(s) && SubsStay(s, s', t) && u in s.threads && u != t
    requires s'.numMaps == s.numMaps || (t in s.threads && Making(s.threads[t]))
    requires s.locked ==> s'.locked
    ensures PcOK(s', u, s'.threads[u])
  {
    assert PcOK(s, u, s.threads[u]);
    if t in s.threads && Making(s.threads[t]) { assert !Making(s.threads[u]); }
    DeadBelowSame(s, s');
  }

  ghost predicate SelfOK(s: State, t: Tid) {
    t in s.threads ==> PcOK(s, t, s.threads[t]) && !s.threads[t].In?
  }

  lemma ChainSame(s: State, s': State)
    requires ChainOK(s) && s'.subs == s.subs
    ensures ChainOK(s')
  {
    DeadBelowSame(s, s');
  }

  lemma AccountsSame(s: State, s': State, t: Tid)
    requires Accounted(s) && SubsStay(s, s', t) && (t in s.threads ==> !s.threads[t].In?)
    ensures Accounted(s')
  {
    forall m, u | 0 <= m < |s'.subs| && u in s'.subs[m].threads
      ensures u in s'.threads && s'.threads[u].In? && s'.threads[u].i == m
    {
      assert u in s.threads && s.threads[u].In?;
    }
  }

  lemma ChainKeeps(s: State, s': State, t: Tid)
    requires Inv(s) && SubsStay(s, s', t) && CountOK(s') && OneMaker(s') && SelfOK(s', t)
    requires t in s.threads ==> !s.threads[t].In?
    requires s'.numMaps == s.numMaps || (t in s.threads && Making(s.threads[t]))
    requires s.locked ==> s'.locked
    ensures Inv(s')
  {
    forall u | u in s'.threads ensures PcOK(s', u, s'.threads[u]) {
      if u != t { OtherKept(s, s', t, u); }
    }
    ChainSame(s, s');
    AccountsSame(s, s', t);
  }

  lemma ChainSelf(s: State, s': State, t: Tid)
    requires ThreadsOK(s) && CountOK(s) && ChainStep(s, s', t)
    ensures SelfOK(s', t) && SubsStay(s, s', t)
    ensures t in s.threads ==> !s.threads[t].In?
    ensures s'.numMaps == s.numMaps || (t in s.threads && Making(s.threads[t]))
    ensures s.locked ==> s'.locked
  {
    if t in s.threads { assert PcOK(s, t, s.threads[t]); }
    DeadBelowSame(s, s');
  }

  lemma ChainCounts(s: State, s': State, t: Tid)
    requires ThreadsOK(s) && CountOK(s) && OneMaker(s) && ChainStep(s, s', t)
    ensures CountOK(s') && OneMaker(s')
  {
    if t in s.threads {
      assert PcOK(s, t, s.threads[t]);
      if s.threads[t].Grow? && !s.locked && s.threads[t].n == |s.subs| { NobodyMakes(s); }
    }
  }

  lemma ChainStepInv(s: State, s': State, t: Tid)
    requires Inv(s) && ChainStep(s, s', t)
    ensures Inv(s')
  {
    ChainSelf(s, s', t);
    ChainCounts(s, s', t);
    ChainKeeps(s, s', t);
  }

  /** While the next entry of `subMaps_` is null nobody is creating a submap. */
  lemma NobodyMakes(s: State)
    requires ThreadsOK(s) && !s.locked && |s.subs| <= s.numMaps
    ensures forall u :: u in s.threads ==> !Making(s.threads[u])
  {
    forall u | u in s.threads ensures !Making(s.threads[u]) { assert PcOK(s, u, s.threads[u]); }
  }

  lemma AllocInv(s: State, s': State, t: Tid)
    requires Inv(s) && DoAlloc(s, s', t)
    ensures Inv(s')
  {
    P.InitInv(s'.subs[|s.subs|]);
    EmptyHasNoKeys(s'.subs[|s.subs|]);
    assert PcOK(s, t, s.threads[t]);
    forall k, n: nat | n <= |s.subs| ensures DeadBelow(s', k, n) == DeadBelow(s, k, n) {
      assert forall j :: 0 <= j < n ==> s'.subs[j] == s.subs[j];
    }
    forall u | u in s'.threads ensures PcOK(s', u, s'.threads[u]) {
      assert PcOK(s, u, s.threads[u]);
      if u != t { assert !Making(s.threads[u]); }
    }
    forall m: nat, k | m < |s'.subs| && A.IsLive(s'.subs[m], k) ensures DeadBelow(s', k, m) {
      assert m < |s.subs| && A.IsLive(s.subs[m], k);
    }
  }

  lemma NextInv(s: State, s': State)
    requires Inv(s) && Next(s, s')
    ensures Inv(s')
  {
    var t :| ChainStep(s, s', t) || DoEnter(s, s', t) || Inner(s, s', t) || Leave(s, s', t) || DoAlloc(s, s', t);
    if ChainStep(s, s', t) { ChainStepInv(s, s', t); }
    else if DoEnter(s, s', t) { EnterInv(s, s', t); }
    else if Inner(s, s', t) { InnerInv(s, s', t); }
    else if Leave(s, s', t) { LeaveInv(s, s', t); }
    else { AllocInv(s, s', t); }
  }
}
