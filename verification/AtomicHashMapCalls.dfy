/** Whole calls on an AtomicHashMap: every answer says what the chain of submaps was, or became, at an instant of the call. */
module AtomicHashMapCalls {
  import opened Options
  import A = AtomicHashArray
  import P = AtomicHashArrayProof
  import C = AtomicHashArrayCalls
  import opened AtomicHashMap
  import opened AtomicHashMapProof
  import opened AtomicHashMapTheorems

  // ---------------------------------------------------------------- effects on the whole map

  /** Some submap holds the key, with a value. */
  ghost predicate Holds(s: State, k: int) {
    exists m: nat, c: nat :: Located(s, k, m, c) && s.subs[m].cells[c].val.Some?
  }

  /** Key `k`, live in no submap before, becomes live in one with value `v`. */
  ghost predicate Inserts(s: State, s': State, k: int, v: int) {
    !IsLive(s, k) && exists m: nat, c: nat :: Located(s', k, m, c) && s'.subs[m].cells[c].val == Some(v)
  }

  /** Key `k`, live in one submap before, is live in none after. */
  ghost predicate Erases(s: State, s': State, k: int) {
    IsLive(s, k) && !IsLive(s', k)
  }

  // ---------------------------------------------------------------- the thread inside its submap

  ghost function SubPc(s: State, t: Tid): A.Pc
    requires InSub(s, t)
  {
    s.subs[s.threads[t].i].threads[t]
  }

  ghost predicate AnyStep(s: State, s': State, t: Tid) {
    ChainStep(s, s', t) || DoEnter(s, s', t) || Inner(s, s', t) || Leave(s, s', t) || DoAlloc(s, s', t)
  }

  lemma SubWaits(a: A.State, a': A.State, u: Tid, t: Tid)
    requires A.Call(a, a', u) || A.Step(a, a', u) || A.Return(a, a', u)
    requires u != t && t in a.threads
    ensures t in a'.threads && a'.threads[t] == a.threads[t]
  {
    if A.Step(a, a', u) { P.StepMoves(a, a', u); }
  }

  /** The steps of others leave a thread, and its position inside its submap, alone. */
  lemma OthersKeepSub(s: State, s': State, u: Tid, t: Tid)
    requires AnyStep(s, s', u) && u != t && t in s.threads
    ensures t in s'.threads && s'.threads[t] == s.threads[t]
    ensures InSub(s, t) ==> InSub(s', t) && SubPc(s', t) == SubPc(s, t)
  {
    OtherWaits(s, s', u, t);
    if InSub(s, t) {
      var i := s.threads[t].i;
      if DoEnter(s, s', u) && s.threads[u].i == i {
        var pc := s.threads[u];
        EnterMoves(s.subs[i], s'.subs[i], u, pc.op, pc.k, pc.v);
        EnterIsCall(s.subs[i], s'.subs[i], u, pc.op, pc.k, pc.v);
        SubWaits(s.subs[i], s'.subs[i], u, t);
      } else if (Inner(s, s', u) || Leave(s, s', u)) && s.threads[u].i == i {
        SubWaits(s.subs[i], s'.subs[i], u, t);
      }
    }
  }

  lemma EnterIsCall(a: A.State, a': A.State, t: Tid, op: Op, k: int, v: int)
    requires CallSub(a, a', t, op, k, v)
    ensures A.Call(a, a', t)
  {
  }

  // ---------------------------------------------------------------- the program counters of a call

  /** The thread works on the call `op(k, v)`. */
  ghost predicate OfCall(s: State, t: Tid, op: Op, k: int, v: int) {
    && t in s.threads
    && match s.threads[t]
       case Load(o, k', v') => o == op && k' == k && v' == v
       case Enter(o, k', v', n, i) => o == op && k' == k && v' == v
       case In(o, k', v', n, i) => o == op && k' == k && v' == v && InSub(s, t) && SubOf(SubPc(s, t), op, k, v)
       case Grow(k', v', n) => op.Insert? && k' == k && v' == v
       case Alloc(k', v', n) => op.Insert? && k' == k && v' == v
       case Publish(k', v', n) => op.Insert? && k' == k && v' == v
       case Wait(k', v', n) => op.Insert? && k' == k && v' == v
       case Done(o, k', hit) => o == op && k' == k
       case Failed(k', full) => op.Insert? && k' == k
  }

  ghost predicate SubOf(r: A.Pc, op: Op, k: int, v: int) {
    Matches(op, k, r) && (op.Insert? ==> r.v == v)
  }

  lemma InnerKeeps(a: A.State, a': A.State, t: Tid, op: Op, k: int, v: int)
    requires t in a.threads && A.Step(a, a', t) && SubOf(a.threads[t], op, k, v)
    ensures t in a'.threads && SubOf(a'.threads[t], op, k, v)
  {
    if a.threads[t].Ins? { C.InsertStepKeeps(a, a', t); }
    else if a.threads[t].Find? { C.FindStepKeeps(a, a', t); }
    else { C.EraseStepKeeps(a, a', t); }
  }

  lemma OwnKeepsCall(s: State, s': State, t: Tid, op: Op, k: int, v: int)
    requires OfCall(s, t, op, k, v) && AnyStep(s, s', t) && t in s'.threads
    ensures OfCall(s', t, op, k, v)
  {
    if Inner(s, s', t) {
      InnerKeeps(s.subs[s.threads[t].i], s'.subs[s.threads[t].i], t, op, k, v);
    } else if Leave(s, s', t) {
      LeaveKeepsCall(s, s', t, op, k, v);
    } else if DoEnter(s, s', t) {
      EnterKeepsCall(s, s', t, op, k, v);
    }
  }

  lemma LeaveKeepsCall(s: State, s': State, t: Tid, op: Op, k: int, v: int)
    requires OfCall(s, t, op, k, v) && Leave(s, s', t)
    ensures OfCall(s', t, op, k, v)
  {
  }

  lemma EnterKeepsCall(s: State, s': State, t: Tid, op: Op, k: int, v: int)
    requires OfCall(s, t, op, k, v) && DoEnter(s, s', t)
    ensures OfCall(s', t, op, k, v)
  {
  }

  lemma CallStep(run: seq<State>, i: nat, t: Tid, op: Op, k: int, v: int)
    requires IsRun(run) && i + 1 < |run| && OfCall(run[i], t, op, k, v) && t in run[i + 1].threads
    ensures OfCall(run[i + 1], t, op, k, v)
  {
    NextAt(run, i);
    var u :| ChainStep(run[i], run[i + 1], u) || DoEnter(run[i], run[i + 1], u) || Inner(run[i], run[i + 1], u)
             || Leave(run[i], run[i + 1], u) || DoAlloc(run[i], run[i + 1], u);
    if u == t { OwnKeepsCall(run[i], run[i + 1], t, op, k, v); } else { OthersKeepSub(run[i], run[i + 1], u, t); }
  }

  /** Thread `t` is in a call from state `b + 1` to state `e`. */
  ghost predicate InCall(run: seq<State>, b: nat, e: nat, t: Tid) {
    b < e < |run| && forall i: nat :: b < i <= e ==> t in run[i].threads
  }

  lemma {:induction false} CallIsKept(run: seq<State>, b: nat, e: nat, t: Tid, op: Op, k: int, v: int)
    requires IsRun(run) && InCall(run, b, e, t) && Begin(run[b], run[b + 1], t, op, k, v)
    ensures OfCall(run[e], t, op, k, v)
    decreases e
  {
    if e > b + 1 {
      CallIsKept(run, b, e - 1, t, op, k, v);
      CallStep(run, e - 1, t, op, k, v);
    }
  }

  // ---------------------------------------------------------------- outcomes

  datatype Outcome = New | Old | Thrown | NoRoom | Hit | Gone

  /** The thread has, or is about to report, this outcome. */
  ghost predicate Reports(s: State, t: Tid, o: Outcome) {
    && t in s.threads
    && var pc := s.threads[t];
       match o
       case New => (pc.Done? && pc.op.Insert? && pc.hit) || (InSub(s, t) && C.Published(SubPc(s, t)))
       case Old => (pc.Done? && pc.op.Insert? && !pc.hit) || (InSub(s, t) && SubPc(s, t).Ins? && SubPc(s, t).stage.Collided?)
       case Thrown => (pc.Failed? && !pc.full) || (InSub(s, t) && C.Aborted(SubPc(s, t)))
       case NoRoom => pc.Failed? && pc.full
       case Hit => (pc.Done? && pc.op.Find? && pc.hit) || (InSub(s, t) && SubPc(s, t).Find? && SubPc(s, t).find.FindHit?)
       case Gone => (pc.Done? && pc.op.Erase? && pc.hit) || (InSub(s, t) && C.Removed(SubPc(s, t)))
  }

  /** What the step that decides an outcome does. */
  ghost predicate Decides(s: State, s': State, t: Tid, o: Outcome, k: int, v: int) {
    match o
    case New => Inner(s, s', t) && Inserts(s, s', k, v)
    case Old => Holds(s, k)
    case Thrown => InSub(s, t) && SubPc(s, t).Ins? && SubPc(s, t).stage.Build?
    case NoRoom => t in s.threads && s.threads[t].Grow? && DeadBelow(s, k, s.threads[t].n) && (s.threads[t].n >= NUM_SUB_MAPS || !s.canGrow)
    case Hit => Holds(s, k)
    case Gone => Inner(s, s', t) && Erases(s, s', k)
  }

  /** A returned submap call is reported as what it was. */
  lemma LeaveReports(s: State, s': State, t: Tid, o: Outcome)
    requires Leave(s, s', t) && Reports(s', t, o)
    requires Matches(s.threads[t].op, s.threads[t].k, SubPc(s, t))
    ensures Reports(s, t, o)
  {
  }

  lemma ChainReports(s: State, s': State, t: Tid, o: Outcome, op: Op, k: int, v: int)
    requires Inv(s) && OfCall(s, t, op, k, v) && (ChainStep(s, s', t) || DoAlloc(s, s', t) || DoEnter(s, s', t)) && t in s'.threads && Reports(s', t, o) && !Reports(s, t, o)
    ensures o.NoRoom? && Decides(s, s', t, o, k, v)
  {
    assert PcOK(s, t, s.threads[t]);
    if DoEnter(s, s', t) { EnterReportsNothing(s, s', t, o); }
  }

  lemma EnterReportsNothing(s: State, s': State, t: Tid, o: Outcome)
    requires DoEnter(s, s', t)
    ensures !Reports(s', t, o)
  {
  }

  lemma SubPublishes(s: State, s': State, t: Tid, k: int, v: int)
    requires Inv(s) && Inner(s, s', t) && s.threads[t].k == k && SubOf(SubPc(s, t), Insert, k, v)
    requires A.InsertCell(s.subs[s.threads[t].i], s'.subs[s.threads[t].i], t) && SubPc(s, t).stage.Publish?
    ensures Inserts(s, s', k, v)
  {
    PublishedNowhere(s, t);
    var i, idx := s.threads[t].i, SubPc(s, t).idx;
    assert A.Inv(s.subs[i]);
    assert A.PcOK(s.subs[i], t, SubPc(s, t));
    assert Located(s', k, i, idx) && s'.subs[i].cells[idx].val == Some(v);
  }

  lemma SubErases(s: State, s': State, t: Tid, k: int)
    requires Inv(s) && Inner(s, s', t) && SubPc(s, t).Erase? && SubPc(s, t).k == k && SubPc(s, t).erase.EraseCas?
    requires s.subs[s.threads[t].i].cells[SubPc(s, t).idx].key == A.Live(k)
    ensures Erases(s, s', k)
  {
    var i, idx := s.threads[t].i, SubPc(s, t).idx;
    assert Located(s, k, i, idx);
    forall m: nat, c: nat ensures !Located(s', k, m, c) {
      if Located(s', k, m, c) {
        assert Located(s, k, m, c);
        SamePlace(s, k, i, idx, m, c);
      }
    }
  }

  lemma SubHolds(s: State, t: Tid, k: int)
    requires Inv(s) && InSub(s, t) && SubPc(s, t).idx < |s.subs[s.threads[t].i].cells|
    requires s.subs[s.threads[t].i].cells[SubPc(s, t).idx].key == A.Live(k)
    ensures Holds(s, k)
  {
    var i, idx := s.threads[t].i, SubPc(s, t).idx;
    assert A.Inv(s.subs[i]);
    assert Located(s, k, i, idx) && s.subs[i].cells[idx].val.Some?;
  }

  lemma InnerInsertReports(s: State, s': State, t: Tid, o: Outcome, k: int, v: int)
    requires Inv(s) && OfCall(s, t, Insert, k, v) && Inner(s, s', t) && Reports(s', t, o) && !Reports(s, t, o)
    ensures Decides(s, s', t, o, k, v)
  {
    var i := s.threads[t].i;
    C.InsertStepKeeps(s.subs[i], s'.subs[i], t);
    if o.New? { SubPublishes(s, s', t, k, v); }
    if o.Old? { SubHolds(s, t, k); }
  }

  lemma InnerFindReports(s: State, s': State, t: Tid, o: Outcome, k: int, v: int)
    requires Inv(s) && OfCall(s, t, Find, k, v) && Inner(s, s', t) && Reports(s', t, o) && !Reports(s, t, o)
    ensures Decides(s, s', t, o, k, v)
  {
    var i := s.threads[t].i;
    C.FindStepKeeps(s.subs[i], s'.subs[i], t);
    if o.Hit? { SubHolds(s, t, k); }
  }

  lemma InnerEraseReports(s: State, s': State, t: Tid, o: Outcome, k: int, v: int)
    requires Inv(s) && OfCall(s, t, Erase, k, v) && Inner(s, s', t) && Reports(s', t, o) && !Reports(s, t, o)
    ensures Decides(s, s', t, o, k, v)
  {
    var i := s.threads[t].i;
    C.EraseStepKeeps(s.subs[i], s'.subs[i], t);
    if o.Gone? { SubErases(s, s', t, k); }
  }

  lemma OwnReports(s: State, s': State, t: Tid, o: Outcome, op: Op, k: int, v: int)
    requires Inv(s) && OfCall(s, t, op, k, v) && AnyStep(s, s', t) && t in s'.threads && Reports(s', t, o) && !Reports(s, t, o)
    ensures Decides(s, s', t, o, k, v)
  {
    if Inner(s, s', t) {
      match op
      case Insert => InnerInsertReports(s, s', t, o, k, v);
      case Find => InnerFindReports(s, s', t, o, k, v);
      case Erase => InnerEraseReports(s, s', t, o, k, v);
    } else if Leave(s, s', t) {
      LeaveReports(s, s', t, o);
    } else {
      ChainReports(s, s', t, o, op, k, v);
    }
  }

  lemma OthersReportNothing(s: State, s': State, u: Tid, t: Tid, o: Outcome)
    requires AnyStep(s, s', u) && u != t && t in s.threads && Reports(s', t, o) && (s.threads[t].In? ==> InSub(s, t))
    ensures Reports(s, t, o)
  {
    OthersKeepSub(s, s', u, t);
  }

  lemma BecomesReported(run: seq<State>, i: nat, t: Tid, o: Outcome, op: Op, k: int, v: int)
    requires IsRun(run) && i + 1 < |run| && OfCall(run[i], t, op, k, v) && Reports(run[i + 1], t, o) && !Reports(run[i], t, o)
    ensures Decides(run[i], run[i + 1], t, o, k, v)
  {
    NextAt(run, i);
    RunInv(run, i);
    var u :| ChainStep(run[i], run[i + 1], u) || DoEnter(run[i], run[i + 1], u) || Inner(run[i], run[i + 1], u)
             || Leave(run[i], run[i + 1], u) || DoAlloc(run[i], run[i + 1], u);
    if u == t { OwnReports(run[i], run[i + 1], t, o, op, k, v); } else { OthersReportNothing(run[i], run[i + 1], u, t, o); }
  }

  /** A step of the call decided the outcome it reports. */
  lemma {:induction false} DecidedDuring(run: seq<State>, b: nat, e: nat, t: Tid, o: Outcome, op: Op, k: int, v: int) returns (m: nat)
    requires IsRun(run) && InCall(run, b, e, t) && Begin(run[b], run[b + 1], t, op, k, v) && Reports(run[e], t, o)
    ensures b < m < e && Decides(run[m], run[m + 1], t, o, k, v)
    decreases e
  {
    m := e - 1;
    if b < m && Reports(run[m], t, o) {
      m := DecidedDuring(run, b, m, t, o, op, k, v);
    } else {
      assert b < m by { assert !Reports(run[b + 1], t, o); }
      CallIsKept(run, b, m, t, op, k, v);
      BecomesReported(run, m, t, o, op, k, v);
    }
  }

  // ---------------------------------------------------------------- full submaps

  /** A submap that refuses keys has as many entries as it may have, or no cell left. */
  ghost predicate Filled(a: A.State) { a.entries >= a.max || A.AllPermanent(a) }

  ghost predicate FilledBelow(s: State, n: nat) {
    forall j :: 0 <= j < n && j < |s.subs| ==> Filled(s.subs[j])
  }

  ghost predicate SubsFill(s: State) {
    forall j :: 0 <= j < |s.subs| ==> C.FullHasEntries(s.subs[j])
  }

  /** At most one submap takes a step, or a new one is made. */
  ghost predicate OneMoves(s: State, s': State, t: Tid) {
    || s'.subs == s.subs
    || (|s'.subs| == |s.subs| + 1 && s'.subs[..|s.subs|] == s.subs && A.Init(s'.subs[|s.subs|]))
    || exists i: nat :: SubMoves(s, s', t, i)
  }

  ghost predicate SubMoves(s: State, s': State, t: Tid, i: nat) {
    && i < |s.subs| == |s'.subs| && s'.subs == s.subs[i := s'.subs[i]]
    && (A.Call(s.subs[i], s'.subs[i], t) || A.Step(s.subs[i], s'.subs[i], t) || A.Return(s.subs[i], s'.subs[i], t))
  }

  lemma StepMovesOne(s: State, s': State, t: Tid)
    requires AnyStep(s, s', t)
    ensures OneMoves(s, s', t)
  {
    if DoEnter(s, s', t) {
      var pc := s.threads[t];
      EnterIsCall(s.subs[pc.i], s'.subs[pc.i], t, pc.op, pc.k, pc.v);
      assert SubMoves(s, s', t, pc.i);
    } else if Inner(s, s', t) || Leave(s, s', t) {
      assert SubMoves(s, s', t, s.threads[t].i);
    }
  }

  lemma SubsFillStep(s: State, s': State, t: Tid)
    requires SubsOK(s) && SubsFill(s) && OneMoves(s, s', t)
    ensures SubsFill(s')
  {
    if i: nat :| SubMoves(s, s', t, i) {
      assert A.Inv(s.subs[i]) && C.FullHasEntries(s.subs[i]);
      C.FullHasEntriesStep(s.subs[i], s'.subs[i], t);
    } else if s'.subs != s.subs {
      forall j | 0 <= j < |s.subs| ensures C.FullHasEntries(s'.subs[j]) { assert s'.subs[j] == s'.subs[..|s.subs|][j]; }
    }
  }

  lemma SubsFillNext(s: State, s': State)
    requires SubsOK(s) && SubsFill(s) && Next(s, s')
    ensures SubsFill(s')
  {
    var t :| ChainStep(s, s', t) || DoEnter(s, s', t) || Inner(s, s', t) || Leave(s, s', t) || DoAlloc(s, s', t);
    StepMovesOne(s, s', t);
    SubsFillStep(s, s', t);
  }

  lemma {:induction false} SubsFillAlways(run: seq<State>, i: nat)
    requires IsRun(run) && i < |run|
    ensures SubsFill(run[i])
  {
    if i > 0 {
      SubsFillAlways(run, i - 1);
      assert SubsOK(run[i - 1]) by { RunInv(run, i - 1); }
      NextAt(run, i - 1);
      SubsFillNext(run[i - 1], run[i]);
    }
  }

  lemma DeadIsFilled(run: seq<State>, i: nat, k: int, n: nat)
    requires IsRun(run) && i < |run| && DeadBelow(run[i], k, n)
    ensures FilledBelow(run[i], n)
  {
    SubsFillAlways(run, i);
    forall j | 0 <= j < n && j < |run[i].subs| ensures Filled(run[i].subs[j]) {
      assert C.FullHasEntries(run[i].subs[j]) && A.Dead(run[i].subs[j], k);
    }
  }

  /**
   What `insert(k, v)` says when it ends. True: a step of the call made `k`, live nowhere, live with value `v`. False: some
   submap held `k` with a value during the call. An exception: the constructor threw, or `k` was dead in all `n` submaps
   seen, each of them filled, and no more can be made.
   */
  lemma InsertAnswers(run: seq<State>, b: nat, e: nat, t: Tid, k: int, v: int)
    requires IsRun(run) && InCall(run, b, e, t) && Begin(run[b], run[b + 1], t, Insert, k, v)
    ensures run[e].threads[t].Done? ==> run[e].threads[t].op.Insert? && run[e].threads[t].k == k
    ensures run[e].threads[t].Done? && run[e].threads[t].hit ==>
      exists m: nat :: b < m < e && Inner(run[m], run[m + 1], t) && Inserts(run[m], run[m + 1], k, v)
    ensures run[e].threads[t].Done? && !run[e].threads[t].hit ==> exists m: nat :: b < m < e && Holds(run[m], k)
    ensures run[e].threads[t].Failed? ==>
      exists m: nat :: b < m < e && Decides(run[m], run[m + 1], t, if run[e].threads[t].full then NoRoom else Thrown, k, v)
                       && (run[e].threads[t].full ==> FilledBelow(run[m], run[m].threads[t].n))
  {
    CallIsKept(run, b, e, t, Insert, k, v);
    var pc := run[e].threads[t];
    if pc.Done? { var m := DecidedDuring(run, b, e, t, if pc.hit then New else Old, Insert, k, v); }
    if pc.Failed? {
      var m := DecidedDuring(run, b, e, t, if pc.full then NoRoom else Thrown, Insert, k, v);
      if pc.full { DeadIsFilled(run, m, k, run[m].threads[t].n); }
    }
  }

  /** What `find(k)` says when it ends. True: some submap held `k` with a value during the call. False: at some instant no submap did. */
  lemma FindAnswers(run: seq<State>, b: nat, e: nat, t: Tid, k: int, v: int)
    requires IsRun(run) && InCall(run, b, e, t) && Begin(run[b], run[b + 1], t, Find, k, v) && run[e].threads[t].Done?
    ensures run[e].threads[t].op.Find? && run[e].threads[t].k == k
    ensures run[e].threads[t].hit ==> exists m: nat :: b < m < e && Holds(run[m], k)
    ensures !run[e].threads[t].hit ==> exists m: nat :: b < m <= e && !IsLive(run[m], k)
  {
    CallIsKept(run, b, e, t, Find, k, v);
    if run[e].threads[t].hit {
      var m := DecidedDuring(run, b, e, t, Hit, Find, k, v);
    } else {
      assert run[b + 1].threads[t] == Enter(Find, k, v, 1, 0);
      MissIsJustified(run, b + 1, e, t, Find, k);
    }
  }

  /** What `erase(k)` says when it ends. One: a step of the call took `k` out of the map. None: at some instant of it `k` was live nowhere. */
  lemma EraseAnswers(run: seq<State>, b: nat, e: nat, t: Tid, k: int, v: int)
    requires IsRun(run) && InCall(run, b, e, t) && Begin(run[b], run[b + 1], t, Erase, k, v) && run[e].threads[t].Done?
    ensures run[e].threads[t].op.Erase? && run[e].threads[t].k == k
    ensures run[e].threads[t].hit ==> exists m: nat :: b < m < e && Inner(run[m], run[m + 1], t) && Erases(run[m], run[m + 1], k)
    ensures !run[e].threads[t].hit ==> exists m: nat :: b < m <= e && !IsLive(run[m], k)
  {
    CallIsKept(run, b, e, t, Erase, k, v);
    if run[e].threads[t].hit {
      var m := DecidedDuring(run, b, e, t, Gone, Erase, k, v);
    } else {
      assert run[b + 1].threads[t] == Load(Erase, k, v);
      MissIsJustified(run, b + 1, e, t, Erase, k);
    }
  }
}
