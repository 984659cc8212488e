/** Whole calls: what `addOrGetData` and `remove` do to the key they were called with. */
module SkipListCalls {
  import opened Options
  import opened SkipListProtocol
  import opened SkipListInvariant
  import opened SkipListTheorems
  import opened SkipListHistory
  import opened SkipListOutcomes

  /** Thread `t` is in a call from state `b + 1` to state `e`. */
  ghost predicate InCall(run: seq<State>, b: nat, e: nat, t: Tid) {
    b < e < |run| && forall i: nat :: b < i <= e ==> t in run[i].threads
  }

  ghost predicate OwnStep(s: State, s': State, t: Tid) {
    LocalStep(s, s', t) || LockStep(s, s', t) || WriteStep(s, s', t)
  }

  lemma MovesOrWaits(run: seq<State>, i: nat, t: Tid)
    requires IsRun(run) && i + 1 < |run| && t in run[i].threads
    ensures (t in run[i + 1].threads && run[i + 1].threads[t] == run[i].threads[t]) || OwnStep(run[i], run[i + 1], t)
  {
    assert StepAt(run, i);
    var u :| LocalStep(run[i], run[i + 1], u) || LockStep(run[i], run[i + 1], u) || WriteStep(run[i], run[i + 1], u);
    if u != t { OthersWait(run[i], run[i + 1], u, t); }
  }

  // ---------------------------------------------------------------- the program counters of a call

  /** An insertion of `key`; from `Waiting` and `Counting` on the key is that of the node. */
  ghost predicate InsertPc(pc: Pc, key: int) {
    match pc
    case Start(goal, k, _) => goal.Insert? && k == key
    case Seek(goal, r, _, _) => goal.Insert? && r.key == key
    case Sought(goal, r) => goal.Insert? && r.key == key
    case Locking(goal, r, _, _) => goal.Insert? && r.key == key
    case Linking(r, _, _, _, _) => r.key == key
    case Waiting(_) => true
    case Counting(_) => true
    case _ => false
  }

  ghost predicate DeletePc(pc: Pc, key: int) {
    match pc
    case Start(goal, k, _) => !goal.Insert? && k == key
    case Seek(goal, r, _, _) => !goal.Insert? && r.key == key
    case Sought(goal, r) => !goal.Insert? && r.key == key
    case Taking(r, _) => r.key == key
    case Locking(goal, r, _, _) => goal.Unlink? && r.key == key
    case Unlinking(r, _, _, _) => r.key == key
    case _ => false
  }

  /** The new node is linked on layer 0. */
  ghost predicate Linked(pc: Pc) { (pc.Linking? && pc.j > 0) || pc.Counting? }

  /** The node to remove is marked. */
  ghost predicate Marked(pc: Pc) {
    ((pc.Start? || pc.Seek? || pc.Sought? || pc.Locking?) && pc.goal.Unlink?) || pc.Unlinking?
  }

  lemma InsertPcLocal(s: State, s': State, t: Tid, key: int)
    requires t in s.threads && t in s'.threads && InsertPc(s.threads[t], key) && LocalStep(s, s', t)
    ensures InsertPc(s'.threads[t], key) && Linked(s'.threads[t]) == Linked(s.threads[t])
    ensures !s'.threads[t].Counting?
    ensures s'.threads[t].Waiting? ==> AddFound(s, s', t) && s.threads[t].trail.key == key
  {
  }

  lemma InsertPcLock(s: State, s': State, t: Tid, key: int)
    requires t in s.threads && t in s'.threads && InsertPc(s.threads[t], key) && LockStep(s, s', t)
    ensures InsertPc(s'.threads[t], key) && Linked(s'.threads[t]) == Linked(s.threads[t])
    ensures !s'.threads[t].Counting? && !s'.threads[t].Waiting?
  {
  }

  lemma InsertPcWrite(s: State, s': State, t: Tid, key: int)
    requires t in s.threads && t in s'.threads && InsertPc(s.threads[t], key) && WriteStep(s, s', t)
    ensures InsertPc(s'.threads[t], key) && !s'.threads[t].Waiting? && s.threads[t] != s'.threads[t]
    ensures Linked(s'.threads[t]) && !Linked(s.threads[t]) ==>
              (LinkLayer(s, s', t) && s.threads[t].j == 0 && s.threads[t].trail.key == key) || (SetFull(s, s', t) && s.threads[t].j == 0)
    ensures Linked(s.threads[t]) ==> Linked(s'.threads[t])
    ensures s'.threads[t].Counting? ==> SetFull(s, s', t) && s.threads[t].trail.key == key
  {
  }

  lemma DeletePcLocal(s: State, s': State, t: Tid, key: int)
    requires t in s.threads && t in s'.threads && DeletePc(s.threads[t], key) && LocalStep(s, s', t)
    ensures DeletePc(s'.threads[t], key) && Marked(s'.threads[t]) == Marked(s.threads[t])
  {
  }

  lemma DeletePcLock(s: State, s': State, t: Tid, key: int)
    requires t in s.threads && t in s'.threads && DeletePc(s.threads[t], key) && LockStep(s, s', t)
    ensures DeletePc(s'.threads[t], key) && Marked(s'.threads[t]) == Marked(s.threads[t])
  {
  }

  lemma DeletePcWrite(s: State, s': State, t: Tid, key: int)
    requires t in s.threads && t in s'.threads && DeletePc(s.threads[t], key) && WriteStep(s, s', t)
    ensures DeletePc(s'.threads[t], key)
    ensures Marked(s'.threads[t]) && !Marked(s.threads[t]) ==> Take(s, s', t) && !s.nodes[s.threads[t].victim].marked && s.threads[t].trail.key == key
  {
  }

  // ---------------------------------------------------------------- over a run

  ghost predicate PcAt(run: seq<State>, i: nat, t: Tid, goal: Goal, key: int)
    requires i < |run|
  {
    t in run[i].threads && if goal.Insert? then InsertPc(run[i].threads[t], key) else DeletePc(run[i].threads[t], key)
  }

  lemma PcStep(run: seq<State>, i: nat, t: Tid, goal: Goal, key: int)
    requires IsRun(run) && i + 1 < |run| && PcAt(run, i, t, goal, key) && t in run[i + 1].threads
    ensures PcAt(run, i + 1, t, goal, key)
  {
    MovesOrWaits(run, i, t);
    var s, s' := run[i], run[i + 1];
    if s'.threads[t] != s.threads[t] {
      if LocalStep(s, s', t) {
        if goal.Insert? { InsertPcLocal(s, s', t, key); } else { DeletePcLocal(s, s', t, key); }
      } else if LockStep(s, s', t) {
        if goal.Insert? { InsertPcLock(s, s', t, key); } else { DeletePcLock(s, s', t, key); }
      } else {
        if goal.Insert? { InsertPcWrite(s, s', t, key); } else { DeletePcWrite(s, s', t, key); }
      }
    }
  }

  /** A call works on its key to the end. */
  lemma {:induction false} KeyIsKept(run: seq<State>, b: nat, e: nat, t: Tid, goal: Goal, key: int)
    requires IsRun(run) && InCall(run, b, e, t) && Begin(run[b], run[b + 1], t, goal, key)
    ensures PcAt(run, e, t, goal, key)
    decreases e
  {
    if e > b + 1 {
      KeyIsKept(run, b, e - 1, t, goal, key);
      PcStep(run, e - 1, t, goal, key);
    }
  }

  // ---------------------------------------------------------------- addOrGetData

  /** In this step thread `t` adds exactly `key` to the set of linked, unmarked keys. */
  ghost predicate Adds(s: State, s': State, t: Tid, key: int) {
    LinkLayer(s, s', t) && key !in Contents(s) && Contents(s') == Contents(s) + {key}
  }

  /** In this step thread `t` completes the insertion: exactly `key` joins the fully linked, unmarked keys. */
  ghost predicate Completes(s: State, s': State, t: Tid, key: int) {
    SetFull(s, s', t) && key !in SolidKeys(s) && SolidKeys(s') == SolidKeys(s) + {key}
  }

  lemma BecomesLinked(run: seq<State>, i: nat, t: Tid, key: int)
    requires IsRun(run) && i + 1 < |run| && PcAt(run, i, t, Insert, key) && t in run[i + 1].threads
    requires !Linked(run[i].threads[t]) && Linked(run[i + 1].threads[t])
    ensures Adds(run[i], run[i + 1], t, key)
  {
    MovesOrWaits(run, i, t);
    var s, s' := run[i], run[i + 1];
    if LocalStep(s, s', t) { InsertPcLocal(s, s', t, key); }
    else if LockStep(s, s', t) { InsertPcLock(s, s', t, key); }
    else {
      InsertPcWrite(s, s', t, key);
      RunInv(run, i);
      assert PcOK(s, t, s.threads[t]);
      InsertAddsKey(s, s', t);
    }
  }

  lemma BecomesCounting(run: seq<State>, i: nat, t: Tid, key: int)
    requires IsRun(run) && i + 1 < |run| && PcAt(run, i, t, Insert, key) && t in run[i + 1].threads
    requires !run[i].threads[t].Counting? && run[i + 1].threads[t].Counting?
    ensures Completes(run[i], run[i + 1], t, key)
  {
    MovesOrWaits(run, i, t);
    var s, s' := run[i], run[i + 1];
    if LocalStep(s, s', t) { InsertPcLocal(s, s', t, key); }
    else if LockStep(s, s', t) { InsertPcLock(s, s', t, key); }
    else {
      InsertPcWrite(s, s', t, key);
      RunInv(run, i);
      SetFullAddsKey(s, s', t);
    }
  }

  lemma BecomesWaiting(run: seq<State>, i: nat, t: Tid, key: int)
    requires IsRun(run) && i + 1 < |run| && PcAt(run, i, t, Insert, key) && t in run[i + 1].threads
    requires !run[i].threads[t].Waiting? && run[i + 1].threads[t].Waiting?
    ensures AddFound(run[i], run[i + 1], t) && run[i].threads[t].trail.key == key
  {
    MovesOrWaits(run, i, t);
    var s, s' := run[i], run[i + 1];
    if LocalStep(s, s', t) { InsertPcLocal(s, s', t, key); }
    else if LockStep(s, s', t) { InsertPcLock(s, s', t, key); }
    else { InsertPcWrite(s, s', t, key); }
  }

  lemma {:induction false} LinkedSince(run: seq<State>, b: nat, e: nat, t: Tid, key: int) returns (m: nat)
    requires IsRun(run) && InCall(run, b, e, t) && Begin(run[b], run[b + 1], t, Insert, key) && Linked(run[e].threads[t])
    ensures b < m < e && Adds(run[m], run[m + 1], t, key)
    decreases e
  {
    if Linked(run[e - 1].threads[t]) && b < e - 1 {
      m := LinkedSince(run, b, e - 1, t, key);
    } else {
      m := e - 1;
      KeyIsKept(run, b, m, t, Insert, key);
      BecomesLinked(run, m, t, key);
    }
  }

  lemma {:induction false} CountingSince(run: seq<State>, b: nat, e: nat, t: Tid, key: int) returns (m: nat)
    requires IsRun(run) && InCall(run, b, e, t) && Begin(run[b], run[b + 1], t, Insert, key) && run[e].threads[t].Counting?
    ensures b < m < e && Completes(run[m], run[m + 1], t, key)
    decreases e
  {
    if run[e - 1].threads[t].Counting? && b < e - 1 {
      m := CountingSince(run, b, e - 1, t, key);
    } else {
      m := e - 1;
      KeyIsKept(run, b, m, t, Insert, key);
      BecomesCounting(run, m, t, key);
    }
  }

  lemma {:induction false} WaitingSince(run: seq<State>, b: nat, e: nat, t: Tid, key: int) returns (m: nat)
    requires IsRun(run) && InCall(run, b, e, t) && Begin(run[b], run[b + 1], t, Insert, key) && run[e].threads[t].Waiting?
    ensures b < m < e && AddFound(run[m], run[m + 1], t) && run[m].threads[t].trail.key == key && run[e].threads[t] == run[m + 1].threads[t]
    decreases e
  {
    if run[e - 1].threads[t].Waiting? && b < e - 1 {
      m := WaitingSince(run, b, e - 1, t, key);
      StaysWaiting(run, e - 1, t);
    } else {
      m := e - 1;
      KeyIsKept(run, b, m, t, Insert, key);
      BecomesWaiting(run, m, t, key);
    }
  }

  lemma StaysWaiting(run: seq<State>, i: nat, t: Tid)
    requires IsRun(run) && i + 1 < |run| && t in run[i].threads && run[i].threads[t].Waiting? && t in run[i + 1].threads
    ensures run[i + 1].threads[t] == run[i].threads[t]
  {
    MovesOrWaits(run, i, t);
    if OwnStep(run[i], run[i + 1], t) { WaiterLeaves(run[i], run[i + 1], t); }
  }

  lemma WaiterLeaves(s: State, s': State, t: Tid)
    requires t in s.threads && s.threads[t].Waiting? && OwnStep(s, s', t)
    ensures AddReturn(s, s', t)
  {
    if LocalStep(s, s', t) { WaiterLocal(s, s', t); } else { WaiterIdle(s, s', t); }
  }

  lemma WaiterLocal(s: State, s': State, t: Tid)
    requires t in s.threads && s.threads[t].Waiting? && LocalStep(s, s', t)
    ensures AddReturn(s, s', t)
  {
  }

  lemma WaiterIdle(s: State, s': State, t: Tid)
    requires t in s.threads && s.threads[t].Waiting?
    ensures !LockStep(s, s', t) && !WriteStep(s, s', t)
  {
  }

  /** A call that reports a new element: in steps `m` and `k` of the call it added its key, and nothing else, to either set. */
  lemma InsertCallAdds(run: seq<State>, b: nat, e: nat, t: Tid, key: int) returns (m: nat, k: nat)
    requires IsRun(run) && InCall(run, b, e, t) && Begin(run[b], run[b + 1], t, Insert, key)
    requires e + 1 < |run| && CountUp(run[e], run[e + 1], t)
    ensures b < m < e && Adds(run[m], run[m + 1], t, key)
    ensures b < k < e && Completes(run[k], run[k + 1], t, key)
  {
    m := LinkedSince(run, b, e, t, key);
    k := CountingSince(run, b, e, t, key);
  }

  /** A call that reports an element already there returns a node with its key, and the key was in the set of solid keys at instant `j` of the call. */
  lemma InsertCallFinds(run: seq<State>, b: nat, e: nat, t: Tid, key: int) returns (j: nat)
    requires IsRun(run) && InCall(run, b, e, t) && Begin(run[b], run[b + 1], t, Insert, key)
    requires e + 1 < |run| && AddReturn(run[e], run[e + 1], t)
    ensures run[e].nodes[run[e].threads[t].node].key == key
    ensures b < j <= e && key in SolidKeys(run[j])
  {
    var m := WaitingSince(run, b, e, t, key);
    j := FailedInsertIsJustified(run, m, e, t);
    assert PcOK(run[m], t, run[m].threads[t]) by { RunInv(run, m); }
    NodeIsForever(run, m, e, run[m].threads[t].trail.found.value);
  }

  // ---------------------------------------------------------------- remove

  /** In this step thread `t` drops exactly `key` from both sets. */
  ghost predicate Drops(s: State, s': State, t: Tid, key: int) {
    && Take(s, s', t) && key in Contents(s) && Contents(s') == Contents(s) - {key}
    && key in SolidKeys(s) && SolidKeys(s') == SolidKeys(s) - {key}
  }

  lemma BecomesMarked(run: seq<State>, i: nat, t: Tid, key: int)
    requires IsRun(run) && i + 1 < |run| && PcAt(run, i, t, Delete, key) && t in run[i + 1].threads
    requires !Marked(run[i].threads[t]) && Marked(run[i + 1].threads[t])
    ensures Drops(run[i], run[i + 1], t, key)
  {
    MovesOrWaits(run, i, t);
    var s, s' := run[i], run[i + 1];
    if LocalStep(s, s', t) { DeletePcLocal(s, s', t, key); }
    else if LockStep(s, s', t) { DeletePcLock(s, s', t, key); }
    else {
      DeletePcWrite(s, s', t, key);
      RunInv(run, i);
      assert PcOK(s, t, s.threads[t]);
      RemoveDropsKey(s, s', t);
      TakeDropsKey(s, s', t);
    }
  }

  lemma {:induction false} MarkedSince(run: seq<State>, b: nat, e: nat, t: Tid, key: int) returns (m: nat)
    requires IsRun(run) && InCall(run, b, e, t) && Begin(run[b], run[b + 1], t, Delete, key) && Marked(run[e].threads[t])
    ensures b < m < e && Drops(run[m], run[m + 1], t, key)
    decreases e
  {
    if Marked(run[e - 1].threads[t]) && b < e - 1 {
      m := MarkedSince(run, b, e - 1, t, key);
    } else {
      m := e - 1;
      KeyIsKept(run, b, m, t, Delete, key);
      BecomesMarked(run, m, t, key);
    }
  }

  /** A removal that returns true dropped the key it was called with, and nothing else, in step `m` of the call. */
  lemma RemoveCallDrops(run: seq<State>, b: nat, e: nat, t: Tid, key: int) returns (m: nat)
    requires IsRun(run) && InCall(run, b, e, t) && Begin(run[b], run[b + 1], t, Delete, key)
    requires e + 1 < |run| && CountDown(run[e], run[e + 1], t)
    ensures b < m < e && Drops(run[m], run[m + 1], t, key)
  {
    m := MarkedSince(run, b, e, t, key);
  }

  // ---------------------------------------------------------------- all ways to return

  lemma LeavesLocal(s: State, s': State, t: Tid)
    requires LocalStep(s, s', t) && t in s.threads && t !in s'.threads
    ensures AddReturn(s, s', t) || RemoveFails(s, s', t) || LookStep(s, s', t)
  {
  }

  lemma LeavesOther(s: State, s': State, t: Tid)
    requires (LockStep(s, s', t) || WriteStep(s, s', t)) && t in s.threads && t !in s'.threads
    ensures CountUp(s, s', t) || CountDown(s, s', t) || RemoveFails(s, s', t) || GrowFail(s, s', t) || GrowMark(s, s', t)
  {
  }

  /** An insertion ends with a new or an existing element; a removal with true or with false. */
  lemma CallsEnd(run: seq<State>, b: nat, e: nat, t: Tid, goal: Goal, key: int)
    requires IsRun(run) && InCall(run, b, e, t) && Begin(run[b], run[b + 1], t, goal, key) && e + 1 < |run| && t !in run[e + 1].threads
    ensures goal.Insert? ==> CountUp(run[e], run[e + 1], t) || AddReturn(run[e], run[e + 1], t)
    ensures goal.Delete? ==> CountDown(run[e], run[e + 1], t) || RemoveFails(run[e], run[e + 1], t)
  {
    KeyIsKept(run, b, e, t, goal, key);
    MovesOrWaits(run, e, t);
    if LocalStep(run[e], run[e + 1], t) { LeavesLocal(run[e], run[e + 1], t); } else { LeavesOther(run[e], run[e + 1], t); }
  }

  // ---------------------------------------------------------------- growHeight

  ghost predicate GrowPc(pc: Pc, was: Id, h: nat) {
    pc == GrowWait(was, h) || pc == GrowLocked(was, h) || pc == GrowSwapped(was)
  }

  /** In this step a head of height `h` takes the place of head `was`, with the pointers of `was` and none above them. */
  ghost predicate Grows(s: State, s': State, was: Id, h: nat) {
    && s.head == was && was in s.nodes && was != s'.head && s'.head in s'.nodes
    && var n := s'.nodes[s'.head];
       n.isHead && n.height == h == |n.skip| && s.nodes[was].skip <= n.skip && forall l :: |s.nodes[was].skip| <= l < h ==> n.skip[l] == None
  }

  lemma GrowLocal(s: State, s': State, t: Tid)
    requires t in s.threads && (s.threads[t].GrowWait? || s.threads[t].GrowLocked? || s.threads[t].GrowSwapped?)
    ensures !LocalStep(s, s', t)
  {
  }

  lemma SwapGrows(s: State, s': State, t: Tid, n: Id)
    requires Inv(s) && GrowSwap(s, s', t, n)
    ensures Grows(s, s', s.threads[t].was, s.threads[t].height)
  {
    assert NodeShape(s, s.head);
  }

  lemma GrowStep(run: seq<State>, i: nat, t: Tid, was: Id, h: nat)
    requires IsRun(run) && i + 1 < |run| && t in run[i].threads && GrowPc(run[i].threads[t], was, h) && t in run[i + 1].threads
    ensures GrowPc(run[i + 1].threads[t], was, h)
    ensures run[i + 1].threads[t].GrowSwapped? && !run[i].threads[t].GrowSwapped? ==> Grows(run[i], run[i + 1], was, h)
  {
    MovesOrWaits(run, i, t);
    var s, s' := run[i], run[i + 1];
    if s'.threads[t] != s.threads[t] {
      GrowLocal(s, s', t);
      if n :| GrowSwap(s, s', t, n) {
        assert Inv(s) by { RunInv(run, i); }
        SwapGrows(s, s', t, n);
      }
    }
  }

  lemma {:induction false} GrowIsKept(run: seq<State>, b: nat, e: nat, t: Tid, h: nat) returns (m: nat)
    requires IsRun(run) && InCall(run, b, e, t) && GrowBegin(run[b], run[b + 1], t, h)
    ensures GrowPc(run[e].threads[t], run[b].head, h)
    ensures run[e].threads[t].GrowSwapped? ==> b < m < e && Grows(run[m], run[m + 1], run[b].head, h)
    decreases e
  {
    m := b;
    if e > b + 1 {
      m := GrowIsKept(run, b, e - 1, t, h);
      GrowStep(run, e - 1, t, run[b].head, h);
      if !run[e - 1].threads[t].GrowSwapped? { m := e - 1; }
    }
  }

  /** A call of `growHeight(h)` ends with a step in which the head it saw got a successor of height `h`, or because the head was another one by then. */
  lemma GrowCallGrows(run: seq<State>, b: nat, e: nat, t: Tid, h: nat) returns (m: nat)
    requires IsRun(run) && InCall(run, b, e, t) && GrowBegin(run[b], run[b + 1], t, h) && e + 1 < |run| && t !in run[e + 1].threads
    ensures if run[e].threads[t].GrowSwapped? then b < m < e && Grows(run[m], run[m + 1], run[b].head, h) else run[e].head != run[b].head
  {
    m := GrowIsKept(run, b, e, t, h);
    MovesOrWaits(run, e, t);
    GrowLocal(run[e], run[e + 1], t);
    LeavesOther(run[e], run[e + 1], t);
  }
}
