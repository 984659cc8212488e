/** What `find` and `lower_bound` promise while others change the list. */
module SkipListLookups {
  import opened Options
  import opened SkipListProtocol
  import opened SkipListInvariant
  import opened SkipListTheorems
  import opened SkipListHistory
  import opened SkipListOutcomes

  ghost predicate Looking(pc: Pc) { pc.Peek? || pc.Walk? || pc.Settle? || pc.Pass? }

  /** A thread in a lookup waits or takes its own next step. */
  lemma LookMove(s: State, s': State, t: Tid)
    requires Next(s, s') && t in s.threads && Looking(s.threads[t])
    ensures (t in s'.threads && s'.threads[t] == s.threads[t]) || LookStep(s, s', t)
  {
    var u :| LocalStep(s, s', u) || LockStep(s, s', u) || WriteStep(s, s', u);
    if u != t { OthersWait(s, s', u, t); }
    else if LocalStep(s, s', t) { LookLocal(s, s', t); }
    else { LookNoWrite(s, s', t); }
  }

  lemma LookLocal(s: State, s': State, t: Tid)
    requires LocalStep(s, s', t) && t in s.threads && Looking(s.threads[t])
    ensures LookStep(s, s', t)
  {
  }

  lemma LookNoWrite(s: State, s': State, t: Tid)
    requires t in s.threads && Looking(s.threads[t])
    ensures !LockStep(s, s', t) && !WriteStep(s, s', t)
  {
  }

  /** In a run, too, a thread in a lookup waits or takes its own next step. */
  lemma LookMoves(run: seq<State>, i: nat, t: Tid)
    requires IsRun(run) && i + 1 < |run| && t in run[i].threads && Looking(run[i].threads[t])
    ensures PcOK(run[i], t, run[i].threads[t])
    ensures (t in run[i + 1].threads && run[i + 1].threads[t] == run[i].threads[t]) || LookStep(run[i], run[i + 1], t)
  {
    RunInv(run, i);
    assert StepAt(run, i);
    LookMove(run[i], run[i + 1], t);
  }

  // ---------------------------------------------------------------- where a lookup can be

  /** Node `from` is on layer 0, before the key, and what follows it is beyond the key. */
  ghost predicate Gap(s: State, from: Id, key: int) {
    && Anchor(s, from, 0) && from in s.nodes && (s.nodes[from].isHead || s.nodes[from].key < key)
    && forall x :: On(s, x, 0) && Before(s, from, x) ==> key < s.nodes[x].key
  }

  /** A load of layer 0 at instant `i` showed the gap that was there when `from` was last linked. */
  ghost predicate GapSeen(run: seq<State>, b: nat, i: nat, from: Id, key: int) {
    exists j: nat :: b <= j && LastOn(run, j, i, from, 0) && Gap(run[j], from, key)
  }

  ghost predicate SawGap(run: seq<State>, b: nat, i: nat, from: Id, key: int)
    requires i < |run|
  {
    exists k: nat :: b <= k <= i && GapSeen(run, b, k, from, key)
  }

  ghost predicate OnPath(run: seq<State>, b: nat, i: nat, t: Tid, op: Lookup, key: int)
    requires i < |run|
  {
    && t in run[i].threads
    && match run[i].threads[t]
       case Peek(o, k, from, ht) =>
         && o == op && k == key && Reached(run, b, i, from, if ht == 0 then 0 else ht - 1)
         && (ht == 0 ==> SawGap(run, b, i, from, key))
       case Walk(o, k, from, layer) => o == op && k == key && Reached(run, b, i, from, layer)
       case Settle(o, k, cand) => o == op && k == key && (cand.Some? ==> Reached(run, b, i, cand.value, 0)) && (op.Find? ==> cand.Some?)
       case Pass(k, over) => op.Lower? && k == key && Reached(run, b, i, over, 0)
       case _ => false
  }

  lemma GapLater(run: seq<State>, b: nat, i: nat, m: nat, from: Id, key: int)
    requires i <= m < |run| && SawGap(run, b, i, from, key)
    ensures SawGap(run, b, m, from, key)
  {
    var k: nat :| b <= k <= i && GapSeen(run, b, k, from, key);
  }

  /** A load of layer 0 that brings back a node beyond the key saw a gap. */
  lemma LoadSeesGap(run: seq<State>, b: nat, i: nat, from: Id, key: int)
    requires IsRun(run) && b <= i < |run| && Reached(run, b, i, from, 0) && GoodPred(run[i], from, 0, key)
    requires Loads(run[i], from, 0) && Beyond(run[i], key, run[i].nodes[from].skip[0])
    ensures SawGap(run, b, i, from, key)
  {
    var j := WasTrue(run, b, i, from, 0);
    assert Gap(run[j], from, key);
    assert GapSeen(run, b, i, from, key);
  }

  lemma PathFirst(run: seq<State>, b: nat, t: Tid, op: Lookup, key: int)
    requires IsRun(run) && b + 1 < |run| && LookBegin(run[b], run[b + 1], t, op, key)
    ensures OnPath(run, b + 1, b + 1, t, op, key)
  {
    RunInv(run, b);
    assert NodeShape(run[b], run[b].head);
    assert Anchor(run[b + 1], run[b].head, run[b].nodes[run[b].head].height - 1);
  }

  lemma PathWait(run: seq<State>, b: nat, i: nat, t: Tid, op: Lookup, key: int)
    requires b <= i && i + 1 < |run| && OnPath(run, b, i, t, op, key) && t in run[i + 1].threads && run[i + 1].threads[t] == run[i].threads[t]
    ensures OnPath(run, b, i + 1, t, op, key)
  {
    match run[i].threads[t]
    case Peek(o, k, from, ht) =>
      ReachedLater(run, b, i, i + 1, from, if ht == 0 then 0 else ht - 1);
      if ht == 0 { GapLater(run, b, i, i + 1, from, key); }
    case Walk(o, k, from, layer) => ReachedLater(run, b, i, i + 1, from, layer);
    case Settle(o, k, cand) => if cand.Some? { ReachedLater(run, b, i, i + 1, cand.value, 0); }
    case Pass(k, over) => ReachedLater(run, b, i, i + 1, over, 0);
  }

  lemma PathEnd(run: seq<State>, b: nat, i: nat, t: Tid, op: Lookup, key: int)
    requires IsRun(run) && b <= i && i + 1 < |run| && OnPath(run, b, i, t, op, key) && PeekStep(run[i], run[i + 1], t) && t in run[i + 1].threads
    requires run[i].threads[t].ht == 0
    ensures OnPath(run, b, i + 1, t, op, key)
  {
    var from := run[i].threads[t].from;
    var j := WasTrue(run, b, i, from, 0);
    var q := run[i].nodes[from].skip[0];
    if q.Some? { ReachedLater(run, b, i, i + 1, q.value, 0); }
  }

  /** Stepping down from layer `l`. */
  lemma StepsDown(run: seq<State>, b: nat, i: nat, from: Id, key: int, l: nat)
    requires IsRun(run) && b <= i && i + 1 < |run| && Reached(run, b, i, from, l) && GoodPred(run[i], from, l, key)
    requires Loads(run[i], from, l) && Beyond(run[i], key, run[i].nodes[from].skip[l])
    ensures Reached(run, b, i + 1, from, if l == 0 then 0 else l - 1)
    ensures l == 0 ==> SawGap(run, b, i + 1, from, key)
  {
    var k := if l == 0 then 0 else l - 1;
    ReachedBelow(run, b, i, from, l, k);
    ReachedLater(run, b, i, i + 1, from, k);
    if l == 0 { LoadSeesGap(run, b, i, from, key); GapLater(run, b, i, i + 1, from, key); }
  }

  lemma PathPeek(run: seq<State>, b: nat, i: nat, t: Tid, op: Lookup, key: int)
    requires IsRun(run) && b <= i && i + 1 < |run| && OnPath(run, b, i, t, op, key) && PeekStep(run[i], run[i + 1], t)
    requires run[i].threads[t].ht > 0
    ensures OnPath(run, b, i + 1, t, op, key)
  {
    var pc := run[i].threads[t];
    assert PcOK(run[i], t, pc) by { RunInv(run, i); }
    if Beyond(run[i], key, run[i].nodes[pc.from].skip[pc.ht - 1]) {
      StepsDown(run, b, i, pc.from, key, pc.ht - 1);
    } else {
      ReachedLater(run, b, i, i + 1, pc.from, pc.ht - 1);
    }
  }

  lemma PathWalk(run: seq<State>, b: nat, i: nat, t: Tid, op: Lookup, key: int)
    requires IsRun(run) && b <= i && i + 1 < |run| && OnPath(run, b, i, t, op, key) && WalkStep(run[i], run[i + 1], t)
    ensures OnPath(run, b, i + 1, t, op, key)
  {
    var pc := run[i].threads[t];
    assert PcOK(run[i], t, pc) by { RunInv(run, i); }
    var q := run[i].nodes[pc.from].skip[pc.layer];
    if Beyond(run[i], key, q) {
      StepsDown(run, b, i, pc.from, key, pc.layer);
    } else {
      var j := WasTrue(run, b, i, pc.from, pc.layer);
      ReachedLater(run, b, i, i + 1, q.value, pc.layer);
      ReachedBelow(run, b, i + 1, q.value, pc.layer, 0);
    }
  }

  lemma PathSettle(run: seq<State>, b: nat, i: nat, t: Tid, op: Lookup, key: int)
    requires IsRun(run) && b <= i && i + 1 < |run| && OnPath(run, b, i, t, op, key) && t in run[i + 1].threads
    requires SettleStep(run[i], run[i + 1], t) || PassStep(run[i], run[i + 1], t)
    ensures OnPath(run, b, i + 1, t, op, key)
  {
    var pc := run[i].threads[t];
    if pc.Settle? {
      ReachedLater(run, b, i, i + 1, pc.cand.value, 0);
    } else {
      var j := WasTrue(run, b, i, pc.over, 0);
      var q := run[i].nodes[pc.over].skip[0];
      if q.Some? { ReachedLater(run, b, i, i + 1, q.value, 0); }
    }
  }

  lemma PathStep(run: seq<State>, b: nat, i: nat, t: Tid, op: Lookup, key: int)
    requires IsRun(run) && b <= i && i + 1 < |run| && OnPath(run, b, i, t, op, key) && t in run[i + 1].threads
    ensures OnPath(run, b, i + 1, t, op, key)
  {
    LookMoves(run, i, t);
    if run[i + 1].threads[t] == run[i].threads[t] { PathWait(run, b, i, t, op, key); }
    else if PeekStep(run[i], run[i + 1], t) {
      if run[i].threads[t].ht == 0 { PathEnd(run, b, i, t, op, key); } else { PathPeek(run, b, i, t, op, key); }
    }
    else if WalkStep(run[i], run[i + 1], t) { PathWalk(run, b, i, t, op, key); }
    else { PathSettle(run, b, i, t, op, key); }
  }

  lemma {:induction false} PathRun(run: seq<State>, b: nat, e: nat, t: Tid, op: Lookup, key: int)
    requires IsRun(run) && b < e < |run| && LookBegin(run[b], run[b + 1], t, op, key)
    requires forall i: nat :: b < i <= e ==> t in run[i].threads
    ensures OnPath(run, b + 1, e, t, op, key)
    decreases e
  {
    if e == b + 1 {
      PathFirst(run, b, t, op, key);
    } else {
      PathRun(run, b, e - 1, t, op, key);
      PathStep(run, b + 1, e - 1, t, op, key);
    }
  }

  // ---------------------------------------------------------------- find

  /** A `find` that returns a node returns one that is in the set at that instant. */
  lemma FindHitIsJustified(run: seq<State>, b: nat, e: nat, t: Tid, key: int, n: Id)
    requires IsRun(run) && b < e < |run| && LookBegin(run[b], run[b + 1], t, Find, key) && (forall i: nat :: b < i <= e ==> t in run[i].threads)
    requires run[e].threads[t].Settle? && run[e].threads[t].cand == Some(n) && n in run[e].nodes && !run[e].nodes[n].marked
    ensures On(run[e], n, 0) && run[e].nodes[n].key == key && key in Contents(run[e])
  {
    PathRun(run, b, e, t, Find, key);
    RunInv(run, e);
    assert PcOK(run[e], t, run[e].threads[t]);
  }

  lemma GapIsAbsence(run: seq<State>, b: nat, i: nat, from: Id, key: int)
    requires i < |run| && SawGap(run, b, i, from, key)
    ensures exists j: nat :: b <= j <= i && key !in Contents(run[j])
  {
    var k: nat :| b <= k <= i && GapSeen(run, b, k, from, key);
    var j: nat :| b <= j && LastOn(run, j, k, from, 0) && Gap(run[j], from, key);
    assert key !in Contents(run[j]);
  }

  /** A node reached during the call that is marked by its end was out of the set at some instant. */
  lemma MarkedIsAbsence(run: seq<State>, b: nat, e: nat, n: Id, key: int)
    requires IsRun(run) && b <= e < |run| && Reached(run, b, e, n, 0)
    requires n in run[e].nodes && run[e].nodes[n].marked && !run[e].nodes[n].isHead && run[e].nodes[n].key == key
    ensures exists j: nat :: b <= j <= e && key !in Contents(run[j])
  {
    var j: nat :| b <= j <= e && Anchor(run[j], n, 0);
    NodeIsForever(run, j, e, n);
    RunInv(run, j);
    if run[j].nodes[n].marked {
      LinkedMarkedIsAbsent(run[j], n);
    } else {
      var m := MarkedMeanwhile(run, j, e, n);
    }
  }

  lemma LinkedMarkedIsAbsent(s: State, n: Id)
    requires Inv(s) && On(s, n, 0) && s.nodes[n].marked
    ensures s.nodes[n].key !in Contents(s)
  {
  }

  /** A `find` that returns nothing had an instant during the call when the key was not in the set. */
  lemma FindMissIsJustified(run: seq<State>, b: nat, e: nat, t: Tid, key: int)
    requires IsRun(run) && b < e && e + 1 < |run| && LookBegin(run[b], run[b + 1], t, Find, key)
    requires (forall i: nat :: b < i <= e ==> t in run[i].threads) && LookStep(run[e], run[e + 1], t) && t !in run[e + 1].threads
    requires run[e].threads[t].Settle? && run[e].threads[t].cand.Some? ==> run[e].nodes[run[e].threads[t].cand.value].marked
    ensures exists j: nat :: b < j <= e && key !in Contents(run[j])
  {
    PathRun(run, b, e, t, Find, key);
    var pc := run[e].threads[t];
    if pc.Peek? {
      GapIsAbsence(run, b + 1, e, pc.from, key);
    } else {
      RunInv(run, e);
      assert PcOK(run[e], t, pc);
      MarkedIsAbsence(run, b + 1, e, pc.cand.value, key);
    }
  }

  /**
   If a thread finds a node and its later removal of the key fails although the node is never marked,
   then the node was not fully linked at some instant of the removal.
   */
  lemma FoundThenRefused(run: seq<State>, a: nat, f: nat, b: nat, e: nat, t: Tid, key: int, n: Id)
    requires IsRun(run) && a < f < b < e && e + 1 < |run|
    requires LookBegin(run[a], run[a + 1], t, Find, key) && (forall i: nat :: a < i <= f ==> t in run[i].threads)
    requires run[f].threads[t].Settle? && run[f].threads[t].cand == Some(n) && n in run[f].nodes && !run[f].nodes[n].marked
    requires Begin(run[b], run[b + 1], t, Delete, key) && (forall i: nat :: b < i <= e ==> t in run[i].threads) && RemoveFails(run[e], run[e + 1], t)
    requires n in run[e].nodes && !run[e].nodes[n].marked
    ensures exists i: nat :: b < i <= e && n in run[i].nodes && !run[i].nodes[n].full
  {
    FindHitIsJustified(run, a, f, t, key, n);
    FailedRemoveIsJustified(run, b, e, t, key);
    var i: nat :| b < i <= e && key !in SolidKeys(run[i]);
    NodeIsForever(run, f, i, n);
    NodeIsForever(run, i, e, n);
    SolidIn(run[i], key);
    assert !Solid(run[i], n, key);
  }

  // ---------------------------------------------------------------- keys that stay linked

  /** Node `v` is linked, not marked, and has the key. */
  ghost predicate Live(s: State, v: Id, key: int) {
    On(s, v, 0) && !s.nodes[v].marked && s.nodes[v].key == key
  }

  lemma LiveStays(run: seq<State>, i: nat, v: Id, key: int)
    requires IsRun(run) && i + 1 < |run| && Live(run[i], v, key) && key in Contents(run[i + 1])
    ensures Live(run[i + 1], v, key)
  {
    StepEvolves(run, i);
    if run[i + 1].nodes[v].marked {
      RunInv(run, i);
      assert StepAt(run, i);
      MarkingRemoves(run[i], run[i + 1], v);
    }
  }

  ghost predicate LiveThroughout(run: seq<State>, b: nat, e: nat, v: Id, key: int)
    requires e < |run|
  {
    forall i: nat :: b <= i <= e ==> Live(run[i], v, key)
  }

  lemma {:induction false} OneLive(run: seq<State>, b: nat, e: nat, key: int) returns (v: Id)
    requires IsRun(run) && b <= e < |run| && forall i: nat :: b <= i <= e ==> key in Contents(run[i])
    ensures LiveThroughout(run, b, e, v, key)
    decreases e
  {
    if b == e {
      v :| v in run[b].nodes && On(run[b], v, 0) && !run[b].nodes[v].marked && run[b].nodes[v].key == key;
    } else {
      v := OneLive(run, b, e - 1, key);
      assert Live(run[e - 1], v, key);
      LiveStays(run, e - 1, v, key);
    }
  }

  /** Node `v` has the key and is linked, but its insertion is not done. */
  ghost predicate HalfLinked(s: State, v: Id, key: int) { Live(s, v, key) && !s.nodes[v].full }

  /** A node half linked in `first` is still unmarked in `last`. */
  ghost predicate Lingers(first: State, last: State, key: int) {
    exists v :: HalfLinked(first, v, key) && v in last.nodes && !last.nodes[v].marked
  }

  /** A linked node stays linked until it is marked. */
  lemma {:induction false} LinkedStays(run: seq<State>, i: nat, k: nat, v: Id, key: int)
    requires IsRun(run) && i <= k < |run| && Live(run[i], v, key) && v in run[k].nodes && !run[k].nodes[v].marked
    ensures Live(run[k], v, key)
    decreases k
  {
    if i < k {
      NodeIsForever(run, i, k - 1, v);
      NodeIsForever(run, k - 1, k, v);
      LinkedStays(run, i, k - 1, v, key);
      StepEvolves(run, k - 1);
    }
  }

  lemma LingererIsIn(run: seq<State>, b: nat, i: nat, e: nat, v: Id, key: int)
    requires IsRun(run) && b <= i <= e < |run| && Live(run[b], v, key) && v in run[e].nodes && !run[e].nodes[v].marked
    ensures key in Contents(run[i])
  {
    NodeIsForever(run, b, i, v);
    NodeIsForever(run, i, e, v);
    LinkedStays(run, b, i, v, key);
  }

  lemma StayerWasHalfLinked(run: seq<State>, b: nat, i: nat, v: Id, key: int)
    requires IsRun(run) && b <= i < |run| && Live(run[b], v, key) && Live(run[i], v, key) && key !in SolidKeys(run[i])
    ensures HalfLinked(run[b], v, key)
  {
    SolidIn(run[i], key);
    assert !Solid(run[i], v, key);
    NodeIsForever(run, b, i, v);
  }

  lemma LingererStaysIn(run: seq<State>, b: nat, e: nat, key: int)
    requires IsRun(run) && b < e < |run| && Lingers(run[b + 1], run[e], key)
    ensures forall i: nat :: b < i <= e ==> key in Contents(run[i])
  {
    var v :| HalfLinked(run[b + 1], v, key) && v in run[e].nodes && !run[e].nodes[v].marked;
    forall i: nat | b < i <= e ensures key in Contents(run[i]) { LingererIsIn(run, b + 1, i, e, v, key); }
  }

  lemma StayerLingers(run: seq<State>, b: nat, i: nat, e: nat, key: int)
    requires IsRun(run) && b < i <= e < |run| && key !in SolidKeys(run[i]) && forall j: nat :: b < j <= e ==> key in Contents(run[j])
    ensures Lingers(run[b + 1], run[e], key)
  {
    var v := OneLive(run, b + 1, e, key);
    assert Live(run[b + 1], v, key) && Live(run[i], v, key) && Live(run[e], v, key);
    StayerWasHalfLinked(run, b + 1, i, v, key);
  }

  /**
   Of the removals that return false, those without an instant when the key was out of the set of linked,
   unmarked keys are exactly those that begin while the key is half linked by an insertion and end with its node unmarked.
   */
  lemma RefusalIffHalfLinked(run: seq<State>, b: nat, e: nat, t: Tid, key: int)
    requires IsRun(run) && b < e && e + 1 < |run| && Begin(run[b], run[b + 1], t, Delete, key)
    requires (forall i: nat :: b < i <= e ==> t in run[i].threads) && RemoveFails(run[e], run[e + 1], t)
    ensures (forall i: nat :: b < i <= e ==> key in Contents(run[i])) <==> Lingers(run[b + 1], run[e], key)
  {
    if forall i: nat :: b < i <= e ==> key in Contents(run[i]) {
      FailedRemoveIsJustified(run, b, e, t, key);
      var i: nat :| b < i <= e && key !in SolidKeys(run[i]);
      StayerLingers(run, b, i, e, key);
    }
    if Lingers(run[b + 1], run[e], key) { LingererStaysIn(run, b, e, key); }
  }

  // ---------------------------------------------------------------- lower_bound

  /** A `lower_bound` that has a candidate has not gone past `v`. */
  ghost predicate NotPast(run: seq<State>, i: nat, t: Tid, v: Id)
    requires i < |run|
  {
    && t in run[i].threads && v in run[i].nodes
    && match run[i].threads[t]
       case Settle(o, k, cand) => cand.Some? && cand.value in run[i].nodes && run[i].nodes[cand.value].key <= run[i].nodes[v].key
       case Pass(k, over) => over in run[i].nodes && run[i].nodes[over].key < run[i].nodes[v].key
       case _ => true
  }

  /** What follows a node before `v` is not past `v`. */
  lemma LoadNotPast(run: seq<State>, b: nat, i: nat, p: Id, v: Id, key: int)
    requires IsRun(run) && b <= i < |run| && Reached(run, b, i, p, 0) && LiveThroughout(run, b, i, v, key)
    requires p in run[i].nodes && (run[i].nodes[p].isHead || run[i].nodes[p].key < key)
    ensures 0 < |run[i].nodes[p].skip|
    ensures var q := run[i].nodes[p].skip[0]; q.Some? && q.value in run[i].nodes && run[i].nodes[q.value].key <= key
  {
    var j := WasTrue(run, b, i, p, 0);
    assert Live(run[j], v, key);
  }

  /** A marked candidate is not `v`, so it is before `v`. */
  lemma MarkedIsBefore(run: seq<State>, b: nat, i: nat, n: Id, v: Id, key: int)
    requires IsRun(run) && b <= i < |run| && Reached(run, b, i, n, 0) && LiveThroughout(run, b, i, v, key)
    requires n in run[i].nodes && !run[i].nodes[n].isHead && run[i].nodes[n].marked && run[i].nodes[n].key <= key
    ensures run[i].nodes[n].key < key
  {
    var j := WasLinked(run, b, i, n, 0);
    assert Live(run[j], v, key) && Live(run[i], v, key);
    NodeIsForever(run, j, i, n);
    RunInv(run, j);
  }

  lemma NotPastWait(run: seq<State>, i: nat, t: Tid, v: Id)
    requires IsRun(run) && i + 1 < |run| && NotPast(run, i, t, v) && t in run[i + 1].threads && run[i + 1].threads[t] == run[i].threads[t]
    ensures NotPast(run, i + 1, t, v)
  {
    var pc := run[i].threads[t];
    NodeIsForever(run, i, i + 1, v);
    if pc.Settle? { NodeIsForever(run, i, i + 1, pc.cand.value); }
    if pc.Pass? { NodeIsForever(run, i, i + 1, pc.over); }
  }

  lemma NotPastStep(run: seq<State>, b: nat, i: nat, t: Tid, data: int, v: Id, key: int)
    requires IsRun(run) && b <= i && i + 1 < |run| && OnPath(run, b, i, t, Lower, data) && NotPast(run, i, t, v)
    requires LiveThroughout(run, b, i, v, key) && data <= key && t in run[i + 1].threads
    ensures NotPast(run, i + 1, t, v)
  {
    LookMoves(run, i, t);
    if run[i + 1].threads[t] == run[i].threads[t] {
      NotPastWait(run, i, t, v);
    } else {
      assert Live(run[i], v, key);
      NodeIsForever(run, i, i + 1, v);
      NotPastMove(run, b, i, t, data, v, key);
    }
  }

  lemma NotPastMove(run: seq<State>, b: nat, i: nat, t: Tid, data: int, v: Id, key: int)
    requires IsRun(run) && b <= i && i + 1 < |run| && OnPath(run, b, i, t, Lower, data) && NotPast(run, i, t, v)
    requires LiveThroughout(run, b, i, v, key) && data <= key && t in run[i + 1].threads && LookStep(run[i], run[i + 1], t)
    requires PcOK(run[i], t, run[i].threads[t]) && Live(run[i], v, key)
    ensures NotPast(run, i + 1, t, v)
  {
    var pc := run[i].threads[t];
    if pc.Peek? && pc.ht == 0 { LoadNotPast(run, b, i, pc.from, v, key); }
    else if pc.Settle? { MarkedIsBefore(run, b, i, pc.cand.value, v, key); }
    else if pc.Pass? { LoadNotPast(run, b, i, pc.over, v, key); }
  }

  lemma {:induction false} NotPastRun(run: seq<State>, b: nat, e: nat, t: Tid, data: int, v: Id, key: int)
    requires IsRun(run) && b < e < |run| && LookBegin(run[b], run[b + 1], t, Lower, data)
    requires (forall i: nat :: b < i <= e ==> t in run[i].threads) && LiveThroughout(run, b + 1, e, v, key) && data <= key
    ensures NotPast(run, e, t, v)
    decreases e
  {
    if e == b + 1 {
      assert Live(run[e], v, key);
    } else {
      NotPastRun(run, b, e - 1, t, data, v, key);
      PathRun(run, b, e - 1, t, Lower, data);
      NotPastStep(run, b + 1, e - 1, t, data, v, key);
    }
  }

  /** `t` returns `r` from `lower_bound(data)`. */
  ghost predicate LowerReturns(s: State, s': State, t: Tid, r: Option<Id>) {
    t in s.threads && s.threads[t].Settle? && s.threads[t].cand == r && SettleStep(s, s', t) && t !in s'.threads
  }

  /** The node returned is in the set at that instant, and every key passed over was out of it at some instant of the call. */
  lemma LowerBoundSkipsNothing(run: seq<State>, b: nat, e: nat, t: Tid, data: int, r: Option<Id>, key: int)
    requires IsRun(run) && b < e && e + 1 < |run| && LookBegin(run[b], run[b + 1], t, Lower, data)
    requires (forall i: nat :: b < i <= e ==> t in run[i].threads) && LowerReturns(run[e], run[e + 1], t, r)
    ensures r.Some? ==> On(run[e], r.value, 0) && !run[e].nodes[r.value].marked
    ensures data <= key && (r.Some? ==> key < run[e].nodes[r.value].key) ==> exists j: nat :: b < j <= e && key !in Contents(run[j])
  {
    assert run[e].threads[t].op == Lower by { PathRun(run, b, e, t, Lower, data); }
    assert PcOK(run[e], t, run[e].threads[t]) by { RunInv(run, e); }
    if data <= key && (r.Some? ==> key < run[e].nodes[r.value].key) && forall j: nat :: b < j <= e ==> key in Contents(run[j]) {
      var v := OneLive(run, b + 1, e, key);
      assert Live(run[e], v, key);
      NotPastRun(run, b, e, t, data, v, key);
    }
  }

  // Whether the node is at or after the key

  ghost predicate InsertsBelow(s: State, s': State, data: int) {
    exists k :: k < data && Inserts(s, s', k)
  }

  /** A smaller key was inserted between instants `b` and `i`. */
  ghost predicate Overtaken(run: seq<State>, b: nat, i: nat, data: int)
    requires i < |run|
  {
    exists m: nat :: b <= m < i && InsertsBelow(run[m], run[m + 1], data)
  }

  lemma WriteLinks(s: State, s': State, t: Tid, q: Id)
    requires Inv(s) && WriteStep(s, s', t) && !On(s, q, 0) && On(s', q, 0)
    ensures LinkLayer(s, s', t) && s.threads[t].j == 0 && s.threads[t].node == q && s'.nodes[q].key == s.threads[t].trail.key
  {
    if LinkLayer(s, s', t) {
      assert PcOK(s, t, s.threads[t]);
      LinkPlace(s, s', t);
      var n, j := s.threads[t].node, s.threads[t].j;
      var p, r :| LinkSite(s, s', p, n, j, r);
      LinkOn(s, s', p, n, j, r);
    } else {
      OnlyLinkLinks(s, s', t, q);
    }
  }

  lemma OnlyLinkLinks(s: State, s': State, t: Tid, q: Id)
    requires Inv(s) && WriteStep(s, s', t) && !LinkLayer(s, s', t) && On(s', q, 0)
    ensures On(s, q, 0)
  {
    BriefHolds(s);
    if UnlinkLayer(s, s', t) {
      UnlinkPlace(s, s', t);
      var v, j := s.threads[t].victim, s.threads[t].j - 1;
      var p :| UnlinkSite(s, s', p, v, j);
      UnlinkOn(s, s', p, v, j);
    } else {
      PlainKeepsOn(s, s', t, q);
    }
  }

  lemma PlainKeepsOn(s: State, s': State, t: Tid, q: Id)
    requires WriteStep(s, s', t) && !LinkLayer(s, s', t) && !UnlinkLayer(s, s', t) && On(s', q, 0)
    ensures On(s, q, 0)
  {
  }

  lemma StepLinks(run: seq<State>, i: nat, q: Id)
    requires IsRun(run) && i + 1 < |run| && !On(run[i], q, 0) && On(run[i + 1], q, 0)
    ensures Inserts(run[i], run[i + 1], run[i + 1].nodes[q].key)
  {
    var s, s' := run[i], run[i + 1];
    RunInv(run, i);
    assert StepAt(run, i);
    var t :| LocalStep(s, s', t) || LockStep(s, s', t) || WriteStep(s, s', t);
    if WriteStep(s, s', t) {
      WriteLinks(s, s', t, q);
    } else {
      QuietKeepsNodes(s, s', t);
    }
  }

  lemma {:induction false} NewlyLinked(run: seq<State>, j: nat, k: nat, q: Id) returns (m: nat)
    requires IsRun(run) && j <= k < |run| && !On(run[j], q, 0) && On(run[k], q, 0)
    ensures j <= m < k && Inserts(run[m], run[m + 1], run[k].nodes[q].key)
    decreases k
  {
    if On(run[k - 1], q, 0) {
      m := NewlyLinked(run, j, k - 1, q);
      NodeIsForever(run, k - 1, k, q);
    } else {
      m := k - 1;
      StepLinks(run, m, q);
    }
  }

  /** The second load of layer 0 can bring back a smaller key only if one was inserted since the gap was there. */
  lemma SecondLoad(run: seq<State>, b: nat, i: nat, from: Id, data: int)
    requires IsRun(run) && b <= i < |run| && Reached(run, b, i, from, 0) && SawGap(run, b, i, from, data)
    ensures from in run[i].nodes && 0 < |run[i].nodes[from].skip|
    ensures var q := run[i].nodes[from].skip[0];
      q.Some? ==> q.value in run[i].nodes && (data <= run[i].nodes[q.value].key || Overtaken(run, b, i, data))
  {
    var k: nat :| b <= k <= i && GapSeen(run, b, k, from, data);
    var j: nat :| b <= j && LastOn(run, j, k, from, 0) && Gap(run[j], from, data);
    var j2 := WasTrue(run, b, i, from, 0);
    LastOnOrder(run, j, k, j2, i, from, 0);
    var q := run[i].nodes[from].skip[0];
    if q.Some? && run[i].nodes[q.value].key < data {
      OvertakenBy(run, b, j, j2, i, from, q.value, data);
    }
  }

  /** No linked key lies between `from` and the key asked for. */
  ghost predicate NoneBetween(s: State, from: Id, data: int)
    requires from in s.nodes
  {
    forall x :: On(s, x, 0) && Before(s, from, x) ==> data <= s.nodes[x].key
  }

  /**
   When nothing was found, the node `findNode` returns is not less than the key if and only if no linked key lay
   between `from`, where the search ended, and the key when `from` was last linked.
   */
  lemma SecondLoadIffNoneBetween(run: seq<State>, b: nat, i: nat, t: Tid, data: int) returns (j: nat)
    requires IsRun(run) && b < i < |run| && LookBegin(run[b], run[b + 1], t, Lower, data)
    requires (forall m: nat :: b < m <= i ==> t in run[m].threads) && run[i].threads[t].Peek? && run[i].threads[t].ht == 0
    ensures var from := run[i].threads[t].from;
      && b < j && LastOn(run, j, i, from, 0)
      && var q := run[i].nodes[from].skip[0];
         && (q.Some? ==> q.value in run[i].nodes)
         && ((q.Some? ==> data <= run[i].nodes[q.value].key) <==> NoneBetween(run[j], from, data))
  {
    PathRun(run, b, i, t, Lower, data);
    j := WasTrue(run, b + 1, i, run[i].threads[t].from, 0);
  }

  lemma LastOnOrder(run: seq<State>, j: nat, k: nat, j2: nat, i: nat, p: Id, l: nat)
    requires LastOn(run, j, k, p, l) && LastOn(run, j2, i, p, l) && k <= i
    ensures j <= j2
  {
  }

  lemma OvertakenBy(run: seq<State>, b: nat, j: nat, j2: nat, i: nat, from: Id, q: Id, data: int)
    requires IsRun(run) && b <= j <= j2 <= i < |run| && Gap(run[j], from, data)
    requires from in run[j2].nodes && On(run[j2], q, 0) && Before(run[j2], from, q) && run[j2].nodes[q].key < data
    ensures Overtaken(run, b, i, data)
  {
    NodeIsForever(run, j, j2, from);
    if On(run[j], q, 0) {
      NodeIsForever(run, j, j2, q);
    } else {
      var m := NewlyLinked(run, j, j2, q);
      assert InsertsBelow(run[m], run[m + 1], data);
    }
  }

  /** The candidate is not below the key, unless a smaller key was inserted during the call. */
  ghost predicate AtLeast(run: seq<State>, b: nat, i: nat, t: Tid, data: int)
    requires i < |run|
  {
    && t in run[i].threads
    && match run[i].threads[t]
       case Settle(o, k, cand) => cand.Some? ==> cand.value in run[i].nodes && (data <= run[i].nodes[cand.value].key || Overtaken(run, b, i, data))
       case Pass(k, over) => over in run[i].nodes && (data <= run[i].nodes[over].key || Overtaken(run, b, i, data))
       case _ => true
  }

  lemma AtLeastMove(run: seq<State>, b: nat, i: nat, t: Tid, data: int)
    requires IsRun(run) && b <= i && i + 1 < |run| && OnPath(run, b, i, t, Lower, data) && AtLeast(run, b, i, t, data)
    requires t in run[i + 1].threads && LookStep(run[i], run[i + 1], t) && PcOK(run[i], t, run[i].threads[t])
    ensures AtLeast(run, b, i + 1, t, data)
  {
    var pc := run[i].threads[t];
    if pc.Peek? && pc.ht == 0 {
      SecondLoad(run, b, i, pc.from, data);
    } else if pc.Pass? {
      var j := WasTrue(run, b, i, pc.over, 0);
    }
  }

  lemma AtLeastStep(run: seq<State>, b: nat, i: nat, t: Tid, data: int)
    requires IsRun(run) && b <= i && i + 1 < |run| && OnPath(run, b, i, t, Lower, data) && AtLeast(run, b, i, t, data) && t in run[i + 1].threads
    ensures AtLeast(run, b, i + 1, t, data)
  {
    var pc := run[i].threads[t];
    LookMoves(run, i, t);
    if run[i + 1].threads[t] == pc {
      if pc.Settle? && pc.cand.Some? { NodeIsForever(run, i, i + 1, pc.cand.value); }
      if pc.Pass? { NodeIsForever(run, i, i + 1, pc.over); }
    } else {
      AtLeastMove(run, b, i, t, data);
    }
  }

  lemma {:induction false} AtLeastRun(run: seq<State>, b: nat, e: nat, t: Tid, data: int)
    requires IsRun(run) && b < e < |run| && LookBegin(run[b], run[b + 1], t, Lower, data)
    requires forall i: nat :: b < i <= e ==> t in run[i].threads
    ensures AtLeast(run, b + 1, e, t, data)
    decreases e
  {
    if e > b + 1 {
      AtLeastRun(run, b, e - 1, t, data);
      PathRun(run, b, e - 1, t, Lower, data);
      AtLeastStep(run, b + 1, e - 1, t, data);
    }
  }

  /** `lower_bound` returns a node at or after the key, unless a smaller key is inserted during the call. */
  lemma LowerBoundIsBound(run: seq<State>, b: nat, e: nat, t: Tid, data: int, n: Id)
    requires IsRun(run) && b < e && e + 1 < |run| && LookBegin(run[b], run[b + 1], t, Lower, data)
    requires (forall i: nat :: b < i <= e ==> t in run[i].threads) && LowerReturns(run[e], run[e + 1], t, Some(n))
    ensures n in run[e].nodes && (data <= run[e].nodes[n].key || Overtaken(run, b + 1, e, data))
  {
    AtLeastRun(run, b, e, t, data);
  }
}
