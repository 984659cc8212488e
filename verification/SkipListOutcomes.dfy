/**
 What insertions and removals that change nothing saw: the set of fully linked, unmarked keys had,
 or had not, the key at some instant of the call.
 */
module SkipListOutcomes {
  import opened Options
  import opened SkipListProtocol
  import opened SkipListInvariant
  import opened SkipListTheorems
  import opened SkipListHistory

  /** Data node `v` is fully linked, not marked, and has the key. */
  ghost predicate Solid(s: State, v: Id, key: int) {
    v in s.nodes && var d := s.nodes[v]; !d.isHead && d.full && !d.marked && d.key == key
  }

  ghost function SolidKeys(s: State): set<int> {
    set n | n in s.nodes && Solid(s, n, s.nodes[n].key) :: s.nodes[n].key
  }

  lemma SolidIn(s: State, key: int)
    ensures key in SolidKeys(s) <==> exists v :: Solid(s, v, key)
  {
    if v :| Solid(s, v, key) { assert Solid(s, v, s.nodes[v].key); }
  }

  /** A solid node is on all its layers, and no other node on any layer has its key. */
  lemma SolidIsLinked(s: State, v: Id, key: int, x: Id, l: nat)
    requires Inv(s) && Solid(s, v, key)
    ensures On(s, v, l) <==> l < s.nodes[v].height
    ensures On(s, x, l) && s.nodes[x].key == key ==> x == v
  {
    assert NodeShape(s, v);
    assert On(s, v, 0);
    if On(s, x, l) { assert On(s, x, 0); }
  }

  // ---------------------------------------------------------------- refinement of an atomic set

  lemma SetFullAddsKey(s: State, s': State, t: Tid)
    requires Inv(s) && SetFull(s, s', t)
    ensures s.threads[t].trail.key !in SolidKeys(s) && SolidKeys(s') == SolidKeys(s) + {s.threads[t].trail.key}
  {
    var n, key := s.threads[t].node, s.threads[t].trail.key;
    assert PcOK(s, t, s.threads[t]);
    SolidIn(s, key);
    if v :| Solid(s, v, key) { SolidIsLinked(s, v, key, n, 0); }
    forall k ensures k in SolidKeys(s') <==> k in SolidKeys(s) || k == key {
      SolidIn(s, k);
      SolidIn(s', k);
      assert Solid(s', n, key);
      if v :| Solid(s, v, k) { assert Solid(s', v, k); }
      if v :| Solid(s', v, k) { assert v == n || Solid(s, v, k); }
    }
  }

  lemma TakeDropsKey(s: State, s': State, t: Tid)
    requires Inv(s) && Take(s, s', t) && !s.nodes[s.threads[t].victim].marked
    ensures var key := s.nodes[s.threads[t].victim].key; key in SolidKeys(s) && SolidKeys(s') == SolidKeys(s) - {key}
  {
    var v := s.threads[t].victim;
    var key := s.nodes[v].key;
    assert PcOK(s, t, s.threads[t]);
    assert Solid(s, v, key);
    forall k ensures k in SolidKeys(s') <==> k in SolidKeys(s) && k != key {
      SolidIn(s, k);
      SolidIn(s', k);
      if x :| Solid(s, x, k) {
        if k == key { SolidIsLinked(s, x, k, v, 0); } else { assert Solid(s', x, k); }
      }
      if x :| Solid(s', x, k) {
        assert Solid(s, x, k);
        if k == key { SolidIsLinked(s, x, k, v, 0); SolidIsLinked(s, v, k, x, 0); }
      }
    }
  }

  lemma SameSolid(s: State, s': State)
    requires forall n, k :: Solid(s', n, k) <==> Solid(s, n, k)
    ensures SolidKeys(s') == SolidKeys(s)
  {
    forall k ensures k in SolidKeys(s') <==> k in SolidKeys(s) {
      SolidIn(s, k);
      SolidIn(s', k);
    }
  }

  lemma PlainKeepsSolid(s: State, s': State, t: Tid)
    requires t in s.threads && BriefPc(s, t) && WriteStep(s, s', t) && !SetFull(s, s', t)
    requires Take(s, s', t) ==> s.nodes[s.threads[t].victim].marked
    ensures forall n, k :: Solid(s', n, k) <==> Solid(s, n, k)
  {
  }

  ghost predicate SolidStep(s: State, s': State) {
    || SolidKeys(s') == SolidKeys(s)
    || (exists t :: SetFull(s, s', t) && s.threads[t].trail.key !in SolidKeys(s) && SolidKeys(s') == SolidKeys(s) + {s.threads[t].trail.key})
    || (exists t :: Take(s, s', t) && s.nodes[s.threads[t].victim].key in SolidKeys(s)
                    && SolidKeys(s') == SolidKeys(s) - {s.nodes[s.threads[t].victim].key})
  }

  lemma WriteRefinesSolid(s: State, s': State, t: Tid)
    requires Inv(s) && WriteStep(s, s', t)
    ensures SolidStep(s, s')
  {
    if SetFull(s, s', t) {
      SetFullAddsKey(s, s', t);
    } else if Take(s, s', t) && !s.nodes[s.threads[t].victim].marked {
      TakeDropsKey(s, s', t);
    } else {
      BriefHolds(s);
      PlainKeepsSolid(s, s', t);
      SameSolid(s, s');
    }
  }

  /** Every step leaves the set alone, or completes an insertion of an absent key, or marks a present one. */
  lemma StepRefinesSolid(run: seq<State>, i: nat)
    requires IsRun(run) && i + 1 < |run|
    ensures SolidStep(run[i], run[i + 1])
  {
    var s, s' := run[i], run[i + 1];
    RunInv(run, i);
    assert StepAt(run, i);
    var t :| LocalStep(s, s', t) || LockStep(s, s', t) || WriteStep(s, s', t);
    if WriteStep(s, s', t) {
      WriteRefinesSolid(s, s', t);
    } else {
      QuietKeepsNodes(s, s', t);
      SameSolid(s, s');
    }
  }

  // ---------------------------------------------------------------- insertions that find the key

  /** A node that was not full and now is was in the set when it became so. */
  lemma {:induction false} BecameFull(run: seq<State>, i: nat, k: nat, n: Id) returns (j: nat)
    requires IsRun(run) && i <= k < |run| && n in run[i].nodes && !run[i].nodes[n].isHead && !run[i].nodes[n].full
    ensures n in run[k].nodes && (run[k].nodes[n].full ==> i < j <= k && Solid(run[j], n, run[i].nodes[n].key))
    decreases k
  {
    j := i;
    NodeIsForever(run, i, k, n);
    if i < k {
      j := BecameFull(run, i, k - 1, n);
      NodeIsForever(run, i, k - 1, n);
      if run[k].nodes[n].full && !run[k - 1].nodes[n].full {
        RunInv(run, k - 1);
        assert StepAt(run, k - 1);
        FullIsUnmarked(run[k - 1], run[k], n);
        j := k;
      }
    }
  }

  lemma FullIsUnmarked(s: State, s': State, n: Id)
    requires Inv(s) && Next(s, s') && n in s.nodes && !s.nodes[n].isHead && !s.nodes[n].full && n in s'.nodes && s'.nodes[n].full
    ensures !s'.nodes[n].marked
  {
    var t :| LocalStep(s, s', t) || LockStep(s, s', t) || WriteStep(s, s', t);
    assert NodeShape(s, n);
    if WriteStep(s, s', t) {
      BriefHolds(s);
      WriteMarksFull(s, s', t, n);
    } else {
      QuietKeepsNodes(s, s', t);
    }
  }

  lemma WriteMarksFull(s: State, s': State, t: Tid, n: Id)
    requires t in s.threads && BriefPc(s, t) && WriteStep(s, s', t) && n in s.nodes && n in s'.nodes && !s.nodes[n].isHead && !s.nodes[n].marked && !s.nodes[n].full
    ensures !s'.nodes[n].marked
  {
  }

  /** An insertion that returns a node already there does so rightly: its key is in the set at some instant `j` of the call. */
  lemma FailedInsertIsJustified(run: seq<State>, i: nat, e: nat, t: Tid) returns (j: nat)
    requires IsRun(run) && i < e && e + 1 < |run| && AddFound(run[i], run[i + 1], t) && run[i + 1].threads[t].Waiting?
    requires t in run[e].threads && run[e].threads[t] == run[i + 1].threads[t] && AddReturn(run[e], run[e + 1], t)
    ensures i <= j <= e && run[i].threads[t].trail.key in SolidKeys(run[j])
  {
    var n, key := run[i].threads[t].trail.found.value, run[i].threads[t].trail.key;
    RunInv(run, i);
    assert PcOK(run[i], t, run[i].threads[t]);
    if run[i].nodes[n].full {
      j := i;
      assert Solid(run[i], n, key);
    } else {
      j := BecameFull(run, i, e, n);
    }
    SolidIn(run[j], key);
  }

  // ---------------------------------------------------------------- removals that remove nothing

  lemma SolidStays(run: seq<State>, i: nat, v: Id, key: int)
    requires IsRun(run) && i + 1 < |run| && Solid(run[i], v, key) && key in SolidKeys(run[i + 1])
    ensures Solid(run[i + 1], v, key)
  {
    NodeIsForever(run, i, i + 1, v);
    if run[i + 1].nodes[v].marked {
      RunInv(run, i);
      assert StepAt(run, i);
      MarkDropsKey(run[i], run[i + 1], v);
    }
  }

  lemma MarkDropsKey(s: State, s': State, v: Id)
    requires Inv(s) && Next(s, s') && v in s.nodes && v in s'.nodes && !s.nodes[v].isHead && !s.nodes[v].marked && s'.nodes[v].marked
    ensures s.nodes[v].key !in SolidKeys(s')
  {
    var t :| LocalStep(s, s', t) || LockStep(s, s', t) || WriteStep(s, s', t);
    if WriteStep(s, s', t) {
      DataMarkIsTake(s, s', t, v);
      TakeDropsKey(s, s', t);
    } else {
      QuietKeepsNodes(s, s', t);
    }
  }

  /** `t` is in the part of `remove` that has not marked a node yet. */
  ghost predicate Removing(pc: Pc) {
    ((pc.Start? || pc.Seek? || pc.Sought?) && pc.goal.Delete?) || pc.Taking?
  }

  /** A thread in that part waits or takes its own next step. */
  lemma RemoveMove(s: State, s': State, t: Tid)
    requires Next(s, s') && t in s.threads && Removing(s.threads[t])
    ensures || (t in s'.threads && s'.threads[t] == s.threads[t])
            || Enter(s, s', t) || Right(s, s', t) || Down(s, s', t) || RemoveDecide(s, s', t) || Take(s, s', t)
  {
    var u :| LocalStep(s, s', u) || LockStep(s, s', u) || WriteStep(s, s', u);
    if u != t { OthersWait(s, s', u, t); }
    else if LocalStep(s, s', t) { RemoveLocal(s, s', t); }
    else { RemoveWrite(s, s', t); }
  }

  lemma RemoveLocal(s: State, s': State, t: Tid)
    requires LocalStep(s, s', t) && t in s.threads && Removing(s.threads[t])
    ensures Enter(s, s', t) || Right(s, s', t) || Down(s, s', t) || RemoveDecide(s, s', t)
  {
  }

  lemma RemoveWrite(s: State, s': State, t: Tid)
    requires LockStep(s, s', t) || WriteStep(s, s', t)
    requires t in s.threads && Removing(s.threads[t])
    ensures Take(s, s', t)
  {
  }

  /** Where a removal can be while node `v` stays solid: it is bound to find `v` on its top layer. */
  ghost predicate Tracks(run: seq<State>, b: nat, i: nat, t: Tid, key: int, v: Id)
    requires i < |run|
  {
    && t in run[i].threads && v in run[i].nodes
    && var h := run[i].nodes[v].height;
       match run[i].threads[t]
       case Start(goal, k, top) => goal.Delete? && k == key && h <= top + 1
       case Seek(goal, r, layer, pred) =>
         && goal.Delete? && r.key == key && h <= r.top + 1 && Reached(run, b, i, pred, layer)
         && (if layer + 1 < h then r.found == Some(v) && r.foundLayer + 1 == h else r.found == None)
       case Sought(goal, r) => goal.Delete? && r.key == key && r.found == Some(v) && r.foundLayer + 1 == h
       case Taking(r, victim) => victim == v
       case _ => false
  }

  lemma TracksFirst(run: seq<State>, b: nat, t: Tid, key: int, v: Id)
    requires IsRun(run) && b + 1 < |run| && Begin(run[b], run[b + 1], t, Delete, key) && Solid(run[b + 1], v, key)
    ensures Tracks(run, b + 1, b + 1, t, key, v)
  {
    RunInv(run, b + 1);
    assert NodeShape(run[b + 1], v);
  }

  lemma TracksWait(run: seq<State>, b: nat, i: nat, t: Tid, key: int, v: Id)
    requires IsRun(run) && b <= i && i + 1 < |run| && Tracks(run, b, i, t, key, v)
    requires t in run[i + 1].threads && run[i + 1].threads[t] == run[i].threads[t]
    ensures Tracks(run, b, i + 1, t, key, v)
  {
    NodeIsForever(run, i, i + 1, v);
    if run[i].threads[t].Seek? { ReachedLater(run, b, i, i + 1, run[i].threads[t].pred, run[i].threads[t].layer); }
  }

  lemma TracksEnter(run: seq<State>, b: nat, i: nat, t: Tid, key: int, v: Id)
    requires IsRun(run) && b <= i && i + 1 < |run| && Tracks(run, b, i, t, key, v) && Enter(run[i], run[i + 1], t)
    ensures Tracks(run, b, i + 1, t, key, v)
  {
    NodeIsForever(run, i, i + 1, v);
    RunInv(run, i);
    assert PcOK(run[i], t, run[i].threads[t]) && NodeShape(run[i], run[i].head);
    assert Anchor(run[i + 1], run[i].head, run[i].threads[t].top);
  }

  lemma TracksRight(run: seq<State>, b: nat, i: nat, t: Tid, key: int, v: Id)
    requires IsRun(run) && b <= i && i + 1 < |run| && Tracks(run, b, i, t, key, v) && Right(run[i], run[i + 1], t)
    ensures Tracks(run, b, i + 1, t, key, v)
  {
    NodeIsForever(run, i, i + 1, v);
    var pc := run[i].threads[t];
    var j := WasTrue(run, b, i, pc.pred, pc.layer);
    ReachedLater(run, b, i, i + 1, run[i].nodes[pc.pred].skip[pc.layer].value, pc.layer);
  }

  /** A window around the key that was true while `v` was solid holds `v`, on the layers of `v` and on no other. */
  lemma WindowHoldsSolid(s: State, p: Id, l: nat, q: Option<Id>, v: Id, key: int)
    requires Inv(s) && Solid(s, v, key) && Anchor(s, p, l) && Follows(s, p, l, q) && (s.nodes[p].isHead || s.nodes[p].key < key)
    ensures l < s.nodes[v].height ==> q.Some? && s.nodes[q.value].key <= key
    ensures q.Some? && s.nodes[q.value].key == key ==> q.value == v && l < s.nodes[v].height
  {
    SolidIsLinked(s, v, key, v, l);
    if q.Some? { SolidIsLinked(s, v, key, q.value, l); }
  }

  ghost predicate SolidThroughout(run: seq<State>, b: nat, e: nat, v: Id, key: int)
    requires e < |run|
  {
    forall i: nat :: b <= i <= e ==> Solid(run[i], v, key)
  }

  lemma DownFinds(run: seq<State>, b: nat, i: nat, t: Tid, key: int, v: Id)
    requires IsRun(run) && b <= i && i + 1 < |run| && Tracks(run, b, i, t, key, v) && Down(run[i], run[i + 1], t) && SolidThroughout(run, b, i, v, key)
    ensures var pc := run[i].threads[t];
      var q := run[i].nodes[pc.pred].skip[pc.layer];
      && (pc.layer < run[i].nodes[v].height ==> q == Some(v))
      && (pc.layer >= run[i].nodes[v].height ==> q.None? || run[i].nodes[q.value].key != key)
  {
    var pc := run[i].threads[t];
    RunInv(run, i);
    assert PcOK(run[i], t, pc);
    var j := WasTrue(run, b, i, pc.pred, pc.layer);
    RunInv(run, j);
    NodeIsForever(run, j, i, v);
    WindowHoldsSolid(run[j], pc.pred, pc.layer, run[i].nodes[pc.pred].skip[pc.layer], v, key);
  }

  lemma TracksDown(run: seq<State>, b: nat, i: nat, t: Tid, key: int, v: Id)
    requires IsRun(run) && b <= i && i + 1 < |run| && Tracks(run, b, i, t, key, v) && Down(run[i], run[i + 1], t) && SolidThroughout(run, b, i, v, key)
    ensures Tracks(run, b, i + 1, t, key, v)
  {
    DownFinds(run, b, i, t, key, v);
    NodeIsForever(run, i, i + 1, v);
    RunInv(run, i);
    assert NodeShape(run[i], v);
    var pc := run[i].threads[t];
    if pc.layer > 0 {
      ReachedBelow(run, b, i, pc.pred, pc.layer, pc.layer - 1);
      ReachedLater(run, b, i, i + 1, pc.pred, pc.layer - 1);
    }
  }

  lemma TracksStep(run: seq<State>, b: nat, i: nat, t: Tid, key: int, v: Id)
    requires IsRun(run) && b <= i && i + 1 < |run| && Tracks(run, b, i, t, key, v) && SolidThroughout(run, b, i + 1, v, key)
    requires t in run[i + 1].threads
    ensures Tracks(run, b, i + 1, t, key, v)
  {
    var s, s' := run[i], run[i + 1];
    assert StepAt(run, i);
    RemoveMove(s, s', t);
    if s'.threads[t] == s.threads[t] { TracksWait(run, b, i, t, key, v); }
    else if Enter(s, s', t) { TracksEnter(run, b, i, t, key, v); }
    else if Right(s, s', t) { TracksRight(run, b, i, t, key, v); }
    else if Down(s, s', t) { TracksDown(run, b, i, t, key, v); }
    else {
      assert Solid(s, v, key) && Solid(s', v, key);
      assert RemoveDecide(s, s', t);
    }
  }

  lemma {:induction false} TracksRun(run: seq<State>, b: nat, e: nat, t: Tid, key: int, v: Id)
    requires IsRun(run) && b < e < |run| && Begin(run[b], run[b + 1], t, Delete, key) && SolidThroughout(run, b + 1, e, v, key)
    requires forall i: nat :: b < i <= e ==> t in run[i].threads
    ensures Tracks(run, b + 1, e, t, key, v)
    decreases e
  {
    if e == b + 1 {
      assert Solid(run[e], v, key);
      TracksFirst(run, b, t, key, v);
    } else {
      TracksRun(run, b, e - 1, t, key, v);
      TracksStep(run, b + 1, e - 1, t, key, v);
    }
  }

  /** If the key is in the set throughout, one node is in it throughout. */
  lemma {:induction false} OneNode(run: seq<State>, b: nat, e: nat, key: int) returns (v: Id)
    requires IsRun(run) && b <= e < |run| && forall i: nat :: b <= i <= e ==> key in SolidKeys(run[i])
    ensures SolidThroughout(run, b, e, v, key)
    decreases e
  {
    if b == e {
      SolidIn(run[b], key);
      v :| Solid(run[b], v, key);
    } else {
      v := OneNode(run, b, e - 1, key);
      assert Solid(run[e - 1], v, key);
      SolidStays(run, e - 1, v, key);
    }
  }

  /** `t` leaves `remove` with the answer false: the search missed, `okToDelete` refused, or somebody else marked the node. */
  ghost predicate RemoveFails(s: State, s': State, t: Tid) {
    (RemoveDecide(s, s', t) || Take(s, s', t)) && t !in s'.threads
  }

  /** Every removal that returns false had an instant during the call when no fully linked, unmarked node had the key. */
  lemma FailedRemoveIsJustified(run: seq<State>, b: nat, e: nat, t: Tid, key: int)
    requires IsRun(run) && b < e && e + 1 < |run| && Begin(run[b], run[b + 1], t, Delete, key)
    requires (forall i: nat :: b < i <= e ==> t in run[i].threads) && RemoveFails(run[e], run[e + 1], t)
    ensures exists i: nat :: b < i <= e && key !in SolidKeys(run[i])
  {
    if forall i: nat :: b < i <= e ==> key in SolidKeys(run[i]) {
      var v := OneNode(run, b + 1, e, key);
      TracksRun(run, b, e, t, key, v);
    }
  }
}
