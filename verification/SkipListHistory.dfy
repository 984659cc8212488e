/**
 What a search brings back was true at some instant of the call.

 A node the search reaches was linked at some instant of the call; its pointer on a layer changes
 only while it is linked there (or is the head), so what the search loads is what followed the
 node at the last such instant.
 */
module SkipListHistory {
  import opened Options
  import opened SkipListProtocol
  import opened SkipListInvariant
  import opened SkipListTheorems

  // ---------------------------------------------------------------- what every step keeps

  lemma WriteEvolves(s: State, s': State, t: Tid)
    requires Inv(s) && WriteStep(s, s', t)
    ensures Evolves(s, s')
  {
    BriefHolds(s);
    if LinkLayer(s, s', t) {
      LinkPlace(s, s', t);
    } else if UnlinkLayer(s, s', t) {
      UnlinkPlace(s, s', t);
    } else if n :| GrowSwap(s, s', t, n) {
      SwapPointers(s, s', t, n);
    } else {
      PlainEvolves(s, s', t);
    }
  }

  lemma PlainEvolves(s: State, s': State, t: Tid)
    requires Shape(s) && t in s.threads && BriefPc(s, t)
    requires (exists n :: Create(s, s', t, n)) || StoreNew(s, s', t) || SetFull(s, s', t) || Take(s, s', t) || GrowMark(s, s', t)
    ensures Evolves(s, s')
  {
  }

  lemma NextEvolves(s: State, s': State)
    requires Inv(s) && Next(s, s')
    ensures Evolves(s, s')
  {
    var t :| LocalStep(s, s', t) || LockStep(s, s', t) || WriteStep(s, s', t);
    if WriteStep(s, s', t) {
      WriteEvolves(s, s', t);
    } else {
      QuietKeepsNodes(s, s', t);
      QuietKeepsHead(s, s', t);
    }
  }

  lemma QuietKeepsHead(s: State, s': State, t: Tid)
    requires LocalStep(s, s', t) || LockStep(s, s', t)
    ensures s'.head == s.head
  {
  }

  lemma LocalWait(s: State, s': State, u: Tid, t: Tid)
    requires LocalStep(s, s', u) && u != t && t in s.threads
    ensures t in s'.threads && s'.threads[t] == s.threads[t]
  {
  }

  lemma LockWait(s: State, s': State, u: Tid, t: Tid)
    requires LockStep(s, s', u) && u != t && t in s.threads
    ensures t in s'.threads && s'.threads[t] == s.threads[t]
  {
  }

  lemma WriteWait(s: State, s': State, u: Tid, t: Tid)
    requires WriteStep(s, s', u) && u != t && t in s.threads
    ensures t in s'.threads && s'.threads[t] == s.threads[t]
  {
  }

  lemma OthersWait(s: State, s': State, u: Tid, t: Tid)
    requires LocalStep(s, s', u) || LockStep(s, s', u) || WriteStep(s, s', u)
    requires u != t && t in s.threads
    ensures t in s'.threads && s'.threads[t] == s.threads[t]
  {
    if LocalStep(s, s', u) { LocalWait(s, s', u, t); }
    else if LockStep(s, s', u) { LockWait(s, s', u, t); }
    else { WriteWait(s, s', u, t); }
  }

  lemma StepEvolves(run: seq<State>, i: nat)
    requires IsRun(run) && i + 1 < |run|
    ensures Evolves(run[i], run[i + 1])
  {
    RunInv(run, i);
    assert StepAt(run, i);
    NextEvolves(run[i], run[i + 1]);
  }

  /** A node keeps its identity, and marks and flags are never taken back. */
  lemma {:induction false} NodeIsForever(run: seq<State>, i: nat, k: nat, n: Id)
    requires IsRun(run) && i <= k < |run| && n in run[i].nodes
    ensures n in run[k].nodes && run[k].nodes[n].isHead == run[i].nodes[n].isHead && run[k].nodes[n].key == run[i].nodes[n].key
    ensures run[k].nodes[n].height == run[i].nodes[n].height
    ensures (run[i].nodes[n].marked ==> run[k].nodes[n].marked) && (run[i].nodes[n].full ==> run[k].nodes[n].full)
    decreases k
  {
    if i < k {
      NodeIsForever(run, i, k - 1, n);
      StepEvolves(run, k - 1);
    }
  }

  // ---------------------------------------------------------------- pointers of nodes that are not linked

  ghost predicate SamePointer(s: State, s': State, p: Id, l: nat) {
    && p in s.nodes && p in s'.nodes && l < |s'.nodes[p].skip| && l < |s.nodes[p].skip|
    && s'.nodes[p].skip[l] == s.nodes[p].skip[l]
  }

  lemma LinkFreezes(s: State, s': State, q: Id, n: Id, j: nat, r: Option<Id>, p: Id, l: nat)
    requires LinkSite(s, s', q, n, j, r) && EverOn(s, p, l) && !Anchor(s', p, l)
    ensures SamePointer(s, s', p, l)
  {
    assert NodeShape(s, p);
    LinkOn(s, s', q, n, j, r);
    assert Anchor(s', q, j);
  }

  lemma UnlinkFreezes(s: State, s': State, q: Id, v: Id, j: nat, p: Id, l: nat)
    requires UnlinkSite(s, s', q, v, j) && EverOn(s, p, l) && !Anchor(s', p, l)
    ensures SamePointer(s, s', p, l)
  {
    assert NodeShape(s, p);
    UnlinkOn(s, s', q, v, j);
    assert Anchor(s', q, j);
  }

  lemma PlainFreezes(s: State, s': State, t: Tid, p: Id, l: nat)
    requires Shape(s) && t in s.threads && BriefPc(s, t) && EverOn(s, p, l)
    requires WriteStep(s, s', t) && !LinkLayer(s, s', t) && !UnlinkLayer(s, s', t)
    ensures SamePointer(s, s', p, l)
  {
    assert NodeShape(s, p);
  }

  lemma WriteFreezes(s: State, s': State, t: Tid, p: Id, l: nat)
    requires Inv(s) && WriteStep(s, s', t) && EverOn(s, p, l) && !Anchor(s', p, l)
    ensures SamePointer(s, s', p, l)
  {
    if LinkLayer(s, s', t) {
      LinkPlace(s, s', t);
      var q, r :| LinkSite(s, s', q, s.threads[t].node, s.threads[t].j, r);
      LinkFreezes(s, s', q, s.threads[t].node, s.threads[t].j, r, p, l);
    } else if UnlinkLayer(s, s', t) {
      UnlinkPlace(s, s', t);
      var q :| UnlinkSite(s, s', q, s.threads[t].victim, s.threads[t].j - 1);
      UnlinkFreezes(s, s', q, s.threads[t].victim, s.threads[t].j - 1, p, l);
    } else {
      BriefHolds(s);
      assert BriefPc(s, t);
      PlainFreezes(s, s', t, p, l);
    }
  }

  /** A pointer changes only while its node is linked on the layer. */
  lemma Frozen(s: State, s': State, p: Id, l: nat)
    requires Inv(s) && Next(s, s') && EverOn(s, p, l) && !Anchor(s', p, l)
    ensures SamePointer(s, s', p, l)
  {
    var t :| LocalStep(s, s', t) || LockStep(s, s', t) || WriteStep(s, s', t);
    if WriteStep(s, s', t) {
      WriteFreezes(s, s', t, p, l);
    } else {
      QuietKeepsNodes(s, s', t);
      assert NodeShape(s, p);
    }
  }

  lemma StepFreezes(run: seq<State>, i: nat, p: Id, l: nat)
    requires IsRun(run) && i + 1 < |run| && EverOn(run[i], p, l) && !Anchor(run[i + 1], p, l)
    ensures SamePointer(run[i], run[i + 1], p, l)
  {
    RunInv(run, i);
    assert StepAt(run, i);
    Frozen(run[i], run[i + 1], p, l);
  }

  // ---------------------------------------------------------------- reached during a call

  /** `p` was on the list of layer `l` at some instant from `b` to `i`. */
  ghost predicate Reached(run: seq<State>, b: nat, i: nat, p: Id, l: nat)
    requires i < |run|
  {
    exists j: nat :: b <= j <= i && Anchor(run[j], p, l)
  }

  lemma AnchorBelow(s: State, p: Id, l: nat, k: nat)
    requires Anchor(s, p, l) && k <= l
    ensures Anchor(s, p, k)
  {
  }

  lemma ReachedBelow(run: seq<State>, b: nat, i: nat, p: Id, l: nat, k: nat)
    requires i < |run| && Reached(run, b, i, p, l) && k <= l
    ensures Reached(run, b, i, p, k)
  {
    var j: nat :| b <= j <= i && Anchor(run[j], p, l);
    AnchorBelow(run[j], p, l, k);
  }

  lemma ReachedLater(run: seq<State>, b: nat, i: nat, k: nat, p: Id, l: nat)
    requires i <= k < |run| && Reached(run, b, i, p, l)
    ensures Reached(run, b, k, p, l)
  {
    var j: nat :| b <= j <= i && Anchor(run[j], p, l);
  }

  lemma AnchorEverOn(s: State, p: Id, l: nat)
    requires Inv(s) && Anchor(s, p, l)
    ensures EverOn(s, p, l)
  {
    assert NodeShape(s, p);
  }

  /** `j` is the last instant up to `i` at which `p` was on layer `l`, and its pointer is what it was then. */
  ghost predicate LastOn(run: seq<State>, j: nat, i: nat, p: Id, l: nat) {
    && j <= i < |run| && Anchor(run[j], p, l) && (forall m: nat :: j < m <= i ==> !Anchor(run[m], p, l))
    && EverOn(run[i], p, l) && p in run[j].nodes && l < |run[j].nodes[p].skip| && l < |run[i].nodes[p].skip|
    && run[i].nodes[p].skip[l] == run[j].nodes[p].skip[l]
  }

  lemma LastOnStep(run: seq<State>, j: nat, i: nat, p: Id, l: nat)
    requires IsRun(run) && i + 1 < |run| && LastOn(run, j, i, p, l) && !Anchor(run[i + 1], p, l)
    ensures LastOn(run, j, i + 1, p, l)
  {
    StepFreezes(run, i, p, l);
    StepEvolves(run, i);
  }

  lemma LastOnNow(run: seq<State>, i: nat, p: Id, l: nat)
    requires IsRun(run) && i < |run| && Anchor(run[i], p, l)
    ensures LastOn(run, i, i, p, l)
  {
    RunInv(run, i);
    AnchorEverOn(run[i], p, l);
    assert NodeShape(run[i], p);
  }

  lemma {:induction false} WasLinked(run: seq<State>, b: nat, i: nat, p: Id, l: nat) returns (j: nat)
    requires IsRun(run) && b <= i < |run| && Reached(run, b, i, p, l)
    ensures b <= j && LastOn(run, j, i, p, l)
    decreases i
  {
    if Anchor(run[i], p, l) {
      LastOnNow(run, i, p, l);
      j := i;
    } else {
      var k: nat :| b <= k <= i && Anchor(run[k], p, l);
      assert k <= i - 1;
      j := WasLinked(run, b, i - 1, p, l);
      LastOnStep(run, j, i - 1, p, l);
    }
  }

  /** What is loaded from a node reached during the call followed it at instant `j` of the call. */
  lemma WasTrue(run: seq<State>, b: nat, i: nat, p: Id, l: nat) returns (j: nat)
    requires IsRun(run) && b <= i < |run| && Reached(run, b, i, p, l)
    ensures b <= j && LastOn(run, j, i, p, l) && Follows(run[j], p, l, run[i].nodes[p].skip[l])
    ensures run[j].nodes[p].isHead == run[i].nodes[p].isHead && run[j].nodes[p].key == run[i].nodes[p].key
    ensures var q := run[i].nodes[p].skip[l]; q.Some? ==>
      Reached(run, b, i, q.value, l) && q.value in run[i].nodes && q.value in run[j].nodes && run[j].nodes[q.value].key == run[i].nodes[q.value].key
  {
    j := WasLinked(run, b, i, p, l);
    RunInv(run, j);
    NodeIsForever(run, j, i, p);
    assert Anchor(run[j], p, l);
    var q := run[i].nodes[p].skip[l];
    if q.Some? {
      assert Anchor(run[j], q.value, l);
      NodeIsForever(run, j, i, q.value);
    }
  }
}
