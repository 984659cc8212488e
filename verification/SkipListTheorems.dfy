/**
 The skip list over whole runs: every layer, walked pointer by pointer from the
 head, is a strictly sorted list and a sublist of the layer below; no key is
 linked twice; `size_` is exact whenever no update is half done; and every run
 refines an atomic set.
 */
module SkipListTheorems {
  import opened Options
  import opened SkipListProtocol
  import opened SkipListInvariant

  ghost predicate StepAt(run: seq<State>, i: nat) {
    i + 1 < |run| ==> Next(run[i], run[i + 1])
  }

  ghost predicate IsRun(run: seq<State>) {
    |run| > 0 && Init(run[0]) && forall i: nat :: StepAt(run, i)
  }

  lemma {:induction false} RunInv(run: seq<State>, i: nat)
    requires IsRun(run) && i < |run|
    ensures Inv(run[i])
  {
    if i == 0 {
      InitInv(run[0]);
    } else {
      RunInv(run, i - 1);
      assert StepAt(run, i - 1);
      NextInv(run[i - 1], run[i]);
    }
  }

  // ---------------------------------------------------------------- layers as lists

  /** The nodes of layer `l` that come after `n`. */
  ghost function After(s: State, n: Id, l: nat): set<Id>
    requires n in s.nodes
  {
    set x | x in s.nodes && On(s, x, l) && Before(s, n, x)
  }

  /** The pointers of layer `l` followed from node `n` to the end. */
  ghost function Walk(s: State, n: Id, l: nat): seq<Id>
    requires Inv(s) && Anchor(s, n, l)
    decreases |After(s, n, l)|
  {
    assert NodeShape(s, n);
    var q := s.nodes[n].skip[l];
    if q.None? then [] else
      assert Follows(s, n, l, q);
      AfterShrinks(s, n, l, q.value);
      [q.value] + Walk(s, q.value, l)
  }

  lemma AfterShrinks(s: State, n: Id, l: nat, m: Id)
    requires n in s.nodes && On(s, m, l) && Before(s, n, m)
    ensures After(s, m, l) < After(s, n, l) && |After(s, m, l)| < |After(s, n, l)|
  {
    assert m in After(s, n, l) && m !in After(s, m, l);
    Smaller(After(s, m, l), After(s, n, l));
  }

  lemma Smaller<T>(a: set<T>, b: set<T>)
    requires a < b
    ensures |a| < |b|
  {
    var x :| x in b && x !in a;
    assert b == a + {x} + (b - a - {x});
    assert |b| == |a + {x}| + |b - a - {x}|;
  }

  ghost predicate SortedBy(s: State, w: seq<Id>) {
    && (forall i :: 0 <= i < |w| ==> w[i] in s.nodes)
    && forall i, j :: 0 <= i < j < |w| ==> s.nodes[w[i]].key < s.nodes[w[j]].key
  }

  lemma {:induction false} WalkSorted(s: State, n: Id, l: nat)
    requires Inv(s) && Anchor(s, n, l)
    ensures SortedBy(s, Walk(s, n, l))
    ensures forall x :: x in Walk(s, n, l) <==> x in After(s, n, l)
    decreases |After(s, n, l)|
  {
    assert NodeShape(s, n);
    var q := s.nodes[n].skip[l];
    assert Follows(s, n, l, q);
    if q.Some? {
      AfterShrinks(s, n, l, q.value);
      WalkSorted(s, q.value, l);
      var w := Walk(s, q.value, l);
      forall i | 0 <= i < |w| ensures s.nodes[q.value].key < s.nodes[w[i]].key {
        assert w[i] in After(s, q.value, l);
      }
      forall x | x in After(s, n, l) ensures x == q.value || x in After(s, q.value, l) {
        assert On(s, x, 0) && On(s, q.value, 0);
      }
    }
  }

  /** `a` is `b` with some elements left out. */
  ghost predicate Sublist<T(!new)>(a: seq<T>, b: seq<T>) {
    a == [] || (b != [] && (if a[0] == b[0] then Sublist(a[1..], b[1..]) else Sublist(a, b[1..])))
  }

  lemma {:induction false} SortedSublist(s: State, a: seq<Id>, b: seq<Id>)
    requires SortedBy(s, a) && SortedBy(s, b) && forall x :: x in a ==> x in b
    ensures Sublist(a, b)
    decreases |b|
  {
    if a != [] {
      assert a[0] in b;
      if a[0] == b[0] {
        forall x | x in a[1..] ensures x in b[1..] {
          var i :| 0 <= i < |a[1..]| && a[1..][i] == x;
          assert a[i + 1] == x && x in b && x != b[0];
        }
        SortedSublist(s, a[1..], b[1..]);
      } else {
        forall x | x in a ensures x in b[1..] {
          var i :| 0 <= i < |a| && a[i] == x;
          var k :| 0 <= k < |b| && b[k] == a[0];
          assert s.nodes[b[0]].key < s.nodes[a[0]].key <= s.nodes[x].key;
          assert x in b;
        }
        SortedSublist(s, a, b[1..]);
      }
    }
  }

  ghost function Layer(s: State, l: nat): seq<Id>
    requires Inv(s) && l < s.nodes[s.head].height
  {
    Walk(s, s.head, l)
  }

  /** In every reachable state the layers are strictly sorted and nested lists, and each key is linked once. */
  lemma LayersAreNestedSortedLists(run: seq<State>, i: nat, l: nat)
    requires IsRun(run) && i < |run|
    ensures Inv(run[i])
    ensures l < run[i].nodes[run[i].head].height ==>
      && SortedBy(run[i], Layer(run[i], l))
      && (forall x :: x in Layer(run[i], l) <==> On(run[i], x, l))
      && (l > 0 ==> Sublist(Layer(run[i], l), Layer(run[i], l - 1)))
  {
    RunInv(run, i);
    var s := run[i];
    if l < s.nodes[s.head].height {
      WalkSorted(s, s.head, l);
      if l > 0 {
        WalkSorted(s, s.head, l - 1);
        SortedSublist(s, Layer(s, l), Layer(s, l - 1));
      }
    }
  }

  /** In every reachable state a fully linked node that nobody marked is linked on all its layers, and on no other. */
  lemma UnmarkedNodesAreFullyLinked(run: seq<State>, i: nat, n: Id, l: nat)
    requires IsRun(run) && i < |run| && n in run[i].nodes
    requires !run[i].nodes[n].isHead && run[i].nodes[n].full && !run[i].nodes[n].marked
    ensures Inv(run[i]) && (On(run[i], n, l) <==> l < run[i].nodes[n].height)
    ensures l < run[i].nodes[n].height ==>
      l < run[i].nodes[run[i].head].height && n in Layer(run[i], l)
  {
    RunInv(run, i);
    assert NodeShape(run[i], n);
    if l < run[i].nodes[n].height {
      WalkSorted(run[i], run[i].head, l);
    }
  }

  /** No update is between its first and last store. */
  ghost predicate Settled(s: State) {
    forall t :: t in s.threads ==> !s.threads[t].Linking? && !s.threads[t].Counting? && !s.threads[t].Unlinking?
  }

  /**
   `size_` is the number of linked data nodes, but for the nodes whose insertion or removal has yet to count them;
   so it is that number whenever no insertion or removal is half done.
   */
  lemma SizeIsExact(run: seq<State>, i: nat)
    requires IsRun(run) && i < |run|
    ensures run[i].size == |Members(run[i])| - |Adders(run[i])| + |Droppers(run[i])|
    ensures Settled(run[i]) ==> run[i].size == |Members(run[i])|
  {
    RunInv(run, i);
    if Settled(run[i]) { assert Adders(run[i]) == {} && Droppers(run[i]) == {}; }
  }

  // ---------------------------------------------------------------- refinement of an atomic set

  /** The abstract set: the keys of nodes linked on layer 0 and not marked. */
  ghost function Contents(s: State): set<int> {
    set n | n in s.nodes && On(s, n, 0) && !s.nodes[n].marked :: s.nodes[n].key
  }

  /** The step in which a successful `addOrGetData` takes effect. */
  ghost predicate Inserts(s: State, s': State, key: int) {
    exists t :: LinkLayer(s, s', t) && s.threads[t].j == 0 && s.threads[t].trail.key == key
  }

  /** The step in which a successful `remove` takes effect. */
  ghost predicate Removes(s: State, s': State, key: int) {
    exists t :: Take(s, s', t) && !s.nodes[s.threads[t].victim].marked && s.nodes[s.threads[t].victim].key == key
  }

  lemma LinkAddsKey(s: State, s': State, p: Id, n: Id, q: Option<Id>)
    requires LinkSite(s, s', p, n, 0, q) && !s.nodes[n].marked
    ensures s.nodes[n].key !in Contents(s) && Contents(s') == Contents(s) + {s.nodes[n].key}
  {
    LinkOn(s, s', p, n, 0, q);
    forall k | k in Contents(s') ensures k in Contents(s) + {s.nodes[n].key} {
      var m :| m in s'.nodes && On(s', m, 0) && !s'.nodes[m].marked && s'.nodes[m].key == k;
      assert m == n || On(s, m, 0);
    }
    forall k | k in Contents(s) ensures k in Contents(s') && k != s.nodes[n].key {
      var m :| m in s.nodes && On(s, m, 0) && !s.nodes[m].marked && s.nodes[m].key == k;
      assert On(s', m, 0);
    }
    assert On(s', n, 0);
  }

  lemma InsertAddsKey(s: State, s': State, t: Tid)
    requires Inv(s) && LinkLayer(s, s', t) && s.threads[t].j == 0
    ensures s.threads[t].trail.key !in Contents(s)
    ensures Contents(s') == Contents(s) + {s.threads[t].trail.key}
  {
    BriefHolds(s);
    assert BriefPc(s, t);
    LinkPlace(s, s', t);
    var p, q :| LinkSite(s, s', p, s.threads[t].node, 0, q);
    LinkAddsKey(s, s', p, s.threads[t].node, q);
  }

  lemma RemoveDropsKey(s: State, s': State, t: Tid)
    requires Inv(s) && Take(s, s', t) && !s.nodes[s.threads[t].victim].marked
    ensures s.nodes[s.threads[t].victim].key in Contents(s)
    ensures Contents(s') == Contents(s) - {s.nodes[s.threads[t].victim].key}
  {
    var v := s.threads[t].victim;
    assert PcOK(s, t, s.threads[t]) && NodeShape(s, v);
    assert On(s, v, 0);
    forall k | k in Contents(s') ensures k in Contents(s) - {s.nodes[v].key} {
      var n :| n in s'.nodes && On(s', n, 0) && !s'.nodes[n].marked && s'.nodes[n].key == k;
      assert On(s, n, 0);
    }
    forall k | k in Contents(s) && k != s.nodes[v].key ensures k in Contents(s') {
      var n :| n in s.nodes && On(s, n, 0) && !s.nodes[n].marked && s.nodes[n].key == k;
      assert On(s', n, 0);
    }
  }

  /** An `addOrGetData` that settles for a node already there does so at a moment when its key is in the set. */
  lemma FoundKeyIsPresent(run: seq<State>, i: nat, t: Tid)
    requires IsRun(run) && i + 1 < |run| && AddFound(run[i], run[i + 1], t) && run[i + 1].threads[t].Waiting?
    ensures run[i].threads[t].trail.key in Contents(run[i])
  {
    RunInv(run, i);
    var s := run[i];
    var n := s.threads[t].trail.found.value;
    assert PcOK(s, t, s.threads[t]);
    assert On(s, n, 0);
  }

  /** Live nodes and their keys are the same before and after. */
  ghost predicate SameLive(s: State, s': State) {
    && (forall n :: n in s.nodes && On(s, n, 0) && !s.nodes[n].marked ==>
          n in s'.nodes && On(s', n, 0) && !s'.nodes[n].marked && s'.nodes[n].key == s.nodes[n].key)
    && (forall n :: n in s'.nodes && On(s', n, 0) && !s'.nodes[n].marked ==>
          n in s.nodes && On(s, n, 0) && !s.nodes[n].marked && s'.nodes[n].key == s.nodes[n].key)
  }

  lemma SameLiveSameContents(s: State, s': State)
    requires SameLive(s, s')
    ensures Contents(s') == Contents(s)
  {
    forall k | k in Contents(s') ensures k in Contents(s) {
      var n :| n in s'.nodes && On(s', n, 0) && !s'.nodes[n].marked && s'.nodes[n].key == k;
      assert On(s, n, 0);
    }
    forall k | k in Contents(s) ensures k in Contents(s') {
      var n :| n in s.nodes && On(s, n, 0) && !s.nodes[n].marked && s.nodes[n].key == k;
      assert On(s', n, 0);
    }
  }

  lemma LinkKeepsLive(s: State, s': State, t: Tid)
    requires LinkLayer(s, s', t) && s.threads[t].j == s.nodes[s.threads[t].node].cnt != 0
    ensures SameLive(s, s')
  {
  }

  lemma UnlinkKeepsLive(s: State, s': State, t: Tid)
    requires UnlinkLayer(s, s', t) && s.nodes[s.threads[t].victim].marked
    ensures SameLive(s, s')
  {
  }

  lemma WriteKeepsLive(s: State, s': State, t: Tid)
    requires t in s.threads && BriefPc(s, t) && WriteStep(s, s', t)
    requires LinkLayer(s, s', t) ==> s.threads[t].j != 0
    requires Take(s, s', t) ==> s.nodes[s.threads[t].victim].marked
    ensures SameLive(s, s')
  {
    if LinkLayer(s, s', t) {
      LinkKeepsLive(s, s', t);
    } else if UnlinkLayer(s, s', t) {
      UnlinkKeepsLive(s, s', t);
    }
  }

  lemma QuietKeepsNodes(s: State, s': State, t: Tid)
    requires LocalStep(s, s', t) || LockStep(s, s', t)
    ensures s'.nodes == s.nodes
  {
  }

  lemma QuietKeepsContents(s: State, s': State, t: Tid)
    requires LocalStep(s, s', t) || LockStep(s, s', t)
    ensures Contents(s') == Contents(s)
  {
    QuietKeepsNodes(s, s', t);
    SameLiveSameContents(s, s');
  }

  ghost predicate SetStep(s: State, s': State) {
    || Contents(s') == Contents(s)
    || (exists k :: Inserts(s, s', k) && k !in Contents(s) && Contents(s') == Contents(s) + {k})
    || (exists k :: Removes(s, s', k) && k in Contents(s) && Contents(s') == Contents(s) - {k})
  }

  lemma WriteRefinesSet(s: State, s': State, t: Tid)
    requires Inv(s) && WriteStep(s, s', t)
    ensures SetStep(s, s')
  {
    if LinkLayer(s, s', t) && s.threads[t].j == 0 {
      InsertAddsKey(s, s', t);
      assert Inserts(s, s', s.threads[t].trail.key);
    } else if Take(s, s', t) && !s.nodes[s.threads[t].victim].marked {
      RemoveDropsKey(s, s', t);
      assert Removes(s, s', s.nodes[s.threads[t].victim].key);
    } else {
      BriefHolds(s);
      WriteKeepsLive(s, s', t);
      SameLiveSameContents(s, s');
    }
  }

  /** Every step leaves the set alone, or inserts one absent key, or removes one present key. */
  lemma StepRefinesSet(run: seq<State>, i: nat)
    requires IsRun(run) && i + 1 < |run|
    ensures SetStep(run[i], run[i + 1])
  {
    var s, s' := run[i], run[i + 1];
    RunInv(run, i);
    assert StepAt(run, i);
    var t :| LocalStep(s, s', t) || LockStep(s, s', t) || WriteStep(s, s', t);
    if WriteStep(s, s', t) {
      WriteRefinesSet(s, s', t);
    } else {
      QuietKeepsContents(s, s', t);
    }
  }

  // ---------------------------------------------------------------- removals that lose a race

  /** What a write does to a node it did not create: only `Take` and `GrowMark` set marks. */
  lemma WriteKeepsNode(s: State, s': State, t: Tid, v: Id)
    requires WriteStep(s, s', t) && v in s.nodes
    ensures v in s'.nodes && s'.nodes[v].isHead == s.nodes[v].isHead && s'.nodes[v].key == s.nodes[v].key
    ensures s'.nodes[v].marked && !s.nodes[v].marked ==>
              || (Take(s, s', t) && s.threads[t].victim == v)
              || (GrowMark(s, s', t) && s.threads[t].was == v)
  {
    if StoreNew(s, s', t) || LinkLayer(s, s', t) || SetFull(s, s', t) || UnlinkLayer(s, s', t) {
      assert s'.nodes.Keys == s.nodes.Keys;
    }
  }

  lemma NodeStays(s: State, s': State, v: Id)
    requires Next(s, s') && v in s.nodes
    ensures v in s'.nodes && s'.nodes[v].isHead == s.nodes[v].isHead && s'.nodes[v].key == s.nodes[v].key
  {
    var t :| LocalStep(s, s', t) || LockStep(s, s', t) || WriteStep(s, s', t);
    if WriteStep(s, s', t) {
      WriteKeepsNode(s, s', t, v);
    } else {
      QuietKeepsNodes(s, s', t);
    }
  }

  lemma DataMarkIsTake(s: State, s': State, t: Tid, v: Id)
    requires ThreadsOK(s) && WriteStep(s, s', t) && v in s.nodes && v in s'.nodes
    requires !s.nodes[v].isHead && !s.nodes[v].marked && s'.nodes[v].marked
    ensures Take(s, s', t) && s.threads[t].victim == v
  {
    assert PcOK(s, t, s.threads[t]);
    WriteKeepsNode(s, s', t, v);
  }

  /** Only a successful `remove` marks a data node. */
  lemma MarkingRemoves(s: State, s': State, v: Id)
    requires Inv(s) && Next(s, s') && v in s.nodes && v in s'.nodes
    requires !s.nodes[v].isHead && !s.nodes[v].marked && s'.nodes[v].marked
    ensures s.nodes[v].key !in Contents(s')
  {
    var t :| LocalStep(s, s', t) || LockStep(s, s', t) || WriteStep(s, s', t);
    if WriteStep(s, s', t) {
      DataMarkIsTake(s, s', t, v);
      RemoveDropsKey(s, s', t);
    } else {
      QuietKeepsNodes(s, s', t);
    }
  }

  /** A data node that became marked between `i` and `k` left the set at some moment between them. */
  lemma {:induction false} MarkedMeanwhile(run: seq<State>, i: nat, k: nat, v: Id) returns (j: nat)
    requires IsRun(run) && i <= k < |run| && v in run[i].nodes && !run[i].nodes[v].isHead && !run[i].nodes[v].marked
    ensures v in run[k].nodes && run[k].nodes[v].key == run[i].nodes[v].key && !run[k].nodes[v].isHead
    ensures run[k].nodes[v].marked ==> i < j <= k && run[i].nodes[v].key !in Contents(run[j])
    decreases k
  {
    j := i;
    if i < k {
      j := MarkedMeanwhile(run, i, k - 1, v);
      assert StepAt(run, k - 1);
      NodeStays(run[k - 1], run[k], v);
      if run[k].nodes[v].marked && !run[k - 1].nodes[v].marked {
        RunInv(run, k - 1);
        MarkingRemoves(run[k - 1], run[k], v);
        j := k;
      }
    }
  }

  /**
   A `remove` that picked its node at step `i` and finds it marked at step `k` returns false rightly:
   the key was in the set at step `i` and was absent at some moment up to step `k`.
   */
  lemma LostRaceIsJustified(run: seq<State>, i: nat, k: nat, t: Tid) returns (j: nat)
    requires IsRun(run) && i < k && k + 1 < |run|
    requires RemoveDecide(run[i], run[i + 1], t) && OkToDelete(run[i], run[i].threads[t].trail)
    requires t in run[k].threads && run[k].threads[t] == run[i + 1].threads[t]
    requires Take(run[k], run[k + 1], t) && t !in run[k + 1].threads
    ensures run[i].threads[t].trail.key in Contents(run[i])
    ensures i < j <= k && run[i].threads[t].trail.key !in Contents(run[j])
  {
    var s := run[i];
    var v := s.threads[t].trail.found.value;
    RunInv(run, i);
    assert PcOK(s, t, s.threads[t]) && NodeShape(s, v);
    assert On(s, v, 0);
    j := MarkedMeanwhile(run, i, k, v);
  }
}
