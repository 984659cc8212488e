/**
 What every step of the skip list protocol keeps, and what follows over whole runs.
 */
module SkipListInvariant {
  import opened Options
  import opened SkipListProtocol

  // ---------------------------------------------------------------- the invariant

  /** Data node `n` is linked on layer `l`. */
  ghost predicate On(s: State, n: Id, l: nat) {
    n in s.nodes && !s.nodes[n].isHead && l < s.nodes[n].cnt
  }

  /** `n` starts or continues the list of layer `l`. */
  ghost predicate Anchor(s: State, n: Id, l: nat) {
    || (n == s.head && n in s.nodes && l < s.nodes[n].height)
    || On(s, n, l)
  }

  /** Key order, a head coming before every data node. */
  ghost predicate Before(s: State, a: Id, b: Id)
    requires a in s.nodes && b in s.nodes
  {
    s.nodes[a].isHead || s.nodes[a].key < s.nodes[b].key
  }

  /** `q` is the node that follows `n` among the nodes linked on layer `l`. */
  ghost predicate Follows(s: State, n: Id, l: nat, q: Option<Id>)
    requires n in s.nodes
  {
    && (q.Some? ==> On(s, q.value, l) && Before(s, n, q.value))
    && forall x :: On(s, x, l) && Before(s, n, x) ==> q.Some? && s.nodes[q.value].key <= s.nodes[x].key
  }

  ghost predicate NodeShape(s: State, n: Id)
    requires n in s.nodes && s.head in s.nodes
  {
    var d := s.nodes[n];
    && 1 <= d.height == |d.skip| && d.cnt <= d.height <= s.nodes[s.head].height
    && (d.isHead ==> d.cnt == 0)
    && (!d.isHead && !d.full ==> !d.marked)
    && (!d.isHead && d.full && !d.marked ==> d.cnt == d.height)
  }

  ghost predicate Shape(s: State) {
    && s.head in s.nodes && s.nodes[s.head].isHead && !s.nodes[s.head].marked
    && forall n :: n in s.nodes ==> NodeShape(s, n)
  }

  /** A superseded head is marked, or its lock is held by the thread about to mark it. */
  ghost predicate HeadOK(s: State, n: Id) {
    n in s.nodes && s.nodes[n].isHead && n != s.head && !s.nodes[n].marked ==>
      n in s.lock && s.lock[n] in s.threads && s.threads[s.lock[n]] == GrowSwapped(n)
  }

  /** Node `n` was linked on layer `l` at some time (unlinking needs the mark). */
  ghost predicate EverOn(s: State, n: Id, l: nat) {
    && n in s.nodes && l < s.nodes[n].height
    && (s.nodes[n].isHead || l < s.nodes[n].cnt || s.nodes[n].marked)
  }

  ghost predicate PointerOK(s: State, n: Id, l: nat)
    requires n in s.nodes && l < |s.nodes[n].skip|
  {
    var q := s.nodes[n].skip[l];
    q.Some? ==> EverOn(s, q.value, l) && !s.nodes[q.value].isHead
  }

  ghost predicate Pointers(s: State) {
    forall n, l: nat :: n in s.nodes && l < |s.nodes[n].skip| ==> PointerOK(s, n, l)
  }

  ghost predicate Chained(s: State)
    requires Shape(s)
  {
    forall n, l: nat :: Anchor(s, n, l) ==> Follows(s, n, l, s.nodes[n].skip[l])
  }

  ghost predicate UniqueKeys(s: State) {
    forall a, b :: On(s, a, 0) && On(s, b, 0) && s.nodes[a].key == s.nodes[b].key ==> a == b
  }

  // What a thread knows about nodes it does not hold locks on.

  ghost predicate GoodPred(s: State, p: Id, l: nat, key: int) {
    EverOn(s, p, l) && (s.nodes[p].isHead || s.nodes[p].key < key)
  }

  ghost predicate GoodSucc(s: State, q: Option<Id>, key: int, strict: bool) {
    q.Some? ==> q.value in s.nodes && !s.nodes[q.value].isHead && key <= s.nodes[q.value].key
                && (strict ==> key < s.nodes[q.value].key)
  }

  ghost predicate TrailOK(s: State, r: Trail, lo: nat) {
    && s.head in s.nodes && r.top < s.nodes[s.head].height
    && (forall i: nat :: lo <= i <= r.top ==>
          i in r.preds && i in r.succs && GoodPred(s, r.preds[i], i, r.key)
          && GoodSucc(s, r.succs[i], r.key, r.found.None?))
    && (r.found.Some? ==>
          && r.found.value in s.nodes && !s.nodes[r.found.value].isHead && s.nodes[r.found.value].key == r.key
          && r.foundLayer <= r.top && EverOn(s, r.found.value, r.foundLayer))
  }

  // What a thread knows about nodes it holds locks on.

  ghost predicate Held(s: State, t: Tid, p: Id, l: nat, q: Option<Id>) {
    && p in s.lock && s.lock[p] == t && p in s.nodes && !s.nodes[p].marked
    && l < |s.nodes[p].skip| && s.nodes[p].skip[l] == q
  }

  ghost predicate HeldRange(s: State, t: Tid, r: Trail, lo: nat, hi: nat) {
    forall i: nat :: lo <= i < hi ==> i in r.preds && i in r.succs && Held(s, t, r.preds[i], i, r.succs[i])
  }

  ghost predicate VictimOK(s: State, t: Tid, v: Id, key: int, top: nat, cnt: nat) {
    && v in s.nodes && !s.nodes[v].isHead && s.nodes[v].marked && s.nodes[v].key == key
    && s.nodes[v].cnt == cnt && s.nodes[v].height <= top + 1
    && v in s.lock && s.lock[v] == t
  }

  ghost predicate GoalOK(s: State, t: Tid, goal: Goal, key: int, top: nat) {
    goal.Unlink? ==> goal.victim in s.nodes && VictimOK(s, t, goal.victim, key, top, s.nodes[goal.victim].height)
  }

  ghost predicate NewNodeOK(s: State, n: Id, key: int, h: nat, j: nat) {
    n in s.nodes && var d := s.nodes[n]; !d.isHead && d.key == key && d.height == h && d.cnt == j && !d.full && !d.marked
  }

  ghost predicate PcOK(s: State, t: Tid, pc: Pc) {
    match pc
    case Start(goal, key, top) => s.head in s.nodes && top < s.nodes[s.head].height && GoalOK(s, t, goal, key, top)
    case Seek(goal, r, layer, pred) =>
      layer <= r.top && TrailOK(s, r, layer + 1) && GoodPred(s, pred, layer, r.key) && GoalOK(s, t, goal, r.key, r.top)
    case Sought(goal, r) => TrailOK(s, r, 0) && GoalOK(s, t, goal, r.key, r.top)
    case Waiting(n) => EverOn(s, n, 0) && !s.nodes[n].isHead
    case Locking(goal, r, h, k) =>
      && TrailOK(s, r, 0) && GoalOK(s, t, goal, r.key, r.top) && k <= h <= r.top + 1 && 1 <= h
      && !goal.Delete? && (goal.Insert? ==> r.found.None?)
      && (goal.Unlink? ==> goal.victim in s.nodes && h == s.nodes[goal.victim].height)
      && HeldRange(s, t, r, 0, k)
    case Linking(r, h, n, j, stored) =>
      && TrailOK(s, r, 0) && r.found.None? && j <= h <= r.top + 1 && 1 <= h && NewNodeOK(s, n, r.key, h, j)
      && HeldRange(s, t, r, j, h)
      && (stored ==> j < h && j < |s.nodes[n].skip| && j in r.succs && s.nodes[n].skip[j] == r.succs[j])
    case Counting(n) => true
    case Taking(r, v) =>
      && TrailOK(s, r, 0) && v in s.nodes && !s.nodes[v].isHead && s.nodes[v].full
      && s.nodes[v].key == r.key && s.nodes[v].height <= r.top + 1
    case Unlinking(r, h, v, j) =>
      && TrailOK(s, r, 0) && VictimOK(s, t, v, r.key, r.top, j) && h == s.nodes[v].height
      && forall i: nat :: i < j ==> i in r.preds && Held(s, t, r.preds[i], i, Some(v))
    case GrowWait(n, h) => n in s.nodes && s.nodes[n].isHead
    case GrowLocked(n, h) => n in s.nodes && s.nodes[n].isHead && n in s.lock && s.lock[n] == t
    case GrowSwapped(n) => n in s.nodes && s.nodes[n].isHead && n != s.head && n in s.lock && s.lock[n] == t
    case Peek(op, key, pred, ht) => GoodPred(s, pred, if ht == 0 then 0 else ht - 1, key)
    case Walk(op, key, pred, layer) => GoodPred(s, pred, layer, key)
    case Settle(op, key, cand) => cand.Some? ==> GoodCand(s, cand.value) && (op.Find? ==> s.nodes[cand.value].key == key)
    case Pass(key, over) => GoodCand(s, over)
  }

  /** A data node that was linked at some time. */
  ghost predicate GoodCand(s: State, n: Id) {
    EverOn(s, n, 0) && !s.nodes[n].isHead
  }

  ghost predicate ThreadsOK(s: State) {
    forall t :: t in s.threads ==> PcOK(s, t, s.threads[t])
  }

  ghost predicate SelfOK(s: State, t: Tid) {
    forall u :: u == t && u in s.threads ==> PcOK(s, u, s.threads[u])
  }

  /** No two threads build the same node. */
  ghost predicate OwnNodes(s: State) {
    forall t, u :: t in s.threads && u in s.threads && t != u && s.threads[t].Linking? && s.threads[u].Linking?
      ==> s.threads[t].node != s.threads[u].node
  }

  // size_ and the threads whose change it does not show yet

  ghost function Members(s: State): set<Id> {
    set n | n in s.nodes && On(s, n, 0)
  }

  ghost predicate Adding(pc: Pc) { pc.Counting? || (pc.Linking? && pc.j > 0) }
  ghost predicate Dropping(pc: Pc) { pc.Unlinking? && pc.j == 0 }

  ghost function Adders(s: State): set<Tid> { set t | t in s.threads && Adding(s.threads[t]) }
  ghost function Droppers(s: State): set<Tid> { set t | t in s.threads && Dropping(s.threads[t]) }

  ghost predicate SizeOK(s: State) {
    s.size + |Adders(s)| == |Members(s)| + |Droppers(s)|
  }

  ghost predicate Inv(s: State) {
    && Shape(s) && Pointers(s) && Chained(s) && UniqueKeys(s)
    && (forall n :: HeadOK(s, n))
    && ThreadsOK(s) && OwnNodes(s) && SizeOK(s)
  }

  lemma InitInv(s: State)
    requires Init(s)
    ensures Inv(s)
  {
    assert Members(s) == {};
    assert Adders(s) == {} && Droppers(s) == {};
  }

  // ---------------------------------------------------------------- frames

  /** What never goes back: node identity, marks, and having been linked. */
  ghost predicate Evolves(s: State, s': State) {
    && s.head in s.nodes && s'.head in s'.nodes && s.nodes[s.head].height <= s'.nodes[s'.head].height
    && forall n :: n in s.nodes ==>
        && n in s'.nodes
        && s'.nodes[n].isHead == s.nodes[n].isHead && s'.nodes[n].key == s.nodes[n].key
        && s'.nodes[n].height == s.nodes[n].height && |s'.nodes[n].skip| == |s.nodes[n].skip|
        && (s.nodes[n].marked ==> s'.nodes[n].marked)
        && (s.nodes[n].full ==> s'.nodes[n].full)
        && (s.nodes[n].cnt <= s'.nodes[n].cnt || s'.nodes[n].marked)
  }

  /** Thread `t` leaves alone what thread `u` relies on: the nodes `u` locked, and the node `u` builds. */
  ghost predicate Spares(s: State, s': State, u: Tid) {
    && (forall n :: n in s.lock && s.lock[n] == u && n in s.nodes && n in s'.nodes ==>
          && n in s'.lock && s'.lock[n] == u
          && s'.nodes[n].marked == s.nodes[n].marked
          && (s.nodes[n].marked ==> s'.nodes[n].cnt == s.nodes[n].cnt)
          && forall l: nat :: l < |s.nodes[n].skip| && l < |s'.nodes[n].skip| && Anchor(s, n, l) ==> s'.nodes[n].skip[l] == s.nodes[n].skip[l])
    && (u in s.threads && s.threads[u].Linking? && s.threads[u].node in s.nodes && s.threads[u].node in s'.nodes ==>
          var n := s.threads[u].node;
          && s'.nodes[n].cnt == s.nodes[n].cnt && s'.nodes[n].full == s.nodes[n].full && s'.nodes[n].marked == s.nodes[n].marked
          && (s.threads[u].j < |s.nodes[n].skip| && s.threads[u].j < |s'.nodes[n].skip| ==>
                s'.nodes[n].skip[s.threads[u].j] == s.nodes[n].skip[s.threads[u].j]))
  }

  lemma TrailStays(s: State, s': State, r: Trail, lo: nat)
    requires Evolves(s, s') && TrailOK(s, r, lo)
    ensures TrailOK(s', r, lo)
  {
  }

  /** A locked, unmarked predecessor that a search once reached is on the list now. */
  lemma HeldIsAnchor(s: State, t: Tid, p: Id, l: nat, key: int, q: Option<Id>)
    requires Shape(s) && HeadOK(s, p) && GoodPred(s, p, l, key) && Held(s, t, p, l, q)
    requires t in s.threads && !s.threads[t].GrowSwapped?
    ensures Anchor(s, p, l)
  {
  }

  lemma HeldStays(s: State, s': State, u: Tid, p: Id, l: nat, key: int, q: Option<Id>)
    requires Shape(s) && HeadOK(s, p) && Evolves(s, s') && Spares(s, s', u)
    requires GoodPred(s, p, l, key) && Held(s, u, p, l, q) && u in s.threads && !s.threads[u].GrowSwapped?
    ensures Held(s', u, p, l, q)
  {
    HeldIsAnchor(s, u, p, l, key, q);
  }

  lemma HeldRangeStays(s: State, s': State, u: Tid, r: Trail, lo: nat, hi: nat)
    requires Shape(s) && (forall n :: HeadOK(s, n)) && Evolves(s, s') && Spares(s, s', u)
    requires TrailOK(s, r, 0) && hi <= r.top + 1 && HeldRange(s, u, r, lo, hi)
    requires u in s.threads && !s.threads[u].GrowSwapped?
    ensures HeldRange(s', u, r, lo, hi)
  {
    forall i: nat | lo <= i < hi ensures i in r.preds && i in r.succs && Held(s', u, r.preds[i], i, r.succs[i]) {
      HeldStays(s, s', u, r.preds[i], i, r.key, r.succs[i]);
    }
  }

  lemma GoalStays(s: State, s': State, u: Tid, goal: Goal, key: int, top: nat)
    requires Evolves(s, s') && Spares(s, s', u) && GoalOK(s, u, goal, key, top)
    ensures GoalOK(s', u, goal, key, top)
  {
  }

  lemma UnlinkingStays(s: State, s': State, u: Tid)
    requires Shape(s) && (forall n :: HeadOK(s, n)) && Evolves(s, s') && Spares(s, s', u)
    requires u in s.threads && s.threads[u].Unlinking? && PcOK(s, u, s.threads[u])
    ensures PcOK(s', u, s.threads[u])
  {
    var Unlinking(r, h, v, j) := s.threads[u];
    TrailStays(s, s', r, 0);
    forall i: nat | i < j ensures i in r.preds && Held(s', u, r.preds[i], i, Some(v)) {
      HeldStays(s, s', u, r.preds[i], i, r.key, Some(v));
    }
  }

  /** What `u` knows survives a step of another thread. */
  lemma PcStays(s: State, s': State, u: Tid)
    requires Shape(s) && (forall n :: HeadOK(s, n)) && Evolves(s, s') && Spares(s, s', u)
    requires u in s.threads && PcOK(s, u, s.threads[u])
    requires s.threads[u].GrowSwapped? ==> s.threads[u].was != s'.head
    ensures PcOK(s', u, s.threads[u])
  {
    var pc := s.threads[u];
    match pc
    case Start(goal, key, top) => GoalStays(s, s', u, goal, key, top);
    case Seek(goal, r, layer, pred) => TrailStays(s, s', r, layer + 1); GoalStays(s, s', u, goal, r.key, r.top);
    case Sought(goal, r) => TrailStays(s, s', r, 0); GoalStays(s, s', u, goal, r.key, r.top);
    case Waiting(n) =>
    case Locking(goal, r, h, k) =>
      TrailStays(s, s', r, 0); GoalStays(s, s', u, goal, r.key, r.top); HeldRangeStays(s, s', u, r, 0, k);
    case Linking(r, h, n, j, stored) =>
      TrailStays(s, s', r, 0); HeldRangeStays(s, s', u, r, j, h);
    case Counting(n) =>
    case Taking(r, v) => TrailStays(s, s', r, 0);
    case Unlinking(r, h, v, j) => UnlinkingStays(s, s', u);
    case GrowWait(n, h) =>
    case GrowLocked(n, h) =>
    case GrowSwapped(n) =>
    case Peek(op, key, pred, ht) =>
    case Walk(op, key, pred, layer) =>
    case Settle(op, key, cand) =>
    case Pass(key, over) =>
  }

  /** Only `t` moved. */
  ghost predicate OnlyMoves(s: State, s': State, t: Tid) {
    forall u :: u != t ==> (u in s.threads <==> u in s'.threads) && (u in s.threads ==> s'.threads[u] == s.threads[u])
  }

  lemma ThreadsStay(s: State, s': State, t: Tid)
    requires Shape(s) && (forall n :: HeadOK(s, n)) && ThreadsOK(s) && Evolves(s, s') && OnlyMoves(s, s', t)
    requires forall u :: u in s.threads && u != t ==>
      Spares(s, s', u) && (s.threads[u].GrowSwapped? ==> s.threads[u].was != s'.head)
    requires SelfOK(s', t)
    ensures ThreadsOK(s')
  {
    forall u | u in s'.threads ensures PcOK(s', u, s'.threads[u]) {
      if u != t { PcStays(s, s', u); }
    }
  }

  lemma NodesStay(s: State, s': State)
    requires Shape(s) && Pointers(s) && Chained(s) && UniqueKeys(s) && s'.nodes == s.nodes && s'.head == s.head
    ensures Shape(s') && Pointers(s') && Chained(s') && UniqueKeys(s') && Evolves(s, s') && Members(s') == Members(s)
  {
    assert forall n :: n in s.nodes ==> NodeShape(s', n) by {
      forall n | n in s.nodes ensures NodeShape(s', n) { assert NodeShape(s, n); }
    }
    assert forall n, l: nat :: On(s, n, l) == On(s', n, l);
    forall n, l: nat | n in s'.nodes && l < |s'.nodes[n].skip| ensures PointerOK(s', n, l) {
      assert PointerOK(s, n, l);
    }
    forall n, l: nat | Anchor(s', n, l) ensures Follows(s', n, l, s'.nodes[n].skip[l]) {
      assert Anchor(s, n, l);
    }
  }

  /** `size_` accounts when a step neither links nor unlinks on layer 0 and does not touch `size_`. */
  lemma SizeStays(s: State, s': State, t: Tid)
    requires SizeOK(s) && OnlyMoves(s, s', t) && s'.size == s.size && Members(s') == Members(s)
    requires (t in s'.threads && Adding(s'.threads[t])) == (t in s.threads && Adding(s.threads[t]))
    requires (t in s'.threads && Dropping(s'.threads[t])) == (t in s.threads && Dropping(s.threads[t]))
    ensures SizeOK(s')
  {
    assert Adders(s') == Adders(s);
    assert Droppers(s') == Droppers(s);
  }

  // ---------------------------------------------------------------- local steps

  /** `t` changes its program counter and its own locks, and no node. */
  ghost predicate Quiet(s: State, s': State, t: Tid) {
    && s'.nodes == s.nodes && s'.head == s.head && OnlyMoves(s, s', t)
    && (forall n :: n in s.lock && s.lock[n] != t ==> n in s'.lock && s'.lock[n] == s.lock[n])
    && (t in s.threads ==> !s.threads[t].GrowSwapped?)
    && (t in s'.threads ==> !s'.threads[t].Linking? && !s'.threads[t].GrowSwapped?)
  }

  ghost predicate Uncounted(s: State, t: Tid) {
    t in s.threads && (Adding(s.threads[t]) || Dropping(s.threads[t]))
  }

  /** A quiet step that leaves the thread where its program counter says, and `size_` and what it accounts for alone. */
  ghost predicate QuietStep(s: State, s': State, t: Tid) {
    Quiet(s, s', t) && s'.size == s.size && !Uncounted(s, t) && !Uncounted(s', t) && SelfOK(s', t)
  }

  lemma QuietSpares(s: State, s': State, t: Tid, u: Tid)
    requires Quiet(s, s', t) && u in s.threads && u != t && PcOK(s, u, s.threads[u])
    ensures Spares(s, s', u) && (s.threads[u].GrowSwapped? ==> s.threads[u].was != s'.head)
  {
  }

  lemma QuietHeads(s: State, s': State, t: Tid)
    requires Quiet(s, s', t) && forall n :: HeadOK(s, n)
    ensures forall n :: HeadOK(s', n)
  {
    forall n ensures HeadOK(s', n) { assert HeadOK(s, n); }
  }

  lemma QuietThreads(s: State, s': State, t: Tid)
    requires Shape(s) && (forall n :: HeadOK(s, n)) && ThreadsOK(s) && Evolves(s, s')
    requires Quiet(s, s', t) && SelfOK(s', t)
    ensures ThreadsOK(s')
  {
    forall u | u in s.threads && u != t
      ensures Spares(s, s', u) && (s.threads[u].GrowSwapped? ==> s.threads[u].was != s'.head) { QuietSpares(s, s', t, u); }
    ThreadsStay(s, s', t);
  }

  lemma QuietInv(s: State, s': State, t: Tid)
    requires Inv(s) && Quiet(s, s', t) && SelfOK(s', t) && SizeOK(s')
    ensures Inv(s')
  {
    NodesStay(s, s');
    QuietThreads(s, s', t);
    QuietHeads(s, s', t);
    assert OwnNodes(s');
  }

  lemma EnterPc(s: State, s': State, t: Tid)
    requires Shape(s) && t in s.threads && PcOK(s, t, s.threads[t]) && Enter(s, s', t)
    ensures QuietStep(s, s', t)
  {
    assert NodeShape(s, s.head);
  }

  lemma RightPc(s: State, s': State, t: Tid)
    requires Shape(s) && Pointers(s) && t in s.threads && PcOK(s, t, s.threads[t]) && Right(s, s', t)
    ensures QuietStep(s, s', t)
  {
    var pc := s.threads[t];
    assert PointerOK(s, pc.pred, pc.layer);
    TrailStays(s, s', pc.trail, pc.layer + 1);
  }

  lemma RecordOK(s: State, r: Trail, layer: nat, pred: Id, q: Option<Id>)
    requires layer <= r.top && TrailOK(s, r, layer + 1) && GoodPred(s, pred, layer, r.key) && GoodSucc(s, q, r.key, false)
    requires q.Some? ==> EverOn(s, q.value, layer)
    ensures TrailOK(s, Record(s, r, layer, pred, q), layer)
  {
  }

  lemma DownPc(s: State, s': State, t: Tid)
    requires Shape(s) && Pointers(s) && t in s.threads && ThreadsOK(s) && Down(s, s', t)
    ensures QuietStep(s, s', t)
  {
    assert PcOK(s, t, s.threads[t]);
    DownSelf(s, s', t);
  }

  lemma DownSelf(s: State, s': State, t: Tid)
    requires Shape(s) && Pointers(s) && t in s.threads && PcOK(s, t, s.threads[t]) && Down(s, s', t)
    ensures t in s'.threads && PcOK(s', t, s'.threads[t])
  {
    var pc := s.threads[t];
    var q := s.nodes[pc.pred].skip[pc.layer];
    assert PointerOK(s, pc.pred, pc.layer);
    RecordOK(s, pc.trail, pc.layer, pc.pred, q);
    TrailStays(s, s', Record(s, pc.trail, pc.layer, pc.pred, q), pc.layer);
  }

  lemma LookBeginPc(s: State, s': State, t: Tid, op: Lookup, key: int)
    requires Shape(s) && LookBegin(s, s', t, op, key)
    ensures QuietStep(s, s', t)
  {
    assert NodeShape(s, s.head);
  }

  lemma LookPc(s: State, s': State, t: Tid)
    requires Shape(s) && Pointers(s) && t in s.threads && PcOK(s, t, s.threads[t]) && LookStep(s, s', t)
    ensures QuietStep(s, s', t)
  {
    var pc := s.threads[t];
    if pc.Peek? { PeekPc(s, s', t); }
    else if pc.Walk? { WalkPc(s, s', t); }
    else if pc.Pass? { assert NodeShape(s, pc.over) && PointerOK(s, pc.over, 0); }
  }

  lemma PeekPc(s: State, s': State, t: Tid)
    requires Shape(s) && Pointers(s) && t in s.threads && PcOK(s, t, s.threads[t]) && PeekStep(s, s', t)
    ensures QuietStep(s, s', t)
  {
    var pc := s.threads[t];
    assert NodeShape(s, pc.from) && PointerOK(s, pc.from, if pc.ht == 0 then 0 else pc.ht - 1);
  }

  lemma WalkPc(s: State, s': State, t: Tid)
    requires Shape(s) && Pointers(s) && t in s.threads && PcOK(s, t, s.threads[t]) && WalkStep(s, s', t)
    ensures QuietStep(s, s', t)
  {
    var pc := s.threads[t];
    assert NodeShape(s, pc.from) && PointerOK(s, pc.from, pc.layer);
  }

  lemma FirstPc(s: State, s': State, t: Tid)
    requires Shape(s) && ((exists goal, key :: Begin(s, s', t, goal, key)) || exists h :: GrowBegin(s, s', t, h))
    ensures QuietStep(s, s', t)
  {
    assert NodeShape(s, s.head);
  }

  lemma AddPc(s: State, s': State, t: Tid)
    requires Shape(s) && t in s.threads && PcOK(s, t, s.threads[t])
    requires AddFound(s, s', t) || AddReturn(s, s', t) || exists h :: AddPick(s, s', t, h)
    ensures QuietStep(s, s', t)
  {
    assert NodeShape(s, s.head);
  }

  lemma RemovePc(s: State, s': State, t: Tid)
    requires Shape(s) && t in s.threads && PcOK(s, t, s.threads[t]) && (RemoveDecide(s, s', t) || RemoveAgain(s, s', t))
    ensures QuietStep(s, s', t)
  {
    if RemoveAgain(s, s', t) { assert NodeShape(s, s.threads[t].goal.victim); }
  }

  lemma SearchPc(s: State, s': State, t: Tid)
    requires Shape(s) && Pointers(s) && t in s.threads && ThreadsOK(s)
    requires Enter(s, s', t) || Right(s, s', t) || Down(s, s', t) || LookStep(s, s', t)
    ensures QuietStep(s, s', t)
  {
    assert PcOK(s, t, s.threads[t]);
    if Enter(s, s', t) { EnterPc(s, s', t); }
    else if Right(s, s', t) { RightPc(s, s', t); }
    else if Down(s, s', t) { DownPc(s, s', t); }
    else { LookPc(s, s', t); }
  }

  lemma ChoosePc(s: State, s': State, t: Tid)
    requires Shape(s) && t in s.threads && ThreadsOK(s)
    requires RemoveDecide(s, s', t) || RemoveAgain(s, s', t) || AddFound(s, s', t) || AddReturn(s, s', t) || exists h :: AddPick(s, s', t, h)
    ensures QuietStep(s, s', t)
  {
    assert PcOK(s, t, s.threads[t]);
    if RemoveDecide(s, s', t) || RemoveAgain(s, s', t) { RemovePc(s, s', t); } else { AddPc(s, s', t); }
  }

  lemma LocalPc(s: State, s': State, t: Tid)
    requires Shape(s) && Pointers(s) && ThreadsOK(s) && LocalStep(s, s', t) && !UnlinkStart(s, s', t)
    ensures QuietStep(s, s', t)
  {
    if Enter(s, s', t) || Right(s, s', t) || Down(s, s', t) || LookStep(s, s', t) {
      SearchPc(s, s', t);
    } else if op, key :| LookBegin(s, s', t, op, key) {
      LookBeginPc(s, s', t, op, key);
    } else if (exists goal, key :: Begin(s, s', t, goal, key)) || exists h :: GrowBegin(s, s', t, h) {
      FirstPc(s, s', t);
    } else {
      ChoosePc(s, s', t);
    }
  }

  lemma QuietStepInv(s: State, s': State, t: Tid)
    requires Inv(s) && QuietStep(s, s', t)
    ensures Inv(s')
  {
    assert Members(s') == Members(s);
    SizeStays(s, s', t);
    QuietInv(s, s', t);
  }

  lemma LocalStepInv(s: State, s': State, t: Tid)
    requires Inv(s) && LocalStep(s, s', t)
    ensures Inv(s')
  {
    if UnlinkStart(s, s', t) {
      UnlinkStartInv(s, s', t);
    } else {
      LocalPc(s, s', t);
      QuietStepInv(s, s', t);
    }
  }

  /** On a validated layer the successor can only be the victim: nothing else with its key is linked. */
  lemma VictimFollows(s: State, t: Tid, p: Id, l: nat, q: Option<Id>, v: Id)
    requires Inv(s) && On(s, v, l) && GoodPred(s, p, l, s.nodes[v].key) && Held(s, t, p, l, q)
    requires t in s.threads && !s.threads[t].GrowSwapped? && GoodSucc(s, q, s.nodes[v].key, false)
    ensures q == Some(v)
  {
    HeldIsAnchor(s, t, p, l, s.nodes[v].key, q);
    assert Follows(s, p, l, q);
    assert On(s, v, 0) && On(s, q.value, 0);
  }

  lemma UnlinkStartPc(s: State, s': State, t: Tid)
    requires Inv(s) && UnlinkStart(s, s', t)
    ensures SelfOK(s', t)
  {
    var pc := s.threads[t];
    assert PcOK(s, t, pc);
    forall i: nat | i < pc.height ensures i in pc.trail.preds && Held(s', t, pc.trail.preds[i], i, Some(pc.goal.victim)) {
      VictimFollows(s, t, pc.trail.preds[i], i, pc.trail.succs[i], pc.goal.victim);
    }
    TrailStays(s, s', pc.trail, 0);
  }

  lemma UnlinkStartInv(s: State, s': State, t: Tid)
    requires Inv(s) && UnlinkStart(s, s', t)
    ensures Inv(s')
  {
    UnlinkStartPc(s, s', t);
    assert s.threads[t].height >= 1 by { assert PcOK(s, t, s.threads[t]); }
    assert Members(s') == Members(s);
    SizeStays(s, s', t);
    QuietInv(s, s', t);
  }

  // ---------------------------------------------------------------- lock steps

  lemma LockLayerSelf(s: State, s': State, t: Tid)
    requires Shape(s) && LockLayer(s, s', t) && PcOK(s, t, s.threads[t])
    ensures t in s'.threads && PcOK(s', t, s'.threads[t])
  {
    var pc := s.threads[t];
    TrailStays(s, s', pc.trail, 0);
    forall i: nat | i < pc.k + 1 ensures i in pc.trail.preds && i in pc.trail.succs && Held(s', t, pc.trail.preds[i], i, pc.trail.succs[i]) {
      if i < pc.k { assert Held(s, t, pc.trail.preds[i], i, pc.trail.succs[i]); }
    }
  }

  lemma LockLayerPc(s: State, s': State, t: Tid)
    requires Shape(s) && t in s.threads && ThreadsOK(s) && LockLayer(s, s', t)
    ensures QuietStep(s, s', t)
  {
    assert PcOK(s, t, s.threads[t]);
    LockLayerSelf(s, s', t);
  }

  lemma LockPc(s: State, s': State, t: Tid)
    requires Shape(s) && t in s.threads && ThreadsOK(s)
    requires LockFail(s, s', t) || GrowLock(s, s', t) || GrowFail(s, s', t)
    ensures QuietStep(s, s', t)
  {
    assert NodeShape(s, s.head);
    assert PcOK(s, t, s.threads[t]);
  }

  lemma CountUpSize(s: State, s': State, t: Tid)
    requires SizeOK(s) && CountUp(s, s', t)
    ensures SizeOK(s')
  {
    assert Members(s') == Members(s);
    assert Adders(s') == Adders(s) - {t} && t in Adders(s);
    assert Droppers(s') == Droppers(s);
  }

  lemma CountDownSize(s: State, s': State, t: Tid)
    requires SizeOK(s) && CountDown(s, s', t)
    ensures SizeOK(s')
  {
    assert Members(s') == Members(s);
    assert Adders(s') == Adders(s);
    assert Droppers(s') == Droppers(s) - {t} && t in Droppers(s);
  }

  lemma LockStepInv(s: State, s': State, t: Tid)
    requires Inv(s) && LockStep(s, s', t)
    ensures Inv(s')
  {
    if CountUp(s, s', t) || CountDown(s, s', t) {
      if CountUp(s, s', t) { CountUpSize(s, s', t); } else { CountDownSize(s, s', t); }
      assert Quiet(s, s', t);
      QuietInv(s, s', t);
    } else {
      if LockLayer(s, s', t) { LockLayerPc(s, s', t); } else { LockPc(s, s', t); }
      QuietStepInv(s, s', t);
    }
  }

  // ---------------------------------------------------------------- steps that write nodes but leave every layer as it is

  ghost predicate SameLayers(s: State, s': State) {
    && s'.head == s.head && Evolves(s, s')
    && (forall n, l: nat :: On(s', n, l) == On(s, n, l))
    && forall n, l: nat :: Anchor(s, n, l) && l < |s.nodes[n].skip| && l < |s'.nodes[n].skip| ==> s'.nodes[n].skip[l] == s.nodes[n].skip[l]
  }

  lemma LayersStay(s: State, s': State)
    requires Shape(s) && Shape(s') && Chained(s) && UniqueKeys(s) && SameLayers(s, s')
    ensures Chained(s') && UniqueKeys(s') && Members(s') == Members(s)
  {
    forall n, l: nat | Anchor(s', n, l) ensures Follows(s', n, l, s'.nodes[n].skip[l]) {
      assert NodeShape(s, n) && NodeShape(s', n);
      assert Anchor(s, n, l);
      assert Follows(s, n, l, s.nodes[n].skip[l]);
    }
  }

  /** The part of `PcOK` that other threads' steps have to respect. */
  ghost predicate BriefPc(s: State, u: Tid)
    requires u in s.threads
  {
    var pc := s.threads[u];
    && (pc.Linking? ==> NewNodeOK(s, pc.node, pc.trail.key, pc.height, pc.j))
    && (pc.GrowSwapped? ==> pc.was in s.nodes && s.nodes[pc.was].isHead && pc.was != s.head)
    && (pc.Unlinking? ==> pc.victim in s.nodes && s.nodes[pc.victim].marked && s.nodes[pc.victim].full)
    && (pc.Taking? ==> pc.victim in s.nodes && !s.nodes[pc.victim].isHead && s.nodes[pc.victim].full)
  }

  ghost predicate Brief(s: State) {
    forall u :: u in s.threads ==> BriefPc(s, u)
  }

  lemma BriefHolds(s: State)
    requires Shape(s) && ThreadsOK(s)
    ensures Brief(s)
  {
    forall u | u in s.threads ensures BriefPc(s, u) {
      assert PcOK(s, u, s.threads[u]);
      if s.threads[u].Unlinking? { assert NodeShape(s, s.threads[u].victim); }
    }
  }

  /** A write step touches only what the moving thread owns. */
  ghost predicate Disciplined(s: State, s': State, t: Tid) {
    OnlyMoves(s, s', t) && forall u :: u in s.threads && u != t ==>
      Spares(s, s', u) && (s.threads[u].GrowSwapped? ==> s.threads[u].was != s'.head)
  }

  lemma Assemble(s: State, s': State, t: Tid)
    requires Inv(s) && Shape(s') && Pointers(s') && Chained(s') && UniqueKeys(s') && SizeOK(s')
    requires Evolves(s, s') && Disciplined(s, s', t)
    requires SelfOK(s', t)
    requires forall n :: HeadOK(s', n)
    requires OwnNodes(s')
    ensures Inv(s')
  {
    ThreadsStay(s, s', t);
  }

  lemma CreateNodes(s: State, s': State, t: Tid, n: Id)
    requires Shape(s) && Pointers(s) && t in s.threads && ThreadsOK(s) && Create(s, s', t, n)
    ensures Shape(s') && Pointers(s') && SameLayers(s, s') && SelfOK(s', t)
  {
    forall m | m in s'.nodes ensures NodeShape(s', m) {
      assert NodeShape(s, s.head);
      if m != n { assert NodeShape(s, m); }
    }
    forall m, l: nat | m in s'.nodes && l < |s'.nodes[m].skip| ensures PointerOK(s', m, l) {
      if m != n { assert PointerOK(s, m, l); }
    }
    TrailStays(s, s', s.threads[t].trail, 0);
  }

  lemma CreateOthers(s: State, s': State, t: Tid, n: Id)
    requires Brief(s) && OwnNodes(s) && (forall m :: HeadOK(s, m)) && Create(s, s', t, n)
    ensures Disciplined(s, s', t) && OwnNodes(s') && forall m :: HeadOK(s', m)
  {
    forall u | u in s.threads && u != t
      ensures Spares(s, s', u) && (s.threads[u].GrowSwapped? ==> s.threads[u].was != s'.head)
      ensures s.threads[u].Linking? ==> s.threads[u].node != n
    {
      assert BriefPc(s, u);
    }
    forall m ensures HeadOK(s', m) { assert HeadOK(s, m); }
  }

  lemma CreateInv(s: State, s': State, t: Tid, n: Id)
    requires Inv(s) && Create(s, s', t, n)
    ensures Inv(s')
  {
    CreateNodes(s, s', t, n);
    BriefHolds(s);
    CreateOthers(s, s', t, n);
    LayersStay(s, s');
    SizeStays(s, s', t);
    Assemble(s, s', t);
  }

  lemma StoreNewNodes(s: State, s': State, t: Tid)
    requires Shape(s) && Pointers(s) && t in s.threads && BriefPc(s, t) && StoreNew(s, s', t)
    requires s.nodes[s.threads[t].trail.preds[s.threads[t].j]].skip[s.threads[t].j] == s.threads[t].trail.succs[s.threads[t].j]
    ensures Shape(s') && Pointers(s') && SameLayers(s, s')
  {
    var pc := s.threads[t];
    forall m | m in s'.nodes ensures NodeShape(s', m) { assert NodeShape(s, m); }
    assert PointerOK(s, pc.trail.preds[pc.j], pc.j);
    forall m, l: nat | m in s'.nodes && l < |s'.nodes[m].skip| ensures PointerOK(s', m, l) {
      assert PointerOK(s, m, l);
    }
  }

  lemma StoreNewPc(s: State, s': State, t: Tid)
    requires t in s.threads && ThreadsOK(s) && StoreNew(s, s', t) && Evolves(s, s')
    ensures SelfOK(s', t)
  {
    assert PcOK(s, t, s.threads[t]);
    TrailStays(s, s', s.threads[t].trail, 0);
  }

  lemma StoreNewOthers(s: State, s': State, t: Tid)
    requires Shape(s) && Brief(s) && OwnNodes(s) && (forall m :: HeadOK(s, m)) && StoreNew(s, s', t)
    ensures Disciplined(s, s', t) && OwnNodes(s') && forall m :: HeadOK(s', m)
  {
    forall u | u in s.threads && u != t
      ensures Spares(s, s', u) && (s.threads[u].GrowSwapped? ==> s.threads[u].was != s'.head)
    {
      assert BriefPc(s, u);
    }
    forall m ensures HeadOK(s', m) { assert HeadOK(s, m); }
  }

  lemma StoreNewInv(s: State, s': State, t: Tid)
    requires Inv(s) && StoreNew(s, s', t)
    ensures Inv(s')
  {
    BriefHolds(s);
    StoreNewNodes(s, s', t) by { assert PcOK(s, t, s.threads[t]); }
    StoreNewPc(s, s', t);
    StoreNewOthers(s, s', t);
    LayersStay(s, s');
    SizeStays(s, s', t);
    Assemble(s, s', t);
  }

  lemma SetFullNodes(s: State, s': State, t: Tid)
    requires Shape(s) && Pointers(s) && t in s.threads && ThreadsOK(s) && SetFull(s, s', t)
    ensures Shape(s') && Pointers(s') && SameLayers(s, s') && SelfOK(s', t)
  {
    forall m | m in s'.nodes ensures NodeShape(s', m) { assert NodeShape(s, m); }
    forall m, l: nat | m in s'.nodes && l < |s'.nodes[m].skip| ensures PointerOK(s', m, l) {
      assert PointerOK(s, m, l);
    }
  }

  lemma SetFullOthers(s: State, s': State, t: Tid)
    requires Shape(s) && Brief(s) && OwnNodes(s) && (forall m :: HeadOK(s, m)) && SetFull(s, s', t)
    ensures Disciplined(s, s', t) && OwnNodes(s') && forall m :: HeadOK(s', m)
  {
    forall u | u in s.threads && u != t
      ensures Spares(s, s', u) && (s.threads[u].GrowSwapped? ==> s.threads[u].was != s'.head)
    {
      assert BriefPc(s, u);
    }
    forall m ensures HeadOK(s', m) { assert HeadOK(s, m); }
  }

  lemma SetFullInv(s: State, s': State, t: Tid)
    requires Inv(s) && SetFull(s, s', t)
    ensures Inv(s')
  {
    SetFullNodes(s, s', t);
    BriefHolds(s);
    SetFullOthers(s, s', t);
    LayersStay(s, s');
    assert PcOK(s, t, s.threads[t]);
    SizeStays(s, s', t);
    Assemble(s, s', t);
  }

  lemma MarkNodes(s: State, s': State, t: Tid)
    requires Shape(s) && Pointers(s) && t in s.threads && ThreadsOK(s) && Take(s, s', t) && s'.nodes != s.nodes
    ensures Shape(s') && Pointers(s') && SameLayers(s, s') && SelfOK(s', t)
  {
    forall m | m in s'.nodes ensures NodeShape(s', m) { assert NodeShape(s, m); }
    forall m, l: nat | m in s'.nodes && l < |s'.nodes[m].skip| ensures PointerOK(s', m, l) {
      assert PointerOK(s, m, l);
    }
    TrailStays(s, s', s.threads[t].trail, 0);
  }

  lemma MarkOthers(s: State, s': State, t: Tid)
    requires Shape(s) && Brief(s) && OwnNodes(s) && (forall m :: HeadOK(s, m)) && Take(s, s', t) && s'.nodes != s.nodes
    ensures Disciplined(s, s', t) && OwnNodes(s') && forall m :: HeadOK(s', m)
  {
    forall u | u in s.threads && u != t
      ensures Spares(s, s', u) && (s.threads[u].GrowSwapped? ==> s.threads[u].was != s'.head)
    {
      assert BriefPc(s, u);
    }
    forall m ensures HeadOK(s', m) { assert HeadOK(s, m); }
  }

  lemma MarkInv(s: State, s': State, t: Tid)
    requires Inv(s) && Take(s, s', t) && s'.nodes != s.nodes
    ensures Inv(s')
  {
    MarkNodes(s, s', t);
    BriefHolds(s);
    MarkOthers(s, s', t);
    LayersStay(s, s');
    assert PcOK(s, t, s.threads[t]);
    SizeStays(s, s', t);
    Assemble(s, s', t);
  }

  lemma GrowMarkNodes(s: State, s': State, t: Tid)
    requires Shape(s) && Pointers(s) && t in s.threads && ThreadsOK(s) && GrowMark(s, s', t)
    ensures Shape(s') && Pointers(s') && SameLayers(s, s') && SelfOK(s', t)
  {
    forall m | m in s'.nodes ensures NodeShape(s', m) { assert NodeShape(s, m); }
    forall m, l: nat | m in s'.nodes && l < |s'.nodes[m].skip| ensures PointerOK(s', m, l) {
      assert PointerOK(s, m, l);
    }
  }

  lemma GrowMarkOthers(s: State, s': State, t: Tid)
    requires Shape(s) && Brief(s) && OwnNodes(s) && (forall m :: HeadOK(s, m)) && GrowMark(s, s', t)
    requires s.threads[t].was in s.lock && s.lock[s.threads[t].was] == t
    ensures Disciplined(s, s', t) && OwnNodes(s') && forall m :: HeadOK(s', m)
  {
    forall u | u in s.threads && u != t
      ensures Spares(s, s', u) && (s.threads[u].GrowSwapped? ==> s.threads[u].was != s'.head)
    {
      assert BriefPc(s, u);
    }
    forall m ensures HeadOK(s', m) { assert HeadOK(s, m); }
  }

  lemma GrowMarkInv(s: State, s': State, t: Tid)
    requires Inv(s) && GrowMark(s, s', t)
    ensures Inv(s')
  {
    GrowMarkNodes(s, s', t);
    BriefHolds(s);
    GrowMarkOthers(s, s', t);
    LayersStay(s, s');
    assert PcOK(s, t, s.threads[t]);
    SizeStays(s, s', t);
    Assemble(s, s', t);
  }

  lemma TakeInv(s: State, s': State, t: Tid)
    requires Inv(s) && Take(s, s', t)
    ensures Inv(s')
  {
    if s'.nodes != s.nodes {
      MarkInv(s, s', t);
    } else {
      assert Members(s') == Members(s);
      SizeStays(s, s', t);
      QuietInv(s, s', t);
    }
  }

  // ---------------------------------------------------------------- linking one layer

  /** Everything `LinkLayer` knows about the place it links into. */
  ghost predicate LinkSite(s: State, s': State, p: Id, n: Id, j: nat, q: Option<Id>) {
    && Shape(s) && Evolves(s, s') && s'.head == s.head
    && Anchor(s, p, j) && Follows(s, p, j, q) && j < s.nodes[p].height
    && n in s.nodes && !s.nodes[n].isHead && s.nodes[n].cnt == j && j < s.nodes[n].height && p != n
    && Before(s, p, n) && (q.Some? ==> s.nodes[n].key < s.nodes[q.value].key)
    && s.nodes[n].skip[j] == q
    && s'.nodes == s.nodes[p := s.nodes[p].(skip := s.nodes[p].skip[j := Some(n)])][n := s.nodes[n].(cnt := j + 1)]
  }

  lemma LinkOn(s: State, s': State, p: Id, n: Id, j: nat, q: Option<Id>)
    requires LinkSite(s, s', p, n, j, q)
    ensures forall x, l: nat :: On(s', x, l) <==> On(s, x, l) || (x == n && l == j)
  {
  }

  lemma LinkFollowsOther(s: State, s': State, p: Id, n: Id, j: nat, q: Option<Id>, m: Id)
    requires LinkSite(s, s', p, n, j, q) && UniqueKeys(s) && Anchor(s, m, j) && m != p && m != n && j < |s.nodes[m].skip|
    requires Follows(s, m, j, s.nodes[m].skip[j])
    ensures Follows(s', m, j, s'.nodes[m].skip[j])
  {
    LinkOn(s, s', p, n, j, q);
    assert On(s, p, j) || p == s.head;
    assert On(s, m, j) ==> On(s, m, 0);
    assert On(s, p, j) ==> On(s, p, 0);
  }

  lemma LinkFollowsNew(s: State, s': State, p: Id, n: Id, j: nat, q: Option<Id>)
    requires LinkSite(s, s', p, n, j, q)
    ensures Follows(s', n, j, s'.nodes[n].skip[j]) && Follows(s', p, j, s'.nodes[p].skip[j])
  {
    LinkOn(s, s', p, n, j, q);
  }

  lemma LinkFollows(s: State, s': State, p: Id, n: Id, j: nat, q: Option<Id>, m: Id, l: nat)
    requires LinkSite(s, s', p, n, j, q) && Chained(s) && UniqueKeys(s) && Anchor(s', m, l) && l < |s'.nodes[m].skip|
    ensures Follows(s', m, l, s'.nodes[m].skip[l])
  {
    if l == j && (m == n || m == p) {
      LinkFollowsNew(s, s', p, n, j, q);
    } else {
      LinkOn(s, s', p, n, j, q);
      assert Anchor(s, m, l);
      assert Follows(s, m, l, s.nodes[m].skip[l]);
      if l == j { LinkFollowsOther(s, s', p, n, j, q, m); }
    }
  }

  lemma LinkUnique(s: State, s': State, p: Id, n: Id, j: nat, q: Option<Id>)
    requires LinkSite(s, s', p, n, j, q) && UniqueKeys(s)
    ensures UniqueKeys(s')
  {
    LinkOn(s, s', p, n, j, q);
  }

  lemma LinkPointers(s: State, s': State, p: Id, n: Id, j: nat, q: Option<Id>)
    requires LinkSite(s, s', p, n, j, q) && Pointers(s) && !s.nodes[n].full && !s.nodes[n].marked
    ensures Shape(s') && Pointers(s')
  {
    forall m | m in s'.nodes ensures NodeShape(s', m) { assert NodeShape(s, m); }
    forall m, l: nat | m in s'.nodes && l < |s'.nodes[m].skip| ensures PointerOK(s', m, l) {
      assert PointerOK(s, m, l);
    }
  }

  lemma LinkNodes(s: State, s': State, p: Id, n: Id, j: nat, q: Option<Id>)
    requires LinkSite(s, s', p, n, j, q) && Chained(s) && UniqueKeys(s) && Shape(s')
    ensures Chained(s') && UniqueKeys(s')
    ensures Members(s') == if j == 0 then Members(s) + {n} else Members(s)
  {
    forall m, l: nat | Anchor(s', m, l) ensures Follows(s', m, l, s'.nodes[m].skip[l]) {
      assert NodeShape(s', m);
      LinkFollows(s, s', p, n, j, q, m, l);
    }
    LinkUnique(s, s', p, n, j, q);
    LinkOn(s, s', p, n, j, q);
  }

  ghost predicate LinkSomewhere(s: State, s': State, n: Id, j: nat) {
    exists p, q :: LinkSite(s, s', p, n, j, q)
  }

  lemma LinkPlaceAt(s: State, s': State, t: Tid, p: Id, q: Option<Id>)
    requires Shape(s) && HeadOK(s, p) && Chained(s) && LinkLayer(s, s', t)
    requires var pc := s.threads[t];
      && p == pc.trail.preds[pc.j] && q == pc.trail.succs[pc.j] && NewNodeOK(s, pc.node, pc.trail.key, pc.height, pc.j)
      && s.nodes[pc.node].skip[pc.j] == q
      && Held(s, t, p, pc.j, q) && GoodPred(s, p, pc.j, pc.trail.key) && GoodSucc(s, q, pc.trail.key, true)
    ensures LinkSite(s, s', p, s.threads[t].node, s.threads[t].j, q)
  {
    var pc := s.threads[t];
    HeldIsAnchor(s, t, p, pc.j, pc.trail.key, q);
    assert NodeShape(s, p) && NodeShape(s, pc.node) && Follows(s, p, pc.j, q);
  }

  lemma LinkPlace(s: State, s': State, t: Tid)
    requires Shape(s) && (forall m :: HeadOK(s, m)) && Chained(s) && t in s.threads && ThreadsOK(s) && LinkLayer(s, s', t)
    ensures LinkSomewhere(s, s', s.threads[t].node, s.threads[t].j)
  {
    var pc := s.threads[t];
    assert PcOK(s, t, pc);
    LinkPlaceAt(s, s', t, pc.trail.preds[pc.j], pc.trail.succs[pc.j]);
  }

  lemma LinkLayers(s: State, s': State, n: Id, j: nat)
    requires LinkSomewhere(s, s', n, j) && Shape(s) && Chained(s) && UniqueKeys(s) && Pointers(s)
    requires n in s.nodes && !s.nodes[n].full && !s.nodes[n].marked
    ensures Shape(s') && Pointers(s') && Chained(s') && UniqueKeys(s') && Evolves(s, s')
    ensures Members(s') == if j == 0 then Members(s) + {n} else Members(s)
  {
    var p, q :| LinkSite(s, s', p, n, j, q);
    LinkPointers(s, s', p, n, j, q);
    LinkNodes(s, s', p, n, j, q);
  }

  lemma LinkPc(s: State, s': State, t: Tid)
    requires t in s.threads && ThreadsOK(s) && LinkLayer(s, s', t) && Evolves(s, s')
    ensures SelfOK(s', t)
  {
    assert PcOK(s, t, s.threads[t]);
    TrailStays(s, s', s.threads[t].trail, 0);
  }

  lemma LinkSpares(s: State, s': State, t: Tid, u: Tid)
    requires t in s.threads && Shape(s) && u in s.threads && u != t && BriefPc(s, u) && BriefPc(s, t) && LinkLayer(s, s', t)
    requires var p := s.threads[t].trail.preds[s.threads[t].j];
      p in s.lock && s.lock[p] == t && (s.nodes[p].isHead || s.threads[t].j < s.nodes[p].cnt)
    requires s.threads[u].Linking? && s.threads[t].Linking? ==> s.threads[u].node != s.threads[t].node
    ensures Spares(s, s', u) && (s.threads[u].GrowSwapped? ==> s.threads[u].was != s'.head)
  {
  }

  lemma LinkHeads(s: State, s': State, t: Tid)
    requires (forall m :: HeadOK(s, m)) && LinkLayer(s, s', t)
    ensures forall m :: HeadOK(s', m)
  {
    forall m ensures HeadOK(s', m) { assert HeadOK(s, m); }
  }

  lemma LinkOthers(s: State, s': State, t: Tid)
    requires Shape(s) && Brief(s) && OwnNodes(s) && (forall m :: HeadOK(s, m)) && LinkLayer(s, s', t)
    requires var p := s.threads[t].trail.preds[s.threads[t].j];
      p in s.lock && s.lock[p] == t && (s.nodes[p].isHead || s.threads[t].j < s.nodes[p].cnt)
    ensures Disciplined(s, s', t) && OwnNodes(s') && forall m :: HeadOK(s', m)
  {
    assert BriefPc(s, t);
    forall u | u in s.threads && u != t
      ensures Spares(s, s', u) && (s.threads[u].GrowSwapped? ==> s.threads[u].was != s'.head)
    {
      LinkSpares(s, s', t, u);
    }
    LinkHeads(s, s', t);
  }

  lemma AddersGain(s: State, s': State, t: Tid)
    requires OnlyMoves(s, s', t) && t in s'.threads && Adding(s'.threads[t]) && !Dropping(s'.threads[t]) && !Uncounted(s, t)
    ensures Droppers(s') == Droppers(s) && |Adders(s')| == |Adders(s)| + 1
  {
    assert Adders(s') == Adders(s) + {t};
  }

  lemma DroppersGain(s: State, s': State, t: Tid)
    requires OnlyMoves(s, s', t) && t in s'.threads && Dropping(s'.threads[t]) && !Uncounted(s, t)
    ensures Adders(s') == Adders(s) && |Droppers(s')| == |Droppers(s)| + 1
  {
    assert Droppers(s') == Droppers(s) + {t};
  }

  lemma SizeAfterLink(s: State, s': State, t: Tid, n: Id)
    requires SizeOK(s) && OnlyMoves(s, s', t) && s'.size == s.size && n !in Members(s) && Members(s') == Members(s) + {n}
    requires t in s'.threads && Adding(s'.threads[t]) && !Dropping(s'.threads[t]) && !Uncounted(s, t)
    ensures SizeOK(s')
  {
    AddersGain(s, s', t);
  }

  lemma LinkSize(s: State, s': State, t: Tid)
    requires SizeOK(s) && LinkLayer(s, s', t) && s.nodes[s.threads[t].node].cnt == s.threads[t].j
    requires Members(s') == if s.threads[t].j == 0 then Members(s) + {s.threads[t].node} else Members(s)
    ensures SizeOK(s')
  {
    if s.threads[t].j == 0 {
      SizeAfterLink(s, s', t, s.threads[t].node);
    } else {
      SizeStays(s, s', t);
    }
  }

  lemma LinkRest(s: State, s': State, t: Tid)
    requires Shape(s) && (forall m :: HeadOK(s, m)) && t in s.threads && ThreadsOK(s) && OwnNodes(s) && LinkLayer(s, s', t)
    ensures Disciplined(s, s', t) && OwnNodes(s') && forall m :: HeadOK(s', m)
  {
    var pc := s.threads[t];
    BriefHolds(s);
    assert PcOK(s, t, pc);
    assert Held(s, t, pc.trail.preds[pc.j], pc.j, pc.trail.succs[pc.j]) && GoodPred(s, pc.trail.preds[pc.j], pc.j, pc.trail.key);
    LinkOthers(s, s', t);
  }

  lemma LinkStructure(s: State, s': State, t: Tid)
    requires Shape(s) && Chained(s) && UniqueKeys(s) && Pointers(s) && SizeOK(s) && t in s.threads && BriefPc(s, t)
    requires LinkLayer(s, s', t) && LinkSomewhere(s, s', s.threads[t].node, s.threads[t].j)
    ensures Shape(s') && Pointers(s') && Chained(s') && UniqueKeys(s') && Evolves(s, s') && SizeOK(s')
  {
    LinkLayers(s, s', s.threads[t].node, s.threads[t].j);
    LinkSize(s, s', t);
  }

  lemma LinkInv(s: State, s': State, t: Tid)
    requires Inv(s) && LinkLayer(s, s', t)
    ensures Inv(s')
  {
    LinkPlace(s, s', t);
    BriefHolds(s);
    assert BriefPc(s, t);
    LinkStructure(s, s', t);
    LinkPc(s, s', t);
    LinkRest(s, s', t);
    Assemble(s, s', t);
  }

  // ---------------------------------------------------------------- unlinking one layer

  ghost predicate UnlinkSite(s: State, s': State, p: Id, v: Id, l: nat) {
    && Shape(s) && Evolves(s, s') && s'.head == s.head
    && Anchor(s, p, l) && l < s.nodes[p].height && s.nodes[p].skip[l] == Some(v)
    && On(s, v, l) && s.nodes[v].cnt == l + 1 && l < |s.nodes[v].skip| && s.nodes[v].marked && p != v
    && Follows(s, p, l, Some(v)) && Follows(s, v, l, s.nodes[v].skip[l])
    && s'.nodes == s.nodes[p := s.nodes[p].(skip := s.nodes[p].skip[l := s.nodes[v].skip[l]])][v := s.nodes[v].(cnt := l)]
  }

  lemma UnlinkOn(s: State, s': State, p: Id, v: Id, l: nat)
    requires UnlinkSite(s, s', p, v, l)
    ensures forall x, i: nat :: On(s', x, i) <==> On(s, x, i) && (x != v || i != l)
  {
  }

  /** No two nodes of a layer are followed by the same node. */
  lemma OnePred(s: State, p: Id, m: Id, l: nat, v: Id)
    requires Shape(s) && UniqueKeys(s) && Anchor(s, p, l) && Anchor(s, m, l)
    requires Follows(s, p, l, Some(v)) && Follows(s, m, l, Some(v))
    ensures p == m
  {
    assert On(s, p, l) ==> On(s, p, 0);
    assert On(s, m, l) ==> On(s, m, 0);
  }

  lemma UnlinkFollowsPred(s: State, s': State, p: Id, v: Id, l: nat)
    requires UnlinkSite(s, s', p, v, l) && UniqueKeys(s)
    ensures Follows(s', p, l, s'.nodes[p].skip[l])
  {
    UnlinkOn(s, s', p, v, l);
    forall x | On(s', x, l) && Before(s', p, x)
      ensures s.nodes[v].skip[l].Some? && s.nodes[s.nodes[v].skip[l].value].key <= s.nodes[x].key
    {
      assert On(s, x, 0) && On(s, v, 0);
    }
  }

  lemma UnlinkFollowsOther(s: State, s': State, p: Id, v: Id, l: nat, m: Id, i: nat)
    requires UnlinkSite(s, s', p, v, l) && UniqueKeys(s) && Anchor(s, m, i) && i < |s.nodes[m].skip| && Follows(s, m, i, s.nodes[m].skip[i])
    requires i != l || (m != p && m != v)
    ensures m in s'.nodes && i < |s'.nodes[m].skip| && Follows(s', m, i, s'.nodes[m].skip[i])
  {
    UnlinkOn(s, s', p, v, l);
    if i == l && s.nodes[m].skip[l] == Some(v) { OnePred(s, p, m, l, v); }
  }

  lemma UnlinkFollows(s: State, s': State, p: Id, v: Id, l: nat, m: Id, i: nat)
    requires UnlinkSite(s, s', p, v, l) && Chained(s) && UniqueKeys(s) && Anchor(s', m, i) && i < |s'.nodes[m].skip|
    ensures Follows(s', m, i, s'.nodes[m].skip[i])
  {
    UnlinkOn(s, s', p, v, l);
    assert Anchor(s, m, i);
    if i == l && m == p {
      UnlinkFollowsPred(s, s', p, v, l);
    } else {
      assert Follows(s, m, i, s.nodes[m].skip[i]);
      UnlinkFollowsOther(s, s', p, v, l, m, i);
    }
  }

  lemma UnlinkPointers(s: State, s': State, p: Id, v: Id, l: nat)
    requires UnlinkSite(s, s', p, v, l) && Pointers(s) && s.nodes[v].full
    ensures Shape(s') && Pointers(s')
  {
    forall m | m in s'.nodes ensures NodeShape(s', m) { assert NodeShape(s, m); }
    assert PointerOK(s, v, l);
    forall m, i: nat | m in s'.nodes && i < |s'.nodes[m].skip| ensures PointerOK(s', m, i) {
      assert PointerOK(s, m, i);
    }
  }

  lemma UnlinkNodes(s: State, s': State, p: Id, v: Id, l: nat)
    requires UnlinkSite(s, s', p, v, l) && Chained(s) && UniqueKeys(s) && Shape(s')
    ensures Chained(s') && UniqueKeys(s')
    ensures Members(s') == if l == 0 then Members(s) - {v} else Members(s)
  {
    forall m, i: nat | Anchor(s', m, i) ensures Follows(s', m, i, s'.nodes[m].skip[i]) {
      assert NodeShape(s', m);
      UnlinkFollows(s, s', p, v, l, m, i);
    }
    UnlinkOn(s, s', p, v, l);
  }

  ghost predicate UnlinkSomewhere(s: State, s': State, v: Id, l: nat) {
    exists p :: UnlinkSite(s, s', p, v, l)
  }

  lemma UnlinkPlace(s: State, s': State, t: Tid)
    requires Shape(s) && (forall m :: HeadOK(s, m)) && Chained(s) && t in s.threads && ThreadsOK(s) && UnlinkLayer(s, s', t)
    ensures UnlinkSomewhere(s, s', s.threads[t].victim, s.threads[t].j - 1)
  {
    var pc := s.threads[t];
    var l := pc.j - 1;
    var p := pc.trail.preds[l];
    assert NodeShape(s, pc.victim) && NodeShape(s, p);
    assert Held(s, t, p, l, Some(pc.victim)) && GoodPred(s, p, l, pc.trail.key);
    HeldIsAnchor(s, t, p, l, pc.trail.key, Some(pc.victim));
    assert Follows(s, p, l, Some(pc.victim)) && Anchor(s, pc.victim, l);
    assert UnlinkSite(s, s', p, pc.victim, l);
  }

  lemma UnlinkPc(s: State, s': State, t: Tid)
    requires t in s.threads && ThreadsOK(s) && UnlinkLayer(s, s', t) && Evolves(s, s')
    ensures SelfOK(s', t)
  {
    TrailStays(s, s', s.threads[t].trail, 0);
  }

  lemma UnlinkSpares(s: State, s': State, t: Tid, u: Tid)
    requires t in s.threads && Shape(s) && u in s.threads && u != t && BriefPc(s, u) && BriefPc(s, t) && UnlinkLayer(s, s', t)
    requires var p := s.threads[t].trail.preds[s.threads[t].j - 1];
      p in s.lock && s.lock[p] == t && (s.nodes[p].isHead || s.threads[t].j - 1 < s.nodes[p].cnt)
    requires s.threads[t].victim in s.lock && s.lock[s.threads[t].victim] == t
    requires s.threads[u].Linking? && s.threads[t].Linking? ==> s.threads[u].node != s.threads[t].node
    ensures Spares(s, s', u) && (s.threads[u].GrowSwapped? ==> s.threads[u].was != s'.head)
  {
  }

  lemma UnlinkHeads(s: State, s': State, t: Tid)
    requires (forall m :: HeadOK(s, m)) && UnlinkLayer(s, s', t)
    ensures forall m :: HeadOK(s', m)
  {
    forall m ensures HeadOK(s', m) { assert HeadOK(s, m); }
  }

  lemma UnlinkOthers(s: State, s': State, t: Tid)
    requires Shape(s) && Brief(s) && OwnNodes(s) && (forall m :: HeadOK(s, m)) && UnlinkLayer(s, s', t)
    requires var p := s.threads[t].trail.preds[s.threads[t].j - 1];
      p in s.lock && s.lock[p] == t && (s.nodes[p].isHead || s.threads[t].j - 1 < s.nodes[p].cnt)
    requires s.threads[t].victim in s.lock && s.lock[s.threads[t].victim] == t
    ensures Disciplined(s, s', t) && OwnNodes(s') && forall m :: HeadOK(s', m)
  {
    assert BriefPc(s, t);
    forall u | u in s.threads && u != t
      ensures Spares(s, s', u) && (s.threads[u].GrowSwapped? ==> s.threads[u].was != s'.head)
    {
      UnlinkSpares(s, s', t, u);
    }
    UnlinkHeads(s, s', t);
  }

  lemma SizeAfterUnlink(s: State, s': State, t: Tid, n: Id)
    requires SizeOK(s) && OnlyMoves(s, s', t) && s'.size == s.size && n in Members(s) && Members(s') == Members(s) - {n}
    requires t in s'.threads && Dropping(s'.threads[t]) && !Uncounted(s, t)
    ensures SizeOK(s')
  {
    DroppersGain(s, s', t);
  }

  lemma UnlinkSize(s: State, s': State, t: Tid)
    requires SizeOK(s) && UnlinkLayer(s, s', t) && On(s, s.threads[t].victim, s.threads[t].j - 1)
    requires Members(s') == if s.threads[t].j == 1 then Members(s) - {s.threads[t].victim} else Members(s)
    ensures SizeOK(s')
  {
    if s.threads[t].j == 1 {
      SizeAfterUnlink(s, s', t, s.threads[t].victim);
    } else {
      SizeStays(s, s', t);
    }
  }

  lemma UnlinkLayers(s: State, s': State, v: Id, l: nat)
    requires UnlinkSomewhere(s, s', v, l) && Shape(s) && Chained(s) && UniqueKeys(s) && Pointers(s) && v in s.nodes && s.nodes[v].full
    ensures Shape(s') && Pointers(s') && Chained(s') && UniqueKeys(s') && Evolves(s, s') && On(s, v, l)
    ensures Members(s') == if l == 0 then Members(s) - {v} else Members(s)
  {
    var p :| UnlinkSite(s, s', p, v, l);
    UnlinkPointers(s, s', p, v, l);
    UnlinkNodes(s, s', p, v, l);
  }

  lemma UnlinkRest(s: State, s': State, t: Tid)
    requires Shape(s) && (forall m :: HeadOK(s, m)) && t in s.threads && ThreadsOK(s) && OwnNodes(s) && UnlinkLayer(s, s', t)
    ensures Disciplined(s, s', t) && OwnNodes(s') && forall m :: HeadOK(s', m)
  {
    var pc := s.threads[t];
    BriefHolds(s);
    assert PcOK(s, t, pc);
    assert Held(s, t, pc.trail.preds[pc.j - 1], pc.j - 1, Some(pc.victim)) && GoodPred(s, pc.trail.preds[pc.j - 1], pc.j - 1, pc.trail.key);
    UnlinkOthers(s, s', t);
  }

  lemma UnlinkStructure(s: State, s': State, t: Tid)
    requires Shape(s) && Chained(s) && UniqueKeys(s) && Pointers(s) && SizeOK(s) && t in s.threads && BriefPc(s, t)
    requires UnlinkLayer(s, s', t) && UnlinkSomewhere(s, s', s.threads[t].victim, s.threads[t].j - 1)
    ensures Shape(s') && Pointers(s') && Chained(s') && UniqueKeys(s') && Evolves(s, s') && SizeOK(s')
  {
    UnlinkLayers(s, s', s.threads[t].victim, s.threads[t].j - 1);
    UnlinkSize(s, s', t);
  }

  lemma UnlinkInv(s: State, s': State, t: Tid)
    requires Inv(s) && UnlinkLayer(s, s', t)
    ensures Inv(s')
  {
    UnlinkPlace(s, s', t);
    BriefHolds(s);
    assert BriefPc(s, t);
    UnlinkStructure(s, s', t);
    UnlinkPc(s, s', t);
    UnlinkRest(s, s', t);
    Assemble(s, s', t);
  }

  // ---------------------------------------------------------------- growing the head

  lemma SwapPointers(s: State, s': State, t: Tid, n: Id)
    requires Shape(s) && Pointers(s) && GrowSwap(s, s', t, n)
    ensures Shape(s') && Pointers(s') && Evolves(s, s')
  {
    assert NodeShape(s, s.head);
    forall m | m in s'.nodes ensures NodeShape(s', m) {
      if m != n { assert NodeShape(s, m); }
    }
    forall m, l: nat | m in s'.nodes && l < |s'.nodes[m].skip| ensures PointerOK(s', m, l) {
      if m != n { assert PointerOK(s, m, l); } else if l < s.nodes[s.head].height { assert PointerOK(s, s.head, l); }
    }
  }

  lemma SwapFollows(s: State, s': State, t: Tid, n: Id, m: Id, l: nat)
    requires Shape(s) && Chained(s) && GrowSwap(s, s', t, n) && Anchor(s', m, l) && l < |s'.nodes[m].skip|
    requires forall x, i: nat :: On(s', x, i) == On(s, x, i)
    ensures Follows(s', m, l, s'.nodes[m].skip[l])
  {
    assert NodeShape(s, s.head);
    if m != n {
      assert Anchor(s, m, l);
      assert Follows(s, m, l, s.nodes[m].skip[l]);
    } else if l < s.nodes[s.head].height {
      assert Anchor(s, s.head, l);
      assert Follows(s, s.head, l, s.nodes[s.head].skip[l]);
    } else {
      forall x ensures !On(s', x, l) { if x in s.nodes { assert NodeShape(s, x); } }
    }
  }

  lemma SwapNodes(s: State, s': State, t: Tid, n: Id)
    requires Shape(s) && Pointers(s) && Chained(s) && UniqueKeys(s) && GrowSwap(s, s', t, n)
    ensures Shape(s') && Pointers(s') && Chained(s') && UniqueKeys(s') && Evolves(s, s') && Members(s') == Members(s)
  {
    SwapPointers(s, s', t, n);
    assert forall x, l: nat :: On(s', x, l) == On(s, x, l);
    forall m, l: nat | Anchor(s', m, l) ensures Follows(s', m, l, s'.nodes[m].skip[l]) {
      assert NodeShape(s', m);
      SwapFollows(s, s', t, n, m, l);
    }
    assert Members(s') == Members(s);
  }

  lemma SwapSpares(s: State, s': State, t: Tid, n: Id, u: Tid)
    requires GrowSwap(s, s', t, n) && u in s.threads && u != t && BriefPc(s, u)
    ensures Spares(s, s', u) && (s.threads[u].GrowSwapped? ==> s.threads[u].was != s'.head)
  {
    assert s'.lock == s.lock && forall m :: m in s.nodes ==> m in s'.nodes && s'.nodes[m] == s.nodes[m];
  }

  lemma SwapOthers(s: State, s': State, t: Tid, n: Id)
    requires Shape(s) && Brief(s) && OwnNodes(s) && (forall m :: HeadOK(s, m)) && GrowSwap(s, s', t, n)
    requires s.head in s.lock && s.lock[s.head] == t
    ensures Disciplined(s, s', t) && OwnNodes(s') && (forall m :: HeadOK(s', m)) && SelfOK(s', t)
  {
    forall u | u in s.threads && u != t
      ensures Spares(s, s', u) && (s.threads[u].GrowSwapped? ==> s.threads[u].was != s'.head)
    {
      assert BriefPc(s, u);
      SwapSpares(s, s', t, n, u);
    }
    forall m ensures HeadOK(s', m) { assert HeadOK(s, m); }
  }

  lemma SwapInv(s: State, s': State, t: Tid, n: Id)
    requires Inv(s) && GrowSwap(s, s', t, n)
    ensures Inv(s')
  {
    SwapNodes(s, s', t, n);
    BriefHolds(s);
    assert PcOK(s, t, s.threads[t]);
    SwapOthers(s, s', t, n);
    SizeStays(s, s', t);
    Assemble(s, s', t);
  }

  lemma WriteStepInv(s: State, s': State, t: Tid)
    requires Inv(s) && WriteStep(s, s', t)
    ensures Inv(s')
  {
    if n :| Create(s, s', t, n) { CreateInv(s, s', t, n); }
    else if StoreNew(s, s', t) { StoreNewInv(s, s', t); }
    else if LinkLayer(s, s', t) { LinkInv(s, s', t); }
    else if SetFull(s, s', t) { SetFullInv(s, s', t); }
    else if Take(s, s', t) { TakeInv(s, s', t); }
    else if UnlinkLayer(s, s', t) { UnlinkInv(s, s', t); }
    else if n :| GrowSwap(s, s', t, n) { SwapInv(s, s', t, n); }
    else { GrowMarkInv(s, s', t); }
  }

  lemma NextInv(s: State, s': State)
    requires Inv(s) && Next(s, s')
    ensures Inv(s')
  {
    var t :| LocalStep(s, s', t) || LockStep(s, s', t) || WriteStep(s, s', t);
    if LocalStep(s, s', t) { LocalStepInv(s, s', t); }
    else if LockStep(s, s', t) { LockStepInv(s, s', t); }
    else { WriteStepInv(s, s', t); }
  }
}
