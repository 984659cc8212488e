/**
 folly::AtomicHashMap over whole runs: a key is live in at most one cell of at most one
 submap, inserts publish keys that are live nowhere, and misses are explained.
 */
module AtomicHashMapTheorems {
  import opened AtomicHashMap
  import opened AtomicHashMapProof
  import A = AtomicHashArray
  import P = AtomicHashArrayProof
  import T = AtomicHashArrayTheorems

  ghost predicate StepAt(run: seq<State>, i: nat) {
    i + 1 < |run| ==> Next(run[i], run[i + 1])
  }

  ghost predicate IsRun(run: seq<State>) {
    |run| > 0 && Init(run[0]) && forall i: nat :: StepAt(run, i)
  }

  lemma {:induction false} RunInv(run: seq<State>, i: nat)
    requires IsRun(run) && i < |run|
    ensures Inv(run[i])
  {
    if i == 0 {
      InitInv(run[0]);
    } else {
      RunInv(run, i - 1);
      assert StepAt(run, i - 1);
      NextInv(run[i - 1], run[i]);
    }
  }

  /** Cell `c` of submap `m` holds key `k`. */
  ghost predicate Located(s: State, k: int, m: nat, c: nat) {
    m < |s.subs| && c < |s.subs[m].cells| && s.subs[m].cells[c].key == A.Live(k)
  }

  ghost predicate IsLive(s: State, k: int) {
    exists m, c :: Located(s, k, m, c)
  }

  lemma SamePlace(s: State, k: int, m: nat, c: nat, m': nat, c': nat)
    requires SubsOK(s) && ChainOK(s) && Located(s, k, m, c) && Located(s, k, m', c')
    ensures m == m' && c == c'
  {
    assert A.IsLive(s.subs[m], k) && A.IsLive(s.subs[m'], k);
    assert DeadBelow(s, k, m) && DeadBelow(s, k, m');
    assert A.Inv(s.subs[m]);
    P.LiveOnce(s.subs[m], c, c');
  }

  /** A key is live in at most one cell of at most one submap, and that submap is published. */
  lemma KeyLivesOnce(run: seq<State>, i: nat, k: int, m: nat, c: nat, m': nat, c': nat)
    requires IsRun(run) && i < |run| && Located(run[i], k, m, c)
    ensures m < run[i].numMaps <= |run[i].subs|
    ensures Located(run[i], k, m', c') ==> m == m' && c == c'
  {
    RunInv(run, i);
    assert A.IsLive(run[i].subs[m], k);
    if Located(run[i], k, m', c') { SamePlace(run[i], k, m, c, m', c'); }
  }

  // ---------------------------------------------------------------- inserts

  ghost predicate Publishes(s: State, s': State, t: Tid) {
    && Inner(s, s', t)
    && var a := s.subs[s.threads[t].i];
       A.InsertCell(a, s'.subs[s.threads[t].i], t) && a.threads[t].stage.Publish?
  }

  lemma PublisherIsNotDead(a: A.State, t: Tid)
    requires A.Inv(a) && t in a.threads && a.threads[t].Ins? && a.threads[t].stage.Publish?
    ensures !A.NeverGains(a) && !A.IsLive(a, a.threads[t].k)
  {
    var pc := a.threads[t];
    assert A.PcOK(a, t, pc);
    assert A.InLockRegion(pc);
    P.StopIsSound(a, pc.k, pc.n);
  }

  lemma LiveNowhere(s: State, k: int, i: nat)
    requires ChainOK(s) && DeadBelow(s, k, i) && i < |s.subs| && !A.NeverGains(s.subs[i]) && !A.IsLive(s.subs[i], k)
    ensures !IsLive(s, k)
  {
    forall m: nat | m < |s.subs| ensures !A.IsLive(s.subs[m], k) {
      assert A.IsLive(s.subs[m], k) ==> DeadBelow(s, k, m);
    }
  }

  lemma PublishedNowhere(s: State, t: Tid)
    requires SubsOK(s) && ChainOK(s) && ThreadsOK(s) && InSub(s, t)
    requires var r := s.subs[s.threads[t].i].threads[t]; r.Ins? && r.stage.Publish?
    ensures s.threads[t].k == s.subs[s.threads[t].i].threads[t].k && !IsLive(s, s.threads[t].k)
  {
    var pc := s.threads[t];
    assert PcOK(s, t, pc) && A.Inv(s.subs[pc.i]);
    PublisherIsNotDead(s.subs[pc.i], t);
    LiveNowhere(s, pc.k, pc.i);
  }

  /** The step that publishes a key makes it live; just before, it was live nowhere in the whole map. */
  lemma InsertTakesEffect(run: seq<State>, i: nat, t: Tid)
    requires IsRun(run) && i + 1 < |run| && Publishes(run[i], run[i + 1], t)
    ensures var pc := run[i].threads[t];
      !IsLive(run[i], pc.k) && Located(run[i + 1], pc.k, pc.i, run[i].subs[pc.i].threads[t].idx)
  {
    assert Inv(run[i]) by { RunInv(run, i); }
    PublishedNowhere(run[i], t);
  }

  // ---------------------------------------------------------------- keys do not move

  lemma InnerStays(s: State, s': State, t: Tid, k: int, m: nat, c: nat)
    requires SubsOK(s) && ChainOK(s) && Inner(s, s', t) && Located(s, k, m, c) && IsLive(s', k)
    ensures Located(s', k, m, c)
  {
    var i := s.threads[t].i;
    if i == m {
      var m', c' :| Located(s', k, m', c');
      assert A.Next(s.subs[i], s'.subs[i]);
      assert A.Inv(s.subs[m]);
      T.StaysOrGoes(s.subs[m], s'.subs[m], k, c);
      if m' != m { SamePlace(s, k, m, c, m', c'); }
      assert A.IsLive(s'.subs[m], k);
    }
  }

  lemma QuietStays(s: State, s': State, t: Tid, k: int, m: nat, c: nat)
    requires ChainStep(s, s', t) || Leave(s, s', t) || DoAlloc(s, s', t)
    requires Located(s, k, m, c)
    ensures Located(s', k, m, c)
  {
  }

  lemma StaysOrGoes(s: State, s': State, t: Tid, k: int, m: nat, c: nat)
    requires SubsOK(s) && ChainOK(s) && Located(s, k, m, c) && IsLive(s', k)
    requires ChainStep(s, s', t) || DoEnter(s, s', t) || Inner(s, s', t) || Leave(s, s', t) || DoAlloc(s, s', t)
    ensures Located(s', k, m, c)
  {
    if Inner(s, s', t) { InnerStays(s, s', t, k, m, c); }
    else if DoEnter(s, s', t) { EnterKeepsCells(s, s', t); }
    else { QuietStays(s, s', t, k, m, c); }
  }

  lemma EnterKeepsCells(s: State, s': State, t: Tid)
    requires DoEnter(s, s', t)
    ensures forall m :: 0 <= m < |s.subs| ==> s'.subs[m].cells == s.subs[m].cells
  {
  }

  // ---------------------------------------------------------------- misses

  /** Inside submap `m`, on the way to cell `c`; a `find` may have hit already. */
  ghost predicate SubTrack(a: A.State, t: Tid, op: Op, k: int, c: nat) {
    match op
    case Insert => false
    case Find => t in a.threads && a.threads[t].Find? && (a.threads[t].find.FindHit? || (a.threads[t].find.FindProbe? && T.FindNear(a, t, k, c)))
    case Erase => T.EraseNear(a, t, k, c)
  }

  ghost predicate Ahead(op: Op, n: nat, i: nat, m: nat) {
    i <= m && (m < n || (op.Find? && i == 0))
  }

  /** The call `op(k)` of `t` has not gone past submap `m`, nor past cell `c` in it. */
  ghost predicate OnTrack(s: State, t: Tid, op: Op, k: int, m: nat, c: nat) {
    && !op.Insert? && m < |s.subs| && t in s.threads
    && match s.threads[t]
       case Load(o, k', v) => o == op && k' == k && (op.Find? ==> m > 0)
       case Enter(o, k', v, n, i) => o == op && k' == k && Ahead(op, n, i, m)
       case In(o, k', v, n, i) => o == op && k' == k && Ahead(op, n, i, m) && (i == m ==> SubTrack(s.subs[m], t, op, k, c))
       case Done(o, k', hit) => o == op && k' == k && hit
       case _ => false
  }

  lemma SubTrackStep(a: A.State, a': A.State, t: Tid, op: Op, k: int, c: nat)
    requires A.Inv(a) && A.Inv(a') && A.Next(a, a') && SubTrack(a, t, op, k, c) && A.IsLive(a', k) && t in a'.threads
    ensures SubTrack(a', t, op, k, c)
  {
    if op.Erase? {
      T.EraseNearStep(a, a', t, k, c);
    } else if a.threads[t].find.FindProbe? {
      T.FindNearStep(a, a', t, k, c);
    } else {
      HitStays(a, a', t);
    }
  }

  lemma HitStays(a: A.State, a': A.State, t: Tid)
    requires A.Next(a, a') && t in a.threads && a.threads[t].Find? && a.threads[t].find.FindHit? && t in a'.threads
    ensures a'.threads[t] == a.threads[t]
  {
    var u :| A.Call(a, a', u) || A.Step(a, a', u) || A.Return(a, a', u);
    if A.Step(a, a', u) { P.StepMoves(a, a', u); }
  }

  /** The call of `t` enters submap `m` at the start of the probe path. */
  lemma EnterTrack(a: A.State, a': A.State, t: Tid, op: Op, k: int, v: int, c: nat)
    requires A.Inv(a) && !op.Insert? && CallSub(a, a', t, op, k, v) && c < a.cap && a.cells[c].key == A.Live(k)
    ensures SubTrack(a', t, op, k, c)
  {
  }

  lemma OtherWaits(s: State, s': State, u: Tid, t: Tid)
    requires t in s.threads && u != t
    requires ChainStep(s, s', u) || DoEnter(s, s', u) || Inner(s, s', u) || Leave(s, s', u) || DoAlloc(s, s', u)
    ensures t in s'.threads && s'.threads[t] == s.threads[t]
  {
  }

  lemma OthersKeepTrack(s: State, s': State, u: Tid, t: Tid, op: Op, k: int, m: nat, c: nat)
    requires SubsOK(s) && SubsOK(s') && ThreadsOK(s') && OnTrack(s, t, op, k, m, c) && Located(s', k, m, c) && u != t
    requires ChainStep(s, s', u) || DoEnter(s, s', u) || Inner(s, s', u) || Leave(s, s', u) || DoAlloc(s, s', u)
    ensures OnTrack(s', t, op, k, m, c)
  {
    OtherWaits(s, s', u, t);
    var pc := s.threads[t];
    assert PcOK(s', t, pc);
    if pc.In? && pc.i == m && s'.subs[m] != s.subs[m] {
      OneSubMoves(s, s', u, m);
      assert A.IsLive(s'.subs[m], k);
      assert A.Inv(s.subs[m]) && A.Inv(s'.subs[m]);
      SubTrackStep(s.subs[m], s'.subs[m], t, op, k, c);
    }
  }

  lemma OneSubMoves(s: State, s': State, u: Tid, m: nat)
    requires ChainStep(s, s', u) || DoEnter(s, s', u) || Inner(s, s', u) || Leave(s, s', u) || DoAlloc(s, s', u)
    requires m < |s.subs| && m < |s'.subs| && s'.subs[m] != s.subs[m]
    ensures A.Next(s.subs[m], s'.subs[m])
  {
    if DoEnter(s, s', u) {
      var pc := s.threads[u];
      EnterMoves(s.subs[pc.i], s'.subs[pc.i], u, pc.op, pc.k, pc.v);
    }
  }

  lemma SelfEnterTrack(s: State, s': State, t: Tid, op: Op, k: int, m: nat, c: nat)
    requires Inv(s) && OnTrack(s, t, op, k, m, c) && Located(s, k, m, c) && DoEnter(s, s', t)
    ensures OnTrack(s', t, op, k, m, c)
  {
    var pc := s.threads[t];
    assert PcOK(s, t, pc) && A.Inv(s.subs[m]);
    if pc.i == m { EnterTrack(s.subs[m], s'.subs[m], t, op, k, pc.v, c); }
  }

  lemma SelfInnerTrack(s: State, s': State, t: Tid, op: Op, k: int, m: nat, c: nat)
    requires Inv(s) && Inv(s') && OnTrack(s, t, op, k, m, c) && Located(s', k, m, c) && Inner(s, s', t)
    ensures OnTrack(s', t, op, k, m, c)
  {
    var pc := s.threads[t];
    assert PcOK(s', t, pc);
    if pc.i == m {
      assert A.IsLive(s'.subs[m], k) && A.Inv(s.subs[m]) && A.Inv(s'.subs[m]);
      SubTrackStep(s.subs[m], s'.subs[m], t, op, k, c);
    }
  }

  lemma SelfLeaveTrack(s: State, s': State, t: Tid, op: Op, k: int, m: nat, c: nat)
    requires ThreadsOK(s) && OnTrack(s, t, op, k, m, c) && Leave(s, s', t)
    ensures OnTrack(s', t, op, k, m, c)
  {
    assert PcOK(s, t, s.threads[t]);
  }

  lemma SelfChainTrack(s: State, s': State, t: Tid, op: Op, k: int, m: nat, c: nat)
    requires CountOK(s) && OnTrack(s, t, op, k, m, c) && Located(s, k, m, c) && t in s'.threads && (ChainStep(s, s', t) || DoAlloc(s, s', t))
    ensures OnTrack(s', t, op, k, m, c)
  {
    assert A.IsLive(s.subs[m], k);
  }

  lemma TrackStep(s: State, s': State, t: Tid, op: Op, k: int, m: nat, c: nat)
    requires Inv(s) && Inv(s') && Next(s, s') && OnTrack(s, t, op, k, m, c) && Located(s, k, m, c)
    requires IsLive(s', k) && t in s'.threads
    ensures OnTrack(s', t, op, k, m, c) && Located(s', k, m, c)
  {
    var u :| ChainStep(s, s', u) || DoEnter(s, s', u) || Inner(s, s', u) || Leave(s, s', u) || DoAlloc(s, s', u);
    StaysOrGoes(s, s', u, k, m, c);
    if u != t { OthersKeepTrack(s, s', u, t, op, k, m, c); }
    else if DoEnter(s, s', t) { SelfEnterTrack(s, s', t, op, k, m, c); }
    else if Inner(s, s', t) { SelfInnerTrack(s, s', t, op, k, m, c); }
    else if Leave(s, s', t) { SelfLeaveTrack(s, s', t, op, k, m, c); }
    else { SelfChainTrack(s, s', t, op, k, m, c); }
  }

  lemma NextAt(run: seq<State>, i: nat)
    requires IsRun(run) && i + 1 < |run|
    ensures Next(run[i], run[i + 1])
  {
    assert StepAt(run, i);
  }

  lemma TrackNext(run: seq<State>, i: nat, t: Tid, op: Op, k: int, m: nat, c: nat)
    requires IsRun(run) && i + 1 < |run| && OnTrack(run[i], t, op, k, m, c) && Located(run[i], k, m, c)
    requires IsLive(run[i + 1], k) && t in run[i + 1].threads
    ensures OnTrack(run[i + 1], t, op, k, m, c) && Located(run[i + 1], k, m, c)
  {
    assert Inv(run[i]) by { RunInv(run, i); }
    assert Inv(run[i + 1]) by { RunInv(run, i + 1); }
    assert Next(run[i], run[i + 1]) by { NextAt(run, i); }
    TrackStep(run[i], run[i + 1], t, op, k, m, c);
  }

  /** Thread `t` runs one call of `find(k)` or `erase(k)` that begins at state `b` and is not over before `e`. */
  ghost predicate Calling(run: seq<State>, b: nat, e: nat, t: Tid, op: Op, k: int)
    requires b <= e < |run|
  {
    && (forall i :: b <= i <= e ==> t in run[i].threads)
    && match op
       case Insert => false
       case Find => exists v :: run[b].threads[t] == Enter(Find, k, v, 1, 0)
       case Erase => exists v :: run[b].threads[t] == Load(Erase, k, v)
  }

  lemma {:induction false} TrackRun(run: seq<State>, b: nat, e: nat, t: Tid, op: Op, k: int, m: nat, c: nat)
    requires IsRun(run) && b <= e < |run| && Calling(run, b, e, t, op, k) && Located(run[b], k, m, c)
    requires forall i :: b <= i <= e ==> IsLive(run[i], k)
    ensures OnTrack(run[e], t, op, k, m, c) && Located(run[e], k, m, c)
  {
    if b < e {
      TrackRun(run, b, e - 1, t, op, k, m, c);
      TrackNext(run, e - 1, t, op, k, m, c);
    }
  }

  /** A `find` that ends without a hit, or an `erase` that returns 0, had an instant during the call at which the key was live in no submap. */
  lemma MissIsJustified(run: seq<State>, b: nat, e: nat, t: Tid, op: Op, k: int)
    requires IsRun(run) && b <= e < |run| && Calling(run, b, e, t, op, k) && run[e].threads[t] == Done(op, k, false)
    ensures exists i :: b <= i <= e && !IsLive(run[i], k)
  {
    if forall i :: b <= i <= e ==> IsLive(run[i], k) {
      assert IsLive(run[b], k);
      var m, c :| Located(run[b], k, m, c);
      TrackRun(run, b, e, t, op, k, m, c);
    }
  }

  // ---------------------------------------------------------------- index encoding

  function EncodeIndex(subMap: bv32, offset: bv32): (r: bv32)
  {
    if subMap == 0 then offset else offset | (subMap << 27) | 0x8000_0000
  }

  function FindAt(idx: bv32): (r: (bv32, bv32))
  {
    if idx & 0x8000_0000 != 0 then
      var rest := idx & !0x8000_0000;
      (rest >> 27, rest & 0x07FF_FFFF)
    else (0, idx)
  }

  /** An encoded position decodes to itself exactly when it has the documented size: 31 bits of offset in the primary map, 4 bits of submap and 27 of offset elsewhere. */
  lemma IndexRoundTrip(subMap: bv32, offset: bv32)
    ensures FindAt(EncodeIndex(subMap, offset)) == (subMap, offset) <==>
      (if subMap == 0 then offset < 0x8000_0000 else subMap < 16 && offset < 0x0800_0000)
  {
    if subMap != 0 && subMap < 16 && offset < 0x0800_0000 {
      assert (EncodeIndex(subMap, offset) & !0x8000_0000) >> 27 == subMap;
    }
  }
}
