/**
 folly::AtomicHashArray over whole runs: keys are live in one cell, probes may stop
 where they do, a miss is always explained by an instant at which the key was absent,
 and a full array stays full.
 */
module AtomicHashArrayTheorems {
  import opened Options
  import opened AtomicHashArray
  import opened AtomicHashArrayProof

  ghost predicate StepAt(run: seq<State>, i: nat) {
    i + 1 < |run| ==> Next(run[i], run[i + 1])
  }

  ghost predicate IsRun(run: seq<State>) {
    |run| > 0 && Init(run[0]) && forall i: nat :: StepAt(run, i)
  }

  lemma {:induction false} RunInv(run: seq<State>, i: nat)
    requires IsRun(run) && i < |run|
    ensures Inv(run[i])
  {
    if i == 0 {
      InitInv(run[0]);
    } else {
      RunInv(run, i - 1);
      assert StepAt(run, i - 1);
      NextInv(run[i - 1], run[i]);
    }
  }

  /** In every reachable state a live key is in one cell, and every cell before it on its probe path is taken for good. */
  lemma LiveKeysAreReachable(run: seq<State>, i: nat, k: int, c: nat, d: nat)
    requires IsRun(run) && i < |run| && c < |run[i].cells| && run[i].cells[c].key == Live(k)
    ensures Shape(run[i]) && c < run[i].cap && run[i].cells[c].val.Some?
    ensures forall m: nat :: m < Pos(run[i], k, c) ==> Permanent(run[i].cells[At(run[i], k, m)])
    ensures d < |run[i].cells| && run[i].cells[d].key == Live(k) ==> c == d
  {
    RunInv(run, i);
    assert PathOK(run[i], c);
    if d < |run[i].cells| && run[i].cells[d].key == Live(k) { LiveOnce(run[i], c, d); }
  }

  // ---------------------------------------------------------------- inserts

  /** Publishing turns an absent key into a live one, with its value. */
  lemma InsertTakesEffect(run: seq<State>, i: nat, t: Tid)
    requires IsRun(run) && i + 1 < |run| && InsertCell(run[i], run[i + 1], t) && run[i].threads[t].stage.Publish?
    ensures !IsLive(run[i], run[i].threads[t].k)
    ensures var pc := run[i].threads[t];
      pc.idx < |run[i + 1].cells| && run[i + 1].cells[pc.idx] == Cell(Live(pc.k), Some(pc.v))
  {
    RunInv(run, i);
    var pc := run[i].threads[t];
    assert PcOK(run[i], t, pc);
    StopIsSound(run[i], pc.k, pc.n);
  }

  lemma NoGainNext(run: seq<State>, i: nat)
    requires IsRun(run) && i + 1 < |run| && NeverGains(run[i])
    ensures NeverGains(run[i + 1]) && forall k :: IsLive(run[i + 1], k) ==> IsLive(run[i], k)
  {
    RunInv(run, i);
    var s, s' := run[i], run[i + 1];
    assert StepAt(run, i);
    var u :| Call(s, s', u) || Step(s, s', u) || Return(s, s', u);
    NothingGained(s, s', u);
  }

  lemma FullIsDead(run: seq<State>, i: nat, t: Tid)
    requires IsRun(run) && i < |run| && t in run[i].threads && run[i].threads[t].Ins? && run[i].threads[t].stage.Full?
    ensures Dead(run[i], run[i].threads[t].k)
  {
    RunInv(run, i);
    assert PcOK(run[i], t, run[i].threads[t]);
  }

  /** A thread told that the array is full was told so for good, and its key was not there. */
  lemma {:induction false} FullIsFinal(run: seq<State>, i: nat, j: nat, t: Tid)
    requires IsRun(run) && i <= j < |run| && t in run[i].threads && run[i].threads[t].Ins? && run[i].threads[t].stage.Full?
    ensures NeverGains(run[j]) && !IsLive(run[j], run[i].threads[t].k)
    ensures forall k :: IsLive(run[j], k) ==> IsLive(run[i], k)
  {
    if i == j {
      FullIsDead(run, i, t);
    } else {
      FullIsFinal(run, i, j - 1, t);
      NoGainNext(run, j - 1);
    }
  }

  // ---------------------------------------------------------------- misses

  /** A key does not move: if the next state has it at all, it is where it was. */
  lemma StaysOrGoes(s: State, s': State, k: int, c: nat)
    requires Inv(s) && Next(s, s') && c < s.cap && s.cells[c].key == Live(k)
    ensures |s'.cells| == s.cap && (s'.cells[c].key == Live(k) || !IsLive(s', k))
  {
    var t :| Call(s, s', t) || Step(s, s', t) || Return(s, s', t);
    if Step(s, s', t) {
      StepGrows(s, s', t);
      OneCellWritten(s, s', t);
      if s'.cells[c].key != Live(k) {
        forall i: nat | i < |s'.cells| ensures s'.cells[i].key != Live(k) {
          if s'.cells[i].key == Live(k) { LiveOnce(s, i, c); }
        }
      }
    }
  }

  lemma OneCellWritten(s: State, s': State, t: Tid)
    requires Step(s, s', t)
    ensures t in s.threads && |s'.cells| == |s.cells| && forall i :: 0 <= i < |s.cells| && i != s.threads[t].idx ==> s'.cells[i] == s.cells[i]
  {
  }

  /** The key is live in every state of the stretch. */
  ghost predicate LiveThroughout(run: seq<State>, b: nat, e: nat, k: int)
    requires b <= e < |run|
  {
    forall i :: b <= i <= e ==> IsLive(run[i], k)
  }

  /** Thread `t` runs one call of `find(k)` from state `b` up to state `e`. */
  ghost predicate Finding(run: seq<State>, b: nat, e: nat, t: Tid, k: int)
    requires b <= e < |run|
  {
    && t in run[b].threads && run[b].threads[t].n == 0
    && forall i :: b <= i <= e ==> t in run[i].threads && run[i].threads[t].Find? && run[i].threads[t].find.FindProbe? && run[i].threads[t].k == k
  }

  /** A step of another thread leaves `t` where it is; a step of `t` in `find` is a probe. */
  lemma FindMove(s: State, s': State, t: Tid)
    requires Next(s, s') && t in s.threads && s.threads[t].Find? && s.threads[t].find.FindProbe?
    ensures FindStep(s, s', t) || (t in s'.threads && s'.threads[t] == s.threads[t])
  {
    var u :| Call(s, s', u) || Step(s, s', u) || Return(s, s', u);
    if u != t && Step(s, s', u) { StepMoves(s, s', u); }
  }

  /** One probe for a key that sits at `c`: it hits, or passes on towards `c`. */
  lemma ProbeTowards(s: State, s': State, t: Tid, c: nat)
    requires Inv(s) && FindStep(s, s', t) && c < s.cap && s.cells[c].key == Live(s.threads[t].k)
    requires s.threads[t].n <= Pos(s, s.threads[t].k, c)
    ensures s'.threads[t].find.FindHit? || (s'.threads[t].find.FindProbe? && s'.threads[t].n <= Pos(s, s.threads[t].k, c))
  {
    var pc := s.threads[t];
    assert PcOK(s, t, pc) && PathOK(s, c);
    assert At(s, pc.k, Pos(s, pc.k, c)) == c;
  }

  lemma SameConfig(s: State, s': State, t: Tid)
    requires Call(s, s', t) || Step(s, s', t) || Return(s, s', t)
    ensures s'.cap == s.cap && s'.mask == s.mask && s'.hash == s.hash
  {
  }

  lemma SamePos(s: State, s': State, k: int, c: nat)
    requires Shape(s) && Next(s, s') && c < s.cap
    ensures s'.cap == s.cap && s'.mask > 0 && Pos(s', k, c) == Pos(s, k, c)
  {
    var t :| Call(s, s', t) || Step(s, s', t) || Return(s, s', t);
    SameConfig(s, s', t);
  }

  /** `t` probes for `k` and has not gone past the cell `c` that holds it. */
  ghost predicate FindNear(s: State, t: Tid, k: int, c: nat) {
    && Shape(s) && c < s.cap && s.cells[c].key == Live(k)
    && t in s.threads && s.threads[t].Find? && s.threads[t].k == k && s.threads[t].n <= Pos(s, k, c)
  }

  /** A step from near the key: `find` does not miss, and stays near as long as the key is live. */
  lemma FindNearStep(s: State, s': State, t: Tid, k: int, c: nat)
    requires Inv(s) && Shape(s') && Next(s, s') && FindNear(s, t, k, c) && s.threads[t].find.FindProbe?
    ensures t in s'.threads && s'.threads[t].Find? && s'.threads[t].k == k && !s'.threads[t].find.FindMiss?
    ensures IsLive(s', k) && s'.threads[t].find.FindProbe? ==> FindNear(s', t, k, c)
  {
    SamePos(s, s', k, c);
    FindMove(s, s', t);
    if FindStep(s, s', t) { ProbeTowards(s, s', t, c); }
    StaysOrGoes(s, s', k, c);
  }

  lemma NextAt(run: seq<State>, i: nat)
    requires IsRun(run) && i + 1 < |run|
    ensures Next(run[i], run[i + 1]) && Shape(run[i + 1])
  {
    assert StepAt(run, i);
    RunInv(run, i + 1);
  }

  lemma FindNearNext(run: seq<State>, i: nat, t: Tid, k: int, c: nat)
    requires IsRun(run) && i + 1 < |run| && FindNear(run[i], t, k, c) && run[i].threads[t].find.FindProbe?
    ensures t in run[i + 1].threads && run[i + 1].threads[t].Find? && !run[i + 1].threads[t].find.FindMiss?
    ensures IsLive(run[i + 1], k) && run[i + 1].threads[t].find.FindProbe? ==> FindNear(run[i + 1], t, k, c)
  {
    NextAt(run, i);
    RunInv(run, i);
    FindNearStep(run[i], run[i + 1], t, k, c);
  }

  lemma {:induction false} FindApproaches(run: seq<State>, b: nat, e: nat, t: Tid, k: int, c: nat)
    requires IsRun(run) && b <= e < |run| && Finding(run, b, e, t, k) && LiveThroughout(run, b, e, k)
    requires c < |run[b].cells| && run[b].cells[c].key == Live(k)
    ensures FindNear(run[e], t, k, c)
  {
    if b == e {
      RunInv(run, b);
    } else {
      FindApproaches(run, b, e - 1, t, k, c);
      FindNearNext(run, e - 1, t, k, c);
    }
  }

  /** Every `find` that misses had an instant during the call at which the key was not live. */
  lemma FindMissIsJustified(run: seq<State>, b: nat, e: nat, t: Tid, k: int)
    requires IsRun(run) && b <= e && e + 1 < |run| && Finding(run, b, e, t, k)
    requires t in run[e + 1].threads && run[e + 1].threads[t].Find? && run[e + 1].threads[t].find.FindMiss?
    ensures exists i :: b <= i <= e && !IsLive(run[i], k)
  {
    if LiveThroughout(run, b, e, k) {
      assert IsLive(run[b], k);
      var c :| 0 <= c < |run[b].cells| && run[b].cells[c].key == Live(k);
      FindApproaches(run, b, e, t, k, c);
      FindNearNext(run, e, t, k, c);
    }
  }

  /** Thread `t` runs one call of `erase(k)` from state `b` up to state `e`. */
  ghost predicate Erasing(run: seq<State>, b: nat, e: nat, t: Tid, k: int)
    requires b <= e < |run|
  {
    && t in run[b].threads && run[b].threads[t].Erase? && run[b].threads[t].n == 0 && run[b].threads[t].erase.EraseProbe?
    && forall i :: b <= i <= e ==> (t in run[i].threads && run[i].threads[t].Erase? && run[i].threads[t].k == k
                                    && (run[i].threads[t].erase.EraseProbe? || run[i].threads[t].erase.EraseCas?))
  }

  lemma EraseMove(s: State, s': State, t: Tid)
    requires Next(s, s') && t in s.threads && s.threads[t].Erase? && (s.threads[t].erase.EraseProbe? || s.threads[t].erase.EraseCas?)
    ensures EraseStep(s, s', t) || (t in s'.threads && s'.threads[t] == s.threads[t])
  {
    var u :| Call(s, s', u) || Step(s, s', u) || Return(s, s', u);
    if u != t && Step(s, s', u) { StepMoves(s, s', u); }
  }

  /** On the way to the cell `c` that holds the key, or about to erase it there. */
  ghost predicate Towards(s: State, pc: Pc, c: nat)
    requires Shape(s) && c < s.cap && pc.Erase?
  {
    pc.n <= Pos(s, pc.k, c) && (pc.erase.EraseCas? ==> pc.idx == c)
  }

  lemma EraseTowards(s: State, s': State, t: Tid, c: nat)
    requires Inv(s) && EraseStep(s, s', t) && c < s.cap && s.cells[c].key == Live(s.threads[t].k)
    requires Towards(s, s.threads[t], c) && (s.threads[t].erase.EraseProbe? || s.threads[t].erase.EraseCas?)
    ensures s'.threads[t].Erase? && (s'.threads[t].erase.EraseCount? ||
      ((s'.threads[t].erase.EraseProbe? || s'.threads[t].erase.EraseCas?) && Towards(s, s'.threads[t], c)))
  {
    var pc := s.threads[t];
    assert PcOK(s, t, pc) && PathOK(s, c);
    assert At(s, pc.k, Pos(s, pc.k, c)) == c;
    if pc.erase.EraseProbe? && s.cells[pc.idx].key == Live(pc.k) { LiveOnce(s, pc.idx, c); }
  }

  ghost predicate EraseNear(s: State, t: Tid, k: int, c: nat) {
    && Shape(s) && c < s.cap && s.cells[c].key == Live(k)
    && t in s.threads && s.threads[t].Erase? && s.threads[t].k == k && Towards(s, s.threads[t], c)
    && (s.threads[t].erase.EraseProbe? || s.threads[t].erase.EraseCas?)
  }

  /** A step from near the key: `erase` takes it out, or stays near as long as the key is live. */
  lemma EraseNearStep(s: State, s': State, t: Tid, k: int, c: nat)
    requires Inv(s) && Shape(s') && Next(s, s') && EraseNear(s, t, k, c)
    ensures t in s'.threads && s'.threads[t].Erase? && !s'.threads[t].erase.EraseNone?
    ensures IsLive(s', k) ==> EraseNear(s', t, k, c)
  {
    SamePos(s, s', k, c);
    EraseMove(s, s', t);
    if EraseStep(s, s', t) { EraseTowards(s, s', t, c); }
    StaysOrGoes(s, s', k, c);
  }

  lemma EraseNearNext(run: seq<State>, i: nat, t: Tid, k: int, c: nat)
    requires IsRun(run) && i + 1 < |run| && EraseNear(run[i], t, k, c)
    ensures t in run[i + 1].threads && run[i + 1].threads[t].Erase? && !run[i + 1].threads[t].erase.EraseNone?
    ensures IsLive(run[i + 1], k) ==> EraseNear(run[i + 1], t, k, c)
  {
    NextAt(run, i);
    RunInv(run, i);
    EraseNearStep(run[i], run[i + 1], t, k, c);
  }

  lemma {:induction false} EraseApproaches(run: seq<State>, b: nat, e: nat, t: Tid, k: int, c: nat)
    requires IsRun(run) && b <= e < |run| && Erasing(run, b, e, t, k) && LiveThroughout(run, b, e, k)
    requires c < |run[b].cells| && run[b].cells[c].key == Live(k)
    ensures EraseNear(run[e], t, k, c)
  {
    if b == e {
      RunInv(run, b);
    } else {
      EraseApproaches(run, b, e - 1, t, k, c);
      EraseNearNext(run, e - 1, t, k, c);
    }
  }

  /** Every `erase` that returns 0, even by stopping at a locked cell, had an instant during the call at which the key was not live. */
  lemma EraseMissIsJustified(run: seq<State>, b: nat, e: nat, t: Tid, k: int)
    requires IsRun(run) && b <= e && e + 1 < |run| && Erasing(run, b, e, t, k)
    requires t in run[e + 1].threads && run[e + 1].threads[t].Erase? && run[e + 1].threads[t].erase.EraseNone?
    ensures exists i :: b <= i <= e && !IsLive(run[i], k)
  {
    if LiveThroughout(run, b, e, k) {
      assert IsLive(run[b], k);
      var c :| 0 <= c < |run[b].cells| && run[b].cells[c].key == Live(k);
      EraseApproaches(run, b, e, t, k, c);
      EraseNearNext(run, e, t, k, c);
    }
  }

  // ---------------------------------------------------------------- size

  ghost function LiveCells(s: State): set<nat> { set i: nat | i < |s.cells| && s.cells[i].key.Live? }

  /** `size()` is the number of live keys, but for the inserts and erases that have yet to count theirs. */
  lemma SizeIsExact(run: seq<State>, i: nat)
    requires IsRun(run) && i < |run|
    ensures run[i].entries - run[i].erases == |LiveCells(run[i])| - |Owing(run[i], Uncounted)| + |Owing(run[i], Unerased)|
  {
    RunInv(run, i);
    var s := run[i];
    assert Taken(s) == LiveCells(s) + ErasedCells(s) && LiveCells(s) !! ErasedCells(s);
  }
}
