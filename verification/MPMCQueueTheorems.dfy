/** folly::MPMCQueue over whole runs: first in, first out, one thread per slot, and nobody sleeps without a reason. */
module MPMCQueueTheorems {
  import opened Options
  import S = TurnSequencer
  import opened TicketStride
  import opened MPMCQueue
  import opened MPMCQueueProof

  ghost predicate StepAt(run: seq<State>, i: nat) {
    i + 1 < |run| ==> Next(run[i], run[i + 1])
  }

  ghost predicate IsRun(run: seq<State>) {
    |run| > 0 && Init(run[0]) && forall i: nat :: StepAt(run, i)
  }

  lemma {:induction false} RunInv(run: seq<State>, i: nat)
    requires IsRun(run) && i < |run|
    ensures Inv(run[i])
  {
    if i == 0 {
      InitInv(run[0]);
    } else {
      RunInv(run, i - 1);
      assert StepAt(run, i - 1);
      NextInv(run[i - 1], run[i]);
    }
  }

  // ---------------------------------------------------------------- first in, first out

  /** The value taken out under a ticket is the value put in under that ticket. */
  lemma PopReturnsWhatWasPushed(run: seq<State>, i: nat, k: nat, t: Tid, v: int)
    requires IsRun(run) && i < |run|
    ensures k in run[i].popped ==> k in run[i].pushed && run[i].popped[k] == run[i].pushed[k]
    ensures t in run[i].threads && run[i].threads[t] == Done(Pop, v, k) ==> k in run[i].pushed && run[i].pushed[k] == v
  {
    RunInv(run, i);
    var s := run[i];
    assert TicketOK(s, k);
    if t in s.threads { assert PcOK(s, t, s.threads[t]); }
  }

  ghost predicate Extends(s: State, s': State) {
    && s.pushed.Keys <= s'.pushed.Keys && s.popped.Keys <= s'.popped.Keys
    && (forall k :: k in s.pushed ==> s'.pushed[k] == s.pushed[k]) && (forall k :: k in s.popped ==> s'.popped[k] == s.popped[k])
    && s.pushTicket <= s'.pushTicket && s.popTicket <= s'.popTicket
  }

  lemma StepExtends(s: State, s': State, t: Tid)
    requires Shape(s) && ThreadsOK(s) && Step(s, s', t)
    ensures Extends(s, s')
  {
    if LocalStep(s, s', t) { LocalMoves(s, s', t); }
    else if DoTouch(s, s', t) { assert PcOK(s, t, s.threads[t]); }
    else { SeqKeepsHistory(s, s', t); }
  }

  lemma SeqKeepsHistory(s: State, s': State, t: Tid)
    requires DoEnter(s, s', t) || DoWait(s, s', t) || DoComplete(s, s', t) || DoFinish(s, s', t) || DoReturn(s, s', t)
    ensures Extends(s, s') && SameThreads(s, s', t) && s'.pushTicket == s.pushTicket && s'.popTicket == s.popTicket
  {
  }

  lemma ExtendsNext(run: seq<State>, i: nat)
    requires IsRun(run) && i + 1 < |run|
    ensures Extends(run[i], run[i + 1])
  {
    RunInv(run, i);
    assert StepAt(run, i);
    var t :| Step(run[i], run[i + 1], t);
    StepExtends(run[i], run[i + 1], t);
  }

  lemma {:induction false} HistoryIsFinal(run: seq<State>, i: nat, j: nat)
    requires IsRun(run) && i <= j < |run|
    ensures Extends(run[i], run[j])
  {
    if i < j {
      HistoryIsFinal(run, i, j - 1);
      ExtendsNext(run, j - 1);
    }
  }

  /** Each ticket stores once and is taken out once: no two touches are for the same side and ticket. */
  lemma TouchedOnce(run: seq<State>, i: nat, t: Tid, j: nat, u: Tid)
    requires IsRun(run) && i < j && j + 1 < |run| && DoTouch(run[i], run[i + 1], t) && DoTouch(run[j], run[j + 1], u)
    ensures run[i].threads[t].side != run[j].threads[u].side || run[i].threads[t].k != run[j].threads[u].k
  {
    HistoryIsFinal(run, i + 1, j);
    RunInv(run, j);
    assert PcOK(run[j], u, run[j].threads[u]);
  }

  // ---------------------------------------------------------------- one thread per slot

  /** Between the return of `waitForTurn` and the swap in `completeTurn`. */
  ghost predicate InSection(s: State, t: Tid)
    requires Shape(s)
  {
    && t in s.threads
    && var pc := s.threads[t];
       || (pc.Wait? && HasArrived(s, t, pc.k)) || pc.Touched?
       || (pc.Finish? && t in SeqOf(s, pc.k).threads && SeqOf(s, pc.k).threads[t].Completing?)
  }

  lemma SectionTurn(s: State, t: Tid)
    requires Shape(s) && SlotsOK(s) && ThreadsOK(s) && InSection(s, t)
    ensures SeqOf(s, s.threads[t].k).cur == TurnOf(s, s.threads[t].side, s.threads[t].k)
  {
    var pc := s.threads[t];
    assert PcOK(s, t, pc);
    assert S.PcOK(SeqOf(s, pc.k), SeqOf(s, pc.k).threads[t]);
  }

  lemma SlotIsExclusive(run: seq<State>, i: nat, t: Tid, u: Tid)
    requires IsRun(run) && i < |run| && Shape(run[i]) && InSection(run[i], t) && InSection(run[i], u)
    requires SlotOf(run[i], run[i].threads[t].k) == SlotOf(run[i], run[i].threads[u].k)
    ensures t == u
  {
    var s := run[i];
    RunInv(run, i);
    SectionTurn(s, t);
    SectionTurn(s, u);
    TicketOfTurn(s, s.threads[t].side, s.threads[t].k, s.threads[u].side, s.threads[u].k);
  }

  // ---------------------------------------------------------------- size()

  /** The instants of the loads `size()` makes while the queue goes through `run`; the loads alternate, `pushTicket_` first. */
  ghost predicate LoadTimes(run: seq<State>, at: seq<nat>) {
    && |at| >= 2 && (forall k :: 0 <= k < |at| ==> at[k] < |run|)
    && (forall k, l :: 0 <= k < l < |at| ==> at[k] <= at[l])
  }

  /** Two loads of a ticket that agree bracket every instant between them. */
  lemma Bracket(run: seq<State>, i: nat, j: nat, k: nat)
    requires IsRun(run) && i <= j <= k < |run|
    ensures run[i].pushTicket == run[k].pushTicket ==> run[j].pushTicket == run[k].pushTicket
    ensures run[i].popTicket == run[k].popTicket ==> run[j].popTicket == run[k].popTicket
  {
    HistoryIsFinal(run, i, j);
    HistoryIsFinal(run, j, k);
  }

  /**
   `size()`: the result is the difference of the two tickets at one instant `when` of the call.
   `None` stands for a call still looping after the loads in `at`: then every ticket moved between its successive loads.
   */
  method Size(run: seq<State>, at: seq<nat>) returns (r: Option<int>, ghost when: nat)
    requires IsRun(run) && LoadTimes(run, at)
    ensures r.Some? ==> at[0] <= when <= at[|at| - 1] && r.value == run[when].pushTicket - run[when].popTicket
    ensures r.None? ==> forall k :: 0 <= k < |at| - 2 ==>
      if k % 2 == 0 then run[at[k]].pushTicket != run[at[k + 2]].pushTicket else run[at[k]].popTicket != run[at[k + 2]].popTicket
  {
    var pushes: int, pops: int, n := run[at[0]].pushTicket, run[at[1]].popTicket, 2;
    when := at[0];
    while n < |at|
      invariant 2 <= n <= |at| + 1 && n % 2 == 0
      invariant n <= |at| ==> pushes == run[at[n - 2]].pushTicket && pops == run[at[n - 1]].popTicket
      invariant forall k :: 0 <= k < n - 2 && k + 2 < |at| ==>
        if k % 2 == 0 then run[at[k]].pushTicket != run[at[k + 2]].pushTicket else run[at[k]].popTicket != run[at[k + 2]].popTicket
    {
      var nextPushes := run[at[n]].pushTicket;
      if pushes == nextPushes {
        Bracket(run, at[n - 2], at[n - 1], at[n]);
        return Some(pushes - pops), at[n - 1];
      }
      pushes := nextPushes;
      if n + 1 < |at| {
        var nextPops := run[at[n + 1]].popTicket;
        if pops == nextPops {
          Bracket(run, at[n - 1], at[n], at[n + 1]);
          return Some(pushes - pops), at[n];
        }
        pops := nextPops;
      }
      n := n + 2;
    }
    r := None;
  }

  // ---------------------------------------------------------------- write and read do not block

  /** A ticket from `tryObtainReady*Ticket` finds its turn there: the thread never records itself as a waiter. */
  lemma ReadyNeverBlocks(run: seq<State>, i: nat, t: Tid)
    requires IsRun(run) && i < |run| && t in run[i].threads && run[i].threads[t].Wait? && run[i].threads[t].kind.Ready?
    ensures Shape(run[i]) && t in SeqOf(run[i], run[i].threads[t].k).threads
    ensures var q := SeqOf(run[i], run[i].threads[t].k);
      (q.threads[t].Arrived? || q.threads[t].Spin?) && S.IsTurn(q, q.threads[t].turn)
  {
    RunInv(run, i);
    var pc := run[i].threads[t];
    assert PcOK(run[i], t, pc);
    S.IsTurnIsExact(SeqOf(run[i], pc.k), TurnOf(run[i], pc.side, pc.k));
  }

  /** `writeIfNotFull` and `readIfNotEmpty` refuse only at an instant when the queue is full, or empty. */
  lemma PromisedRefusalIsJustified(run: seq<State>, i: nat, t: Tid)
    requires IsRun(run) && i + 1 < |run| && DoCompare(run[i], run[i + 1], t) && run[i + 1].threads[t].Refused?
    ensures var s := run[i];
      if s.threads[t].side.Push? then s.pushTicket - s.popTicket >= s.cap else s.pushTicket - s.popTicket <= 0
  {
    RunInv(run, i);
    assert PcOK(run[i], t, run[i].threads[t]);
  }

  // ---------------------------------------------------------------- nobody sleeps without a reason

  ghost predicate HeldBy(s: State, t: Tid, side: Side, k: nat) {
    t in s.threads && Held(s.threads[t]) && s.threads[t].side == side && s.threads[t].k == k
  }

  /** A ticket that was granted is held by a thread until its turn is over. */
  ghost predicate TicketKept(s: State, side: Side, k: nat)
    requires Shape(s)
  {
    k < Disp(s, side) ==> SeqOf(s, k).cur > TurnOf(s, side, k) || exists t :: HeldBy(s, t, side, k)
  }

  ghost predicate NoneForgotten(s: State)
    requires Shape(s)
  {
    forall side, k :: TicketKept(s, side, k)
  }

  lemma SeqGrows(q: S.State, q': S.State, t: Tid)
    requires S.Act(q, q', t) || S.BeginComplete(q, q', t) || exists turn :: S.Begin(q, q', t, turn)
    ensures q.cur <= q'.cur
  {
  }

  lemma SeqCurGrows(s: State, s': State, t: Tid, k: nat)
    requires Shape(s) && (DoEnter(s, s', t) || DoWait(s, s', t) || DoComplete(s, s', t) || DoFinish(s, s', t) || DoReturn(s, s', t))
    ensures Shape(s') && s'.cap == s.cap && s'.stride == s.stride && SlotOf(s', k) == SlotOf(s, k) && SeqOf(s, k).cur <= SeqOf(s', k).cur
  {
    SeqMoveShape(s, s', t, s'.threads[t]);
    var i := SlotOf(s, s.threads[t].k);
    SeqGrows(s.slots[i].seq_, s'.slots[i].seq_, t);
    assert forall j :: 0 <= j < |s.slots| && j != i ==> s'.slots[j] == s.slots[j];
  }

  lemma CurGrows(s: State, s': State, t: Tid, k: nat)
    requires Shape(s) && Step(s, s', t)
    ensures Shape(s') && SeqOf(s, k).cur <= SeqOf(s', k).cur && SlotOf(s', k) == SlotOf(s, k)
    ensures TurnOf(s', Push, k) == TurnOf(s, Push, k) && TurnOf(s', Pop, k) == TurnOf(s, Pop, k)
  {
    if LocalStep(s, s', t) {
      LocalMoves(s, s', t);
    } else if !DoTouch(s, s', t) {
      SeqCurGrows(s, s', t, k);
    }
  }

  lemma HolderGoesOn(s: State, s': State, t: Tid)
    requires Shape(s) && ThreadsOK(s) && Step(s, s', t) && t in s.threads && Held(s.threads[t])
    ensures HeldBy(s', t, s.threads[t].side, s.threads[t].k) || SeqOf(s, s.threads[t].k).cur > TurnOf(s, s.threads[t].side, s.threads[t].k)
  {
    assert PcOK(s, t, s.threads[t]);
    if LocalStep(s, s', t) { LocalMoves(s, s', t); }
  }

  lemma OthersGoOn(s: State, s': State, t: Tid)
    requires Shape(s) && Step(s, s', t)
    ensures SameThreads(s, s', t)
  {
    if LocalStep(s, s', t) { LocalMoves(s, s', t); }
    else if !DoTouch(s, s', t) { SeqKeepsHistory(s, s', t); }
  }

  lemma FreshIsHeld(s: State, s': State, t: Tid, side: Side, k: nat)
    requires Shape(s) && Step(s, s', t) && Disp(s, side) <= k < Disp(s', side)
    ensures HeldBy(s', t, side, k)
  {
    if LocalStep(s, s', t) { LocalMoves(s, s', t); }
    else if !DoTouch(s, s', t) { SeqKeepsHistory(s, s', t); }
  }

  lemma TicketStaysKept(s: State, s': State, t: Tid, side: Side, k: nat)
    requires Shape(s) && ThreadsOK(s) && Step(s, s', t) && TicketKept(s, side, k)
    ensures Shape(s') && TicketKept(s', side, k)
  {
    CurGrows(s, s', t, k);
    if k < Disp(s', side) {
      if k < Disp(s, side) {
        if exists u :: HeldBy(s, u, side, k) {
          var u :| HeldBy(s, u, side, k);
          if u == t { HolderGoesOn(s, s', t); } else { OthersGoOn(s, s', t); assert HeldBy(s', u, side, k); }
        }
      } else {
        FreshIsHeld(s, s', t, side, k);
      }
    }
  }

  lemma NoneForgottenNext(s: State, s': State)
    requires Shape(s) && ThreadsOK(s) && NoneForgotten(s) && Next(s, s')
    ensures Shape(s') && NoneForgotten(s')
  {
    var t :| Step(s, s', t);
    CurGrows(s, s', t, 0);
    forall side, k ensures TicketKept(s', side, k) {
      assert TicketKept(s, side, k);
      TicketStaysKept(s, s', t, side, k);
    }
  }

  lemma {:induction false} RunNoneForgotten(run: seq<State>, i: nat)
    requires IsRun(run) && i < |run|
    ensures Shape(run[i]) && NoneForgotten(run[i])
  {
    if i > 0 {
      RunNoneForgotten(run, i - 1);
      RunInv(run, i - 1);
      assert StepAt(run, i - 1);
      NoneForgottenNext(run[i - 1], run[i]);
    }
  }

  ghost predicate Sleeps(s: State, t: Tid)
    requires Shape(s)
  {
    t in s.threads && s.threads[t].Wait? && t in SeqOf(s, s.threads[t].k).threads && SeqOf(s, s.threads[t].k).threads[t].Asleep?
  }

  ghost predicate AllAsleep(s: State)
    requires Shape(s)
  {
    forall t :: t in s.threads ==> Sleeps(s, t)
  }

  lemma NoWakes(s: State, k: nat)
    requires Shape(s) && Accounted(s) && AllAsleep(s)
    ensures forall u :: u in SeqOf(s, k).threads ==> !SeqOf(s, k).threads[u].Waking?
  {
    var q := SeqOf(s, k);
    forall u | u in q.threads ensures !q.threads[u].Waking? {
      assert u in s.threads && Sleeps(s, u);
    }
  }

  /** With everybody asleep no wake is pending, so a sleeper's turn has not come. */
  lemma SleeperIsEarly(s: State, t: Tid)
    requires Shape(s) && SlotsOK(s) && ThreadsOK(s) && Accounted(s) && AllAsleep(s) && t in s.threads
    ensures SeqOf(s, s.threads[t].k).cur < TurnOf(s, s.threads[t].side, s.threads[t].k)
  {
    var pc := s.threads[t];
    assert Sleeps(s, t) && PcOK(s, t, pc);
    var q := SeqOf(s, pc.k);
    assert S.Inv(q) && S.PcOK(q, q.threads[t]);
    NoWakes(s, pc.k);
  }

  /** The operation whose turn it is in a slot has not been given a ticket yet. */
  lemma CurrentTurnIsUngranted(s: State, side: Side, k: nat)
    requires Inv(s) && NoneForgotten(s) && AllAsleep(s) && SeqOf(s, k).cur == TurnOf(s, side, k)
    ensures k >= Disp(s, side)
  {
    assert TicketKept(s, side, k);
    if k < Disp(s, side) {
      var t :| HeldBy(s, t, side, k);
      SleeperIsEarly(s, t);
    }
  }

  lemma CurrentTicket(s: State, slot: nat) returns (side: Side, k: nat)
    requires Shape(s) && slot < s.cap
    ensures SlotOf(s, k) == slot && TurnOf(s, side, k) == s.slots[slot].seq_.cur
  {
    var cur := s.slots[slot].seq_.cur;
    side := if cur % 2 == 0 then Push else Pop;
    k := TicketFor(slot, cur / 2, s.stride, s.cap);
  }

  /** An earlier turn of the same slot belongs to a smaller ticket; to one smaller by the capacity if a pop comes before a push. */
  lemma EarlierTurn(s: State, side: Side, k: nat, side': Side, k': nat)
    requires Shape(s) && SlotOf(s, k) == SlotOf(s, k') && TurnOf(s, side', k') < TurnOf(s, side, k)
    ensures k' <= k && (side == side' ==> k' < k) && (side.Push? && side'.Pop? ==> k' + s.cap <= k)
  {
    if Turn(k', s.cap) == Turn(k, s.cap) {
      SlotAndTurnNameTheTicket(k, k', s.stride, s.cap);
    } else {
      SameSlot(k, k', s.stride, s.cap);
      SameRestApart(k', k, s.cap);
    }
  }

  lemma MultiplesApart(n: nat, p: nat, q: nat)
    requires p < q
    ensures n * p + n <= n * q
  {
    var d: nat := q - p - 1;
    assert n * (p + 1 + d) == n * p + n + n * d;
  }

  lemma SameRestApart(a: nat, b: nat, n: nat)
    requires n > 0 && a % n == b % n && a / n < b / n
    ensures a + n <= b
  {
    MultiplesApart(n, a / n, b / n);
  }

  /** A sleeping push waits for pops nobody has asked for; a sleeping pop waits for pushes nobody has asked for. */
  lemma SleeperLacksPartner(s: State, t: Tid)
    requires Inv(s) && NoneForgotten(s) && AllAsleep(s) && t in s.threads
    ensures var pc := s.threads[t]; pc.Wait? && !Promise(s, pc.side, pc.k)
  {
    var pc := s.threads[t];
    assert Sleeps(s, t) && PcOK(s, t, pc);
    SleeperIsEarly(s, t);
    var side, k := CurrentTicket(s, SlotOf(s, pc.k));
    CurrentTurnIsUngranted(s, side, k);
    EarlierTurn(s, pc.side, pc.k, side, k);
  }

  /** If every operation in flight is asleep, all are pushes and the queue is full, or all are pops and it is empty; none was promised its turn. */
  lemma QuiescentOnlyWhenFullOrEmpty(run: seq<State>, i: nat, t: Tid, u: Tid)
    requires IsRun(run) && i < |run| && Shape(run[i]) && AllAsleep(run[i]) && t in run[i].threads && u in run[i].threads
    ensures var s := run[i];
      && s.threads[t].Wait? && s.threads[u].Wait? && s.threads[t].side == s.threads[u].side && s.threads[t].kind.Blocking?
      && if s.threads[t].side.Push? then s.threads[t].k >= s.popTicket + s.cap else s.threads[t].k >= s.pushTicket
  {
    var s := run[i];
    RunInv(run, i);
    RunNoneForgotten(run, i);
    SleeperLacksPartner(s, t);
    SleeperLacksPartner(s, u);
    assert PcOK(s, t, s.threads[t]) && PcOK(s, u, s.threads[u]);
    assert Sleeps(s, t);
  }

  // ---------------------------------------------------------------- why write and read refuse

  /** Some thread has a ticket for the slot of ticket `k` and has not completed its turn. */
  ghost predicate Pending(s: State, k: nat)
    requires Shape(s)
  {
    exists t, side', k' :: HeldBy(s, t, side', k') && SlotOf(s, k') == SlotOf(s, k)
  }

  /** The next ticket's turn is still to come only if the queue is full, or empty, or an operation on the slot is in progress. */
  lemma TurnToCome(s: State, side: Side, k: nat)
    requires Inv(s) && NoneForgotten(s) && Disp(s, side) == k && SeqOf(s, k).cur < TurnOf(s, side, k)
    ensures (if side.Push? then s.pushTicket - s.popTicket >= s.cap else s.pushTicket - s.popTicket <= 0) || Pending(s, k)
  {
    var side', k' := CurrentTicket(s, SlotOf(s, k));
    EarlierTurn(s, side, k, side', k');
    assert TicketKept(s, side', k');
    if k' < Disp(s, side') {
      var t :| HeldBy(s, t, side', k');
      assert Pending(s, k);
    }
  }

  /**
   `write` and `read` refuse only if, when they looked, the dispenser's next ticket would have blocked:
   the queue was full, or empty, or an operation on the slot had its ticket and was not done.
   */
  lemma ReadyRefusalIsJustified(run: seq<State>, i: nat, j: nat, t: Tid, side: Side, v: int, k: nat)
    requires IsRun(run) && i <= j < |run| && t in run[i].threads && run[i].threads[t] == Check(side, v, k)
    requires Shape(run[i]) && !S.IsTurn(SeqOf(run[i], k), TurnOf(run[i], side, k))
    requires Disp(run[j], side) == k
    ensures Disp(run[i], side) == k && SeqOf(run[i], k).cur < TurnOf(run[i], side, k)
    ensures var s := run[i];
      (if side.Push? then s.pushTicket - s.popTicket >= s.cap else s.pushTicket - s.popTicket <= 0) || Pending(s, k)
  {
    RunInv(run, i);
    RunNoneForgotten(run, i);
    var s := run[i];
    assert PcOK(s, t, s.threads[t]);
    HistoryIsFinal(run, i, j);
    assert SeqOf(s, k).cur <= TurnOf(s, side, k);
    if SeqOf(s, k).cur == TurnOf(s, side, k) {
      S.IsTurnIsExact(SeqOf(s, k), TurnOf(s, side, k));
    }
    TurnToCome(s, side, k);
  }
}
