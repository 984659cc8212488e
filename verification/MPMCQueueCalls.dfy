/** Whole calls on an MPMCQueue: values, tickets and refusals against the arguments of the call. */
module MPMCQueueCalls {
  import opened Options
  import S = TurnSequencer
  import opened TicketStride
  import opened MPMCQueue
  import opened MPMCQueueProof
  import opened MPMCQueueTheorems

  /** Thread `t` is in a call from state `b + 1` to state `e`. */
  ghost predicate InCall(run: seq<State>, b: nat, e: nat, t: Tid) {
    b < e < |run| && forall i: nat :: b < i <= e ==> t in run[i].threads
  }

  lemma MovesOrWaits(run: seq<State>, i: nat, t: Tid)
    requires IsRun(run) && i + 1 < |run| && t in run[i].threads && t in run[i + 1].threads
    ensures run[i + 1].threads[t] == run[i].threads[t] || Step(run[i], run[i + 1], t)
  {
    RunInv(run, i);
    assert StepAt(run, i);
    var u :| Step(run[i], run[i + 1], u);
    if u != t { OthersGoOn(run[i], run[i + 1], u); }
  }

  // ---------------------------------------------------------------- the program counters of a call

  /** A call of `side` and `kind`, for a push with value `v`, that began when the dispenser stood at `first`. */
  ghost predicate PcFor(pc: Pc, side: Side, kind: Kind, v: int, first: nat) {
    match pc
    case Load(s, kd, x) => s == side && kd == kind && x == v && !kind.Blocking?
    case Check(s, x, k) => s == side && kind.Ready? && x == v && first <= k
    case Recheck(s, x, k) => s == side && kind.Ready? && x == v && first <= k
    case Compare(s, x, k) => s == side && kind.Promised? && x == v && first <= k
    case Claim(s, kd, x, k) => s == side && kd == kind && x == v && first <= k && !kind.Blocking?
    case Enter(s, kd, x, k) => s == side && kd == kind && x == v && first <= k
    case Wait(s, kd, x, k) => s == side && kd == kind && x == v && first <= k
    case Touched(s, kd, x, k) => s == side && kd == kind && (side.Push? ==> x == v) && first <= k
    case Finish(s, kd, x, k) => s == side && kd == kind && (side.Push? ==> x == v) && first <= k
    case Done(s, x, k) => s == side && (side.Push? ==> x == v) && first <= k
    case Refused(s) => s == side && !kind.Blocking?
  }

  lemma LocalKeeps(s: State, s': State, t: Tid, side: Side, kind: Kind, v: int, first: nat)
    requires t in s.threads && t in s'.threads && PcFor(s.threads[t], side, kind, v, first) && first <= Disp(s, side) && LocalStep(s, s', t)
    requires s.threads[t].Load? ==> !s.threads[t].kind.Blocking?
    ensures PcFor(s'.threads[t], side, kind, v, first)
    ensures s'.threads[t].Refused? ==> (s.threads[t].Recheck? && Disp(s, side) == s.threads[t].k) || DoCompare(s, s', t)
    ensures s'.threads[t].Recheck? ==> Shape(s) && s.threads[t].Check? && s'.threads[t].k == s.threads[t].k
                                       && !S.IsTurn(SeqOf(s, s.threads[t].k), TurnOf(s, side, s.threads[t].k))
  {
  }

  lemma SeqKeeps(s: State, s': State, t: Tid, side: Side, kind: Kind, v: int, first: nat)
    requires t in s.threads && PcFor(s.threads[t], side, kind, v, first)
    requires DoEnter(s, s', t) || DoWait(s, s', t) || DoTouch(s, s', t) || DoComplete(s, s', t) || DoFinish(s, s', t) || DoReturn(s, s', t)
    ensures t in s'.threads && PcFor(s'.threads[t], side, kind, v, first) && !s'.threads[t].Refused? && !s'.threads[t].Recheck?
  {
  }

  lemma CallStep(run: seq<State>, b: nat, i: nat, t: Tid, side: Side, kind: Kind, v: int)
    requires IsRun(run) && b <= i && i + 1 < |run| && t in run[i].threads && t in run[i + 1].threads
    requires PcFor(run[i].threads[t], side, kind, v, Disp(run[b], side))
    ensures PcFor(run[i + 1].threads[t], side, kind, v, Disp(run[b], side))
  {
    MovesOrWaits(run, i, t);
    HistoryIsFinal(run, b, i);
    if run[i + 1].threads[t] != run[i].threads[t] {
      if LocalStep(run[i], run[i + 1], t) { LocalKeeps(run[i], run[i + 1], t, side, kind, v, Disp(run[b], side)); }
      else { SeqKeeps(run[i], run[i + 1], t, side, kind, v, Disp(run[b], side)); }
    }
  }

  /** A call keeps its side, its kind and its value to the end, and its ticket is not older than the call. */
  lemma {:induction false} CallIsKept(run: seq<State>, b: nat, e: nat, t: Tid, side: Side, kind: Kind, v: int)
    requires IsRun(run) && InCall(run, b, e, t) && Start(run[b], run[b + 1], t, side, kind, v)
    ensures PcFor(run[e].threads[t], side, kind, v, Disp(run[b], side))
    decreases e
  {
    if e > b + 1 {
      CallIsKept(run, b, e - 1, t, side, kind, v);
      CallStep(run, b, e - 1, t, side, kind, v);
    }
  }

  // ---------------------------------------------------------------- values

  /** A push that is done stored the value it was called with, under its ticket, once and for all. */
  lemma PushStoresItsValue(run: seq<State>, b: nat, e: nat, t: Tid, kind: Kind, v: int, j: nat)
    requires IsRun(run) && InCall(run, b, e, t) && Start(run[b], run[b + 1], t, Push, kind, v) && run[e].threads[t].Done? && e <= j < |run|
    ensures run[e].threads[t] == Done(Push, v, run[e].threads[t].k)
    ensures run[e].threads[t].k in run[j].pushed && run[j].pushed[run[e].threads[t].k] == v
  {
    CallIsKept(run, b, e, t, Push, kind, v);
    RunInv(run, e);
    assert PcOK(run[e], t, run[e].threads[t]);
    HistoryIsFinal(run, e, j);
  }

  /** First in, first out between calls: the pop that was granted ticket `k` returns the value of the push call that was granted ticket `k`. */
  lemma PopReturnsValueOfPush(run: seq<State>, b1: nat, e1: nat, t1: Tid, kind1: Kind, v: int, b2: nat, e2: nat, t2: Tid, kind2: Kind, x: int, got: int, k: nat)
    requires IsRun(run)
    requires InCall(run, b1, e1, t1) && Start(run[b1], run[b1 + 1], t1, Push, kind1, v) && run[e1].threads[t1].Done? && run[e1].threads[t1].k == k
    requires InCall(run, b2, e2, t2) && Start(run[b2], run[b2 + 1], t2, Pop, kind2, x) && run[e2].threads[t2].Done?
    requires run[e2].threads[t2].k == k && run[e2].threads[t2].v == got
    ensures got == v
  {
    var last := if e1 <= e2 then e2 else e1;
    PushStoresItsValue(run, b1, e1, t1, kind1, v, last);
    CallIsKept(run, b2, e2, t2, Pop, kind2, x);
    PopReturnsWhatWasPushed(run, e2, k, t2, got);
    HistoryIsFinal(run, e2, last);
  }

  /** Tickets follow real time: of two calls on the same side, one over before the other begins has the smaller ticket. */
  lemma EarlierCallHasSmallerTicket(run: seq<State>, side: Side, b1: nat, e1: nat, t1: Tid, kind1: Kind, v1: int, b2: nat, e2: nat, t2: Tid, kind2: Kind, v2: int)
    requires IsRun(run) && e1 <= b2
    requires InCall(run, b1, e1, t1) && Start(run[b1], run[b1 + 1], t1, side, kind1, v1) && run[e1].threads[t1].Done?
    requires InCall(run, b2, e2, t2) && Start(run[b2], run[b2 + 1], t2, side, kind2, v2) && run[e2].threads[t2].Done?
    ensures run[e1].threads[t1].k < run[e2].threads[t2].k
  {
    CallIsKept(run, b1, e1, t1, side, kind1, v1);
    CallIsKept(run, b2, e2, t2, side, kind2, v2);
    RunInv(run, e1);
    assert PcOK(run[e1], t1, run[e1].threads[t1]);
    HistoryIsFinal(run, e1, b2);
  }

  // ---------------------------------------------------------------- refusals

  /** The tickets say that the queue is full, for a push, or empty, for a pop. */
  ghost predicate NoRoom(s: State, side: Side) {
    if side.Push? then s.pushTicket - s.popTicket >= s.cap else s.pushTicket - s.popTicket <= 0
  }

  /** The next ticket of the side would block: no room, or an operation on its slot has a ticket and is not done. */
  ghost predicate WouldBlock(s: State, side: Side) {
    NoRoom(s, side) || (Shape(s) && Pending(s, Disp(s, side)))
  }

  lemma {:induction false} RecheckSince(run: seq<State>, b: nat, e: nat, t: Tid, side: Side, kind: Kind, v: int) returns (m: nat)
    requires IsRun(run) && InCall(run, b, e, t) && Start(run[b], run[b + 1], t, side, kind, v) && run[e].threads[t].Recheck?
    ensures b < m < e && run[m].threads[t] == Check(side, v, run[e].threads[t].k)
    ensures Shape(run[m]) && !S.IsTurn(SeqOf(run[m], run[e].threads[t].k), TurnOf(run[m], side, run[e].threads[t].k))
    decreases e
  {
    m := e - 1;
    assert m > b;
    CallIsKept(run, b, m, t, side, kind, v);
    MovesOrWaits(run, m, t);
    if run[m].threads[t] == run[e].threads[t] {
      m := RecheckSince(run, b, m, t, side, kind, v);
    } else if LocalStep(run[m], run[e], t) {
      HistoryIsFinal(run, b, m);
      LocalKeeps(run[m], run[e], t, side, kind, v, Disp(run[b], side));
    } else {
      SeqKeeps(run[m], run[e], t, side, kind, v, Disp(run[b], side));
    }
  }

  lemma RecheckRefusal(run: seq<State>, b: nat, m: nat, t: Tid, side: Side, kind: Kind, v: int) returns (j: nat)
    requires IsRun(run) && InCall(run, b, m, t) && Start(run[b], run[b + 1], t, side, kind, v) && run[m].threads[t].Recheck?
    requires Disp(run[m], side) == run[m].threads[t].k
    ensures b < j < m && WouldBlock(run[j], side)
  {
    j := RecheckSince(run, b, m, t, side, kind, v);
    ReadyRefusalIsJustified(run, j, m, t, side, v, run[m].threads[t].k);
  }

  /**
   A call that is refused: it is not a blocking one; if it was `writeIfNotFull` or `readIfNotEmpty` the queue was full,
   or empty, at instant `j` of the call; if it was `write` or `read` its next ticket would have blocked then.
   */
  lemma {:induction false} RefusalIsJustified(run: seq<State>, b: nat, e: nat, t: Tid, side: Side, kind: Kind, v: int) returns (j: nat)
    requires IsRun(run) && InCall(run, b, e, t) && Start(run[b], run[b + 1], t, side, kind, v) && run[e].threads[t].Refused?
    ensures !kind.Blocking? && b < j < e && (kind.Promised? ==> NoRoom(run[j], side)) && (kind.Ready? ==> WouldBlock(run[j], side))
    decreases e
  {
    CallIsKept(run, b, e, t, side, kind, v);
    var m := e - 1;
    assert m > b;
    CallIsKept(run, b, m, t, side, kind, v);
    MovesOrWaits(run, m, t);
    if run[m].threads[t] == run[e].threads[t] {
      j := RefusalIsJustified(run, b, m, t, side, kind, v);
    } else {
      j := RefusedNow(run, b, m, t, side, kind, v);
    }
  }

  lemma RefusedNow(run: seq<State>, b: nat, m: nat, t: Tid, side: Side, kind: Kind, v: int) returns (j: nat)
    requires IsRun(run) && InCall(run, b, m, t) && Start(run[b], run[b + 1], t, side, kind, v) && m + 1 < |run| && Step(run[m], run[m + 1], t)
    requires PcFor(run[m].threads[t], side, kind, v, Disp(run[b], side)) && t in run[m + 1].threads && run[m + 1].threads[t].Refused?
    ensures b < j <= m && (kind.Promised? ==> NoRoom(run[j], side)) && (kind.Ready? ==> WouldBlock(run[j], side))
  {
    j := m;
    if LocalStep(run[m], run[m + 1], t) {
      HistoryIsFinal(run, b, m);
      LocalKeeps(run[m], run[m + 1], t, side, kind, v, Disp(run[b], side));
      if run[m].threads[t].Recheck? {
        j := RecheckRefusal(run, b, m, t, side, kind, v);
      } else {
        PromisedRefusalIsJustified(run, m, t);
      }
    } else {
      SeqKeeps(run[m], run[m + 1], t, side, kind, v, Disp(run[b], side));
    }
  }
}
