/**
 folly::MPMCQueue: ticket dispensers over an array of SingleElementQueue slots, each slot
 guarded by its own TurnSequencer. Any number of threads, one atomic operation per step.

 Tickets and turns are unbounded. `pushed` and `popped` are auxiliary: the value stored and
 the value taken out under each ticket.
 */
module MPMCQueue {
  import opened Options
  import S = TurnSequencer
  import opened TicketStride

  type Tid = nat

  datatype Side = Push | Pop
  datatype Kind = Blocking | Ready | Promised

  datatype Pc =
    | Load(side: Side, kind: Kind, v: int)                 // load the dispenser
    | Check(side: Side, v: int, k: nat)                    // mayEnqueue / mayDequeue
    | Recheck(side: Side, v: int, k: nat)                  // load the dispenser again after a failed check
    | Compare(side: Side, v: int, k: nat)                  // load the other dispenser
    | Claim(side: Side, kind: Kind, v: int, k: nat)        // compare-and-swap the dispenser
    | Enter(side: Side, kind: Kind, v: int, k: nat)        // ticket granted
    | Wait(side: Side, kind: Kind, v: int, k: nat)         // in waitForTurn
    | Touched(side: Side, kind: Kind, v: int, k: nat)      // contents_ built or taken out
    | Finish(side: Side, kind: Kind, v: int, k: nat)       // in completeTurn
    | Done(side: Side, v: int, k: nat)
    | Refused(side: Side)

  datatype Slot = Slot(seq_: S.State, contents: Option<int>)

  datatype State = State(cap: nat, stride: nat, slots: seq<Slot>, pushTicket: nat, popTicket: nat,
                         threads: map<Tid, Pc>, pushed: map<nat, int>, popped: map<nat, int>)

  // ---------------------------------------------------------------- tickets

  ghost predicate Shape(s: State) {
    s.cap > 0 && s.stride > 0 && Coprime(s.stride, s.cap) && |s.slots| == s.cap
  }

  function Disp(s: State, side: Side): (r: nat) {
    if side.Push? then s.pushTicket else s.popTicket
  }

  function SlotOf(s: State, k: nat): (r: nat)
    requires s.cap > 0
    ensures r < s.cap
  {
    Idx(k, s.stride, s.cap)
  }

  /** Even turns of a slot are pushes, odd turns are pops. */
  function TurnOf(s: State, side: Side, k: nat): (r: nat)
    requires s.cap > 0
  {
    2 * Turn(k, s.cap) + if side.Push? then 0 else 1
  }

  ghost function SeqOf(s: State, k: nat): S.State
    requires Shape(s)
  {
    s.slots[SlotOf(s, k)].seq_
  }

  // ---------------------------------------------------------------- steps

  ghost predicate Init(s: State) {
    && Shape(s) && s.pushTicket == 0 && s.popTicket == 0 && s.threads == map[] && s.pushed == map[] && s.popped == map[]
    && forall i :: 0 <= i < s.cap ==> S.Init(s.slots[i].seq_) && s.slots[i].seq_.cur == 0 && s.slots[i].contents == None
  }

  ghost function Goto(s: State, t: Tid, pc: Pc): State {
    s.(threads := s.threads[t := pc])
  }

  ghost function Grant(s: State, t: Tid, side: Side, kind: Kind, v: int, k: nat): State {
    var s1 := Goto(s, t, Enter(side, kind, v, k));
    if side.Push? then s1.(pushTicket := k + 1) else s1.(popTicket := k + 1)
  }

  /** `blockingWrite` and `blockingRead` take a ticket at once; the others first look. */
  ghost predicate Start(s: State, s': State, t: Tid, side: Side, kind: Kind, v: int) {
    && t !in s.threads
    && s' == if kind.Blocking? then Grant(s, t, side, kind, v, Disp(s, side)) else Goto(s, t, Load(side, kind, v))
  }

  ghost predicate DoLoad(s: State, s': State, t: Tid) {
    && t in s.threads && s.threads[t].Load?
    && var pc := s.threads[t];
       s' == Goto(s, t, if pc.kind.Ready? then Check(pc.side, pc.v, Disp(s, pc.side)) else Compare(pc.side, pc.v, Disp(s, pc.side)))
  }

  ghost predicate DoCheck(s: State, s': State, t: Tid) {
    && Shape(s) && t in s.threads && s.threads[t].Check?
    && var pc := s.threads[t];
       s' == Goto(s, t, if S.IsTurn(SeqOf(s, pc.k), TurnOf(s, pc.side, pc.k)) then Claim(pc.side, Ready, pc.v, pc.k)
                        else Recheck(pc.side, pc.v, pc.k))
  }

  ghost predicate DoRecheck(s: State, s': State, t: Tid) {
    && t in s.threads && s.threads[t].Recheck?
    && var pc := s.threads[t];
       s' == Goto(s, t, if Disp(s, pc.side) == pc.k then Refused(pc.side) else Check(pc.side, pc.v, Disp(s, pc.side)))
  }

  /** Would every operation with a smaller ticket on the other side make room for this one? */
  predicate Promise(s: State, side: Side, k: nat) {
    if side.Push? then k < s.popTicket + s.cap else k < s.pushTicket
  }

  ghost predicate DoCompare(s: State, s': State, t: Tid) {
    && t in s.threads && s.threads[t].Compare?
    && var pc := s.threads[t];
       s' == Goto(s, t, if Promise(s, pc.side, pc.k) then Claim(pc.side, Promised, pc.v, pc.k) else Refused(pc.side))
  }

  ghost predicate DoClaim(s: State, s': State, t: Tid) {
    && t in s.threads && s.threads[t].Claim?
    && var pc := s.threads[t];
       s' == if Disp(s, pc.side) == pc.k then Grant(s, t, pc.side, pc.kind, pc.v, pc.k)
             else if pc.kind.Ready? then Goto(s, t, Check(pc.side, pc.v, Disp(s, pc.side)))
             else Goto(s, t, Compare(pc.side, pc.v, Disp(s, pc.side)))
  }

  ghost predicate Leave(s: State, s': State, t: Tid) {
    t in s.threads && (s.threads[t].Done? || s.threads[t].Refused?) && s' == s.(threads := s.threads - {t})
  }

  ghost predicate LocalStep(s: State, s': State, t: Tid) {
    || (exists side, kind, v :: Start(s, s', t, side, kind, v)) || DoLoad(s, s', t) || DoCheck(s, s', t)
    || DoRecheck(s, s', t) || DoCompare(s, s', t) || DoClaim(s, s', t) || Leave(s, s', t)
  }

  ghost predicate Held(pc: Pc) { pc.Enter? || pc.Wait? || pc.Touched? || pc.Finish? }

  /** A step of `t` inside the sequencer of its slot, leading to `pc`. */
  ghost predicate SeqMove(s: State, s': State, t: Tid, pc: Pc) {
    && Shape(s) && t in s.threads && Held(s.threads[t]) && |s'.slots| == |s.slots|
    && var i := SlotOf(s, s.threads[t].k);
       s' == Goto(s, t, pc).(slots := s.slots[i := s.slots[i].(seq_ := s'.slots[i].seq_)])
  }

  ghost predicate DoEnter(s: State, s': State, t: Tid) {
    && Shape(s) && t in s.threads && s.threads[t].Enter? && |s'.slots| == |s.slots|
    && var pc := s.threads[t];
       && SeqMove(s, s', t, Wait(pc.side, pc.kind, pc.v, pc.k))
       && S.Begin(SeqOf(s, pc.k), s'.slots[SlotOf(s, pc.k)].seq_, t, TurnOf(s, pc.side, pc.k))
  }

  ghost predicate DoWait(s: State, s': State, t: Tid) {
    && Shape(s) && t in s.threads && s.threads[t].Wait? && |s'.slots| == |s.slots|
    && var pc := s.threads[t];
       SeqMove(s, s', t, pc) && S.WaitStep(SeqOf(s, pc.k), s'.slots[SlotOf(s, pc.k)].seq_, t)
  }

  ghost predicate HasArrived(s: State, t: Tid, k: nat)
    requires Shape(s)
  {
    t in SeqOf(s, k).threads && SeqOf(s, k).threads[t].Arrived?
  }

  /** Between `waitForTurn` and `completeTurn`: build the element, or take it out and destroy it. */
  ghost predicate DoTouch(s: State, s': State, t: Tid) {
    && Shape(s) && t in s.threads && s.threads[t].Wait? && HasArrived(s, t, s.threads[t].k)
    && var pc := s.threads[t];
       var i := SlotOf(s, pc.k);
       if pc.side.Push? then
         s' == Goto(s, t, Touched(Push, pc.kind, pc.v, pc.k))
               .(slots := s.slots[i := s.slots[i].(contents := Some(pc.v))], pushed := s.pushed[pc.k := pc.v])
       else
         var got := if s.slots[i].contents.Some? then s.slots[i].contents.value else 0;
         s' == Goto(s, t, Touched(Pop, pc.kind, got, pc.k))
               .(slots := s.slots[i := s.slots[i].(contents := None)], popped := s.popped[pc.k := got])
  }

  ghost predicate DoComplete(s: State, s': State, t: Tid) {
    && Shape(s) && t in s.threads && s.threads[t].Touched? && |s'.slots| == |s.slots|
    && var pc := s.threads[t];
       && SeqMove(s, s', t, Finish(pc.side, pc.kind, pc.v, pc.k))
       && S.BeginComplete(SeqOf(s, pc.k), s'.slots[SlotOf(s, pc.k)].seq_, t)
  }

  ghost predicate DoFinish(s: State, s': State, t: Tid) {
    && Shape(s) && t in s.threads && s.threads[t].Finish? && |s'.slots| == |s.slots|
    && var pc := s.threads[t];
       && SeqMove(s, s', t, pc)
       && (S.Advance(SeqOf(s, pc.k), s'.slots[SlotOf(s, pc.k)].seq_, t) || S.Wake(SeqOf(s, pc.k), s'.slots[SlotOf(s, pc.k)].seq_, t))
  }

  ghost predicate DoReturn(s: State, s': State, t: Tid) {
    && Shape(s) && t in s.threads && s.threads[t].Finish? && |s'.slots| == |s.slots|
    && var pc := s.threads[t];
       && SeqMove(s, s', t, Done(pc.side, pc.v, pc.k))
       && t in SeqOf(s, pc.k).threads && SeqOf(s, pc.k).threads[t].Done?
       && S.End(SeqOf(s, pc.k), s'.slots[SlotOf(s, pc.k)].seq_, t)
  }

  ghost predicate Step(s: State, s': State, t: Tid) {
    || LocalStep(s, s', t) || DoEnter(s, s', t) || DoWait(s, s', t) || DoTouch(s, s', t)
    || DoComplete(s, s', t) || DoFinish(s, s', t) || DoReturn(s, s', t)
  }

  /** The no-wrap hypothesis, as in the assert of `waitForTurn`: the next ticket's turn is less than 2^25 ahead of its slot. */
  ghost predicate Near(s: State)
    requires Shape(s)
  {
    forall side :: TurnOf(s, side, Disp(s, side)) < SeqOf(s, Disp(s, side)).cur + S.HORIZON
  }

  ghost predicate Next(s: State, s': State) {
    Shape(s) && Near(s) && exists t :: Step(s, s', t)
  }

  // ---------------------------------------------------------------- the invariant

  ghost predicate Untouched(s: State, side: Side, k: nat) {
    if side.Push? then k !in s.pushed else k !in s.popped
  }

  ghost predicate Stored(s: State, side: Side, v: int, k: nat) {
    if side.Push? then k in s.pushed && s.pushed[k] == v else k in s.popped && s.popped[k] == v
  }

  ghost predicate Granted(s: State, side: Side, kind: Kind, k: nat)
    requires Shape(s)
  {
    && k < Disp(s, side) && SeqOf(s, k).cur <= TurnOf(s, side, k) && Untouched(s, side, k)
    && (kind.Ready? ==> SeqOf(s, k).cur == TurnOf(s, side, k)) && (kind.Promised? ==> Promise(s, side, k))
  }

  ghost predicate PcOK(s: State, t: Tid, pc: Pc)
    requires Shape(s)
  {
    match pc
    case Load(side, kind, v) => !kind.Blocking?
    case Check(side, v, k) => k <= Disp(s, side)
    case Recheck(side, v, k) => k <= Disp(s, side)
    case Compare(side, v, k) => k <= Disp(s, side)
    case Claim(side, kind, v, k) =>
      && !kind.Blocking? && k <= Disp(s, side) && (kind.Promised? ==> Promise(s, side, k))
      && (kind.Ready? && k == Disp(s, side) ==> SeqOf(s, k).cur == TurnOf(s, side, k))
    case Enter(side, kind, v, k) =>
      Granted(s, side, kind, k) && t !in SeqOf(s, k).threads && TurnOf(s, side, k) < SeqOf(s, k).cur + S.HORIZON
    case Wait(side, kind, v, k) =>
      && Granted(s, side, kind, k) && t in SeqOf(s, k).threads
      && var p := SeqOf(s, k).threads[t];
         p.turn == TurnOf(s, side, k) && (p.Arrived? || S.Waiting(p)) && (kind.Ready? ==> p.Arrived? || p.Spin?)
    case Touched(side, kind, v, k) =>
      && k < Disp(s, side) && Stored(s, side, v, k) && t in SeqOf(s, k).threads
      && SeqOf(s, k).threads[t] == S.Arrived(TurnOf(s, side, k)) && SeqOf(s, k).cur == TurnOf(s, side, k)
    case Finish(side, kind, v, k) =>
      && k < Disp(s, side) && Stored(s, side, v, k) && t in SeqOf(s, k).threads
      && var p := SeqOf(s, k).threads[t];
         if p.Completing? then p.turn == TurnOf(s, side, k) else (p.Waking? || p.Done?) && SeqOf(s, k).cur > TurnOf(s, side, k)
    case Done(side, v, k) => k < Disp(s, side) && Stored(s, side, v, k)
    case Refused(side) => true
  }

  ghost predicate ThreadsOK(s: State)
    requires Shape(s)
  {
    forall t :: t in s.threads ==> PcOK(s, t, s.threads[t])
  }

  ghost predicate OneHolder(s: State) {
    forall t, u :: t in s.threads && u in s.threads && t != u && Held(s.threads[t]) && Held(s.threads[u]) ==>
      s.threads[t].side != s.threads[u].side || s.threads[t].k != s.threads[u].k
  }

  /** A thread known to a sequencer is inside it on behalf of the ticket it holds. */
  ghost predicate Accounted(s: State)
    requires Shape(s)
  {
    forall i, t :: 0 <= i < |s.slots| && t in s.slots[i].seq_.threads ==>
      t in s.threads && Held(s.threads[t]) && !s.threads[t].Enter? && SlotOf(s, s.threads[t].k) == i
  }

  /** Tickets still in the dispensers belong to turns still to come. */
  ghost predicate DispensersOK(s: State)
    requires Shape(s)
  {
    forall side, k :: k >= Disp(s, side) ==> SeqOf(s, k).cur <= TurnOf(s, side, k) && Untouched(s, side, k)
  }

  /** What slot and histories say about one ticket. */
  ghost predicate TicketOK(s: State, k: nat)
    requires Shape(s)
  {
    var cur := SeqOf(s, k).cur;
    var contents := s.slots[SlotOf(s, k)].contents;
    && (cur < TurnOf(s, Push, k) ==> k !in s.pushed)
    && (cur < TurnOf(s, Pop, k) ==> k !in s.popped)
    && (cur == TurnOf(s, Push, k) ==> (k in s.pushed <==> contents.Some?))
    && (cur == TurnOf(s, Pop, k) ==> k in s.pushed && (k !in s.popped <==> contents.Some?))
    && ((cur == TurnOf(s, Push, k) || cur == TurnOf(s, Pop, k)) && contents.Some? ==> k in s.pushed && s.pushed[k] == contents.value)
    && (k in s.popped ==> k in s.pushed && s.popped[k] == s.pushed[k])
  }

  ghost predicate TicketsOK(s: State)
    requires Shape(s)
  {
    forall k :: TicketOK(s, k)
  }

  ghost predicate SlotsOK(s: State) {
    forall i :: 0 <= i < |s.slots| ==> S.Inv(s.slots[i].seq_)
  }

  ghost predicate Inv(s: State) {
    Shape(s) && SlotsOK(s) && ThreadsOK(s) && OneHolder(s) && Accounted(s) && DispensersOK(s) && TicketsOK(s)
  }

  // ---------------------------------------------------------------- tickets and turns

  lemma TicketOfTurn(s: State, side: Side, k: nat, side': Side, k': nat)
    requires Shape(s) && SlotOf(s, k) == SlotOf(s, k') && TurnOf(s, side, k) == TurnOf(s, side', k')
    ensures side == side' && k == k'
  {
    SlotAndTurnNameTheTicket(k, k', s.stride, s.cap);
  }

  lemma InitInv(s: State)
    requires Init(s)
    ensures Inv(s)
  {
    forall i | 0 <= i < s.cap ensures S.Inv(s.slots[i].seq_) { S.EncodeStands(s.slots[i].seq_.cur, 0); }
  }
}
