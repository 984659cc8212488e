/** The invariant of MPMCQueue is kept by every step. */
module MPMCQueueProof {
  import opened Options
  import S = TurnSequencer
  import opened TicketStride
  import opened MPMCQueue

  ghost predicate SameThreads(s: State, s': State, t: Tid) {
    forall u :: u != t ==> (u in s.threads <==> u in s'.threads) && (u in s.threads ==> s'.threads[u] == s.threads[u])
  }

  ghost predicate SameLayout(s: State, s': State) {
    s'.cap == s.cap && s'.stride == s.stride && |s'.slots| == |s.slots|
  }

  /** The moving thread's own assertion. */
  ghost predicate SelfOK(s: State, t: Tid)
    requires Shape(s)
  {
    forall u :: u == t && u in s.threads ==> PcOK(s, u, s.threads[u])
  }

  // ---------------------------------------------------------------- dispensers

  ghost predicate OnlyTickets(s: State, s': State, t: Tid) {
    && SameThreads(s, s', t) && SameLayout(s, s') && s'.slots == s.slots && s'.pushed == s.pushed && s'.popped == s.popped
    && s.pushTicket <= s'.pushTicket && s.popTicket <= s'.popTicket
  }

  lemma OtherTicketKept(s: State, s': State, t: Tid, u: Tid)
    requires Shape(s) && ThreadsOK(s) && OnlyTickets(s, s', t) && u in s.threads && u != t
    ensures PcOK(s', u, s'.threads[u])
  {
    assert PcOK(s, u, s.threads[u]);
  }

  /** A local step leaves `t` with at most a ticket just taken from a dispenser. */
  ghost predicate FreshTicket(s: State, s': State, t: Tid) {
    t in s'.threads && Held(s'.threads[t]) ==>
      s'.threads[t].Enter? && s'.threads[t].k == Disp(s, s'.threads[t].side) && Disp(s', s'.threads[t].side) == s'.threads[t].k + 1
  }

  lemma StartMoves(s: State, s': State, t: Tid, side: Side, kind: Kind, v: int)
    requires Start(s, s', t, side, kind, v)
    ensures OnlyTickets(s, s', t) && t !in s.threads && FreshTicket(s, s', t)
  {
  }

  lemma ClaimMoves(s: State, s': State, t: Tid)
    requires DoClaim(s, s', t)
    ensures OnlyTickets(s, s', t) && t in s.threads && !Held(s.threads[t]) && FreshTicket(s, s', t)
  {
  }

  lemma PlainMoves(s: State, s': State, t: Tid)
    requires DoLoad(s, s', t) || DoCheck(s, s', t) || DoRecheck(s, s', t) || DoCompare(s, s', t) || Leave(s, s', t)
    ensures OnlyTickets(s, s', t) && t in s.threads && !Held(s.threads[t]) && FreshTicket(s, s', t)
  {
  }

  lemma LocalMoves(s: State, s': State, t: Tid)
    requires LocalStep(s, s', t)
    ensures OnlyTickets(s, s', t) && (t in s.threads ==> !Held(s.threads[t])) && FreshTicket(s, s', t)
  {
    if exists side, kind, v :: Start(s, s', t, side, kind, v) {
      var side, kind, v :| Start(s, s', t, side, kind, v);
      StartMoves(s, s', t, side, kind, v);
    } else if DoClaim(s, s', t) {
      ClaimMoves(s, s', t);
    } else {
      PlainMoves(s, s', t);
    }
  }

  lemma CheckIsExact(s: State, side: Side, k: nat)
    requires Shape(s) && Near(s) && SlotsOK(s) && DispensersOK(s) && k == Disp(s, side) && S.IsTurn(SeqOf(s, k), TurnOf(s, side, k))
    ensures SeqOf(s, k).cur == TurnOf(s, side, k)
  {
    S.IsTurnIsExact(SeqOf(s, k), TurnOf(s, side, k));
  }

  lemma NotInside(s: State, t: Tid, k: nat)
    requires Shape(s) && Accounted(s) && (t in s.threads ==> !Held(s.threads[t]))
    ensures t !in SeqOf(s, k).threads
  {
  }

  lemma PlainSelf(s: State, s': State, t: Tid)
    requires Shape(s) && Near(s) && SlotsOK(s) && ThreadsOK(s) && DispensersOK(s)
    requires DoLoad(s, s', t) || DoCheck(s, s', t) || DoRecheck(s, s', t) || DoCompare(s, s', t) || Leave(s, s', t)
    ensures Shape(s') && SelfOK(s', t)
  {
    assert PcOK(s, t, s.threads[t]);
    if DoCheck(s, s', t) && s'.threads[t].Claim? && s.threads[t].k == Disp(s, s.threads[t].side) {
      CheckIsExact(s, s.threads[t].side, s.threads[t].k);
    }
  }

  lemma GrantSelf(s: State, s': State, t: Tid, side: Side, kind: Kind, v: int)
    requires Shape(s) && Near(s) && DispensersOK(s) && Accounted(s) && (t in s.threads ==> !Held(s.threads[t]))
    requires s' == Grant(s, t, side, kind, v, Disp(s, side))
    requires kind.Ready? ==> SeqOf(s, Disp(s, side)).cur == TurnOf(s, side, Disp(s, side))
    requires kind.Promised? ==> Promise(s, side, Disp(s, side))
    ensures Shape(s') && SelfOK(s', t)
  {
    var k := Disp(s, side);
    NotInside(s, t, k);
    assert SeqOf(s', k) == SeqOf(s, k) && TurnOf(s', side, k) == TurnOf(s, side, k);
  }

  lemma LocalSelf(s: State, s': State, t: Tid)
    requires Shape(s) && Near(s) && SlotsOK(s) && ThreadsOK(s) && DispensersOK(s) && Accounted(s) && LocalStep(s, s', t)
    ensures Shape(s') && SelfOK(s', t)
  {
    if exists side, kind, v :: Start(s, s', t, side, kind, v) {
      var side, kind, v :| Start(s, s', t, side, kind, v);
      if kind.Blocking? { GrantSelf(s, s', t, side, kind, v); }
    } else if DoClaim(s, s', t) {
      var pc := s.threads[t];
      assert PcOK(s, t, pc);
      if Disp(s, pc.side) == pc.k { GrantSelf(s, s', t, pc.side, pc.kind, pc.v); }
    } else {
      PlainSelf(s, s', t);
    }
  }

  lemma TicketsSame(s: State, s': State, t: Tid)
    requires Shape(s) && OnlyTickets(s, s', t) && TicketsOK(s)
    ensures TicketsOK(s')
  {
    forall k ensures TicketOK(s', k) { assert TicketOK(s, k); }
  }

  lemma DispensersShrink(s: State, s': State, t: Tid)
    requires Shape(s) && OnlyTickets(s, s', t) && DispensersOK(s)
    ensures DispensersOK(s')
  {
    forall side, k | k >= Disp(s', side) ensures SeqOf(s', k).cur <= TurnOf(s', side, k) && Untouched(s', side, k) {
      assert k >= Disp(s, side);
      assert SeqOf(s, k).cur <= TurnOf(s, side, k);
    }
  }

  lemma LocalHolders(s: State, s': State, t: Tid)
    requires Shape(s) && ThreadsOK(s) && OneHolder(s) && LocalStep(s, s', t)
    ensures OneHolder(s')
  {
    LocalMoves(s, s', t);
    forall u | u in s.threads && Held(s.threads[u]) ensures s.threads[u].k < Disp(s, s.threads[u].side) {
      assert PcOK(s, u, s.threads[u]);
    }
  }

  lemma LocalInv(s: State, s': State, t: Tid)
    requires Inv(s) && Near(s) && LocalStep(s, s', t)
    ensures Inv(s')
  {
    LocalMoves(s, s', t);
    LocalSelf(s, s', t);
    LocalHolders(s, s', t);
    TicketsSame(s, s', t);
    DispensersShrink(s, s', t);
    assert ThreadsOK(s') by {
      forall u | u in s'.threads ensures PcOK(s', u, s'.threads[u]) {
        if u != t { OtherTicketKept(s, s', t, u); }
      }
    }
  }

  // ---------------------------------------------------------------- inside a sequencer

  /** What other threads notice of a sequencer step of `t` that does not end a turn. */
  ghost predicate Quiet(q: S.State, q': S.State, t: Tid) {
    && q'.cur == q.cur && S.Inv(q')
    && (forall u :: u != t ==> (u in q.threads <==> u in q'.threads))
    && (forall u :: u != t && u in q.threads ==>
          q'.threads[u] == q.threads[u] || (q.threads[u].Asleep? && q'.threads[u] == S.Spin(q.threads[u].turn)))
  }

  ghost predicate InSeq(s: State, s': State, t: Tid) {
    && Shape(s) && t in s.threads && Held(s.threads[t]) && t in s'.threads && SameThreads(s, s', t) && SameLayout(s, s')
    && s'.pushTicket == s.pushTicket && s'.popTicket == s.popTicket && s'.pushed == s.pushed && s'.popped == s.popped
    && var i := SlotOf(s, s.threads[t].k);
       s'.slots == s.slots[i := s.slots[i].(seq_ := s'.slots[i].seq_)]
  }

  lemma SeqMoveShape(s: State, s': State, t: Tid, pc: Pc)
    requires SeqMove(s, s', t, pc)
    ensures InSeq(s, s', t) && s'.threads[t] == pc
  {
    var i := SlotOf(s, s.threads[t].k);
    assert s'.slots[i] == s.slots[i].(seq_ := s'.slots[i].seq_);
  }

  lemma QuietOther(s: State, s': State, t: Tid, u: Tid)
    requires Shape(s) && ThreadsOK(s) && InSeq(s, s', t) && Quiet(SeqOf(s, s.threads[t].k), s'.slots[SlotOf(s, s.threads[t].k)].seq_, t)
    requires u in s.threads && u != t
    ensures PcOK(s', u, s'.threads[u])
  {
    var pc := s.threads[u];
    assert PcOK(s, u, pc);
    if !pc.Load? && !pc.Refused? {
      assert SlotOf(s', pc.k) == SlotOf(s, pc.k) && TurnOf(s', pc.side, pc.k) == TurnOf(s, pc.side, pc.k);
      assert SeqOf(s', pc.k).cur == SeqOf(s, pc.k).cur;
    }
  }

  lemma QuietTickets(s: State, s': State, t: Tid)
    requires Shape(s) && TicketsOK(s) && DispensersOK(s) && InSeq(s, s', t)
    requires Quiet(SeqOf(s, s.threads[t].k), s'.slots[SlotOf(s, s.threads[t].k)].seq_, t)
    ensures TicketsOK(s') && DispensersOK(s')
  {
    forall k ensures SeqOf(s', k).cur == SeqOf(s, k).cur && s'.slots[SlotOf(s', k)].contents == s.slots[SlotOf(s, k)].contents {
      assert SlotOf(s', k) == SlotOf(s, k);
    }
    forall k ensures TicketOK(s', k) {
      assert TicketOK(s, k);
      assert TurnOf(s', Push, k) == TurnOf(s, Push, k) && TurnOf(s', Pop, k) == TurnOf(s, Pop, k);
    }
    forall side, k | k >= Disp(s', side) ensures SeqOf(s', k).cur <= TurnOf(s', side, k) && Untouched(s', side, k) {
      assert k >= Disp(s, side);
      assert TurnOf(s', side, k) == TurnOf(s, side, k);
    }
  }

  ghost predicate StillHeld(s: State, s': State, t: Tid)
    requires Shape(s) && Shape(s') && s'.cap == s.cap && t in s.threads && t in s'.threads && Held(s.threads[t])
  {
    var pc, pc' := s.threads[t], s'.threads[t];
    && (Held(pc') ==> pc'.side == pc.side && pc'.k == pc.k)
    && (t in s'.slots[SlotOf(s, pc.k)].seq_.threads ==> Held(pc') && !pc'.Enter? && pc'.k == pc.k)
  }

  lemma SeqAccounts(s: State, s': State, t: Tid)
    requires Shape(s) && OneHolder(s) && Accounted(s) && InSeq(s, s', t) && Shape(s') && StillHeld(s, s', t)
    requires forall u :: u != t ==> (u in SeqOf(s, s.threads[t].k).threads <==> u in s'.slots[SlotOf(s, s.threads[t].k)].seq_.threads)
    ensures OneHolder(s') && Accounted(s')
  {
    var i := SlotOf(s, s.threads[t].k);
    forall j, u | 0 <= j < |s'.slots| && u in s'.slots[j].seq_.threads
      ensures u in s'.threads && Held(s'.threads[u]) && !s'.threads[u].Enter? && SlotOf(s', s'.threads[u].k) == j
    {
      assert j != i ==> s'.slots[j] == s.slots[j];
      assert u != t ==> u in s.slots[j].seq_.threads;
    }
  }

  lemma QuietInv(s: State, s': State, t: Tid)
    requires Inv(s) && InSeq(s, s', t) && Quiet(SeqOf(s, s.threads[t].k), s'.slots[SlotOf(s, s.threads[t].k)].seq_, t)
    requires Shape(s') && StillHeld(s, s', t) && SelfOK(s', t)
    ensures Inv(s')
  {
    QuietTickets(s, s', t);
    SeqAccounts(s, s', t);
    assert SlotsOK(s');
    assert ThreadsOK(s') by {
      forall u | u in s'.threads ensures PcOK(s', u, s'.threads[u]) {
        if u != t { QuietOther(s, s', t, u); }
      }
    }
  }

  /** Nobody else is in the sequencer of `k` for the same turn. */
  lemma AloneInTurn(s: State, t: Tid, u: Tid)
    requires Shape(s) && ThreadsOK(s) && OneHolder(s) && Accounted(s) && t in s.threads && Held(s.threads[t]) && u != t
    requires u in SeqOf(s, s.threads[t].k).threads && SeqOf(s, s.threads[t].k).threads[u].turn == TurnOf(s, s.threads[t].side, s.threads[t].k)
    ensures var p := SeqOf(s, s.threads[t].k).threads[u]; p.Waking? || p.Done?
  {
    assert Held(s.threads[u]) && SlotOf(s, s.threads[u].k) == SlotOf(s, s.threads[t].k);
    assert PcOK(s, u, s.threads[u]);
    var p := SeqOf(s, s.threads[t].k).threads[u];
    if !p.Waking? && !p.Done? {
      TicketOfTurn(s, s.threads[t].side, s.threads[t].k, s.threads[u].side, s.threads[u].k);
    }
  }

  lemma EnterInv(s: State, s': State, t: Tid)
    requires Inv(s) && DoEnter(s, s', t)
    ensures Inv(s')
  {
    var pc := s.threads[t];
    var q, q' := SeqOf(s, pc.k), s'.slots[SlotOf(s, pc.k)].seq_;
    var turn := TurnOf(s, pc.side, pc.k);
    assert PcOK(s, t, pc) && S.Inv(q);
    SeqMoveShape(s, s', t, Wait(pc.side, pc.kind, pc.v, pc.k));
    assert S.MayWait(q, turn) by {
      forall u | u in q.threads && q.threads[u].Completing? ensures q.threads[u].turn != turn {
        if q.threads[u].turn == turn { AloneInTurn(s, t, u); }
      }
    }
    S.PlainInv(q, q', t);
    assert Quiet(q, q', t);
    assert SeqOf(s', pc.k) == q' && TurnOf(s', pc.side, pc.k) == turn;
    QuietInv(s, s', t);
  }

  lemma WaitIsQuiet(q: S.State, q': S.State, t: Tid)
    requires S.Inv(q) && S.WaitStep(q, q', t)
    ensures Quiet(q, q', t) && t in q'.threads && q'.threads[t].turn == q.threads[t].turn && (S.Waiting(q'.threads[t]) || q'.threads[t].Arrived?)
    ensures q.threads[t].Spin? && q.threads[t].turn == q.cur ==> q'.threads[t].Arrived?
  {
    S.StepInv(q, q', t);
    assert S.PcOK(q, q.threads[t]);
    if q.threads[t].Spin? { S.IsTurnIsExact(q, q.threads[t].turn); }
  }

  lemma WaitInv(s: State, s': State, t: Tid)
    requires Inv(s) && DoWait(s, s', t)
    ensures Inv(s')
  {
    var pc := s.threads[t];
    var q, q' := SeqOf(s, pc.k), s'.slots[SlotOf(s, pc.k)].seq_;
    assert PcOK(s, t, pc) && S.Inv(q);
    SeqMoveShape(s, s', t, pc);
    WaitIsQuiet(q, q', t);
    assert SeqOf(s', pc.k) == q' && TurnOf(s', pc.side, pc.k) == TurnOf(s, pc.side, pc.k);
    QuietInv(s, s', t);
  }

  lemma CompleteInv(s: State, s': State, t: Tid)
    requires Inv(s) && DoComplete(s, s', t)
    ensures Inv(s')
  {
    var pc := s.threads[t];
    var q, q' := SeqOf(s, pc.k), s'.slots[SlotOf(s, pc.k)].seq_;
    assert PcOK(s, t, pc) && S.Inv(q);
    SeqMoveShape(s, s', t, Finish(pc.side, pc.kind, pc.v, pc.k));
    assert S.MayComplete(q, t) by {
      forall u | u in q.threads && u != t && (S.Waiting(q.threads[u]) || q.threads[u].Completing?) ensures q.threads[u].turn != q.cur {
        if q.threads[u].turn == q.cur { AloneInTurn(s, t, u); }
      }
    }
    S.PlainInv(q, q', t);
    assert Quiet(q, q', t);
    assert SeqOf(s', pc.k) == q' && TurnOf(s', pc.side, pc.k) == TurnOf(s, pc.side, pc.k);
    QuietInv(s, s', t);
  }

  lemma ReturnInv(s: State, s': State, t: Tid)
    requires Inv(s) && DoReturn(s, s', t)
    ensures Inv(s')
  {
    var pc := s.threads[t];
    var q, q' := SeqOf(s, pc.k), s'.slots[SlotOf(s, pc.k)].seq_;
    assert PcOK(s, t, pc) && S.Inv(q);
    SeqMoveShape(s, s', t, Done(pc.side, pc.v, pc.k));
    S.PlainInv(q, q', t);
    assert Quiet(q, q', t);
    QuietInv(s, s', t);
  }

  // ---------------------------------------------------------------- the end of a turn

  ghost predicate Ends(s: State, s': State, t: Tid) {
    && InSeq(s, s', t) && s.threads[t].Finish? && s'.threads[t] == s.threads[t]
    && var q, q' := SeqOf(s, s.threads[t].k), s'.slots[SlotOf(s, s.threads[t].k)].seq_;
       && t in q.threads && q.threads[t].Completing? && q'.cur == q.cur + 1 && S.Inv(q') && q'.threads.Keys == q.threads.Keys
       && (q'.threads[t].Waking? || q'.threads[t].Done?)
       && forall u :: u != t && u in q.threads ==> q'.threads[u] == q.threads[u]
  }

  /** Tickets of other operations on this slot are past, or later than the turn that ends. */
  lemma OtherTurn(s: State, t: Tid, side: Side, k: nat)
    requires Shape(s) && t in s.threads && Held(s.threads[t]) && SlotOf(s, k) == SlotOf(s, s.threads[t].k)
    requires side != s.threads[t].side || k != s.threads[t].k
    ensures TurnOf(s, side, k) != TurnOf(s, s.threads[t].side, s.threads[t].k)
  {
    if TurnOf(s, side, k) == TurnOf(s, s.threads[t].side, s.threads[t].k) { TicketOfTurn(s, side, k, s.threads[t].side, s.threads[t].k); }
  }

  lemma EndsOther(s: State, s': State, t: Tid, u: Tid)
    requires Shape(s) && SlotsOK(s) && ThreadsOK(s) && OneHolder(s) && Ends(s, s', t) && u in s.threads && u != t
    ensures PcOK(s', u, s'.threads[u])
  {
    var pc := s.threads[u];
    if !pc.Load? && !pc.Refused? {
      if SlotOf(s, pc.k) != SlotOf(s, s.threads[t].k) { EndsElsewhere(s, s', t, u); } else { EndsHere(s, s', t, u); }
    }
  }

  lemma EndsElsewhere(s: State, s': State, t: Tid, u: Tid)
    requires Shape(s) && ThreadsOK(s) && Ends(s, s', t) && u in s.threads && u != t && !s.threads[u].Load? && !s.threads[u].Refused?
    requires SlotOf(s, s.threads[u].k) != SlotOf(s, s.threads[t].k)
    ensures PcOK(s', u, s'.threads[u])
  {
    var pc := s.threads[u];
    assert PcOK(s, u, pc);
    assert SlotOf(s', pc.k) == SlotOf(s, pc.k) && TurnOf(s', pc.side, pc.k) == TurnOf(s, pc.side, pc.k);
    assert s'.slots[SlotOf(s, pc.k)] == s.slots[SlotOf(s, pc.k)];
  }

  lemma EndsHere(s: State, s': State, t: Tid, u: Tid)
    requires Shape(s) && SlotsOK(s) && ThreadsOK(s) && OneHolder(s) && Ends(s, s', t) && u in s.threads && u != t
    requires !s.threads[u].Load? && !s.threads[u].Refused? && SlotOf(s, s.threads[u].k) == SlotOf(s, s.threads[t].k)
    ensures PcOK(s', u, s'.threads[u])
  {
    var pc := s.threads[u];
    assert PcOK(s, u, pc) && PcOK(s, t, s.threads[t]);
    assert S.PcOK(SeqOf(s, s.threads[t].k), SeqOf(s, s.threads[t].k).threads[t]);
    assert SlotOf(s', pc.k) == SlotOf(s, pc.k) && TurnOf(s', pc.side, pc.k) == TurnOf(s, pc.side, pc.k);
    if Held(pc) || pc.k == Disp(s, pc.side) { OtherTurn(s, t, pc.side, pc.k); }
  }

  lemma EndsDispensers(s: State, s': State, t: Tid)
    requires Shape(s) && SlotsOK(s) && ThreadsOK(s) && DispensersOK(s) && Ends(s, s', t)
    ensures DispensersOK(s')
  {
    assert PcOK(s, t, s.threads[t]);
    assert S.PcOK(SeqOf(s, s.threads[t].k), SeqOf(s, s.threads[t].k).threads[t]);
    forall side, k | k >= Disp(s', side) ensures SeqOf(s', k).cur <= TurnOf(s', side, k) && Untouched(s', side, k) {
      assert k >= Disp(s, side) && SeqOf(s, k).cur <= TurnOf(s, side, k);
      assert TurnOf(s', side, k) == TurnOf(s, side, k) && SlotOf(s', k) == SlotOf(s, k);
      if SlotOf(s, k) == SlotOf(s, s.threads[t].k) { OtherTurn(s, t, side, k); }
    }
  }

  lemma EndsFacts(s: State, s': State, t: Tid, k: nat)
    requires Shape(s) && SlotsOK(s) && ThreadsOK(s) && Ends(s, s', t)
    ensures Shape(s') && SlotOf(s', k) == SlotOf(s, k)
    ensures TurnOf(s', Push, k) == TurnOf(s, Push, k) && TurnOf(s', Pop, k) == TurnOf(s, Pop, k)
    ensures s'.slots[SlotOf(s, k)].contents == s.slots[SlotOf(s, k)].contents
    ensures SeqOf(s, s.threads[t].k).cur == TurnOf(s, s.threads[t].side, s.threads[t].k)
    ensures SeqOf(s', k).cur == SeqOf(s, k).cur + if SlotOf(s, k) == SlotOf(s, s.threads[t].k) then 1 else 0
  {
    var pc := s.threads[t];
    assert PcOK(s, t, pc);
    assert S.PcOK(SeqOf(s, pc.k), SeqOf(s, pc.k).threads[t]);
  }

  lemma EndsOwnTicket(s: State, s': State, t: Tid)
    requires Shape(s) && SlotsOK(s) && ThreadsOK(s) && TicketsOK(s) && Ends(s, s', t)
    ensures Shape(s') && TicketOK(s', s.threads[t].k)
  {
    var pc := s.threads[t];
    EndsFacts(s, s', t, pc.k);
    assert PcOK(s, t, pc) && TicketOK(s, pc.k);
  }

  /** When a turn ends, its pop has emptied the slot or its push has filled it. */
  lemma EndsSlot(s: State, s': State, t: Tid)
    requires Shape(s) && SlotsOK(s) && ThreadsOK(s) && TicketsOK(s) && Ends(s, s', t)
    ensures s.threads[t].side.Pop? ==> s.slots[SlotOf(s, s.threads[t].k)].contents.None?
  {
    var pc := s.threads[t];
    EndsFacts(s, s', t, pc.k);
    assert PcOK(s, t, pc) && TicketOK(s, pc.k);
  }

  /** The turn that comes is not a pop of another ticket; if it is a push, nothing is in the slot. */
  lemma EndsTicket(s: State, s': State, t: Tid, k: nat)
    requires Shape(s) && SlotsOK(s) && ThreadsOK(s) && TicketsOK(s) && Ends(s, s', t) && k != s.threads[t].k
    ensures Shape(s') && TicketOK(s', k)
  {
    EndsFacts(s, s', t, k);
    if SlotOf(s, k) == SlotOf(s, s.threads[t].k) {
      EndsSlot(s, s', t);
      EndsTurn(s, s', t, k);
      TicketEnds(s, s', k, s.threads[t].side, Turn(s.threads[t].k, s.cap));
    } else {
      TicketSame(s, s', k);
    }
  }

  lemma EndsTurn(s: State, s': State, t: Tid, k: nat)
    requires Shape(s) && SlotsOK(s) && ThreadsOK(s) && Ends(s, s', t) && k != s.threads[t].k && SlotOf(s, k) == SlotOf(s, s.threads[t].k)
    ensures SeqOf(s, k).cur != TurnOf(s, Push, k) && SeqOf(s, k).cur != TurnOf(s, Pop, k)
    ensures SeqOf(s, k).cur == 2 * Turn(s.threads[t].k, s.cap) + if s.threads[t].side.Push? then 0 else 1
  {
    EndsFacts(s, s', t, k);
    OtherTurn(s, t, Push, k);
    OtherTurn(s, t, Pop, k);
  }

  /** Of ticket `k`, `s'` says what `s` says. */
  ghost predicate SameTicket(s: State, s': State, k: nat)
    requires Shape(s) && Shape(s')
  {
    && s'.pushed == s.pushed && s'.popped == s.popped
    && SlotOf(s', k) == SlotOf(s, k) && TurnOf(s', Push, k) == TurnOf(s, Push, k) && TurnOf(s', Pop, k) == TurnOf(s, Pop, k)
    && s'.slots[SlotOf(s, k)].contents == s.slots[SlotOf(s, k)].contents
  }

  lemma TicketSame(s: State, s': State, k: nat)
    requires Shape(s) && Shape(s') && TicketsOK(s) && SameTicket(s, s', k) && SeqOf(s', k).cur == SeqOf(s, k).cur
    ensures TicketOK(s', k)
  {
    assert TicketOK(s, k);
  }

  lemma TicketEnds(s: State, s': State, k: nat, side: Side, a: nat)
    requires Shape(s) && Shape(s') && TicketsOK(s) && SameTicket(s, s', k) && SeqOf(s', k).cur == SeqOf(s, k).cur + 1
    requires SeqOf(s, k).cur != TurnOf(s, Push, k) && SeqOf(s, k).cur != TurnOf(s, Pop, k)
    requires SeqOf(s, k).cur == 2 * a + if side.Push? then 0 else 1
    requires side.Pop? ==> s.slots[SlotOf(s, k)].contents.None?
    ensures TicketOK(s', k)
  {
    assert TicketOK(s, k);
  }

  lemma EndsInv(s: State, s': State, t: Tid)
    requires Inv(s) && Ends(s, s', t) && Shape(s')
    ensures Inv(s')
  {
    var pc := s.threads[t];
    assert PcOK(s, t, pc);
    assert S.PcOK(SeqOf(s, pc.k), SeqOf(s, pc.k).threads[t]);
    EndsDispensers(s, s', t);
    SeqAccounts(s, s', t);
    assert SlotsOK(s');
    forall k ensures TicketOK(s', k) { if k == pc.k { EndsOwnTicket(s, s', t); } else { EndsTicket(s, s', t, k); } }
    forall u | u in s'.threads ensures PcOK(s', u, s'.threads[u]) {
      if u != t { EndsOther(s, s', t, u); }
    }
  }

  lemma FinishInv(s: State, s': State, t: Tid)
    requires Inv(s) && DoFinish(s, s', t)
    ensures Inv(s')
  {
    var pc := s.threads[t];
    var q, q' := SeqOf(s, pc.k), s'.slots[SlotOf(s, pc.k)].seq_;
    assert PcOK(s, t, pc) && S.Inv(q) && S.PcOK(q, q.threads[t]);
    SeqMoveShape(s, s', t, pc);
    S.StepInv(q, q', t);
    if S.Advance(q, q', t) && q.word == q.threads[t].w {
      assert Ends(s, s', t);
      EndsInv(s, s', t);
    } else {
      assert Quiet(q, q', t);
      assert SeqOf(s', pc.k) == q' && TurnOf(s', pc.side, pc.k) == TurnOf(s, pc.side, pc.k);
      QuietInv(s, s', t);
    }
  }

  // ---------------------------------------------------------------- contents

  ghost predicate Touches(s: State, s': State, t: Tid) {
    && DoTouch(s, s', t) && SameThreads(s, s', t) && SameLayout(s, s')
    && s'.pushTicket == s.pushTicket && s'.popTicket == s.popTicket
    && forall i :: 0 <= i < |s.slots| ==>
         s'.slots[i].seq_ == s.slots[i].seq_ && (i != SlotOf(s, s.threads[t].k) ==> s'.slots[i] == s.slots[i])
  }

  lemma TouchFacts(s: State, t: Tid)
    requires Shape(s) && SlotsOK(s) && ThreadsOK(s) && TicketsOK(s) && t in s.threads && s.threads[t].Wait? && HasArrived(s, t, s.threads[t].k)
    ensures SeqOf(s, s.threads[t].k).cur == TurnOf(s, s.threads[t].side, s.threads[t].k)
    ensures s.threads[t].side.Pop? ==> s.slots[SlotOf(s, s.threads[t].k)].contents.Some?
  {
    var pc := s.threads[t];
    assert PcOK(s, t, pc) && TicketOK(s, pc.k);
    assert S.PcOK(SeqOf(s, pc.k), SeqOf(s, pc.k).threads[t]);
  }

  lemma TouchTicket(s: State, s': State, t: Tid, k: nat)
    requires Shape(s) && SlotsOK(s) && ThreadsOK(s) && TicketsOK(s) && Touches(s, s', t)
    ensures TicketOK(s', k)
  {
    var pc := s.threads[t];
    TouchFacts(s, t);
    assert TicketOK(s, k) && TicketOK(s, pc.k) && PcOK(s, t, pc);
    assert SlotOf(s', k) == SlotOf(s, k);
    assert TurnOf(s', Push, k) == TurnOf(s, Push, k) && TurnOf(s', Pop, k) == TurnOf(s, Pop, k);
    if k != pc.k && SlotOf(s, k) == SlotOf(s, pc.k) {
      OtherTurn(s, t, Push, k);
      OtherTurn(s, t, Pop, k);
    }
  }

  lemma TouchOther(s: State, s': State, t: Tid, u: Tid)
    requires Shape(s) && ThreadsOK(s) && OneHolder(s) && Touches(s, s', t) && u in s.threads && u != t
    ensures PcOK(s', u, s'.threads[u])
  {
    assert PcOK(s, u, s.threads[u]) && PcOK(s, t, s.threads[t]);
  }

  lemma TouchRest(s: State, s': State, t: Tid)
    requires Shape(s) && ThreadsOK(s) && OneHolder(s) && Accounted(s) && DispensersOK(s) && Touches(s, s', t)
    ensures OneHolder(s') && Accounted(s') && DispensersOK(s')
  {
    assert PcOK(s, t, s.threads[t]);
    forall side, k | k >= Disp(s', side) ensures SeqOf(s', k).cur <= TurnOf(s', side, k) && Untouched(s', side, k) {
      assert k >= Disp(s, side) && SeqOf(s, k).cur <= TurnOf(s, side, k);
    }
  }

  lemma TouchInv(s: State, s': State, t: Tid)
    requires Inv(s) && DoTouch(s, s', t)
    ensures Inv(s')
  {
    assert Touches(s, s', t);
    TouchFacts(s, t);
    TouchRest(s, s', t);
    assert SlotsOK(s');
    forall k ensures TicketOK(s', k) { TouchTicket(s, s', t, k); }
    assert PcOK(s, t, s.threads[t]);
    forall u | u in s'.threads ensures PcOK(s', u, s'.threads[u]) {
      if u != t { TouchOther(s, s', t, u); }
    }
  }

  lemma StepInv(s: State, s': State, t: Tid)
    requires Inv(s) && Near(s) && Step(s, s', t)
    ensures Inv(s')
  {
    if LocalStep(s, s', t) { LocalInv(s, s', t); }
    else if DoEnter(s, s', t) { EnterInv(s, s', t); }
    else if DoWait(s, s', t) { WaitInv(s, s', t); }
    else if DoTouch(s, s', t) { TouchInv(s, s', t); }
    else if DoComplete(s, s', t) { CompleteInv(s, s', t); }
    else if DoFinish(s, s', t) { FinishInv(s, s', t); }
    else { ReturnInv(s, s', t); }
  }

  lemma NextInv(s: State, s': State)
    requires Inv(s) && Next(s, s')
    ensures Inv(s')
  {
    var t :| Step(s, s', t);
    StepInv(s, s', t);
  }
}
