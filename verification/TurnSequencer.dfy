/**
 folly::detail::TurnSequencer: threads wait for and complete turns through one 32-bit futex
 word that packs 26 bits of the current turn with a saturating 6-bit waiter delta.

 Turns are unbounded numbers here; the word holds them modulo 2^26, as the code does. `cur`
 and the `c` remembered by a thread are auxiliary: the turn the word stands for.
 */
module TurnSequencer {
  import M = Modular

  type Tid = nat

  const WORDS: nat := 0x1_0000_0000
  const TURNS: nat := 0x400_0000
  const HORIZON: nat := 0x200_0000    // the code's assert: a waited turn is less than 2^25 ahead

  datatype Pc =
    | Spin(turn: nat)                        // waitForTurn: about to load the word
    | Loaded(turn: nat, w: nat, c: nat)      // done spinning: about to record itself as a waiter
    | ToSleep(turn: nat, w: nat, c: nat)     // about to call futexWait(w, channel)
    | Asleep(turn: nat)
    | Arrived(turn: nat)                     // waitForTurn returned
    | Completing(turn: nat, w: nat)          // completeTurn: about to compare-and-swap
    | Waking(turn: nat)                      // about to call futexWake on this turn's channel
    | Done(turn: nat)

  datatype State = State(word: nat, cur: nat, threads: map<Tid, Pc>)

  // ---------------------------------------------------------------- words

  /** `turn << kTurnShift` on 32 bits. */
  function Sturn(turn: nat): (r: nat) { ((turn % WORDS) * 64) % WORDS }

  function DecodeSturn(w: nat): (r: nat) { w - w % 64 }

  function DecodeDelta(w: nat): (r: nat) { w % 64 }

  function Encode(sturn: nat, delta: nat): (r: nat) { sturn + if delta < 63 then delta else 63 }

  /** `(sturn - currentSturn) >> kTurnShift` on 32 bits. */
  function Ahead(sturn: nat, currentSturn: nat): (r: nat) { ((sturn - currentSturn) % WORDS) / 64 }

  function Channel(turn: nat): (r: nat) { turn % 32 }

  // ---------------------------------------------------------------- steps

  ghost predicate Init(q: State) {
    q.word == Encode(Sturn(q.cur), 0) && q.threads == map[]
  }

  ghost function Goto(q: State, t: Tid, pc: Pc): State {
    q.(threads := q.threads[t := pc])
  }

  ghost predicate Begin(q: State, q': State, t: Tid, turn: nat) {
    t !in q.threads && q' == Goto(q, t, Spin(turn))
  }

  ghost predicate IsTurn(q: State, turn: nat) {
    DecodeSturn(q.word) == Sturn(turn)
  }

  ghost predicate Look(q: State, q': State, t: Tid) {
    && t in q.threads && q.threads[t].Spin?
    && var turn := q.threads[t].turn;
       if IsTurn(q, turn) then q' == Goto(q, t, Arrived(turn))
       else q' == q || q' == Goto(q, t, Loaded(turn, q.word, q.cur))
  }

  ghost predicate Record(q: State, q': State, t: Tid) {
    && t in q.threads && q.threads[t].Loaded?
    && var pc := q.threads[t];
       var ours := Ahead(Sturn(pc.turn), DecodeSturn(pc.w));
       var marked := Encode(DecodeSturn(pc.w), ours);
       if ours <= DecodeDelta(pc.w) || marked == pc.w then q' == Goto(q, t, ToSleep(pc.turn, pc.w, pc.c))
       else if q.word == pc.w then q' == Goto(q, t, ToSleep(pc.turn, marked, pc.c)).(word := marked)
       else q' == Goto(q, t, Spin(pc.turn))
  }

  ghost predicate Sleep(q: State, q': State, t: Tid) {
    && t in q.threads && q.threads[t].ToSleep?
    && var pc := q.threads[t];
       q' == Goto(q, t, if q.word == pc.w then Asleep(pc.turn) else Spin(pc.turn))
  }

  ghost predicate Spurious(q: State, q': State, t: Tid) {
    t in q.threads && q.threads[t].Asleep? && q' == Goto(q, t, Spin(q.threads[t].turn))
  }

  ghost predicate BeginComplete(q: State, q': State, t: Tid) {
    t in q.threads && q.threads[t].Arrived? && q' == Goto(q, t, Completing(q.threads[t].turn, q.word))
  }

  ghost predicate Advance(q: State, q': State, t: Tid) {
    && t in q.threads && q.threads[t].Completing?
    && var pc := q.threads[t];
       var d := DecodeDelta(pc.w);
       if q.word == pc.w then
         q' == Goto(q, t, if d != 0 then Waking(pc.turn + 1) else Done(pc.turn + 1))
               .(word := Encode(Sturn(pc.turn + 1), if d == 0 then 0 else d - 1), cur := q.cur + 1)
       else q' == Goto(q, t, Completing(pc.turn, q.word))
  }

  /** `futexWake`: everybody asleep on the channel goes back to the loop. */
  ghost predicate Wake(q: State, q': State, t: Tid) {
    && t in q.threads && q.threads[t].Waking? && q'.word == q.word && q'.cur == q.cur && q'.threads.Keys == q.threads.Keys
    && q'.threads[t] == Done(q.threads[t].turn)
    && forall u :: u in q.threads && u != t ==>
         q'.threads[u] == (if q.threads[u].Asleep? && Channel(q.threads[u].turn) == Channel(q.threads[t].turn)
                           then Spin(q.threads[u].turn) else q.threads[u])
  }

  /** A waiter that does not complete the turn itself, or a completed call, is over. */
  ghost predicate End(q: State, q': State, t: Tid) {
    t in q.threads && (q.threads[t].Arrived? || q.threads[t].Done?) && q' == q.(threads := q.threads - {t})
  }

  ghost predicate WaitStep(q: State, q': State, t: Tid) {
    Look(q, q', t) || Record(q, q', t) || Sleep(q, q', t) || Spurious(q, q', t)
  }

  ghost predicate Step(q: State, q': State, t: Tid) {
    WaitStep(q, q', t) || Advance(q, q', t) || Wake(q, q', t) || End(q, q', t)
  }

  // ---------------------------------------------------------------- what clients owe

  ghost predicate Waiting(pc: Pc) {
    pc.Spin? || pc.Loaded? || pc.ToSleep? || pc.Asleep?
  }

  /** Turns are awaited before they pass, less than 2^25 turns ahead, and not while they are being completed. */
  ghost predicate MayWait(q: State, turn: nat) {
    && q.cur <= turn < q.cur + HORIZON
    && forall u :: u in q.threads && q.threads[u].Completing? ==> q.threads[u].turn != turn
  }

  /** The current turn is completed once, after everybody waiting for it has arrived. */
  ghost predicate MayComplete(q: State, t: Tid) {
    && t in q.threads && q.threads[t].turn == q.cur
    && forall u :: u in q.threads && u != t && (Waiting(q.threads[u]) || q.threads[u].Completing?) ==> q.threads[u].turn != q.cur
  }

  ghost predicate StartWait(q: State, q': State, t: Tid) {
    exists turn :: MayWait(q, turn) && Begin(q, q', t, turn)
  }

  ghost predicate Act(q: State, q': State, t: Tid) {
    StartWait(q, q', t) || (MayComplete(q, t) && BeginComplete(q, q', t)) || Step(q, q', t)
  }

  ghost predicate Next(q: State, q': State) {
    exists t :: Act(q, q', t)
  }

  // ---------------------------------------------------------------- the invariant

  ghost predicate Stands(w: nat, turn: nat) {
    w < WORDS && w / 64 == turn % TURNS
  }

  /** How far ahead of `cur` lies the next turn on the channel of `turn`: 1 to 32. */
  function Dist(cur: nat, turn: nat): (r: nat) {
    if (turn - cur) % 32 == 0 then 32 else (turn - cur) % 32
  }

  ghost predicate WakePending(q: State, turn: nat) {
    exists u :: u in q.threads && q.threads[u].Waking? && Channel(q.threads[u].turn) == Channel(turn)
  }

  ghost predicate SleeperOK(q: State, turn: nat) {
    WakePending(q, turn) || (q.cur < turn && Dist(q.cur, turn) <= DecodeDelta(q.word))
  }

  ghost predicate PcOK(q: State, pc: Pc) {
    match pc
    case Spin(turn) => q.cur <= turn < q.cur + HORIZON
    case Loaded(turn, w, c) => c <= q.cur <= turn && c < turn < c + HORIZON && Stands(w, c)
    case ToSleep(turn, w, c) =>
      c <= q.cur <= turn && c < turn < c + HORIZON && Stands(w, c) && (turn - c <= w % 64 || w % 64 == 63)
    case Asleep(turn) => q.cur <= turn < q.cur + HORIZON && SleeperOK(q, turn)
    case Arrived(turn) => turn <= q.cur
    case Completing(turn, w) => turn == q.cur
    case Waking(turn) => turn <= q.cur
    case Done(turn) => turn <= q.cur
  }

  ghost predicate ThreadsOK(q: State) {
    forall t :: t in q.threads ==> PcOK(q, q.threads[t])
  }

  ghost predicate OneCompletes(q: State) {
    forall t, u :: t in q.threads && u in q.threads && t != u && q.threads[t].Completing? ==>
      Waiting(q.threads[u]) || q.threads[u].Completing? ==> q.threads[u].turn != q.threads[t].turn
  }

  ghost predicate Inv(q: State) {
    Stands(q.word, q.cur) && ThreadsOK(q) && OneCompletes(q)
  }

  // ---------------------------------------------------------------- word arithmetic

  lemma SturnIsTurn(turn: nat)
    ensures Sturn(turn) == (turn % TURNS) * 64 && Stands(Sturn(turn), turn)
  {
    var k, w := turn / WORDS, turn % WORDS;
    M.SameRest(turn, w, 64 * k, TURNS);
    M.MulDiv(w / TURNS, WORDS, (w % TURNS) * 64);
    assert w * 64 == (w / TURNS) * WORDS + (w % TURNS) * 64;
  }

  lemma EncodeStands(turn: nat, delta: nat)
    ensures Stands(Encode(Sturn(turn), delta), turn)
    ensures DecodeDelta(Encode(Sturn(turn), delta)) == if delta < 63 then delta else 63
  {
    SturnIsTurn(turn);
  }

  lemma DecodeStands(w: nat, turn: nat)
    requires Stands(w, turn)
    ensures DecodeSturn(w) == Sturn(turn)
  {
    SturnIsTurn(turn);
  }

  lemma RestDiff(c: nat, turn: nat)
    requires c <= turn < c + TURNS
    ensures var d := turn % TURNS - c % TURNS; turn - c == if d >= 0 then d else d + TURNS
  {
    var k := turn / TURNS - c / TURNS;
    assert turn - c == k * TURNS + turn % TURNS - c % TURNS;
    assert 0 <= k <= 1;
  }

  lemma ShiftDiff(d: int)
    requires 0 < d + TURNS && d < TURNS
    ensures ((64 * d) % WORDS) / 64 == if d >= 0 then d else d + TURNS
  {
    if d < 0 { assert (64 * d) % WORDS == 64 * d + WORDS; }
  }

  lemma AheadIsDistance(c: nat, turn: nat)
    requires c <= turn < c + TURNS
    ensures Ahead(Sturn(turn), Sturn(c)) == turn - c
  {
    SturnIsTurn(turn);
    SturnIsTurn(c);
    RestDiff(c, turn);
    ShiftDiff(turn % TURNS - c % TURNS);
  }

  lemma SameTurn(w: nat, c: nat, d: nat)
    requires Stands(w, c) && Stands(w, d) && c <= d < c + TURNS
    ensures c == d
  {
  }

  /** `isTurn` tells the truth about turns less than 2^26 ahead. */
  lemma IsTurnIsExact(q: State, turn: nat)
    requires Stands(q.word, q.cur) && q.cur <= turn < q.cur + TURNS
    ensures IsTurn(q, turn) <==> q.cur == turn
  {
    DecodeStands(q.word, q.cur);
    SturnIsTurn(turn);
    SturnIsTurn(q.cur);
    if IsTurn(q, turn) { SameTurn(q.word, q.cur, turn); }
  }

  // ---------------------------------------------------------------- every step keeps the invariant

  /** Nothing happens to threads other than `t`, nor to the current turn; the recorded delta does not shrink. */
  ghost predicate Gentle(q: State, q': State, t: Tid) {
    && q'.cur == q.cur && Stands(q'.word, q.cur) && DecodeDelta(q.word) <= DecodeDelta(q'.word)
    && (forall u :: u != t ==> (u in q.threads <==> u in q'.threads) && (u in q.threads ==> q'.threads[u] == q.threads[u]))
    && (t in q.threads ==> !q.threads[t].Waking?)
  }

  lemma OtherKept(q: State, q': State, t: Tid, u: Tid)
    requires ThreadsOK(q) && Gentle(q, q', t) && u in q.threads && u != t
    ensures PcOK(q', q'.threads[u])
  {
    assert PcOK(q, q.threads[u]);
    if q.threads[u].Asleep? && WakePending(q, q.threads[u].turn) {
      var x :| x in q.threads && q.threads[x].Waking? && Channel(q.threads[x].turn) == Channel(q.threads[u].turn);
      assert q'.threads[x] == q.threads[x];
    }
  }

  lemma GentleInv(q: State, q': State, t: Tid)
    requires Inv(q) && Gentle(q, q', t) && OneCompletes(q') && (t in q'.threads ==> PcOK(q', q'.threads[t]))
    ensures Inv(q')
  {
    forall u | u in q'.threads ensures PcOK(q', q'.threads[u]) {
      if u != t { OtherKept(q, q', t, u); }
    }
  }

  lemma LookInv(q: State, q': State, t: Tid)
    requires Inv(q) && Look(q, q', t)
    ensures Inv(q')
  {
    var turn := q.threads[t].turn;
    assert PcOK(q, q.threads[t]);
    IsTurnIsExact(q, turn);
    GentleInv(q, q', t);
  }

  lemma RecordInv(q: State, q': State, t: Tid)
    requires Inv(q) && Record(q, q', t)
    ensures Inv(q')
  {
    var pc := q.threads[t];
    assert PcOK(q, pc);
    DecodeStands(pc.w, pc.c);
    AheadIsDistance(pc.c, pc.turn);
    EncodeStands(pc.c, pc.turn - pc.c);
    if q.word == pc.w { SameTurn(pc.w, pc.c, q.cur); }
    GentleInv(q, q', t);
  }

  lemma SleepInv(q: State, q': State, t: Tid)
    requires Inv(q) && Sleep(q, q', t)
    ensures Inv(q')
  {
    var pc := q.threads[t];
    assert PcOK(q, pc);
    if q.word == pc.w { SameTurn(pc.w, pc.c, q.cur); }
    GentleInv(q, q', t);
  }

  lemma PlainInv(q: State, q': State, t: Tid)
    requires Inv(q)
    requires Spurious(q, q', t) || End(q, q', t) || StartWait(q, q', t) || (MayComplete(q, t) && BeginComplete(q, q', t))
    ensures Inv(q')
  {
    if t in q.threads { assert PcOK(q, q.threads[t]); }
    GentleInv(q, q', t);
  }

  lemma DistStep(cur: nat, turn: nat)
    requires cur < turn
    ensures Channel(cur + 1) == Channel(turn) <==> Dist(cur, turn) == 1
    ensures Channel(cur + 1) != Channel(turn) ==> Dist(cur + 1, turn) == Dist(cur, turn) - 1
  {
  }

  lemma PendingStays(q: State, q': State, t: Tid, turn: nat)
    requires WakePending(q, turn) && t in q.threads && !q.threads[t].Waking? && t in q'.threads && q'.threads == q.threads[t := q'.threads[t]]
    ensures WakePending(q', turn)
  {
    var x :| x in q.threads && q.threads[x].Waking? && Channel(q.threads[x].turn) == Channel(turn);
    assert q'.threads[x] == q.threads[x];
  }

  /** A sleeper whose turn is still to come when the current turn ends. */
  lemma SleeperAfterAdvance(q: State, q': State, t: Tid, turn: nat)
    requires Advance(q, q', t) && q.word == q.threads[t].w && q.threads[t].turn == q.cur && Stands(q.word, q.cur)
    requires q.cur < turn && SleeperOK(q, turn)
    ensures SleeperOK(q', turn)
  {
    if WakePending(q, turn) {
      PendingStays(q, q', t, turn);
    } else {
      var d := DecodeDelta(q.word);
      DistStep(q.cur, turn);
      EncodeStands(q.cur + 1, d - 1);
      if Channel(q.cur + 1) == Channel(turn) { assert q'.threads[t] == Waking(q.cur + 1); }
    }
  }

  lemma AdvanceInv(q: State, q': State, t: Tid)
    requires Inv(q) && Advance(q, q', t)
    ensures Inv(q')
  {
    assert PcOK(q, q.threads[t]);
    if q.word == q.threads[t].w {
      EncodeStands(q.cur + 1, if DecodeDelta(q.word) == 0 then 0 else DecodeDelta(q.word) - 1);
      forall u | u in q'.threads ensures PcOK(q', q'.threads[u]) {
        if u != t {
          var pc := q.threads[u];
          assert PcOK(q, pc);
          assert Waiting(pc) || pc.Completing? ==> pc.turn != q.cur;
          if pc.Asleep? { SleeperAfterAdvance(q, q', t, pc.turn); }
        }
      }
    } else {
      GentleInv(q, q', t);
    }
  }

  lemma WakeInv(q: State, q': State, t: Tid)
    requires Inv(q) && Wake(q, q', t)
    ensures Inv(q')
  {
    forall u | u in q'.threads ensures PcOK(q', q'.threads[u]) {
      assert PcOK(q, q.threads[u]) && PcOK(q, q.threads[t]);
      if q'.threads[u].Asleep? && WakePending(q, q.threads[u].turn) {
        var x :| x in q.threads && q.threads[x].Waking? && Channel(q.threads[x].turn) == Channel(q.threads[u].turn);
        assert q'.threads[x] == q.threads[x];
      }
    }
  }

  lemma StepInv(q: State, q': State, t: Tid)
    requires Inv(q) && Step(q, q', t)
    ensures Inv(q')
  {
    if Look(q, q', t) { LookInv(q, q', t); }
    else if Record(q, q', t) { RecordInv(q, q', t); }
    else if Sleep(q, q', t) { SleepInv(q, q', t); }
    else if Advance(q, q', t) { AdvanceInv(q, q', t); }
    else if Wake(q, q', t) { WakeInv(q, q', t); }
    else { PlainInv(q, q', t); }
  }

  lemma NextInv(q: State, q': State)
    requires Inv(q) && Next(q, q')
    ensures Inv(q')
  {
    var t :| Act(q, q', t);
    if Step(q, q', t) { StepInv(q, q', t); } else { PlainInv(q, q', t); }
  }

  // ---------------------------------------------------------------- whole runs

  ghost predicate StepAt(run: seq<State>, i: nat) {
    i + 1 < |run| ==> Next(run[i], run[i + 1])
  }

  ghost predicate IsRun(run: seq<State>) {
    |run| > 0 && Init(run[0]) && forall i: nat :: StepAt(run, i)
  }

  lemma {:induction false} RunInv(run: seq<State>, i: nat)
    requires IsRun(run) && i < |run|
    ensures Inv(run[i])
  {
    if i == 0 {
      EncodeStands(run[0].cur, 0);
    } else {
      RunInv(run, i - 1);
      assert StepAt(run, i - 1);
      NextInv(run[i - 1], run[i]);
    }
  }

  /** Every sleeper has a wake coming on its channel, or the recorded delta reaches the next turn of that channel. */
  lemma NoLostWakeup(run: seq<State>, i: nat, t: Tid)
    requires IsRun(run) && i < |run| && t in run[i].threads && run[i].threads[t].Asleep?
    ensures run[i].cur <= run[i].threads[t].turn && SleeperOK(run[i], run[i].threads[t].turn)
    ensures run[i].cur == run[i].threads[t].turn ==> WakePending(run[i], run[i].cur)
  {
    RunInv(run, i);
    assert PcOK(run[i], run[i].threads[t]);
  }

  // ---------------------------------------------------------------- outcomes

  /** A waiter arrives if and only if it looks while its turn is the current one. */
  lemma LookOutcome(run: seq<State>, i: nat, t: Tid)
    requires IsRun(run) && i + 1 < |run| && Look(run[i], run[i + 1], t)
    ensures t in run[i + 1].threads && (run[i + 1].threads[t].Arrived? <==> run[i].cur == run[i].threads[t].turn)
    ensures run[i + 1].threads[t].turn == run[i].threads[t].turn
  {
    RunInv(run, i);
    assert PcOK(run[i], run[i].threads[t]);
    IsTurnIsExact(run[i], run[i].threads[t].turn);
  }

  /** A completer that is done with the swap has moved the current turn on by one, and waiters for the next turn see it. */
  lemma AdvanceOutcome(run: seq<State>, i: nat, t: Tid)
    requires IsRun(run) && i + 1 < |run| && Advance(run[i], run[i + 1], t) && !run[i + 1].threads[t].Completing?
    ensures run[i].cur == run[i].threads[t].turn && run[i + 1].cur == run[i].cur + 1 && IsTurn(run[i + 1], run[i].cur + 1)
    ensures run[i + 1].threads[t].turn == run[i].cur + 1
    ensures run[i + 1].threads[t].Waking? <==> DecodeDelta(run[i].word) != 0
  {
    RunInv(run, i);
    RunInv(run, i + 1);
    assert PcOK(run[i], run[i].threads[t]);
    IsTurnIsExact(run[i + 1], run[i + 1].cur);
  }

  /** Turns pass one by one, each by the compare-and-swap of a thread that completes it. */
  lemma TurnsPassOneByOne(run: seq<State>, i: nat)
    requires IsRun(run) && i + 1 < |run| && run[i + 1].cur != run[i].cur
    ensures run[i + 1].cur == run[i].cur + 1
    ensures exists t :: t in run[i].threads && run[i].threads[t] == Completing(run[i].cur, run[i].word)
  {
    RunInv(run, i);
    assert StepAt(run, i);
    var t :| Act(run[i], run[i + 1], t);
    assert Advance(run[i], run[i + 1], t);
    assert PcOK(run[i], run[i].threads[t]);
  }
}
