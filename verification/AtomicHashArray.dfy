/**
 folly::AtomicHashArray as a state machine: one atomic load, store, compare-and-swap
 or counter update per step, any number of threads.

 `pending` and `entries` are the `ThreadCachedInt` counters: a full read is exact,
 while the fast read that decides to set `isFull_` may see anything.
 */
module AtomicHashArray {
  import opened Options

  type Tid = nat

  datatype CellKey = Empty | Locked | Live(k: int) | Erased
  datatype Cell = Cell(key: CellKey, val: Option<int>)

  datatype Stage =
    | Probe       // load the cell's key
    | Pend        // ++numPendingEntries_
    | Check       // load isFull_
    | BackOff     // --numPendingEntries_ after seeing isFull_
    | Spin        // wait for NO_PENDING_INSERTS or for no pending entries
    | Seal        // isFull_ = NO_PENDING_INSERTS
    | Recheck     // load the cell's key again
    | Lock        // tryLockCell
    | Build       // construct the value
    | Publish     // unlockCell(cell, key_in)
    | Abort       // the constructor threw: unlockCell(cell, kEmptyKey_)
    | AbortDec    // --numPendingEntries_, then rethrow
    | GiveUp      // --numPendingEntries_ after losing the cell
    | Compare     // load the key once it is not locked
    | PubDec      // --numPendingEntries_ after a successful insert
    | Count       // ++numEntries_
    | MaybeFull   // isFull_ = NO_NEW_INSERTS when numEntries_.readFast() says so
    | Inserted | Collided | Full | Threw

  datatype FindStage = FindProbe | FindHit | FindMiss
  datatype EraseStage = EraseProbe | EraseCas | EraseCount | EraseOne | EraseNone

  datatype Pc =
    | Ins(stage: Stage, k: int, v: int, n: nat, idx: nat)
    | Find(find: FindStage, k: int, n: nat, idx: nat)
    | Erase(erase: EraseStage, k: int, n: nat, idx: nat)

  datatype State = State(cap: nat, max: nat, mask: nat, hash: int -> nat, cells: seq<Cell>,
                         pending: int, full: nat, entries: int, erases: int, threads: map<Tid, Pc>)

  const NO_NEW_INSERTS: nat := 1
  const NO_PENDING_INSERTS: nat := 2

  // ---------------------------------------------------------------- probe paths

  /** `keyToAnchorIdx`; `mask` is `kAnchorMask_ + 1`. */
  ghost function Anchor(s: State, k: int): (r: nat)
    requires s.cap > 0 && s.mask > 0
    ensures r < s.cap
  {
    var probe := s.hash(k) % s.mask;
    if probe < s.cap then probe else s.hash(k) % s.cap
  }

  function ProbeNext(cap: nat, idx: nat): (r: nat)
    requires idx < cap
    ensures r < cap
  {
    if idx + 1 < cap then idx + 1 else idx + 1 - cap
  }

  /** The cell probed after `n` steps for key `k`. */
  ghost function At(s: State, k: int, n: nat): (r: nat)
    requires s.cap > 0 && s.mask > 0 && n < s.cap
    ensures r < s.cap
  {
    var a := Anchor(s, k);
    if a + n < s.cap then a + n else a + n - s.cap
  }

  /** How many steps of the probe path of `k` lead to cell `idx`. */
  ghost function Pos(s: State, k: int, idx: nat): (r: nat)
    requires s.cap > 0 && s.mask > 0 && idx < s.cap
    ensures r < s.cap && At(s, k, r) == idx
  {
    var a := Anchor(s, k);
    if a <= idx then idx - a else idx + s.cap - a
  }

  // ---------------------------------------------------------------- steps

  ghost predicate Init(s: State) {
    && s.cap > 0 && s.mask > 0 && s.cells == seq(s.cap, _ => Cell(Empty, None))
    && s.pending == 0 && s.full == 0 && s.entries == 0 && s.erases == 0 && s.threads == map[]
  }

  ghost predicate Idle(s: State, t: Tid) {
    s.cap > 0 && s.mask > 0 && t !in s.threads
  }

  ghost predicate CallInsert(s: State, s': State, t: Tid, k: int, v: int) {
    Idle(s, t) && s' == s.(threads := s.threads[t := Ins(Probe, k, v, 0, Anchor(s, k))])
  }

  ghost predicate CallFind(s: State, s': State, t: Tid, k: int) {
    Idle(s, t) && s' == s.(threads := s.threads[t := Find(FindProbe, k, 0, Anchor(s, k))])
  }

  ghost predicate CallErase(s: State, s': State, t: Tid, k: int) {
    Idle(s, t) && s' == s.(threads := s.threads[t := Erase(EraseProbe, k, 0, Anchor(s, k))])
  }

  ghost predicate Returned(pc: Pc) {
    match pc
    case Ins(stage, _, _, _, _) => stage.Inserted? || stage.Collided? || stage.Full? || stage.Threw?
    case Find(find, _, _, _) => !find.FindProbe?
    case Erase(erase, _, _, _) => erase.EraseOne? || erase.EraseNone?
  }

  ghost predicate Return(s: State, s': State, t: Tid) {
    t in s.threads && Returned(s.threads[t]) && s' == s.(threads := s.threads - {t})
  }

  ghost predicate Running(s: State, t: Tid) {
    t in s.threads && s.threads[t].idx < s.cap == |s.cells|
  }

  ghost function Goto(s: State, t: Tid, pc: Pc): State {
    s.(threads := s.threads[t := pc])
  }

  ghost function SetKey(s: State, idx: nat, key: CellKey): State
    requires idx < |s.cells|
  {
    s.(cells := s.cells[idx := s.cells[idx].(key := key)])
  }

  /** Go on to the next cell of the probe path, or `last` when every cell was probed. */
  ghost function Onward(s: State, pc: Pc, last: Pc): Pc
    requires pc.idx < s.cap
  {
    if pc.n + 1 >= s.cap then last else
      match pc
      case Ins(_, k, v, n, idx) => Ins(Probe, k, v, n + 1, ProbeNext(s.cap, idx))
      case Find(_, k, n, idx) => Find(FindProbe, k, n + 1, ProbeNext(s.cap, idx))
      case Erase(_, k, n, idx) => Erase(EraseProbe, k, n + 1, ProbeNext(s.cap, idx))
  }

  /** Steps of `insertInternal` that touch neither cells nor counters. */
  ghost predicate InsertLocal(s: State, s': State, t: Tid) {
    && Running(s, t) && s.threads[t].Ins?
    && var pc := s.threads[t];
       var key := s.cells[pc.idx].key;
       match pc.stage
       case Probe => s' == Goto(s, t, pc.(stage := if key == Empty then Pend else Compare))
       case Check => s' == Goto(s, t, pc.(stage := if s.full != 0 then BackOff else Lock))
       case Spin => (s.full == NO_PENDING_INSERTS || s.pending == 0) && s' == Goto(s, t, pc.(stage := Seal))
       case Recheck => s' == Goto(s, t, pc.(stage := if key == Empty then Full else Compare))
       case Compare =>
         if key == Live(pc.k) then s' == Goto(s, t, pc.(stage := Collided))
         else if key == Empty then s' == Goto(s, t, pc.(stage := Probe))
         else if key == Locked then s' == s || s' == Goto(s, t, pc.(stage := Probe))
         else s' == Goto(s, t, Onward(s, pc, pc.(stage := Full)))
       case _ => false
  }

  /** Steps of `insertInternal` that update counters or `isFull_`. */
  ghost predicate InsertCounter(s: State, s': State, t: Tid) {
    && Running(s, t) && s.threads[t].Ins?
    && var pc := s.threads[t];
       match pc.stage
       case Pend => s' == Goto(s, t, pc.(stage := Check)).(pending := s.pending + 1)
       case BackOff => s' == Goto(s, t, pc.(stage := Spin)).(pending := s.pending - 1)
       case Seal => s' == Goto(s, t, pc.(stage := Recheck)).(full := NO_PENDING_INSERTS)
       case AbortDec => s' == Goto(s, t, pc.(stage := Threw)).(pending := s.pending - 1)
       case GiveUp => s' == Goto(s, t, pc.(stage := Compare)).(pending := s.pending - 1)
       case PubDec => s' == Goto(s, t, pc.(stage := Count)).(pending := s.pending - 1)
       case Count => s' == Goto(s, t, pc.(stage := MaybeFull)).(entries := s.entries + 1)
       case MaybeFull =>
         || s' == Goto(s, t, pc.(stage := Inserted))
         || (s.entries >= s.max && s' == Goto(s, t, pc.(stage := Inserted)).(full := NO_NEW_INSERTS))
       case _ => false
  }

  /** Steps of `insertInternal` that write its cell. */
  ghost predicate InsertCell(s: State, s': State, t: Tid) {
    && Running(s, t) && s.threads[t].Ins?
    && var pc := s.threads[t];
       match pc.stage
       case Lock =>
         if s.cells[pc.idx].key == Empty then s' == Goto(SetKey(s, pc.idx, Locked), t, pc.(stage := Build))
         else s' == Goto(s, t, pc.(stage := GiveUp))
       case Build =>
         || s' == Goto(s, t, pc.(stage := Abort))
         || s' == Goto(s, t, pc.(stage := Publish)).(cells := s.cells[pc.idx := s.cells[pc.idx].(val := Some(pc.v))])
       case Publish => s' == Goto(SetKey(s, pc.idx, Live(pc.k)), t, pc.(stage := PubDec))
       case Abort => s' == Goto(SetKey(s, pc.idx, Empty), t, pc.(stage := AbortDec))
       case _ => false
  }

  ghost predicate FindStep(s: State, s': State, t: Tid) {
    && Running(s, t) && s.threads[t].Find? && s.threads[t].find.FindProbe?
    && var pc := s.threads[t];
       var key := s.cells[pc.idx].key;
       if key == Live(pc.k) then s' == Goto(s, t, pc.(find := FindHit))
       else if key == Empty then s' == Goto(s, t, pc.(find := FindMiss))
       else s' == Goto(s, t, Onward(s, pc, pc.(find := FindMiss)))
  }

  ghost predicate EraseStep(s: State, s': State, t: Tid) {
    && Running(s, t) && s.threads[t].Erase?
    && var pc := s.threads[t];
       var key := s.cells[pc.idx].key;
       match pc.erase
       case EraseProbe =>
         if key == Empty || key == Locked then s' == Goto(s, t, pc.(erase := EraseNone))
         else if key == Live(pc.k) then s' == Goto(s, t, pc.(erase := EraseCas))
         else s' == Goto(s, t, Onward(s, pc, pc.(erase := EraseNone)))
       case EraseCas =>
         if key == Live(pc.k) then s' == Goto(SetKey(s, pc.idx, Erased), t, pc.(erase := EraseCount))
         else s' == Goto(s, t, pc.(erase := EraseNone))
       case EraseCount => s' == Goto(s, t, pc.(erase := EraseOne)).(erases := s.erases + 1)
       case _ => false
  }

  ghost predicate Call(s: State, s': State, t: Tid) {
    || (exists k, v :: CallInsert(s, s', t, k, v))
    || (exists k :: CallFind(s, s', t, k) || CallErase(s, s', t, k))
  }

  ghost predicate Step(s: State, s': State, t: Tid) {
    InsertLocal(s, s', t) || InsertCounter(s, s', t) || InsertCell(s, s', t) || FindStep(s, s', t) || EraseStep(s, s', t)
  }

  ghost predicate Next(s: State, s': State) {
    exists t :: Call(s, s', t) || Step(s, s', t) || Return(s, s', t)
  }

  // ---------------------------------------------------------------- the invariant

  ghost predicate Permanent(c: Cell) {
    c.key.Live? || c.key.Erased?
  }

  ghost predicate IsLive(s: State, k: int) {
    exists i :: 0 <= i < |s.cells| && s.cells[i].key == Live(k)
  }

  ghost predicate Shape(s: State) {
    s.cap > 0 && s.mask > 0 && |s.cells| == s.cap
  }

  /** The first `n` cells on the probe path of `k` are taken for good, and not by `k`. */
  ghost predicate Passed(s: State, k: int, n: nat)
    requires Shape(s)
  {
    forall m: nat :: m < n && m < s.cap ==> Permanent(s.cells[At(s, k, m)]) && s.cells[At(s, k, m)].key != Live(k)
  }

  ghost predicate PathOK(s: State, i: nat)
    requires Shape(s) && i < s.cap
  {
    s.cells[i].key.Live? ==> Passed(s, s.cells[i].key.k, Pos(s, s.cells[i].key.k, i))
  }

  ghost predicate PathsOK(s: State)
    requires Shape(s)
  {
    forall i: nat :: i < s.cap ==> PathOK(s, i)
  }

  /** A cell that was ever published has its value. */
  ghost predicate ValuesOK(s: State) {
    forall i :: 0 <= i < |s.cells| ==> Permanent(s.cells[i]) ==> s.cells[i].val.Some?
  }

  ghost predicate InLockRegion(pc: Pc) {
    pc.Ins? && (pc.stage.Lock? || pc.stage.Build? || pc.stage.Publish? || pc.stage.Abort?)
  }

  ghost predicate Holds(pc: Pc) {
    pc.Ins? && (pc.stage.Build? || pc.stage.Publish? || pc.stage.Abort?)
  }

  /** Inserts are over: `isFull_` is set and no thread is past the check of it. */
  ghost predicate Sealed(s: State) {
    s.full != 0 && forall t :: t in s.threads ==> !InLockRegion(s.threads[t])
  }

  ghost predicate AllPermanent(s: State) {
    forall i :: 0 <= i < |s.cells| ==> Permanent(s.cells[i])
  }

  /** No key will ever become live here again. */
  ghost predicate NeverGains(s: State) {
    Sealed(s) || AllPermanent(s)
  }

  /** Key `k` is not here and never will be. */
  ghost predicate Dead(s: State, k: int) {
    NeverGains(s) && !IsLive(s, k)
  }

  ghost predicate PcOK(s: State, t: Tid, pc: Pc)
    requires Shape(s)
  {
    && pc.n < s.cap && pc.idx == At(s, pc.k, pc.n)
    && (Holds(pc) ==> s.cells[pc.idx].key == Locked)
    && (pc.Ins? && pc.stage.Publish? ==> s.cells[pc.idx].val == Some(pc.v))
    && (pc.Ins? && !Returned(pc) && !pc.stage.PubDec? && !pc.stage.Count? && !pc.stage.MaybeFull? ==> Passed(s, pc.k, pc.n))
    && (pc.Ins? && (pc.stage.BackOff? || pc.stage.Spin?) ==> s.full != 0)
    && (pc.Ins? && (pc.stage.Seal? || pc.stage.Recheck?) ==> Sealed(s))
    && (pc.Ins? && pc.stage.Full? ==> Dead(s, pc.k))
  }

  ghost predicate ThreadsOK(s: State)
    requires Shape(s)
  {
    forall t :: t in s.threads ==> PcOK(s, t, s.threads[t])
  }

  ghost predicate OneHolder(s: State) {
    forall t, u :: t in s.threads && u in s.threads && t != u && Holds(s.threads[t]) && Holds(s.threads[u])
      ==> s.threads[t].idx != s.threads[u].idx
  }

  // counters

  /** The threads a counter does not show yet: between `++` and `--` of `numPendingEntries_`, before `++numEntries_`, before `++numErases_`. */
  datatype Duty = Pending | Uncounted | Unerased

  ghost predicate Owes(duty: Duty, pc: Pc) {
    match duty
    case Pending =>
      pc.Ins? && (pc.stage.Check? || pc.stage.BackOff? || pc.stage.GiveUp? || pc.stage.AbortDec? || pc.stage.PubDec? || InLockRegion(pc))
    case Uncounted => pc.Ins? && (pc.stage.PubDec? || pc.stage.Count?)
    case Unerased => pc.Erase? && pc.erase.EraseCount?
  }

  ghost function Owing(s: State, duty: Duty): set<Tid> { set t | t in s.threads && Owes(duty, s.threads[t]) }
  ghost function Taken(s: State): set<nat> { set i: nat | i < |s.cells| && Permanent(s.cells[i]) }
  ghost function ErasedCells(s: State): set<nat> { set i: nat | i < |s.cells| && s.cells[i].key.Erased? }

  ghost predicate CountersOK(s: State) {
    && s.pending == |Owing(s, Pending)|
    && |Taken(s)| == s.entries + |Owing(s, Uncounted)|
    && |ErasedCells(s)| == s.erases + |Owing(s, Unerased)|
  }

  ghost predicate Inv(s: State) {
    && Shape(s) && PathsOK(s) && ValuesOK(s) && ThreadsOK(s) && OneHolder(s) && CountersOK(s)
    && (s.full == NO_PENDING_INSERTS ==> Sealed(s))
  }
}
