/**
 folly::AtomicHashMap: the chain of submaps, as a state machine over the steps of
 AtomicHashArray plus the loads, the lock and the publication of the chain itself.
 */
module AtomicHashMap {
  import A = AtomicHashArray

  type Tid = nat

  const NUM_SUB_MAPS: nat := 16

  datatype Op = Insert | Find | Erase

  datatype Pc =
    | Load(op: Op, k: int, v: int)                        // load numMapsAllocated_
    | Enter(op: Op, k: int, v: int, n: nat, i: nat)       // about to call submap i, n submaps loaded
    | In(op: Op, k: int, v: int, n: nat, i: nat)          // inside submap i
    | Grow(k: int, v: int, n: nat)                        // all n submaps were full: tryLockMap(n)
    | Alloc(k: int, v: int, n: nat)                       // create submap n
    | Publish(k: int, v: int, n: nat)                     // numMapsAllocated_.fetch_add(1)
    | Wait(k: int, v: int, n: nat)                        // spin until submap n is published
    | Done(op: Op, k: int, hit: bool)
    | Failed(k: int, full: bool)                          // insert threw: no room is left, or the value's constructor did

  /**
   `subs` are the submaps created so far; `locked` says that the next entry of `subMaps_` holds
   `kLockedPtr_`; `canGrow` says that the primary capacity times `kGrowthFrac_` is at least one.
   */
  datatype State = State(subs: seq<A.State>, numMaps: nat, locked: bool, canGrow: bool, threads: map<Tid, Pc>)

  ghost predicate Init(s: State) {
    |s.subs| == 1 && A.Init(s.subs[0]) && s.numMaps == 1 && !s.locked && s.threads == map[]
  }

  ghost function Goto(s: State, t: Tid, pc: Pc): State {
    s.(threads := s.threads[t := pc])
  }

  ghost predicate Begin(s: State, s': State, t: Tid, op: Op, k: int, v: int) {
    && t !in s.threads
    && s' == Goto(s, t, if op.Find? then Enter(Find, k, v, 1, 0) else Load(op, k, v))
  }

  ghost predicate DoLoad(s: State, s': State, t: Tid) {
    && t in s.threads && s.threads[t].Load?
    && var pc := s.threads[t];
       s' == Goto(s, t,
         if !pc.op.Find? then Enter(pc.op, pc.k, pc.v, s.numMaps, 0)
         else if s.numMaps > 1 then Enter(Find, pc.k, pc.v, s.numMaps, 1)
         else Done(Find, pc.k, false))
  }

  ghost predicate CallSub(a: A.State, a': A.State, t: Tid, op: Op, k: int, v: int) {
    match op
    case Insert => A.CallInsert(a, a', t, k, v)
    case Find => A.CallFind(a, a', t, k)
    case Erase => A.CallErase(a, a', t, k)
  }

  ghost predicate DoEnter(s: State, s': State, t: Tid) {
    && t in s.threads && s.threads[t].Enter? && s.threads[t].i < |s.subs| == |s'.subs|
    && var pc := s.threads[t];
       && CallSub(s.subs[pc.i], s'.subs[pc.i], t, pc.op, pc.k, pc.v)
       && s' == Goto(s, t, In(pc.op, pc.k, pc.v, pc.n, pc.i)).(subs := s.subs[pc.i := s'.subs[pc.i]])
  }

  ghost predicate InSub(s: State, t: Tid) {
    && t in s.threads && s.threads[t].In? && s.threads[t].i < |s.subs|
    && t in s.subs[s.threads[t].i].threads
  }

  /** One step of AtomicHashArray code inside a submap. */
  ghost predicate Inner(s: State, s': State, t: Tid) {
    && InSub(s, t) && |s'.subs| == |s.subs|
    && var i := s.threads[t].i;
       A.Step(s.subs[i], s'.subs[i], t) && s' == s.(subs := s.subs[i := s'.subs[i]])
  }

  /** Where a returned call on submap `pc.i` leads. */
  ghost function After(pc: Pc, r: A.Pc): Pc
    requires pc.In?
  {
    match pc.op
    case Insert =>
      if r.Ins? && r.stage.Threw? then Failed(pc.k, false)
      else if !(r.Ins? && r.stage.Full?) then Done(Insert, pc.k, r.Ins? && r.stage.Inserted?)
      else if pc.i == pc.n then Load(Insert, pc.k, pc.v)
      else if pc.i + 1 < pc.n then Enter(Insert, pc.k, pc.v, pc.n, pc.i + 1)
      else Grow(pc.k, pc.v, pc.n)
    case Find =>
      if r.Find? && r.find.FindHit? then Done(Find, pc.k, true)
      else if pc.i == 0 then Load(Find, pc.k, pc.v)
      else if pc.i + 1 < pc.n then Enter(Find, pc.k, pc.v, pc.n, pc.i + 1)
      else Done(Find, pc.k, false)
    case Erase =>
      if r.Erase? && r.erase.EraseOne? then Done(Erase, pc.k, true)
      else if pc.i + 1 < pc.n then Enter(Erase, pc.k, pc.v, pc.n, pc.i + 1)
      else Done(Erase, pc.k, false)
  }

  ghost predicate Leave(s: State, s': State, t: Tid) {
    && InSub(s, t) && |s'.subs| == |s.subs|
    && var pc := s.threads[t];
       && A.Return(s.subs[pc.i], s'.subs[pc.i], t)
       && s' == Goto(s, t, After(pc, s.subs[pc.i].threads[t])).(subs := s.subs[pc.i := s'.subs[pc.i]])
  }

  /** All maps are full: throw, or win `tryLockMap`, or wait for the winner. */
  ghost predicate DoGrow(s: State, s': State, t: Tid) {
    && t in s.threads && s.threads[t].Grow?
    && var pc := s.threads[t];
       if pc.n >= NUM_SUB_MAPS || !s.canGrow then s' == Goto(s, t, Failed(pc.k, true))
       else if pc.n == |s.subs| && !s.locked then s' == Goto(s, t, Alloc(pc.k, pc.v, pc.n)).(locked := true)
       else s' == Goto(s, t, Wait(pc.k, pc.v, pc.n))
  }

  ghost predicate DoAlloc(s: State, s': State, t: Tid) {
    && t in s.threads && s.threads[t].Alloc? && |s'.subs| == |s.subs| + 1
    && var pc := s.threads[t];
       && A.Init(s'.subs[|s.subs|])
       && s' == Goto(s, t, Publish(pc.k, pc.v, pc.n)).(subs := s.subs + [s'.subs[|s.subs|]], locked := false)
  }

  ghost predicate DoPublish(s: State, s': State, t: Tid) {
    && t in s.threads && s.threads[t].Publish?
    && var pc := s.threads[t];
       s' == Goto(s, t, Enter(Insert, pc.k, pc.v, pc.n, pc.n)).(numMaps := s.numMaps + 1)
  }

  ghost predicate DoWait(s: State, s': State, t: Tid) {
    && t in s.threads && s.threads[t].Wait? && s.threads[t].n < s.numMaps
    && var pc := s.threads[t];
       s' == Goto(s, t, Enter(Insert, pc.k, pc.v, pc.n, pc.n))
  }

  ghost predicate End(s: State, s': State, t: Tid) {
    t in s.threads && (s.threads[t].Done? || s.threads[t].Failed?) && s' == s.(threads := s.threads - {t})
  }

  ghost predicate ChainStep(s: State, s': State, t: Tid) {
    || (exists op, k, v :: Begin(s, s', t, op, k, v))
    || DoLoad(s, s', t) || DoGrow(s, s', t) || DoPublish(s, s', t) || DoWait(s, s', t) || End(s, s', t)
  }

  ghost predicate Next(s: State, s': State) {
    exists t :: ChainStep(s, s', t) || DoEnter(s, s', t) || Inner(s, s', t) || Leave(s, s', t) || DoAlloc(s, s', t)
  }

  // ---------------------------------------------------------------- the invariant

  ghost predicate SubsOK(s: State) {
    forall i :: 0 <= i < |s.subs| ==> A.Inv(s.subs[i])
  }

  /** The first `n` submaps do not hold `k` and never will. */
  ghost predicate DeadBelow(s: State, k: int, n: nat) {
    forall j :: 0 <= j < n && j < |s.subs| ==> A.Dead(s.subs[j], k)
  }

  /** A key live in one submap is gone for good from the submaps before it. */
  ghost predicate ChainOK(s: State) {
    forall m: nat, k :: m < |s.subs| && A.IsLive(s.subs[m], k) ==> DeadBelow(s, k, m)
  }

  ghost predicate Matches(op: Op, k: int, r: A.Pc) {
    r.k == k && match op case Insert => r.Ins? case Find => r.Find? case Erase => r.Erase?
  }

  ghost predicate PcOK(s: State, t: Tid, pc: Pc) {
    match pc
    case Load(op, k, v) => true
    case Enter(op, k, v, n, i) =>
      && 1 <= n <= s.numMaps && i < s.numMaps && (op.Insert? ==> i <= n && DeadBelow(s, k, i))
    case In(op, k, v, n, i) =>
      && 1 <= n <= s.numMaps && i < s.numMaps && i < |s.subs| && (op.Insert? ==> i <= n && DeadBelow(s, k, i))
      && t in s.subs[i].threads && Matches(op, k, s.subs[i].threads[t])
    case Grow(k, v, n) => 1 <= n <= s.numMaps && DeadBelow(s, k, n)
    case Alloc(k, v, n) => n == s.numMaps == |s.subs| && s.locked && DeadBelow(s, k, n)
    case Publish(k, v, n) => n == s.numMaps && |s.subs| == n + 1 && DeadBelow(s, k, n)
    case Wait(k, v, n) => 1 <= n <= s.numMaps && DeadBelow(s, k, n)
    case Done(op, k, hit) => true
    case Failed(k, full) => true
  }

  ghost predicate ThreadsOK(s: State) {
    forall t :: t in s.threads ==> PcOK(s, t, s.threads[t])
  }

  /** A thread inside a submap is there on behalf of a map operation. */
  ghost predicate Accounted(s: State) {
    forall m, t :: 0 <= m < |s.subs| && t in s.subs[m].threads ==>
      t in s.threads && s.threads[t].In? && s.threads[t].i == m
  }

  ghost predicate Making(pc: Pc) { pc.Alloc? || pc.Publish? }

  ghost predicate OneMaker(s: State) {
    forall t, u :: t in s.threads && u in s.threads && Making(s.threads[t]) && Making(s.threads[u]) ==> t == u
  }

  ghost predicate CountOK(s: State) {
    && 1 <= s.numMaps <= |s.subs| <= s.numMaps + 1
    && (s.locked ==> |s.subs| == s.numMaps)
    && (|s.subs| > s.numMaps ==> forall k :: !A.IsLive(s.subs[s.numMaps], k))
  }

  ghost predicate Inv(s: State) {
    SubsOK(s) && ChainOK(s) && ThreadsOK(s) && Accounted(s) && OneMaker(s) && CountOK(s)
  }
}
