/**
 folly::RWTicketSpinLockT: three wrapping quarter-word counters, `write`, `read` and `users`.

 `w`, `r` and `u` are auxiliary: the counters without wrapping. `m` is 2^k for k-bit counters.
 `parallel` tells the build that adds to all counters at once from the one that adds to each.
 */
module RWTicketSpinLock {
  import opened Modular

  type Tid = nat

  datatype Ticket = Ticket(write: nat, read: nat, users: nat)

  datatype Pc =
    | Queued(v: nat, val: nat)       // writeLockAggressive: took ticket v, waits for write == val
    | Writing(v: nat)
    | Unlocking(v: nat, t: Ticket)   // unlock: loaded the word, about to store half of it
    | Reading
    | TryWrite(t: Ticket)            // try_lock: loaded the word
    | TryRead(t: Ticket)             // try_lock_shared: loaded the word

  datatype State = State(m: nat, parallel: bool, word: Ticket, w: nat, r: nat, u: nat, threads: map<Tid, Pc>)

  ghost predicate Init(s: State) {
    s.m >= 2 && s.word == Ticket(0, 0, 0) && s.w == 0 && s.r == 0 && s.u == 0 && s.threads == map[]
  }

  ghost function Goto(s: State, t: Tid, pc: Pc): State {
    s.(threads := s.threads[t := pc])
  }

  ghost function Leave(s: State, t: Tid): State {
    s.(threads := s.threads - {t})
  }

  function Inc(s: State, x: nat): (r: nat)
    requires s.m > 0
  {
    (x + 1) % s.m
  }

  /** The hypothesis: with this one, at most 2^k - 1 users are outstanding. */
  ghost predicate RoomForOne(s: State) {
    s.m > 0 && s.u - s.w < s.m - 1
  }

  // ---------------------------------------------------------------- steps

  ghost predicate TakeTicket(s: State, s': State, t: Tid) {
    && RoomForOne(s) && t !in s.threads
    && s' == Goto(s, t, Queued(s.u, s.word.users)).(word := s.word.(users := Inc(s, s.word.users)), u := s.u + 1)
  }

  ghost predicate Poll(s: State, s': State, t: Tid) {
    && t in s.threads && s.threads[t].Queued?
    && s' == if s.threads[t].val == s.word.write then Goto(s, t, Writing(s.threads[t].v)) else s
  }

  ghost predicate TryLoad(s: State, s': State, t: Tid) {
    t !in s.threads && (s' == Goto(s, t, TryWrite(s.word)) || s' == Goto(s, t, TryRead(s.word)))
  }

  ghost predicate TryLock(s: State, s': State, t: Tid) {
    && t in s.threads && s.threads[t].TryWrite?
    && var old_ := s.threads[t].t;
       if old_.users == old_.write && s.word == old_ then
         && RoomForOne(s)
         && s' == Goto(s, t, Writing(s.u)).(word := old_.(users := Inc(s, old_.users)), u := s.u + 1)
       else s' == Leave(s, t)
  }

  /** The word `try_lock_shared` expects, and the one it stores. */
  function SharedExpected(t: Ticket): (r: Ticket) { t.(users := t.read) }

  function SharedStored(m: nat, t: Ticket): (r: Ticket)
    requires m > 0
  {
    Ticket(t.write, (t.read + 1) % m, (SharedExpected(t).users + 1) % m)
  }

  /** The same without parallel addition: `users` is counted up from the value that was loaded. */
  function SharedStoredScalar(m: nat, t: Ticket): (r: Ticket)
    requires m > 0
  {
    Ticket(t.write, (t.read + 1) % m, (t.users + 1) % m)
  }

  ghost predicate TryLockShared(s: State, s': State, t: Tid) {
    && t in s.threads && s.threads[t].TryRead?
    && var old_ := s.threads[t].t;
       if s.word == SharedExpected(old_) then
         && RoomForOne(s)
         && s' == Goto(s, t, Reading).(word := if s.parallel then SharedStored(s.m, old_) else SharedStoredScalar(s.m, old_),
                                       r := s.r + 1, u := s.u + 1)
       else s' == Leave(s, t)
  }

  /** The swap of `try_lock_shared` succeeds although the word it was computed from showed a writer. */
  ghost predicate Stale(s: State, t: Tid) {
    && !s.parallel && t in s.threads && s.threads[t].TryRead?
    && s.word == SharedExpected(s.threads[t].t) && s.threads[t].t.users != s.threads[t].t.read
  }

  ghost predicate UnlockLoad(s: State, s': State, t: Tid) {
    t in s.threads && s.threads[t].Writing? && s' == Goto(s, t, Unlocking(s.threads[t].v, s.word))
  }

  /** The store of `readWrite`: `users` keeps what it has now. */
  ghost predicate UnlockStore(s: State, s': State, t: Tid) {
    && t in s.threads && s.threads[t].Unlocking? && s.m > 0
    && var old_ := s.threads[t].t;
       s' == Leave(s, t).(word := Ticket(Inc(s, old_.write), Inc(s, old_.read), s.word.users), w := s.w + 1, r := s.r + 1)
  }

  ghost predicate Downgrade(s: State, s': State, t: Tid) {
    && t in s.threads && s.threads[t].Writing? && s.m > 0
    && s' == Goto(s, t, Reading).(word := s.word.(read := Inc(s, s.word.read)), r := s.r + 1)
  }

  ghost predicate UnlockShared(s: State, s': State, t: Tid) {
    && t in s.threads && s.threads[t].Reading? && s.m > 0
    && s' == Leave(s, t).(word := s.word.(write := Inc(s, s.word.write)), w := s.w + 1)
  }

  ghost predicate Step(s: State, s': State, t: Tid) {
    || TakeTicket(s, s', t) || Poll(s, s', t) || TryLoad(s, s', t) || TryLock(s, s', t) || TryLockShared(s, s', t)
    || UnlockLoad(s, s', t) || UnlockStore(s, s', t) || Downgrade(s, s', t) || UnlockShared(s, s', t)
  }

  ghost predicate Next(s: State, s': State) {
    exists t :: Step(s, s', t)
  }

  ghost predicate CleanNext(s: State, s': State) {
    exists t :: Step(s, s', t) && !(Stale(s, t) && TryLockShared(s, s', t))
  }

  // ---------------------------------------------------------------- the invariant

  ghost predicate IsWriter(pc: Pc) { pc.Queued? || pc.Writing? || pc.Unlocking? }

  ghost predicate Holds(pc: Pc) { pc.Writing? || pc.Unlocking? }

  ghost function Readers(s: State): set<Tid> { set t | t in s.threads && s.threads[t].Reading? }

  ghost function Writers(s: State): set<Tid> { set t | t in s.threads && IsWriter(s.threads[t]) }

  ghost predicate WordOK(s: State) {
    s.m >= 2 && s.word == Ticket(s.w % s.m, s.r % s.m, s.u % s.m) && s.w <= s.r <= s.u < s.w + s.m
  }

  ghost predicate CountsOK(s: State) {
    s.r - s.w == |Readers(s)| && s.u - s.r == |Writers(s)|
  }

  ghost predicate PcOK(s: State, pc: Pc)
    requires s.m > 0
  {
    && (IsWriter(pc) ==> s.r <= pc.v < s.u)
    && (pc.Queued? ==> pc.val == pc.v % s.m)
    && (Holds(pc) ==> pc.v == s.w)
    && (pc.Unlocking? ==> pc.t.write == s.word.write && pc.t.read == s.word.read)
  }

  ghost predicate ThreadsOK(s: State)
    requires s.m > 0
  {
    forall t :: t in s.threads ==> PcOK(s, s.threads[t])
  }

  ghost predicate Distinct(s: State) {
    forall t, x :: t in s.threads && x in s.threads && t != x && IsWriter(s.threads[t]) && IsWriter(s.threads[x]) ==>
      s.threads[t].v != s.threads[x].v
  }

  ghost predicate Inv(s: State) {
    WordOK(s) && CountsOK(s) && ThreadsOK(s) && Distinct(s)
  }

  // ---------------------------------------------------------------- wrapping counters

  lemma SameMod(a: nat, b: nat, m: nat)
    requires m > 0 && a <= b < a + m && a % m == b % m
    ensures a == b
  {
    assert b - a == m * (b / m - a / m);
    NoWrap(m, b / m - a / m);
  }

  lemma IncMod(a: nat, m: nat)
    requires m > 0
    ensures (a % m + 1) % m == (a + 1) % m
  {
    SameRest(a % m + 1, a + 1, -(a / m), m);
  }

  // ---------------------------------------------------------------- every step keeps the invariant

  lemma ReadersMove(s: State, s': State, t: Tid)
    requires forall x :: x != t ==> (x in s.threads <==> x in s'.threads) && (x in s.threads ==> s'.threads[x] == s.threads[x])
    ensures Readers(s') - {t} == Readers(s) - {t} && Writers(s') - {t} == Writers(s) - {t}
  {
  }

  lemma Counted(a: set<Tid>, b: set<Tid>, t: Tid)
    requires a - {t} == b - {t}
    ensures |b| == |a| + (if t in b then 1 else 0) - (if t in a then 1 else 0)
  {
    if t in a { assert a == (a - {t}) + {t}; } else { assert a == a - {t}; }
    if t in b { assert b == (b - {t}) + {t}; } else { assert b == b - {t}; }
  }

  /** How the numbers of readers and writers change when only `t` moves. */
  lemma Recount(s: State, s': State, t: Tid)
    requires forall x :: x != t ==> (x in s.threads <==> x in s'.threads) && (x in s.threads ==> s'.threads[x] == s.threads[x])
    ensures |Readers(s')| == |Readers(s)| + (if t in Readers(s') then 1 else 0) - (if t in Readers(s) then 1 else 0)
    ensures |Writers(s')| == |Writers(s)| + (if t in Writers(s') then 1 else 0) - (if t in Writers(s) then 1 else 0)
  {
    ReadersMove(s, s', t);
    Counted(Readers(s), Readers(s'), t);
    Counted(Writers(s), Writers(s'), t);
  }

  lemma Incs(s: State)
    requires WordOK(s)
    ensures Inc(s, s.word.write) == (s.w + 1) % s.m && Inc(s, s.word.read) == (s.r + 1) % s.m && Inc(s, s.word.users) == (s.u + 1) % s.m
  {
    IncMod(s.w, s.m);
    IncMod(s.r, s.m);
    IncMod(s.u, s.m);
  }

  /** A holder has the lock to itself: the counters meet, and nobody else is in. */
  lemma HolderAlone(s: State, t: Tid)
    requires Inv(s) && t in s.threads && Holds(s.threads[t])
    ensures s.w == s.r == s.threads[t].v && Readers(s) == {}
    ensures forall x :: x in s.threads && x != t ==> !Holds(s.threads[x]) && (IsWriter(s.threads[x]) ==> s.threads[x].v > s.threads[t].v)
  {
    assert PcOK(s, s.threads[t]);
    forall x | x in s.threads && x != t ensures !Holds(s.threads[x]) && (IsWriter(s.threads[x]) ==> s.threads[x].v > s.threads[t].v) {
      assert PcOK(s, s.threads[x]);
    }
  }

  lemma TakeInv(s: State, s': State, t: Tid)
    requires Inv(s) && TakeTicket(s, s', t)
    ensures Inv(s')
  {
    Recount(s, s', t);
    Incs(s);
    forall x | x in s'.threads ensures PcOK(s', s'.threads[x]) { if x != t { assert PcOK(s, s.threads[x]); } }
    forall x | x in s.threads && IsWriter(s.threads[x]) ensures s.threads[x].v < s.u { assert PcOK(s, s.threads[x]); }
  }

  lemma PollInv(s: State, s': State, t: Tid)
    requires Inv(s) && Poll(s, s', t)
    ensures Inv(s')
  {
    var pc := s.threads[t];
    assert PcOK(s, pc);
    if pc.val == s.word.write {
      SameMod(s.w, pc.v, s.m);
      Recount(s, s', t);
      forall x | x in s'.threads ensures PcOK(s', s'.threads[x]) { if x != t { assert PcOK(s, s.threads[x]); } }
    }
  }

  /** Steps that change nothing but the position of `t`. */
  lemma PlainInv(s: State, s': State, t: Tid)
    requires Inv(s) && s'.m == s.m && s'.word == s.word && s'.w == s.w && s'.r == s.r && s'.u == s.u
    requires forall x :: x != t ==> (x in s.threads <==> x in s'.threads) && (x in s.threads ==> s'.threads[x] == s.threads[x])
    requires t in Readers(s) <==> t in Readers(s')
    requires t in Writers(s) <==> t in Writers(s')
    requires t in Writers(s) && t in Writers(s') ==> s.threads[t].v == s'.threads[t].v
    requires t in s'.threads ==> PcOK(s', s'.threads[t])
    ensures Inv(s')
  {
    Recount(s, s', t);
    forall x | x in s'.threads && x != t ensures PcOK(s', s'.threads[x]) { assert PcOK(s, s.threads[x]); }
    forall x | x in s'.threads && x != t && IsWriter(s'.threads[x]) ensures x in Writers(s) { }
  }

  lemma LoadInv(s: State, s': State, t: Tid)
    requires Inv(s) && (TryLoad(s, s', t) || UnlockLoad(s, s', t))
    ensures Inv(s')
  {
    if t in s.threads { assert PcOK(s, s.threads[t]); }
    PlainInv(s, s', t);
  }

  lemma TryLockInv(s: State, s': State, t: Tid)
    requires Inv(s) && TryLock(s, s', t)
    ensures Inv(s')
  {
    Recount(s, s', t);
    Incs(s);
    var old_ := s.threads[t].t;
    if old_.users == old_.write && s.word == old_ { SameMod(s.w, s.u, s.m); }
    forall x | x in s'.threads ensures PcOK(s', s'.threads[x]) { if x != t { assert PcOK(s, s.threads[x]); } }
    forall x | x in s.threads && IsWriter(s.threads[x]) ensures s.threads[x].v < s.u { assert PcOK(s, s.threads[x]); }
  }

  lemma TrySharedInv(s: State, s': State, t: Tid)
    requires Inv(s) && TryLockShared(s, s', t) && !Stale(s, t)
    ensures Inv(s')
  {
    Recount(s, s', t);
    Incs(s);
    if s.word == SharedExpected(s.threads[t].t) {
      SameMod(s.r, s.u, s.m);
      NoWriters(s);
    }
    forall x | x in s'.threads ensures PcOK(s', s'.threads[x]) { if x != t { assert PcOK(s, s.threads[x]); } }
  }

  lemma NoWriters(s: State)
    requires Inv(s) && s.u == s.r
    ensures forall x :: x in s.threads ==> !IsWriter(s.threads[x])
  {
    forall x | x in s.threads ensures !IsWriter(s.threads[x]) { assert PcOK(s, s.threads[x]); }
  }

  lemma HolderInv(s: State, s': State, t: Tid)
    requires Inv(s) && (UnlockStore(s, s', t) || Downgrade(s, s', t))
    ensures Inv(s')
  {
    HolderAlone(s, t);
    Recount(s, s', t);
    Incs(s);
    assert PcOK(s, s.threads[t]);
    forall x | x in s'.threads ensures PcOK(s', s'.threads[x]) { if x != t { assert PcOK(s, s.threads[x]); } }
  }

  lemma UnlockSharedInv(s: State, s': State, t: Tid)
    requires Inv(s) && UnlockShared(s, s', t)
    ensures Inv(s')
  {
    Recount(s, s', t);
    Incs(s);
    assert t in Readers(s);
    forall x | x in s'.threads ensures PcOK(s', s'.threads[x]) {
      assert PcOK(s, s.threads[x]);
      if Holds(s.threads[x]) { HolderAlone(s, x); }
    }
  }

  lemma NextInv(s: State, s': State)
    requires Inv(s) && CleanNext(s, s')
    ensures Inv(s')
  {
    var t :| Step(s, s', t) && !(Stale(s, t) && TryLockShared(s, s', t));
    if TakeTicket(s, s', t) { TakeInv(s, s', t); }
    else if Poll(s, s', t) { PollInv(s, s', t); }
    else if TryLoad(s, s', t) || UnlockLoad(s, s', t) { LoadInv(s, s', t); }
    else if TryLock(s, s', t) { TryLockInv(s, s', t); }
    else if TryLockShared(s, s', t) { TrySharedInv(s, s', t); }
    else if UnlockShared(s, s', t) { UnlockSharedInv(s, s', t); }
    else { HolderInv(s, s', t); }
  }

  // ---------------------------------------------------------------- whole runs

  ghost predicate StepAt(run: seq<State>, i: nat) {
    i + 1 < |run| ==> Next(run[i], run[i + 1])
  }

  ghost predicate IsRun(run: seq<State>) {
    |run| > 0 && Init(run[0]) && forall i: nat :: StepAt(run, i)
  }

  ghost predicate CleanAt(run: seq<State>, i: nat) {
    i + 1 < |run| ==> CleanNext(run[i], run[i + 1])
  }

  /** A run in which no stale swap succeeds. */
  ghost predicate IsClean(run: seq<State>) {
    |run| > 0 && Init(run[0]) && forall i: nat :: CleanAt(run, i)
  }

  lemma SameBuild(s: State, s': State)
    requires Next(s, s')
    ensures s'.parallel == s.parallel && s'.m == s.m
  {
  }

  lemma {:induction false} BuildStays(run: seq<State>, i: nat)
    requires IsRun(run) && i < |run|
    ensures run[i].parallel == run[0].parallel && run[i].m == run[0].m
  {
    if i > 0 {
      BuildStays(run, i - 1);
      assert StepAt(run, i - 1);
      SameBuild(run[i - 1], run[i]);
    }
  }

  /** With parallel addition every run is clean. */
  lemma ParallelIsClean(run: seq<State>)
    requires IsRun(run) && run[0].parallel
    ensures IsClean(run)
  {
    forall i: nat ensures CleanAt(run, i) {
      assert StepAt(run, i);
      if i + 1 < |run| {
        BuildStays(run, i);
        var t :| Step(run[i], run[i + 1], t);
        assert !Stale(run[i], t);
      }
    }
  }

  lemma {:induction false} RunInv(run: seq<State>, i: nat)
    requires IsClean(run) && i < |run|
    ensures Inv(run[i])
  {
    if i == 0 {
      assert Readers(run[0]) == {} && Writers(run[0]) == {};
    } else {
      RunInv(run, i - 1);
      assert CleanAt(run, i - 1);
      NextInv(run[i - 1], run[i]);
    }
  }

  /** On k bits, read - write is the number of readers and users - read the number of holding and queued writers. */
  ghost predicate CountersMatch(s: State) {
    s.m > 0 && (s.word.read - s.word.write) % s.m == |Readers(s)| && (s.word.users - s.word.read) % s.m == |Writers(s)|
  }

  lemma InvMatches(s: State)
    requires Inv(s)
    ensures CountersMatch(s)
  {
    DiffMod(s.w, s.r, s.m);
    DiffMod(s.r, s.u, s.m);
  }

  lemma CountersAreExact(run: seq<State>, i: nat)
    requires IsClean(run) && i < |run|
    ensures CountersMatch(run[i])
  {
    RunInv(run, i);
    InvMatches(run[i]);
  }

  lemma DiffMod(a: nat, b: nat, m: nat)
    requires m > 0 && a <= b < a + m
    ensures (b % m - a % m) % m == b - a
  {
    var k := a / m - b / m;
    assert b % m - a % m == b - a + k * m by {
      assert b == (b / m) * m + b % m && a == (a / m) * m + a % m;
      assert k * m == (a / m) * m - (b / m) * m;
    }
    SameRest(b % m - a % m, b - a, k, m);
    MulDiv(0, m, b - a);
  }

  /** A writer excludes readers and other writers, and every other queued writer has a later ticket. */
  lemma WritersExclude(run: seq<State>, i: nat, t: Tid, x: Tid)
    requires IsClean(run) && i < |run| && t in run[i].threads && Holds(run[i].threads[t]) && x in run[i].threads && x != t
    ensures !run[i].threads[x].Reading? && !Holds(run[i].threads[x])
    ensures run[i].threads[x].Queued? ==> run[i].threads[x].v > run[i].threads[t].v
  {
    RunInv(run, i);
    HolderAlone(run[i], t);
    assert x !in Readers(run[i]);
  }

  /** The half-word store of `unlock` loses no update: it adds one to what `write` and `read` hold now. */
  lemma UnlockLosesNothing(run: seq<State>, i: nat, t: Tid)
    requires IsClean(run) && i + 1 < |run| && UnlockStore(run[i], run[i + 1], t)
    ensures var s, s' := run[i], run[i + 1];
      s.m > 0 && s'.word == Ticket((s.word.write + 1) % s.m, (s.word.read + 1) % s.m, s.word.users)
  {
    RunInv(run, i);
    assert PcOK(run[i], run[i].threads[t]);
  }

  // ---------------------------------------------------------------- outcomes

  ghost predicate Free(s: State) { Readers(s) == {} && Writers(s) == {} }

  lemma EmptyIffZero(a: set<Tid>)
    ensures a == {} <==> |a| == 0
  {
  }

  /** The word against the holders. */
  lemma WordTellsHolders(s: State)
    requires Inv(s)
    ensures s.word.users == s.word.write <==> Free(s)
    ensures s.word.users == s.word.read <==> Writers(s) == {}
  {
    EmptyIffZero(Readers(s));
    EmptyIffZero(Writers(s));
    if s.word.users == s.word.write { SameMod(s.w, s.u, s.m); }
    if s.word.users == s.word.read { SameMod(s.r, s.u, s.m); }
  }

  /** A queued writer enters if and only if all the tickets before its own have been given up. */
  lemma PollOutcome(run: seq<State>, i: nat, t: Tid)
    requires IsClean(run) && i + 1 < |run| && Poll(run[i], run[i + 1], t)
    ensures if run[i].threads[t].v == run[i].w then run[i + 1].threads == run[i].threads[t := Writing(run[i].w)] else run[i + 1] == run[i]
  {
    RunInv(run, i);
    assert PcOK(run[i], run[i].threads[t]);
    if run[i].threads[t].val == run[i].word.write { SameMod(run[i].w, run[i].threads[t].v, run[i].m); }
  }

  ghost predicate IsTry(pc: Pc) { pc.TryWrite? || pc.TryRead? }

  /** Until its swap a thread keeps what it loaded. */
  lemma {:induction false} LoadedIsKept(run: seq<State>, j: nat, i: nat, t: Tid)
    requires IsClean(run) && j < i < |run| && TryLoad(run[j], run[j + 1], t)
    requires forall k: nat :: j < k <= i ==> t in run[k].threads && IsTry(run[k].threads[t])
    ensures t in run[i].threads && IsTry(run[i].threads[t]) && run[i].threads[t].t == run[j].word
  {
    if i > j + 1 {
      LoadedIsKept(run, j, i - 1, t);
      assert CleanAt(run, i - 1);
      KeepsLoaded(run[i - 1], run[i], t);
    }
  }

  lemma KeepsLoaded(s: State, s': State, t: Tid)
    requires CleanNext(s, s') && t in s.threads && IsTry(s.threads[t]) && t in s'.threads && IsTry(s'.threads[t])
    ensures s'.threads[t] == s.threads[t]
  {
  }

  /** `try_lock` takes the lock, then free, if and only if the lock was free when it loaded the word and the word has not changed. */
  lemma TryLockOutcome(run: seq<State>, j: nat, i: nat, t: Tid)
    requires IsClean(run) && j < i && i + 1 < |run| && TryLoad(run[j], run[j + 1], t) && TryLock(run[i], run[i + 1], t)
    requires forall k: nat :: j < k <= i ==> t in run[k].threads && IsTry(run[k].threads[t])
    ensures if Free(run[j]) && run[i].word == run[j].word then Free(run[i]) && run[i + 1].threads == run[i].threads[t := Writing(run[i].u)]
            else run[i + 1].threads == run[i].threads - {t}
  {
    LoadedIsKept(run, j, i, t);
    RunInv(run, i);
    RunInv(run, j);
    WordTellsHolders(run[j]);
    WordTellsHolders(run[i]);
  }

  /** `try_lock_shared` makes a reader only when no writer is in, and fails only if a writer was in at its load or the word has changed. */
  lemma TryLockSharedOutcome(run: seq<State>, j: nat, i: nat, t: Tid)
    requires IsClean(run) && j < i && i + 1 < |run| && TryLoad(run[j], run[j + 1], t) && TryLockShared(run[i], run[i + 1], t)
    requires forall k: nat :: j < k <= i ==> t in run[k].threads && IsTry(run[k].threads[t])
    ensures run[i + 1].threads == run[i].threads[t := Reading] || run[i + 1].threads == run[i].threads - {t}
    ensures t in run[i + 1].threads ==> Writers(run[i]) == {}
    ensures t !in run[i + 1].threads ==> Writers(run[j]) != {} || run[i].word != run[j].word
  {
    LoadedIsKept(run, j, i, t);
    RunInv(run, i);
    RunInv(run, j);
    WordTellsHolders(run[j]);
    WordTellsHolders(run[i]);
  }

  /** A writer that unlocks gives up its ticket, so that the next one is served; one that downgrades stays in as a reader; a reader that unlocks gives up one. */
  lemma ReleaseOutcome(run: seq<State>, i: nat, t: Tid)
    requires IsClean(run) && i + 1 < |run| && t in run[i].threads
    ensures var s, s' := run[i], run[i + 1];
      && (UnlockStore(s, s', t) ==> s.w == s.threads[t].v && s'.w == s.w + 1 && Readers(s') == {} && Writers(s') == Writers(s) - {t})
      && (Downgrade(s, s', t) ==> s.w == s.threads[t].v && s'.w == s.w && Readers(s') == {t} && Writers(s') == Writers(s) - {t})
      && (UnlockShared(s, s', t) ==> s'.w == s.w + 1 && Readers(s') == Readers(s) - {t} && Writers(s') == Writers(s))
  {
    RunInv(run, i);
    if Holds(run[i].threads[t]) { HolderAlone(run[i], t); }
  }

  // ---------------------------------------------------------------- the scalar build

  /** The two builds of `try_lock_shared` store the same word exactly when the loaded word showed no writer. */
  lemma BuildsAgree(m: nat, t: Ticket)
    requires m > 0 && t.read < m && t.users < m
    ensures SharedStored(m, t) == SharedStoredScalar(m, t) <==> t.users == t.read
  {
    if (t.read + 1) % m == (t.users + 1) % m {
      if t.read <= t.users { SameMod(t.read + 1, t.users + 1, m); } else { SameMod(t.users + 1, t.read + 1, m); }
    }
  }

  /** A remainder of a difference is 0 only between numbers with the same remainder. */
  lemma DiffNotZero(a: nat, b: nat, m: nat)
    requires a < m && b < m && (a - b) % m == 0
    ensures a == b
  {
    if a > b { MulDiv(0, m, a - b); }
    if a < b {
      SameRest(a - b, a - b + m, 0 - 1, m);
      MulDiv(0, m, a - b + m);
    }
  }

  /** After a stale swap `users` and `read` tell of a writer, and there is none. */
  lemma StaleMismatch(s: State, s': State, t: Tid)
    requires Inv(s) && TryLockShared(s, s', t) && Stale(s, t) && s.threads[t].t.users < s.m
    ensures !CountersMatch(s')
  {
    SameMod(s.r, s.u, s.m);
    NoWriters(s);
    assert Writers(s') == {};
    BuildsAgree(s.m, s.threads[t].t);
    if CountersMatch(s') { DiffNotZero(s'.word.users, s'.word.read, s.m); }
  }

  /** A successful `try_lock_shared` leaves counters that match the holders exactly when it is not stale. */
  lemma SharedSwapIsExact(s: State, s': State, t: Tid)
    requires Inv(s) && TryLockShared(s, s', t) && s.word == SharedExpected(s.threads[t].t) && s.threads[t].t.users < s.m
    ensures CountersMatch(s') <==> !Stale(s, t)
    ensures !Stale(s, t) ==> Inv(s')
  {
    if Stale(s, t) {
      StaleMismatch(s, s', t);
    } else {
      TrySharedInv(s, s', t);
      InvMatches(s');
    }
  }

  /** Thread 0 loaded the word during a write; then writers have locked and unlocked `j` times in all. */
  ghost function After(m: nat, j: nat): State
    requires m >= 2
  {
    State(m, false, Ticket(j % m, j % m, j % m), j, j, j, map[0 := TryRead(Ticket(0, 0, 1))])
  }

  /** The runs that reach a state. */
  ghost predicate Reaches(run: seq<State>, s: State) {
    IsRun(run) && run[|run| - 1] == s
  }

  lemma Extend(run: seq<State>, s: State, s': State)
    requires Reaches(run, s) && Next(s, s')
    ensures Reaches(run + [s'], s')
  {
    var longer := run + [s'];
    forall i: nat ensures StepAt(longer, i) {
      assert StepAt(run, i);
    }
  }

  /** One more write lock and unlock by thread 1. */
  lemma OneMore(m: nat, j: nat, run: seq<State>) returns (longer: seq<State>)
    requires m >= 2 && Reaches(run, After(m, j))
    ensures Reaches(longer, After(m, j + 1))
  {
    var s0 := After(m, j);
    IncMod(j, m);
    var s1 := Goto(s0, 1, Queued(j, j % m)).(word := Ticket(j % m, j % m, (j + 1) % m), u := j + 1);
    assert TakeTicket(s0, s1, 1);
    assert Step(s0, s1, 1);
    Extend(run, s0, s1);
    var s2 := Goto(s1, 1, Writing(j));
    assert Poll(s1, s2, 1);
    assert Step(s1, s2, 1);
    Extend(run + [s1], s1, s2);
    var s3 := Goto(s2, 1, Unlocking(j, s2.word));
    assert UnlockLoad(s2, s3, 1);
    assert Step(s2, s3, 1);
    Extend(run + [s1] + [s2], s2, s3);
    var s4 := After(m, j + 1);
    assert s3.threads - {1} == s4.threads;
    assert UnlockStore(s3, s4, 1);
    assert Step(s3, s4, 1);
    Extend(run + [s1] + [s2] + [s3], s3, s4);
    longer := run + [s1] + [s2] + [s3] + [s4];
  }

  lemma FirstWrite(m: nat) returns (run: seq<State>)
    requires m >= 2
    ensures Reaches(run, After(m, 1))
  {
    var s0 := State(m, false, Ticket(0, 0, 0), 0, 0, 0, map[]);
    ZeroMod(m);
    var s1 := Goto(s0, 1, Queued(0, 0)).(word := Ticket(0, 0, 1), u := 1);
    assert TakeTicket(s0, s1, 1);
    assert Step(s0, s1, 1);
    assert Reaches([s0], s0);
    Extend([s0], s0, s1);
    var s2 := Goto(s1, 1, Writing(0));
    assert Poll(s1, s2, 1);
    assert Step(s1, s2, 1);
    Extend([s0] + [s1], s1, s2);
    var s3 := Goto(s2, 0, TryRead(s2.word));
    assert TryLoad(s2, s3, 0);
    assert Step(s2, s3, 0);
    Extend([s0] + [s1] + [s2], s2, s3);
    var s4 := Goto(s3, 1, Unlocking(0, s3.word));
    assert UnlockLoad(s3, s4, 1);
    assert Step(s3, s4, 1);
    Extend([s0] + [s1] + [s2] + [s3], s3, s4);
    var s5 := After(m, 1);
    assert s4.threads - {1} == s5.threads;
    assert UnlockStore(s4, s5, 1);
    assert Step(s4, s5, 1);
    Extend([s0] + [s1] + [s2] + [s3] + [s4], s4, s5);
    run := [s0] + [s1] + [s2] + [s3] + [s4] + [s5];
  }

  lemma ZeroMod(m: nat)
    requires m >= 2
    ensures 0 % m == 0 && 1 % m == 1 && m % m == 0
  {
    MulDiv(0, m, 0);
    MulDiv(0, m, 1);
    MulDiv(1, m, 0);
  }

  lemma {:induction false} ManyWrites(m: nat, j: nat) returns (run: seq<State>)
    requires m >= 2 && j >= 1
    ensures Reaches(run, After(m, j))
  {
    if j == 1 {
      run := FirstWrite(m);
    } else {
      var shorter := ManyWrites(m, j - 1);
      run := OneMore(m, j - 1, shorter);
    }
  }

  /**
   In the scalar build a run can go wrong: 2^k write locks between the load and the swap of one
   `try_lock_shared` leave a reader and, in the counters, a writer that does not exist.
   */
  lemma ScalarBuildCanLoseCount(m: nat) returns (run: seq<State>, s: State)
    requires m >= 2
    ensures Reaches(run, s) && !s.parallel && |Writers(s)| == 0 && |Readers(s)| == 1 && s.word.users != s.word.read
  {
    var before := ManyWrites(m, m);
    var s0 := After(m, m);
    ZeroMod(m);
    s := Goto(s0, 0, Reading).(word := Ticket(0, 1 % m, 2 % m), r := m + 1, u := m + 1);
    assert TryLockShared(s0, s, 0);
    assert Step(s0, s, 0);
    Extend(before, s0, s);
    run := before + [s];
    assert Readers(s) == {0} && Writers(s) == {};
    if 2 % m == 1 % m { SameMod(1, 2, m); }
  }
}
