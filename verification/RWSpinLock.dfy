/**
 folly::RWSpinLock: readers, an upgrader and a writer in one word, changed by single
 fetch-and-add, fetch-and-or, fetch-and-and and compare-and-swap steps.

 Well-behaved clients: a thread releases only what it holds. The reader field is unbounded.
 */
module RWSpinLock {
  type Tid = nat

  const READER: nat := 4
  const UPGRADED: nat := 2
  const WRITER: nat := 1

  datatype Pc =
    | Reading
    | Transient       // try_lock_shared added READER, saw a writer or upgrader, and is about to take it back
    | Upgrading       // holds the upgrade lock
    | Writing
    | Downgrading     // unlock_and_lock_shared: added READER, about to clear WRITER and UPGRADED
    | Retreating      // unlock_and_lock_upgrade: set UPGRADED, about to subtract WRITER

  datatype State = State(bits: nat, threads: map<Tid, Pc>)

  /** The lowest bit of the word. */
  function HasWriter(bits: nat): (r: bool) { bits % 4 == 1 || bits % 4 == 3 }

  /** The second lowest bit. */
  function HasUpgraded(bits: nat): (r: bool) { bits % 4 >= 2 }

  function OrUpgraded(bits: nat): (r: nat) { if HasUpgraded(bits) then bits else bits + UPGRADED }

  /** `bits & ~(WRITER | UPGRADED)` */
  function Cleared(bits: nat): (r: nat) { bits - bits % 4 }

  // ---------------------------------------------------------------- steps

  ghost predicate Init(s: State) { s == State(0, map[]) }

  ghost function Goto(s: State, t: Tid, pc: Pc): State { s.(threads := s.threads[t := pc]) }

  ghost function Gone(s: State, t: Tid): State { s.(threads := s.threads - {t}) }

  ghost predicate At(s: State, t: Tid, pc: Pc) { t in s.threads && s.threads[t] == pc }

  ghost predicate TryLock(s: State, s': State, t: Tid) {
    t !in s.threads && s' == if s.bits == 0 then Goto(s, t, Writing).(bits := WRITER) else s
  }

  ghost predicate Unlock(s: State, s': State, t: Tid) {
    At(s, t, Writing) && s' == Gone(s, t).(bits := Cleared(s.bits))
  }

  ghost predicate TryLockShared(s: State, s': State, t: Tid) {
    && t !in s.threads
    && s' == Goto(s, t, if s.bits % 4 != 0 then Transient else Reading).(bits := s.bits + READER)
  }

  ghost predicate TakeBack(s: State, s': State, t: Tid) {
    At(s, t, Transient) && s.bits >= READER && s' == Gone(s, t).(bits := s.bits - READER)
  }

  ghost predicate UnlockShared(s: State, s': State, t: Tid) {
    At(s, t, Reading) && s.bits >= READER && s' == Gone(s, t).(bits := s.bits - READER)
  }

  ghost predicate DowngradeAdd(s: State, s': State, t: Tid) {
    At(s, t, Writing) && s' == Goto(s, t, Downgrading).(bits := s.bits + READER)
  }

  ghost predicate DowngradeClear(s: State, s': State, t: Tid) {
    At(s, t, Downgrading) && s' == Goto(s, t, Reading).(bits := Cleared(s.bits))
  }

  /** On failure the bit stays set: somebody else holds it, or the writer will clear it. */
  ghost predicate TryLockUpgrade(s: State, s': State, t: Tid) {
    t !in s.threads && s' == (if s.bits % 4 == 0 then Goto(s, t, Upgrading) else s).(bits := OrUpgraded(s.bits))
  }

  ghost predicate UnlockUpgrade(s: State, s': State, t: Tid) {
    At(s, t, Upgrading) && s.bits >= UPGRADED && s' == Gone(s, t).(bits := s.bits - UPGRADED)
  }

  ghost predicate TryUpgradeToWriter(s: State, s': State, t: Tid) {
    At(s, t, Upgrading) && s' == if s.bits == UPGRADED then Goto(s, t, Writing).(bits := WRITER) else s
  }

  ghost predicate UpgradeToReader(s: State, s': State, t: Tid) {
    At(s, t, Upgrading) && s' == Goto(s, t, Reading).(bits := s.bits + READER - UPGRADED)
  }

  ghost predicate RetreatOr(s: State, s': State, t: Tid) {
    At(s, t, Writing) && s' == Goto(s, t, Retreating).(bits := OrUpgraded(s.bits))
  }

  ghost predicate RetreatSubtract(s: State, s': State, t: Tid) {
    At(s, t, Retreating) && s.bits >= WRITER && s' == Goto(s, t, Upgrading).(bits := s.bits - WRITER)
  }

  ghost predicate ReaderStep(s: State, s': State, t: Tid) {
    TryLockShared(s, s', t) || TakeBack(s, s', t) || UnlockShared(s, s', t)
  }

  ghost predicate WriterStep(s: State, s': State, t: Tid) {
    || TryLock(s, s', t) || Unlock(s, s', t) || DowngradeAdd(s, s', t) || DowngradeClear(s, s', t)
    || RetreatOr(s, s', t) || RetreatSubtract(s, s', t)
  }

  ghost predicate UpgradeStep(s: State, s': State, t: Tid) {
    TryLockUpgrade(s, s', t) || UnlockUpgrade(s, s', t) || TryUpgradeToWriter(s, s', t) || UpgradeToReader(s, s', t)
  }

  ghost predicate Next(s: State, s': State) {
    exists t :: ReaderStep(s, s', t) || WriterStep(s, s', t) || UpgradeStep(s, s', t)
  }

  // ---------------------------------------------------------------- the invariant

  /** Counted in the reader field: held, transient, or about to be left by a downgrade. */
  ghost predicate Counts(pc: Pc) { pc.Reading? || pc.Transient? || pc.Downgrading? }

  ghost predicate Writes(pc: Pc) { pc.Writing? || pc.Downgrading? || pc.Retreating? }

  ghost function Counted(s: State): set<Tid> { set t | t in s.threads && Counts(s.threads[t]) }

  ghost function Writers(s: State): set<Tid> { set t | t in s.threads && Writes(s.threads[t]) }

  ghost function Upgraders(s: State): set<Tid> { set t | t in s.threads && s.threads[t].Upgrading? }

  ghost function Held(s: State): set<Tid> { set t | t in s.threads && s.threads[t].Reading? }

  ghost predicate Inv(s: State) {
    && s.bits / READER == |Counted(s)|
    && |Writers(s)| + |Upgraders(s)| <= 1
    && (HasWriter(s.bits) <==> |Writers(s)| == 1)
    && (HasUpgraded(s.bits) ==> |Writers(s)| + |Upgraders(s)| == 1)
    && (|Upgraders(s)| == 1 ==> HasUpgraded(s.bits))
    && ((exists t :: t in s.threads && s.threads[t].Retreating?) ==> HasUpgraded(s.bits))
    && (|Writers(s)| == 1 ==> Held(s) == {})
  }

  lemma SetMoves(a: set<Tid>, b: set<Tid>, t: Tid)
    requires a - {t} == b - {t}
    ensures |b| == |a| + (if t in b then 1 else 0) - (if t in a then 1 else 0)
  {
    if t in a { assert a == (a - {t}) + {t}; } else { assert a == a - {t}; }
    if t in b { assert b == (b - {t}) + {t}; } else { assert b == b - {t}; }
  }

  ghost predicate OnlyMoves(s: State, s': State, t: Tid) {
    forall x :: x != t ==> (x in s.threads <==> x in s'.threads) && (x in s.threads ==> s'.threads[x] == s.threads[x])
  }

  /** How the counts change when only `t` moves. */
  lemma Recount(s: State, s': State, t: Tid)
    requires OnlyMoves(s, s', t)
    ensures |Counted(s')| == |Counted(s)| + (if t in Counted(s') then 1 else 0) - (if t in Counted(s) then 1 else 0)
    ensures |Writers(s')| == |Writers(s)| + (if t in Writers(s') then 1 else 0) - (if t in Writers(s) then 1 else 0)
    ensures |Upgraders(s')| == |Upgraders(s)| + (if t in Upgraders(s') then 1 else 0) - (if t in Upgraders(s) then 1 else 0)
    ensures Held(s') - {t} == Held(s) - {t}
  {
    assert Counted(s') - {t} == Counted(s) - {t} && Writers(s') - {t} == Writers(s) - {t} && Upgraders(s') - {t} == Upgraders(s) - {t};
    SetMoves(Counted(s), Counted(s'), t);
    SetMoves(Writers(s), Writers(s'), t);
    SetMoves(Upgraders(s), Upgraders(s'), t);
  }

  lemma OneOnly(a: set<Tid>, t: Tid, x: Tid)
    requires |a| <= 1 && t in a && x in a
    ensures t == x
  {
    assert |a - {t}| == 0;
    assert x !in a - {t};
  }

  /** No other thread than a writer can be retreating. */
  lemma RetreatIsWriter(s: State, t: Tid, x: Tid)
    requires Inv(s) && t in Writers(s) && x in s.threads && s.threads[x].Retreating?
    ensures x == t
  {
    OneOnly(Writers(s), t, x);
  }

  lemma ReaderInv(s: State, s': State, t: Tid)
    requires Inv(s) && ReaderStep(s, s', t)
    ensures Inv(s')
  {
    assert OnlyMoves(s, s', t);
    Recount(s, s', t);
    assert forall x :: x in s'.threads && s'.threads[x].Retreating? ==> x in s.threads && s.threads[x].Retreating?;
  }

  lemma TryLockInv(s: State, s': State, t: Tid)
    requires Inv(s) && TryLock(s, s', t)
    ensures Inv(s')
  {
    Recount(s, s', t);
    assert Counted(s) == {} || s.bits != 0;
    assert forall x :: x in s.threads && s.threads[x].Retreating? ==> x in Writers(s);
    assert forall x :: x in Held(s) ==> x in Counted(s);
  }

  /** Nobody else is retreating while `t` writes. */
  lemma OnlyRetreat(s: State, t: Tid)
    requires Inv(s) && t in Writers(s)
    ensures |Writers(s)| == 1 && forall x :: x in s.threads && s.threads[x].Retreating? ==> x == t
  {
    assert |Writers(s)| >= 1;
    forall x | x in s.threads && s.threads[x].Retreating? ensures x == t { RetreatIsWriter(s, t, x); }
  }

  lemma LetGoInv(s: State, s': State, t: Tid)
    requires Inv(s) && (Unlock(s, s', t) || DowngradeClear(s, s', t))
    ensures Inv(s')
  {
    Recount(s, s', t);
    OnlyRetreat(s, t);
    assert |Upgraders(s)| == 0;
  }

  lemma DowngradeAddInv(s: State, s': State, t: Tid)
    requires Inv(s) && DowngradeAdd(s, s', t)
    ensures Inv(s')
  {
    Recount(s, s', t);
    OnlyRetreat(s, t);
  }

  lemma OrBits(bits: nat)
    ensures var b := OrUpgraded(bits); HasUpgraded(b) && b / READER == bits / READER && (HasWriter(b) <==> HasWriter(bits))
  {
  }

  lemma SubtractWriterBits(bits: nat)
    requires HasWriter(bits)
    ensures var b := bits - WRITER; !HasWriter(b) && b / READER == bits / READER && (HasUpgraded(b) <==> HasUpgraded(bits))
  {
  }

  lemma RetreatOrInv(s: State, s': State, t: Tid)
    requires Inv(s) && RetreatOr(s, s', t)
    ensures Inv(s')
  {
    OnlyRetreat(s, t);
    OrBits(s.bits);
    assert Counted(s') == Counted(s) && Writers(s') == Writers(s) && Upgraders(s') == Upgraders(s) && Held(s') == Held(s);
  }

  lemma RetreatSubtractInv(s: State, s': State, t: Tid)
    requires Inv(s) && RetreatSubtract(s, s', t)
    ensures Inv(s')
  {
    OnlyRetreat(s, t);
    SubtractWriterBits(s.bits);
    assert Counted(s') == Counted(s) && Held(s') == Held(s);
    assert Writers(s') == Writers(s) - {t} && Upgraders(s') == Upgraders(s) + {t};
    assert forall x :: x in s'.threads && s'.threads[x].Retreating? ==> x in s.threads && s.threads[x].Retreating? && x != t;
  }

  lemma WriterInv(s: State, s': State, t: Tid)
    requires Inv(s) && WriterStep(s, s', t)
    ensures Inv(s')
  {
    if TryLock(s, s', t) { TryLockInv(s, s', t); }
    else if Unlock(s, s', t) || DowngradeClear(s, s', t) { LetGoInv(s, s', t); }
    else if DowngradeAdd(s, s', t) { DowngradeAddInv(s, s', t); }
    else if RetreatOr(s, s', t) { RetreatOrInv(s, s', t); }
    else { RetreatSubtractInv(s, s', t); }
  }

  lemma UpgradeInv(s: State, s': State, t: Tid)
    requires Inv(s) && UpgradeStep(s, s', t)
    ensures Inv(s')
  {
    assert OnlyMoves(s, s', t);
    Recount(s, s', t);
    assert forall x :: x in s.threads && s.threads[x].Retreating? ==> x in Writers(s);
  }

  lemma NextInv(s: State, s': State)
    requires Inv(s) && Next(s, s')
    ensures Inv(s')
  {
    var t :| ReaderStep(s, s', t) || WriterStep(s, s', t) || UpgradeStep(s, s', t);
    if ReaderStep(s, s', t) { ReaderInv(s, s', t); }
    else if WriterStep(s, s', t) { WriterInv(s, s', t); }
    else { UpgradeInv(s, s', t); }
  }

  // ---------------------------------------------------------------- whole runs

  ghost predicate StepAt(run: seq<State>, i: nat) {
    i + 1 < |run| ==> Next(run[i], run[i + 1])
  }

  ghost predicate IsRun(run: seq<State>) {
    |run| > 0 && Init(run[0]) && forall i: nat :: StepAt(run, i)
  }

  lemma {:induction false} RunInv(run: seq<State>, i: nat)
    requires IsRun(run) && i < |run|
    ensures Inv(run[i])
  {
    if i == 0 {
      assert Counted(run[0]) == {} && Writers(run[0]) == {} && Upgraders(run[0]) == {};
    } else {
      RunInv(run, i - 1);
      assert StepAt(run, i - 1);
      NextInv(run[i - 1], run[i]);
    }
  }

  /** The word says who holds what, and no failed attempt strands a bit. */
  lemma WordIsExact(run: seq<State>, i: nat)
    requires IsRun(run) && i < |run|
    ensures var s := run[i];
      && s.bits / READER == |Counted(s)|
      && (HasWriter(s.bits) <==> Writers(s) != {})
      && (HasUpgraded(s.bits) ==> Upgraders(s) != {} || Writers(s) != {})
      && (Upgraders(s) != {} ==> HasUpgraded(s.bits))
      && (s.threads == map[] ==> s.bits == 0)
  {
    RunInv(run, i);
    var s := run[i];
    if Writers(s) != {} { assert |Writers(s)| >= 1; }
    if Upgraders(s) != {} { assert |Upgraders(s)| >= 1; }
    if s.threads == map[] { assert Counted(s) == {} && Writers(s) == {} && Upgraders(s) == {}; }
  }

  /** Writers exclude readers, upgraders and each other; there is at most one upgrader. */
  lemma LocksExclude(run: seq<State>, i: nat, t: Tid, x: Tid)
    requires IsRun(run) && i < |run| && t in run[i].threads && x in run[i].threads && x != t
    ensures Writes(run[i].threads[t]) ==> run[i].threads[x].Transient?
    ensures run[i].threads[t].Upgrading? ==> run[i].threads[x].Transient? || run[i].threads[x].Reading?
  {
    RunInv(run, i);
    var s := run[i];
    if Writes(s.threads[t]) {
      assert t in Writers(s);
      assert |Writers(s)| >= 1;
      if x in Writers(s) { OneOnly(Writers(s), t, x); }
      assert x !in Held(s);
      assert Upgraders(s) == {};
    } else if s.threads[t].Upgrading? {
      assert t in Upgraders(s);
      assert |Upgraders(s)| >= 1;
      if x in Upgraders(s) { OneOnly(Upgraders(s), t, x); }
      assert Writers(s) == {};
      assert x !in Writers(s);
    }
  }

  /** A holder can always let go: the subtractions never borrow from another field. */
  lemma ReleasesAreEnabled(run: seq<State>, i: nat, t: Tid)
    requires IsRun(run) && i < |run| && t in run[i].threads
    ensures Counts(run[i].threads[t]) ==> run[i].bits >= READER
    ensures run[i].threads[t].Upgrading? ==> run[i].bits >= UPGRADED && HasUpgraded(run[i].bits)
    ensures Writes(run[i].threads[t]) ==> run[i].bits >= WRITER && HasWriter(run[i].bits)
  {
    RunInv(run, i);
    var s := run[i];
    if t in Counted(s) { assert |Counted(s)| >= 1; }
    if t in Upgraders(s) { assert |Upgraders(s)| >= 1; }
    if t in Writers(s) { assert |Writers(s)| >= 1; }
  }

  // ---------------------------------------------------------------- outcomes

  ghost predicate NoWriterOrUpgrader(s: State) { Writers(s) == {} && Upgraders(s) == {} }

  /** The word against the holders: 0 when nobody is in, no flag when there is no writer and no upgrader. */
  lemma WordTellsHolders(s: State)
    requires Inv(s)
    ensures s.bits == 0 <==> s.threads == map[]
    ensures s.bits % 4 == 0 <==> NoWriterOrUpgrader(s)
  {
    assert s.threads.Keys == Counted(s) + Writers(s) + Upgraders(s);
    if s.bits == 0 { assert Counted(s) == {} && Writers(s) == {} && Upgraders(s) == {}; }
    if s.threads == map[] { assert Counted(s) == {} && Writers(s) == {} && Upgraders(s) == {}; }
    if s.bits % 4 == 0 { assert |Writers(s)| == 0 && |Upgraders(s)| == 0; }
    if NoWriterOrUpgrader(s) { assert |Writers(s)| == 0 && |Upgraders(s)| == 0; }
  }

  /** `try_lock` takes the lock if and only if nobody is in, and else changes nothing. */
  lemma TryLockOutcome(run: seq<State>, i: nat, t: Tid)
    requires IsRun(run) && i + 1 < |run| && TryLock(run[i], run[i + 1], t)
    ensures if run[i].threads == map[] then run[i + 1].threads == map[t := Writing] else run[i + 1] == run[i]
  {
    RunInv(run, i);
    WordTellsHolders(run[i]);
  }

  /** `try_lock_shared` makes a reader if and only if there is no writer and no upgrader; else it is about to take its count back. */
  lemma TryLockSharedOutcome(run: seq<State>, i: nat, t: Tid)
    requires IsRun(run) && i + 1 < |run| && TryLockShared(run[i], run[i + 1], t)
    ensures run[i + 1].threads == run[i].threads[t := if NoWriterOrUpgrader(run[i]) then Reading else Transient]
  {
    RunInv(run, i);
    WordTellsHolders(run[i]);
  }

  /** `try_lock_upgrade` makes an upgrader, readers or not, if and only if there is no writer and no upgrader. */
  lemma TryLockUpgradeOutcome(run: seq<State>, i: nat, t: Tid)
    requires IsRun(run) && i + 1 < |run| && TryLockUpgrade(run[i], run[i + 1], t)
    ensures run[i + 1].threads == if NoWriterOrUpgrader(run[i]) then run[i].threads[t := Upgrading] else run[i].threads
  {
    RunInv(run, i);
    WordTellsHolders(run[i]);
  }

  /** The upgrader becomes the writer if and only if it is alone, and else stays the upgrader. */
  lemma UpgradeOutcome(run: seq<State>, i: nat, t: Tid)
    requires IsRun(run) && i + 1 < |run| && TryUpgradeToWriter(run[i], run[i + 1], t)
    ensures if run[i].threads.Keys == {t} then run[i + 1].threads == map[t := Writing] else run[i + 1] == run[i]
  {
    RunInv(run, i);
    var s := run[i];
    assert t in Upgraders(s) && |Upgraders(s)| >= 1;
    assert Writers(s) == {};
    assert s.bits == UPGRADED <==> Counted(s) == {};
    if Counted(s) == {} {
      forall x | x in s.threads ensures x == t {
        assert x !in Counted(s) && x !in Writers(s);
        OneOnly(Upgraders(s), t, x);
      }
    }
    if s.threads.Keys == {t} { assert forall x :: x in Counted(s) ==> x in s.threads.Keys; }
  }

  /** Letting go lets in: behind the writer, and behind a downgrade to reader, the word has no flag and readers get in. */
  lemma ReleaseOutcome(run: seq<State>, i: nat, t: Tid)
    requires IsRun(run) && i + 1 < |run| && (Unlock(run[i], run[i + 1], t) || DowngradeClear(run[i], run[i + 1], t) || UnlockUpgrade(run[i], run[i + 1], t))
    ensures NoWriterOrUpgrader(run[i + 1]) && run[i + 1].bits % 4 == 0
    ensures Held(run[i + 1]) == if DowngradeClear(run[i], run[i + 1], t) then {t} else Held(run[i])
  {
    RunInv(run, i);
    RunInv(run, i + 1);
    var s, s' := run[i], run[i + 1];
    assert t in Writers(s) || t in Upgraders(s);
    if t in Writers(s) { assert |Writers(s)| >= 1; } else { assert |Upgraders(s)| >= 1; }
    Recount(s, s', t);
    assert |Writers(s')| == 0 && |Upgraders(s')| == 0;
    WordTellsHolders(s');
  }

  lemma UpgradeToReaderOutcome(s: State, s': State, t: Tid)
    requires Inv(s) && UpgradeToReader(s, s', t)
    ensures NoWriterOrUpgrader(s') && Held(s') == Held(s) + {t}
  {
    assert t in Upgraders(s) && |Upgraders(s)| >= 1;
    Recount(s, s', t);
    assert |Writers(s')| == 0 && |Upgraders(s')| == 0;
  }

  lemma RetreatOutcome(s: State, s': State, t: Tid)
    requires Inv(s') && RetreatSubtract(s, s', t)
    ensures Writers(s') == {} && Upgraders(s') == {t} && Held(s') == Held(s)
  {
    assert t in Upgraders(s') && |Upgraders(s')| >= 1;
    forall x | x in Upgraders(s') ensures x == t { OneOnly(Upgraders(s'), t, x); }
    assert |Writers(s')| == 0;
  }

  /** Each other move ends where its name says, and moves nobody else. */
  lemma MoveOutcome(run: seq<State>, i: nat, t: Tid)
    requires IsRun(run) && i + 1 < |run| && t in run[i].threads
    ensures var s, s' := run[i], run[i + 1];
      && (UnlockShared(s, s', t) ==> Held(s') == Held(s) - {t} && Counted(s') == Counted(s) - {t})
      && (TakeBack(s, s', t) ==> Held(s') == Held(s) && Counted(s') == Counted(s) - {t})
      && (UpgradeToReader(s, s', t) ==> NoWriterOrUpgrader(s') && Held(s') == Held(s) + {t})
      && (RetreatSubtract(s, s', t) ==> Writers(s') == {} && Upgraders(s') == {t} && Held(s') == Held(s))
  {
    var s, s' := run[i], run[i + 1];
    if UpgradeToReader(s, s', t) {
      assert Inv(s) by { RunInv(run, i); }
      UpgradeToReaderOutcome(s, s', t);
    } else if RetreatSubtract(s, s', t) {
      assert Inv(s') by { RunInv(run, i + 1); }
      RetreatOutcome(s, s', t);
    }
  }
}
