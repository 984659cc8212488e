/** Runs in which `remove` and `lower_bound` do not do what a caller might expect. */
module SkipListWitnesses {
  import opened Options
  import opened SkipListProtocol
  import opened SkipListInvariant
  import opened SkipListTheorems
  import opened SkipListOutcomes
  import opened SkipListLookups

  // ---------------------------------------------------------------- a first insertion, up to its link

  ghost function HeadNode(next: Option<Id>): Node { Node(true, 0, 1, [next], false, false, 0) }

  ghost function NewNode(k: int, cnt: nat): Node { Node(false, k, 1, [None], false, false, cnt) }

  ghost function Empty(k: int): Trail { Trail(k, 0, map[], map[], None, 0) }

  ghost function Filled(k: int): Trail { Trail(k, 0, map[0 := 0], map[0 := None], None, 0) }

  /** Head 0 of height 1, and node 1 with key `k` once it is created; `rest` are the other threads. */
  ghost function Stage(i: nat, k: int, rest: map<Tid, Pc>): State {
    var alone := map[0 := HeadNode(None)];
    var made := map[0 := HeadNode(None), 1 := NewNode(k, 0)];
    var linked := map[0 := HeadNode(Some(1)), 1 := NewNode(k, 1)];
    var held := map[0 := 1];
    if i == 0 then State(alone, 0, 0, map[], rest)
    else if i == 1 then State(alone, 0, 0, map[], rest[1 := Start(Insert, k, 0)])
    else if i == 2 then State(alone, 0, 0, map[], rest[1 := Seek(Insert, Empty(k), 0, 0)])
    else if i == 3 then State(alone, 0, 0, map[], rest[1 := Sought(Insert, Filled(k))])
    else if i == 4 then State(alone, 0, 0, map[], rest[1 := Locking(Insert, Filled(k), 1, 0)])
    else if i == 5 then State(alone, 0, 0, held, rest[1 := Locking(Insert, Filled(k), 1, 1)])
    else if i == 6 then State(made, 0, 0, held, rest[1 := Linking(Filled(k), 1, 1, 0, false)])
    else if i == 7 then State(made, 0, 0, held, rest[1 := Linking(Filled(k), 1, 1, 0, true)])
    else State(linked, 0, 0, held, rest[1 := Linking(Filled(k), 1, 1, 1, false)])
  }

  lemma SearchSteps(k: int, rest: map<Tid, Pc>)
    requires 1 !in rest
    ensures Begin(Stage(0, k, rest), Stage(1, k, rest), 1, Insert, k)
    ensures Enter(Stage(1, k, rest), Stage(2, k, rest), 1)
    ensures Down(Stage(2, k, rest), Stage(3, k, rest), 1)
    ensures AddPick(Stage(3, k, rest), Stage(4, k, rest), 1, 1)
  {
  }

  lemma CreateSteps(k: int, rest: map<Tid, Pc>)
    requires 1 !in rest
    ensures LockLayer(Stage(4, k, rest), Stage(5, k, rest), 1)
    ensures Create(Stage(5, k, rest), Stage(6, k, rest), 1, 1)
  {
    var none: Option<Id> := None;
    assert seq(1, _ => none) == [none];
  }

  lemma LinkSteps(k: int, rest: map<Tid, Pc>)
    requires 1 !in rest
    ensures StoreNew(Stage(6, k, rest), Stage(7, k, rest), 1)
    ensures LinkLayer(Stage(7, k, rest), Stage(8, k, rest), 1)
  {
    var s, s' := Stage(7, k, rest), Stage(8, k, rest);
    var none: Option<Id> := None;
    assert [none][0 := none] == [none] && [none][0 := Some(1)] == [Some(1)];
    assert SetPointer(Stage(6, k, rest), 1, 0, None) == s.nodes;
    assert SetPointer(s, 0, 0, Some(1))[1 := NewNode(k, 1)] == s'.nodes;
  }

  lemma InsertStep(i: nat, k: int, rest: map<Tid, Pc>)
    requires i < 8 && 1 !in rest
    ensures Next(Stage(i, k, rest), Stage(i + 1, k, rest))
  {
    SearchSteps(k, rest);
    CreateSteps(k, rest);
    LinkSteps(k, rest);
    var s, s' := Stage(i, k, rest), Stage(i + 1, k, rest);
    if i < 4 { assert LocalStep(s, s', 1); }
    else if i == 4 { assert LockStep(s, s', 1); }
    else { assert WriteStep(s, s', 1); }
  }

  lemma StageInit(k: int)
    ensures Init(Stage(0, k, map[]))
  {
    var none: Option<Id> := None;
    assert seq(1, _ => none) == [none];
  }

  // ---------------------------------------------------------------- a refused removal

  ghost function Hit(k: int): Trail { Trail(k, 0, map[0 := 0], map[0 := Some(1)], Some(1), 0) }

  ghost function RemoverAt(i: nat, k: int): map<Tid, Pc> {
    if i == 1 then map[2 := Start(Delete, k, 0)]
    else if i == 2 then map[2 := Seek(Delete, Empty(k), 0, 0)]
    else if i == 3 then map[2 := Sought(Delete, Hit(k))]
    else map[]
  }

  lemma RefusedSteps(k: int)
    ensures Begin(Stage(8, k, RemoverAt(0, k)), Stage(8, k, RemoverAt(1, k)), 2, Delete, k)
    ensures Enter(Stage(8, k, RemoverAt(1, k)), Stage(8, k, RemoverAt(2, k)), 2)
    ensures Down(Stage(8, k, RemoverAt(2, k)), Stage(8, k, RemoverAt(3, k)), 2)
    ensures RemoveFails(Stage(8, k, RemoverAt(3, k)), Stage(8, k, RemoverAt(4, k)), 2)
  {
    RefusedSearch(k);
    RefusedEnd(k);
  }

  lemma RefusedSearch(k: int)
    ensures Begin(Stage(8, k, RemoverAt(0, k)), Stage(8, k, RemoverAt(1, k)), 2, Delete, k)
    ensures Enter(Stage(8, k, RemoverAt(1, k)), Stage(8, k, RemoverAt(2, k)), 2)
    ensures Down(Stage(8, k, RemoverAt(2, k)), Stage(8, k, RemoverAt(3, k)), 2)
  {
    var pc := Linking(Filled(k), 1, 1, 1, false);
    assert RemoverAt(1, k)[1 := pc] == RemoverAt(0, k)[1 := pc][2 := Start(Delete, k, 0)];
    assert RemoverAt(2, k)[1 := pc] == RemoverAt(1, k)[1 := pc][2 := Seek(Delete, Empty(k), 0, 0)];
    assert RemoverAt(3, k)[1 := pc] == RemoverAt(2, k)[1 := pc][2 := Sought(Delete, Hit(k))];
  }

  lemma RefusedEnd(k: int)
    ensures RemoveFails(Stage(8, k, RemoverAt(3, k)), Stage(8, k, RemoverAt(4, k)), 2)
  {
    var pc := Linking(Filled(k), 1, 1, 1, false);
    assert RemoverAt(4, k)[1 := pc] == RemoverAt(3, k)[1 := pc] - {2};
  }

  ghost function RefusalAt(i: nat, k: int): State {
    if i <= 8 then Stage(i, k, map[]) else Stage(8, k, RemoverAt(i - 8, k))
  }

  ghost function Refusal(k: int): seq<State> { seq(13, i requires 0 <= i < 13 => RefusalAt(i, k)) }

  lemma RefusalIsRun(k: int)
    ensures IsRun(Refusal(k))
  {
    StageInit(k);
    RefusedSteps(k);
    forall i: nat ensures StepAt(Refusal(k), i) {
      if i < 8 { InsertStep(i, k, map[]); }
      else if i < 12 { assert LocalStep(RefusalAt(i, k), RefusalAt(i + 1, k), 2); }
    }
  }

  lemma LinkedIsIn(k: int, rest: map<Tid, Pc>)
    ensures k in Contents(Stage(8, k, rest)) && k !in SolidKeys(Stage(8, k, rest))
  {
    assert On(Stage(8, k, rest), 1, 0);
  }

  /**
   For every key a removal can return false although a linked, unmarked node has the key throughout the
   call: the node is still being linked, so `okToDelete` refuses it.
   */
  lemma RemoveCanRefuseLinkedKey(k: int)
    ensures var run := Refusal(k);
      && IsRun(run) && Begin(run[8], run[9], 2, Delete, k) && RemoveFails(run[11], run[12], 2)
      && (forall i: nat :: 8 < i <= 11 ==> 2 in run[i].threads)
      && forall i: nat :: 8 <= i <= 12 ==> k in Contents(run[i]) && k !in SolidKeys(run[i])
  {
    RefusalIsRun(k);
    RefusedSteps(k);
    var run := Refusal(k);
    forall i: nat | 8 <= i <= 12 ensures k in Contents(run[i]) && k !in SolidKeys(run[i]) {
      LinkedIsIn(k, RemoverAt(i - 8, k));
    }
  }

  // ---------------------------------------------------------------- a lower bound that is too low

  ghost function LookerAt(i: nat, data: int): map<Tid, Pc> {
    if i == 1 then map[2 := Peek(Lower, data, 0, 1)]
    else if i == 2 then map[2 := Peek(Lower, data, 0, 0)]
    else if i == 3 then map[2 := Settle(Lower, data, Some(1))]
    else map[]
  }

  lemma LookSteps(k: int, data: int)
    ensures LookBegin(Stage(0, k, LookerAt(0, data)), Stage(0, k, LookerAt(1, data)), 2, Lower, data)
    ensures PeekStep(Stage(0, k, LookerAt(1, data)), Stage(0, k, LookerAt(2, data)), 2)
    ensures PeekStep(Stage(8, k, LookerAt(2, data)), Stage(8, k, LookerAt(3, data)), 2)
    ensures LowerReturns(Stage(8, k, LookerAt(3, data)), Stage(8, k, LookerAt(4, data)), 2, Some(1))
  {
    var pc := Linking(Filled(k), 1, 1, 1, false);
    assert LookerAt(3, data)[1 := pc] == LookerAt(2, data)[1 := pc][2 := Settle(Lower, data, Some(1))];
    assert LookerAt(4, data)[1 := pc] == LookerAt(3, data)[1 := pc] - {2};
  }

  ghost function OvertakeAt(i: nat, k: int, data: int): State {
    if i <= 1 then Stage(0, k, LookerAt(i, data))
    else if i <= 10 then Stage(i - 2, k, LookerAt(2, data))
    else Stage(8, k, LookerAt(i - 8, data))
  }

  ghost function Overtake(k: int, data: int): seq<State> { seq(13, i requires 0 <= i < 13 => OvertakeAt(i, k, data)) }

  lemma OvertakeIsRun(k: int, data: int)
    ensures IsRun(Overtake(k, data))
  {
    StageInit(k);
    LookSteps(k, data);
    forall i: nat ensures StepAt(Overtake(k, data), i) {
      if 2 <= i < 10 { InsertStep(i - 2, k, LookerAt(2, data)); }
      else if i < 12 { assert LocalStep(OvertakeAt(i, k, data), OvertakeAt(i + 1, k, data), 2); }
    }
  }

  /**
   For every two keys `k < data`, `lower_bound(data)` can return the node of `k`: inserted between the load
   that showed nothing before `data` and the load that brings back the result.
   */
  lemma LowerBoundCanUndershoot(k: int, data: int)
    requires k < data
    ensures var run := Overtake(k, data);
      && IsRun(run) && LookBegin(run[0], run[1], 2, Lower, data) && (forall i: nat :: 0 < i <= 11 ==> 2 in run[i].threads)
      && LowerReturns(run[11], run[12], 2, Some(1)) && 1 in run[11].nodes && run[11].nodes[1].key == k < data
  {
    OvertakeIsRun(k, data);
    LookSteps(k, data);
  }
}
