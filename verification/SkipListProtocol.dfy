/**
 folly::ConcurrentSkipList: insertion, removal and head growth as a state machine.

 Every pointer load, pointer store, lock acquisition and flag update of
 `addOrGetData`, `remove`, `find`, `lower_bound` and `growHeight` is a step of its
 own; any number of threads interleave them.  A search takes one load per step, so
 what it brings back may be arbitrarily stale.

 The auxiliary field `cnt` of a node counts the layers the node is linked on:
 insertion links layers upwards from 0 and removal unlinks them downwards from
 the top, so the nodes on layer `l` are exactly those with `l < cnt`.
 */
module SkipListProtocol {
  import opened Options

  type Id = nat
  type Tid = nat

  datatype Node = Node(isHead: bool, key: int, height: nat, skip: seq<Option<Id>>,
                       marked: bool, full: bool, cnt: nat)

  /** Why a thread searches: to insert, to delete, or to unlink the node it has already marked. */
  datatype Goal = Insert | Delete | Unlink(victim: Id)

  datatype Lookup = Find | Lower

  /** What `findInsertionPoint` fills in: `preds`, `succs`, the found node and the layer it was found on. */
  datatype Trail = Trail(key: int, top: nat, preds: map<nat, Id>, succs: map<nat, Option<Id>>,
                         found: Option<Id>, foundLayer: nat)

  datatype Pc =
    | Start(goal: Goal, key: int, top: nat)
    | Seek(goal: Goal, trail: Trail, layer: nat, pred: Id)
    | Sought(goal: Goal, trail: Trail)
    | Waiting(node: Id)
    | Locking(goal: Goal, trail: Trail, height: nat, k: nat)
    | Linking(trail: Trail, height: nat, node: Id, j: nat, stored: bool)
    | Counting(node: Id)
    | Taking(trail: Trail, victim: Id)
    | Unlinking(trail: Trail, height: nat, victim: Id, j: nat)
    | GrowWait(was: Id, height: nat)
    | GrowLocked(was: Id, height: nat)
    | GrowSwapped(was: Id)
    | Peek(op: Lookup, key: int, from: Id, ht: nat)        // findNodeDownRight: about to load from->skip(ht - 1) to step down
    | Walk(op: Lookup, key: int, from: Id, layer: nat)     // about to load from->skip(layer) to step right
    | Settle(op: Lookup, key: int, cand: Option<Id>)       // about to test the mark of the node found
    | Pass(key: int, over: Id)                             // lower_bound: about to load the pointer of a marked node

  datatype State = State(nodes: map<Id, Node>, head: Id, size: int, lock: map<Id, Tid>, threads: map<Tid, Pc>)

  // ---------------------------------------------------------------- steps

  ghost predicate Init(s: State) {
    && s.head in s.nodes
    && s.nodes == map[s.head := s.nodes[s.head]]
    && s.nodes[s.head].height >= 1
    && s.nodes[s.head] == Node(true, 0, s.nodes[s.head].height, seq(s.nodes[s.head].height, _ => None), false, false, 0)
    && s.size == 0 && s.lock == map[] && s.threads == map[]
  }

  ghost function SetPointer(s: State, n: Id, l: nat, q: Option<Id>): map<Id, Node>
    requires n in s.nodes && l < |s.nodes[n].skip|
  {
    s.nodes[n := s.nodes[n].(skip := s.nodes[n].skip[l := q])]
  }

  ghost function Restart(s: State, goal: Goal, key: int): Pc
    requires s.head in s.nodes
  {
    Start(goal, key, if s.nodes[s.head].height == 0 then 0 else s.nodes[s.head].height - 1)
  }

  /** Guards released when a thread leaves an iteration: all of them, except that a remover keeps `nodeGuard`. */
  ghost function Release(lock: map<Id, Tid>, t: Tid, kept: Option<Id>): map<Id, Tid> {
    map n | n in lock && (lock[n] != t || kept == Some(n)) :: lock[n]
  }

  ghost function Kept(goal: Goal): Option<Id> {
    if goal.Unlink? then Some(goal.victim) else None
  }

  ghost predicate At(s: State, t: Tid) {
    t in s.threads && s.head in s.nodes
  }

  ghost predicate Begin(s: State, s': State, t: Tid, goal: Goal, key: int) {
    && t !in s.threads && s.head in s.nodes && !goal.Unlink?
    && s' == s.(threads := s.threads[t := Restart(s, goal, key)])
  }

  /** `findInsertionPoint` loads `head_` again, after `maxLayer()` did. */
  ghost predicate Enter(s: State, s': State, t: Tid) {
    && At(s, t) && s.threads[t].Start?
    && var pc := s.threads[t];
       s' == s.(threads := s.threads[t := Seek(pc.goal, Trail(pc.key, pc.top, map[], map[], None, 0), pc.top, s.head)])
  }

  ghost predicate Seeking(s: State, t: Tid) {
    && At(s, t) && s.threads[t].Seek?
    && var pc := s.threads[t];
       pc.pred in s.nodes && pc.layer < |s.nodes[pc.pred].skip|
       && var q := s.nodes[pc.pred].skip[pc.layer]; q.Some? ==> q.value in s.nodes
  }

  /** `greater(data, node)`: step right. */
  ghost predicate Right(s: State, s': State, t: Tid) {
    && Seeking(s, t)
    && var pc := s.threads[t];
       var q := s.nodes[pc.pred].skip[pc.layer];
       && q.Some? && s.nodes[q.value].key < pc.trail.key
       && s' == s.(threads := s.threads[t := pc.(pred := q.value)])
  }

  ghost function Record(s: State, trail: Trail, layer: nat, pred: Id, q: Option<Id>): Trail
    requires q.Some? ==> q.value in s.nodes
  {
    var hit := trail.found.None? && q.Some? && s.nodes[q.value].key == trail.key;
    var found := if hit then q else trail.found;
    Trail(trail.key, trail.top, trail.preds[layer := pred],
          trail.succs[layer := if found.Some? then found else q],
          found, if hit then layer else trail.foundLayer)
  }

  /** Not `greater`: record the layer and step down. */
  ghost predicate Down(s: State, s': State, t: Tid) {
    && Seeking(s, t)
    && var pc := s.threads[t];
       var q := s.nodes[pc.pred].skip[pc.layer];
       && (q.Some? ==> pc.trail.key <= s.nodes[q.value].key)
       && var trail := Record(s, pc.trail, pc.layer, pc.pred, q);
          s' == s.(threads := s.threads[t :=
            if pc.layer == 0 then Sought(pc.goal, trail) else Seek(pc.goal, trail, pc.layer - 1, pc.pred)])
  }

  /** `addOrGetData` found the key: retry if the node is going away, otherwise settle for it. */
  ghost predicate AddFound(s: State, s': State, t: Tid) {
    && At(s, t) && s.threads[t].Sought? && s.threads[t].goal.Insert? && s.threads[t].trail.found.Some?
    && var trail := s.threads[t].trail;
       && trail.found.value in s.nodes
       && var n := s.nodes[trail.found.value];
          s' == s.(threads := s.threads[t := if n.marked then Restart(s, Insert, trail.key) else Waiting(trail.found.value)])
  }

  /** The node found is returned once it is fully linked, whether or not it has been marked since. */
  ghost predicate AddReturn(s: State, s': State, t: Tid) {
    && At(s, t) && s.threads[t].Waiting? && s.threads[t].node in s.nodes && s.nodes[s.threads[t].node].full
    && s' == s.(threads := s.threads - {t})
  }

  ghost predicate AddPick(s: State, s': State, t: Tid, h: nat) {
    && At(s, t) && s.threads[t].Sought? && s.threads[t].goal.Insert? && s.threads[t].trail.found.None?
    && 1 <= h <= s.threads[t].trail.top + 1
    && s' == s.(threads := s.threads[t := Locking(Insert, s.threads[t].trail, h, 0)])
  }

  ghost predicate AtLock(s: State, t: Tid) {
    && At(s, t) && s.threads[t].Locking?
    && var pc := s.threads[t];
       && pc.k < pc.height && pc.k in pc.trail.preds && pc.k in pc.trail.succs
       && var p := pc.trail.preds[pc.k];
          && p in s.nodes && pc.k < |s.nodes[p].skip| && (p in s.lock ==> s.lock[p] == t)
  }

  /** The checks `lockNodesForChange` makes on one layer after locking its predecessor. */
  ghost predicate Valid(s: State, t: Tid)
    requires AtLock(s, t)
  {
    var pc := s.threads[t];
    var p := pc.trail.preds[pc.k];
    var q := pc.trail.succs[pc.k];
    && !s.nodes[p].marked
    && s.nodes[p].skip[pc.k] == q
    && (pc.goal.Insert? && q.Some? ==> q.value in s.nodes && !s.nodes[q.value].marked)
  }

  ghost predicate LockLayer(s: State, s': State, t: Tid) {
    && AtLock(s, t) && Valid(s, t)
    && var pc := s.threads[t];
       s' == s.(lock := s.lock[pc.trail.preds[pc.k] := t], threads := s.threads[t := pc.(k := pc.k + 1)])
  }

  ghost predicate LockFail(s: State, s': State, t: Tid) {
    && AtLock(s, t) && !Valid(s, t)
    && var pc := s.threads[t];
       s' == s.(lock := Release(s.lock, t, Kept(pc.goal)),
                threads := s.threads[t := Restart(s, pc.goal, pc.trail.key)])
  }

  ghost predicate Create(s: State, s': State, t: Tid, n: Id) {
    && At(s, t) && s.threads[t].Locking? && s.threads[t].goal.Insert? && s.threads[t].k == s.threads[t].height
    && n !in s.nodes
    && var pc := s.threads[t];
       s' == s.(nodes := s.nodes[n := Node(false, pc.trail.key, pc.height, seq(pc.height, _ => None), false, false, 0)],
                threads := s.threads[t := Linking(pc.trail, pc.height, n, 0, false)])
  }

  ghost predicate AtLink(s: State, t: Tid) {
    && At(s, t) && s.threads[t].Linking? && s.threads[t].j < s.threads[t].height
    && var pc := s.threads[t];
       && pc.j in pc.trail.preds && pc.j in pc.trail.succs
       && pc.node in s.nodes && pc.j < |s.nodes[pc.node].skip|
       && var p := pc.trail.preds[pc.j];
          p in s.nodes && pc.j < |s.nodes[p].skip| && p != pc.node
  }

  /** `newNode->setSkip(layer, succs[layer])` */
  ghost predicate StoreNew(s: State, s': State, t: Tid) {
    && AtLink(s, t) && !s.threads[t].stored
    && var pc := s.threads[t];
       s' == s.(nodes := SetPointer(s, pc.node, pc.j, pc.trail.succs[pc.j]),
                threads := s.threads[t := pc.(stored := true)])
  }

  /** `preds[layer]->setSkip(layer, newNode)` */
  ghost predicate LinkLayer(s: State, s': State, t: Tid) {
    && AtLink(s, t) && s.threads[t].stored
    && var pc := s.threads[t];
       var p := pc.trail.preds[pc.j];
       var nodes := SetPointer(s, p, pc.j, Some(pc.node));
       s' == s.(nodes := nodes[pc.node := s.nodes[pc.node].(cnt := pc.j + 1)],
                threads := s.threads[t := pc.(j := pc.j + 1, stored := false)])
  }

  ghost predicate SetFull(s: State, s': State, t: Tid) {
    && At(s, t) && s.threads[t].Linking? && s.threads[t].j == s.threads[t].height && s.threads[t].node in s.nodes
    && var n := s.threads[t].node;
       s' == s.(nodes := s.nodes[n := s.nodes[n].(full := true)], threads := s.threads[t := Counting(n)])
  }

  /** `incrementSize(1)`, after which the guards go out of scope. */
  ghost predicate CountUp(s: State, s': State, t: Tid) {
    && At(s, t) && s.threads[t].Counting?
    && s' == s.(size := s.size + 1, lock := Release(s.lock, t, None), threads := s.threads - {t})
  }

  ghost predicate OkToDelete(s: State, trail: Trail) {
    && trail.found.Some? && trail.found.value in s.nodes
    && var n := s.nodes[trail.found.value];
       n.full && n.height == trail.foundLayer + 1 && !n.marked
  }

  ghost predicate RemoveDecide(s: State, s': State, t: Tid) {
    && At(s, t) && s.threads[t].Sought? && s.threads[t].goal.Delete?
    && var trail := s.threads[t].trail;
       if OkToDelete(s, trail) then s' == s.(threads := s.threads[t := Taking(trail, trail.found.value)])
       else s' == s.(threads := s.threads - {t})
  }

  /** Lock the node to delete; give up if somebody else marked it first, otherwise mark it. */
  ghost predicate Take(s: State, s': State, t: Tid) {
    && At(s, t) && s.threads[t].Taking? && s.threads[t].victim in s.nodes && s.threads[t].victim !in s.lock
    && var v := s.threads[t].victim;
       if s.nodes[v].marked then s' == s.(threads := s.threads - {t})
       else s' == s.(nodes := s.nodes[v := s.nodes[v].(marked := true)], lock := s.lock[v := t],
                     threads := s.threads[t := Locking(Unlink(v), s.threads[t].trail, s.nodes[v].height, 0)])
  }

  ghost predicate RemoveAgain(s: State, s': State, t: Tid) {
    && At(s, t) && s.threads[t].Sought? && s.threads[t].goal.Unlink? && s.threads[t].goal.victim in s.nodes
    && var pc := s.threads[t];
       s' == s.(threads := s.threads[t := Locking(pc.goal, pc.trail, s.nodes[pc.goal.victim].height, 0)])
  }

  ghost predicate UnlinkStart(s: State, s': State, t: Tid) {
    && At(s, t) && s.threads[t].Locking? && s.threads[t].goal.Unlink? && s.threads[t].k == s.threads[t].height
    && var pc := s.threads[t];
       s' == s.(threads := s.threads[t := Unlinking(pc.trail, pc.height, pc.goal.victim, pc.height)])
  }

  /** `preds[layer]->setSkip(layer, nodeToDelete->skip(layer))`, top layer first. */
  ghost predicate UnlinkLayer(s: State, s': State, t: Tid) {
    && At(s, t) && s.threads[t].Unlinking? && s.threads[t].j > 0
    && var pc := s.threads[t];
       var l := pc.j - 1;
       && pc.victim in s.nodes && l < |s.nodes[pc.victim].skip| && l in pc.trail.preds
       && var p := pc.trail.preds[l];
          && p in s.nodes && l < |s.nodes[p].skip| && p != pc.victim
          && var nodes := SetPointer(s, p, l, s.nodes[pc.victim].skip[l]);
             s' == s.(nodes := nodes[pc.victim := s.nodes[pc.victim].(cnt := l)],
                      threads := s.threads[t := pc.(j := l)])
  }

  ghost predicate CountDown(s: State, s': State, t: Tid) {
    && At(s, t) && s.threads[t].Unlinking? && s.threads[t].j == 0
    && s' == s.(size := s.size - 1, lock := Release(s.lock, t, None), threads := s.threads - {t})
  }

  // find and lower_bound

  ghost predicate LookBegin(s: State, s': State, t: Tid, op: Lookup, key: int) {
    && t !in s.threads && s.head in s.nodes
    && s' == s.(threads := s.threads[t := Peek(op, key, s.head, s.nodes[s.head].height)])
  }

  /** A load of `p->skip(l)` that brings back a node that exists. */
  ghost predicate Loads(s: State, p: Id, l: nat) {
    && p in s.nodes && l < |s.nodes[p].skip|
    && (s.nodes[p].skip[l].Some? ==> s.nodes[p].skip[l].value in s.nodes)
  }

  ghost predicate Beyond(s: State, key: int, q: Option<Id>)
    requires q.Some? ==> q.value in s.nodes
  {
    q.None? || key < s.nodes[q.value].key
  }

  /** Step down while the next key is beyond; below layer 0 there is nothing to find. */
  ghost predicate PeekStep(s: State, s': State, t: Tid) {
    && At(s, t) && s.threads[t].Peek?
    && var pc := s.threads[t];
       if pc.ht == 0 then
         && Loads(s, pc.from, 0)
         && if pc.op.Find? then s' == s.(threads := s.threads - {t})
            else s' == s.(threads := s.threads[t := Settle(Lower, pc.key, s.nodes[pc.from].skip[0])])
       else
         && Loads(s, pc.from, pc.ht - 1)
         && s' == s.(threads := s.threads[t :=
              if Beyond(s, pc.key, s.nodes[pc.from].skip[pc.ht - 1]) then pc.(ht := pc.ht - 1)
              else Walk(pc.op, pc.key, pc.from, pc.ht - 1)])
  }

  /** Step right while the next key is below; stop at the key, or go on a layer down. */
  ghost predicate WalkStep(s: State, s': State, t: Tid) {
    && At(s, t) && s.threads[t].Walk?
    && var pc := s.threads[t];
       && Loads(s, pc.from, pc.layer)
       && var q := s.nodes[pc.from].skip[pc.layer];
          s' == s.(threads := s.threads[t :=
            if Beyond(s, pc.key, q) then Peek(pc.op, pc.key, pc.from, pc.layer)
            else if s.nodes[q.value].key < pc.key then Walk(pc.op, pc.key, q.value, pc.layer)
            else Settle(pc.op, pc.key, q)])
  }

  /** `find` returns the node unless it is marked; `lower_bound` goes on to the next one. */
  ghost predicate SettleStep(s: State, s': State, t: Tid) {
    && At(s, t) && s.threads[t].Settle?
    && var pc := s.threads[t];
       && (pc.cand.Some? ==> pc.cand.value in s.nodes)
       && if pc.op.Lower? && pc.cand.Some? && s.nodes[pc.cand.value].marked
          then s' == s.(threads := s.threads[t := Pass(pc.key, pc.cand.value)])
          else s' == s.(threads := s.threads - {t})
  }

  ghost predicate PassStep(s: State, s': State, t: Tid) {
    && At(s, t) && s.threads[t].Pass?
    && var pc := s.threads[t];
       && Loads(s, pc.over, 0)
       && s' == s.(threads := s.threads[t := Settle(Lower, pc.key, s.nodes[pc.over].skip[0])])
  }

  ghost predicate LookStep(s: State, s': State, t: Tid) {
    PeekStep(s, s', t) || WalkStep(s, s', t) || SettleStep(s, s', t) || PassStep(s, s', t)
  }

  // growHeight

  ghost predicate GrowBegin(s: State, s': State, t: Tid, h: nat) {
    && t !in s.threads && s.head in s.nodes && s.nodes[s.head].height < h
    && s' == s.(threads := s.threads[t := GrowWait(s.head, h)])
  }

  ghost predicate GrowLock(s: State, s': State, t: Tid) {
    && At(s, t) && s.threads[t].GrowWait? && s.threads[t].was !in s.lock
    && var pc := s.threads[t];
       s' == s.(lock := s.lock[pc.was := t], threads := s.threads[t := GrowLocked(pc.was, pc.height)])
  }

  /** `copyHead` and the successful compare-and-swap on `head_`. */
  ghost predicate GrowSwap(s: State, s': State, t: Tid, n: Id) {
    && At(s, t) && s.threads[t].GrowLocked? && s.threads[t].was == s.head && n !in s.nodes
    && var h := s.threads[t].height;
       var prev := s.nodes[s.head];
       && prev.height < h
       && s' == s.(nodes := s.nodes[n := Node(true, 0, h, prev.skip + seq(h - prev.height, _ => None), prev.marked, prev.full, 0)],
                   head := n, threads := s.threads[t := GrowSwapped(s.head)])
  }

  ghost predicate GrowFail(s: State, s': State, t: Tid) {
    && At(s, t) && s.threads[t].GrowLocked? && s.threads[t].was != s.head
    && s' == s.(lock := Release(s.lock, t, None), threads := s.threads - {t})
  }

  ghost predicate GrowMark(s: State, s': State, t: Tid) {
    && At(s, t) && s.threads[t].GrowSwapped? && s.threads[t].was in s.nodes
    && var o := s.threads[t].was;
       s' == s.(nodes := s.nodes[o := s.nodes[o].(marked := true)],
                lock := Release(s.lock, t, None), threads := s.threads - {t})
  }

  /** The steps that change only the moving thread's program counter. */
  ghost predicate LocalStep(s: State, s': State, t: Tid) {
    || (exists goal, key :: Begin(s, s', t, goal, key))
    || Enter(s, s', t) || Right(s, s', t) || Down(s, s', t)
    || AddFound(s, s', t) || AddReturn(s, s', t) || (exists h :: AddPick(s, s', t, h))
    || RemoveDecide(s, s', t) || RemoveAgain(s, s', t) || UnlinkStart(s, s', t)
    || (exists h :: GrowBegin(s, s', t, h))
    || (exists op, key :: LookBegin(s, s', t, op, key)) || LookStep(s, s', t)
  }

  ghost predicate LockStep(s: State, s': State, t: Tid) {
    LockLayer(s, s', t) || LockFail(s, s', t) || GrowLock(s, s', t) || GrowFail(s, s', t) || CountUp(s, s', t) || CountDown(s, s', t)
  }

  ghost predicate WriteStep(s: State, s': State, t: Tid) {
    || (exists n :: Create(s, s', t, n))
    || StoreNew(s, s', t) || LinkLayer(s, s', t) || SetFull(s, s', t)
    || Take(s, s', t) || UnlinkLayer(s, s', t)
    || (exists n :: GrowSwap(s, s', t, n))
    || GrowMark(s, s', t)
  }

  ghost predicate Next(s: State, s': State) {
    exists t :: LocalStep(s, s', t) || LockStep(s, s', t) || WriteStep(s, s', t)
  }
}
