/**
 folly::IndexedMemPool as a state machine: striped local free lists and a global list of
 full lists, chained through the slots and headed by tagged pointers.

 Tags and `size_` are unbounded. `locals`, `global` and `place` are auxiliary: the lists as
 sequences (top element last) and the place of every constructed index.
 */
module IndexedMemPool {
  type Tid = nat

  const ALLOCATED: nat := 0xFFFF_FFFF   // localNext of an allocated slot

  /** `tagAndSize`: size in the low 8 bits, tag above. */
  datatype TaggedPtr = TaggedPtr(idx: nat, tagAndSize: nat)

  function Size(p: TaggedPtr): (r: nat) { p.tagAndSize % 256 }

  function Tag(p: TaggedPtr): (r: nat) { p.tagAndSize / 256 }

  function WithIdx(p: TaggedPtr, idx: nat): (r: TaggedPtr) { TaggedPtr(idx, p.tagAndSize + 256) }

  function WithSize(p: TaggedPtr, size: nat): (r: TaggedPtr) { TaggedPtr(p.idx, p.tagAndSize - p.tagAndSize % 256 + size) }

  function WithSizeIncr(p: TaggedPtr): (r: TaggedPtr) { TaggedPtr(p.idx, p.tagAndSize + 1) }

  function WithSizeDecr(p: TaggedPtr): (r: TaggedPtr) { TaggedPtr(p.idx, if p.tagAndSize > 0 then p.tagAndSize - 1 else 0) }

  function WithEmpty(p: TaggedPtr): (r: TaggedPtr) { WithSize(WithIdx(p, 0), 0) }

  datatype Place = Own | Local(l: nat, p: nat) | Global(g: nat, p: nat) | Flight(t: Tid, p: nat)

  /** `chunk` is auxiliary: the full list a thread carries, headed by `idx`. */
  datatype Pc =
    // localPop
    | PopLoad(l: nat)
    | PopNext(l: nat, h: TaggedPtr)
    | PopCas(l: nat, h: TaggedPtr, next: nat)
    | BulkNext(l: nat, h: TaggedPtr, idx: nat, chunk: seq<nat>)
    | BulkCas(l: nat, h: TaggedPtr, idx: nat, next: nat, chunk: seq<nat>)
    | Grow(l: nat)
    | GrowInc(l: nat)
    | Mark(l: nat, idx: nat)
    | Granted(l: nat, idx: nat)
    // globalPop
    | GLoad(l: nat, h: TaggedPtr)
    | GNext(l: nat, h: TaggedPtr, gh: TaggedPtr)
    | GCas(l: nat, h: TaggedPtr, gh: TaggedPtr, next: nat)
    // localPush
    | PushLoad(l: nat, idx: nat)
    | PushNext(l: nat, idx: nat, h: TaggedPtr)
    | PushCas(l: nat, idx: nat, h: TaggedPtr)
    | Recycled
    // globalPush; `back` says that it was called by localPop, which then starts over
    | GPushLoad(l: nat, idx: nat, back: bool, chunk: seq<nat>)
    | GPushNext(l: nat, idx: nat, back: bool, gh: TaggedPtr, chunk: seq<nat>)
    | GPushCas(l: nat, idx: nat, back: bool, gh: TaggedPtr, chunk: seq<nat>)

  datatype State = State(limit: nat, cap: nat, heads: seq<TaggedPtr>, ghead: TaggedPtr, localNext: seq<nat>, globalNext: seq<nat>,
                         size: nat, threads: map<Tid, Pc>,
                         locals: seq<seq<nat>>, global: seq<seq<nat>>, place: map<nat, Place>)

  /** The indices a thread holds between lists and callers. */
  function Carry(pc: Pc): (r: seq<nat>) {
    match pc
    case BulkNext(_, _, _, chunk) => chunk
    case BulkCas(_, _, _, _, chunk) => chunk
    case GPushLoad(_, _, _, chunk) => chunk
    case GPushNext(_, _, _, _, chunk) => chunk
    case GPushCas(_, _, _, _, chunk) => chunk
    case Mark(_, idx) => [idx]
    case PushLoad(_, idx) => [idx]
    case PushNext(_, idx, _) => [idx]
    case PushCas(_, idx, _) => [idx]
    case _ => []
  }

  function Top(list: seq<nat>): (r: nat) { if list == [] then 0 else list[|list| - 1] }

  // ---------------------------------------------------------------- steps

  ghost predicate Init(s: State) {
    && s.limit <= 255 && s.cap < ALLOCATED && |s.heads| > 0
    && s.heads == seq(|s.heads|, _ => TaggedPtr(0, 0)) && s.ghead == TaggedPtr(0, 0)
    && s.localNext == seq(s.cap + 1, _ => 0) && s.globalNext == seq(s.cap + 1, _ => 0)
    && s.size == 0 && s.threads == map[]
    && s.locals == seq(|s.heads|, _ => []) && s.global == [] && s.place == map[]
  }

  ghost function Goto(s: State, t: Tid, pc: Pc): State {
    s.(threads := s.threads[t := pc])
  }

  ghost predicate At(s: State, t: Tid) {
    t in s.threads
  }

  ghost predicate HeadAt(s: State, l: nat) {
    l < |s.heads| == |s.locals|
  }

  ghost predicate SlotAt(s: State, i: nat) {
    i < |s.localNext| == |s.globalNext|
  }

  ghost predicate CallAlloc(s: State, s': State, t: Tid, l: nat) {
    t !in s.threads && l < |s.heads| && s' == Goto(s, t, PopLoad(l))
  }

  /** Callers recycle only what they own. */
  ghost predicate CallRecycle(s: State, s': State, t: Tid, l: nat, idx: nat) {
    && t !in s.threads && l < |s.heads| && idx in s.place && s.place[idx] == Own
    && s' == Goto(s, t, PushLoad(l, idx)).(place := s.place[idx := Flight(t, 0)])
  }

  ghost predicate Return(s: State, s': State, t: Tid) {
    At(s, t) && (s.threads[t].Granted? || s.threads[t].Recycled?) && s' == s.(threads := s.threads - {t})
  }

  /** Loads, and compare-and-swaps that fail: nothing but the thread's own position changes. */
  ghost predicate ReadStep(s: State, s': State, t: Tid) {
    && At(s, t)
    && match s.threads[t]
       case PopLoad(l) =>
         HeadAt(s, l) && s' == Goto(s, t, if s.heads[l].idx != 0 then PopNext(l, s.heads[l]) else GLoad(l, s.heads[l]))
       case PopNext(l, h) => SlotAt(s, h.idx) && s' == Goto(s, t, PopCas(l, h, s.localNext[h.idx]))
       case PopCas(l, h, next) => HeadAt(s, l) && s.heads[l] != h && s' == Goto(s, t, PopLoad(l))
       case GLoad(l, h) => s' == Goto(s, t, if s.ghead.idx == 0 then Grow(l) else GNext(l, h, s.ghead))
       case GNext(l, h, gh) => SlotAt(s, gh.idx) && s' == Goto(s, t, GCas(l, h, gh, s.globalNext[gh.idx]))
       case GCas(l, h, gh, next) => s.ghead != gh && s' == Goto(s, t, GLoad(l, h))
       case BulkNext(l, h, idx, chunk) => SlotAt(s, idx) && s' == Goto(s, t, BulkCas(l, h, idx, s.localNext[idx], chunk))
       case BulkCas(l, h, idx, next, chunk) => HeadAt(s, l) && s.heads[l] != h && s' == Goto(s, t, GPushLoad(l, idx, true, chunk))
       case Grow(l) => s' == Goto(s, t, if s.size >= s.cap then Granted(l, 0) else GrowInc(l))
       case PushLoad(l, idx) => HeadAt(s, l) && s' == Goto(s, t, PushNext(l, idx, s.heads[l]))
       case PushCas(l, idx, h) => HeadAt(s, l) && s.heads[l] != h && s' == Goto(s, t, PushNext(l, idx, s.heads[l]))
       case GPushLoad(l, idx, back, chunk) => s' == Goto(s, t, GPushNext(l, idx, back, s.ghead, chunk))
       case GPushCas(l, idx, back, gh, chunk) => s.ghead != gh && s' == Goto(s, t, GPushLoad(l, idx, back, chunk))
       case _ => false
  }

  /** Writes to a slot the thread holds. */
  ghost predicate SlotStep(s: State, s': State, t: Tid) {
    && At(s, t)
    && match s.threads[t]
       case Mark(l, idx) =>
         && SlotAt(s, idx)
         && s' == Goto(s, t, Granted(l, idx)).(localNext := s.localNext[idx := ALLOCATED], place := s.place[idx := Own])
       case PushNext(l, idx, h) =>
         SlotAt(s, idx) && s' == Goto(s, t, PushCas(l, idx, h)).(localNext := s.localNext[idx := h.idx])
       case GPushNext(l, idx, back, gh, chunk) =>
         SlotAt(s, idx) && s' == Goto(s, t, GPushCas(l, idx, back, gh, chunk)).(globalNext := s.globalNext[idx := gh.idx])
       case _ => false
  }

  /** Everything on local list `l` moves to thread `t`. */
  ghost function Stolen(place: map<nat, Place>, l: nat, t: Tid): map<nat, Place> {
    map i | i in place :: if place[i].Local? && place[i].l == l then Flight(t, place[i].p) else place[i]
  }

  /** Everything thread `t` carries moves to local list `l`. */
  ghost function Settled(place: map<nat, Place>, t: Tid, l: nat): map<nat, Place> {
    map i | i in place :: if place[i].Flight? && place[i].t == t then Local(l, place[i].p) else place[i]
  }

  ghost function Lifted(place: map<nat, Place>, g: nat, t: Tid): map<nat, Place> {
    map i | i in place :: if place[i].Global? && place[i].g == g then Flight(t, place[i].p) else place[i]
  }

  ghost function Dropped(place: map<nat, Place>, t: Tid, g: nat): map<nat, Place> {
    map i | i in place :: if place[i].Flight? && place[i].t == t then Global(g, place[i].p) else place[i]
  }

  ghost function SetHead(s: State, l: nat, h: TaggedPtr, list: seq<nat>): State
    requires HeadAt(s, l)
  {
    s.(heads := s.heads[l := h], locals := s.locals[l := list])
  }

  ghost predicate PopOk(s: State, s': State, t: Tid) {
    && At(s, t) && s.threads[t].PopCas? && HeadAt(s, s.threads[t].l) && s.heads[s.threads[t].l] == s.threads[t].h
    && var pc := s.threads[t];
       var list := s.locals[pc.l];
       s' == Goto(SetHead(s, pc.l, WithSizeDecr(WithIdx(pc.h, pc.next)), if list == [] then [] else list[..|list| - 1]), t, Mark(pc.l, pc.h.idx))
             .(place := s.place[pc.h.idx := Flight(t, 0)])
  }

  ghost predicate PushOk(s: State, s': State, t: Tid) {
    && At(s, t) && s.threads[t].PushCas? && HeadAt(s, s.threads[t].l) && s.heads[s.threads[t].l] == s.threads[t].h
    && var pc := s.threads[t];
       var list := s.locals[pc.l];
       if Size(pc.h) == s.limit then
         s' == Goto(SetHead(s, pc.l, WithEmpty(pc.h), []), t, GPushLoad(pc.l, pc.idx, false, list + [pc.idx]))
               .(place := Stolen(s.place, pc.l, t)[pc.idx := Flight(t, |list|)])
       else
         s' == Goto(SetHead(s, pc.l, WithSizeIncr(WithIdx(pc.h, pc.idx)), list + [pc.idx]), t, Recycled)
               .(place := s.place[pc.idx := Local(pc.l, |list|)])
  }

  ghost predicate BulkOk(s: State, s': State, t: Tid) {
    && At(s, t) && s.threads[t].BulkCas? && HeadAt(s, s.threads[t].l) && s.heads[s.threads[t].l] == s.threads[t].h
    && var pc := s.threads[t];
       s' == Goto(SetHead(s, pc.l, WithSize(WithIdx(pc.h, pc.next), s.limit), if pc.chunk == [] then [] else pc.chunk[..|pc.chunk| - 1]), t, Mark(pc.l, pc.idx))
             .(place := Settled(s.place, t, pc.l)[pc.idx := Flight(t, 0)])
  }

  ghost predicate GPopOk(s: State, s': State, t: Tid) {
    && At(s, t) && s.threads[t].GCas? && s.ghead == s.threads[t].gh
    && var pc := s.threads[t];
       var g := if s.global == [] then 0 else |s.global| - 1;
       s' == Goto(s, t, BulkNext(pc.l, pc.h, pc.gh.idx, if s.global == [] then [] else s.global[g]))
             .(ghead := WithIdx(pc.gh, pc.next), global := s.global[..g], place := Lifted(s.place, g, t))
  }

  ghost predicate GPushOk(s: State, s': State, t: Tid) {
    && At(s, t) && s.threads[t].GPushCas? && s.ghead == s.threads[t].gh
    && var pc := s.threads[t];
       s' == Goto(s, t, if pc.back then PopLoad(pc.l) else Recycled)
             .(ghead := WithIdx(pc.gh, pc.idx), global := s.global + [pc.chunk], place := Dropped(s.place, t, |s.global|))
  }

  ghost predicate GrowOk(s: State, s': State, t: Tid) {
    && At(s, t) && s.threads[t].GrowInc?
    && var l := s.threads[t].l;
       if s.size + 1 > s.cap then s' == Goto(s, t, Granted(l, 0)).(size := s.size + 1)
       else s' == Goto(s, t, Mark(l, s.size + 1)).(size := s.size + 1, place := s.place[s.size + 1 := Flight(t, 0)])
  }

  ghost predicate Call(s: State, s': State, t: Tid) {
    (exists l :: CallAlloc(s, s', t, l)) || (exists l, idx :: CallRecycle(s, s', t, l, idx))
  }

  ghost predicate Step(s: State, s': State, t: Tid) {
    || Call(s, s', t) || Return(s, s', t) || ReadStep(s, s', t) || SlotStep(s, s', t)
    || PopOk(s, s', t) || PushOk(s, s', t) || BulkOk(s, s', t) || GPopOk(s, s', t) || GPushOk(s, s', t) || GrowOk(s, s', t)
  }

  ghost predicate Next(s: State, s': State) {
    exists t :: Step(s, s', t)
  }

  // ---------------------------------------------------------------- the invariant

  ghost predicate Shape(s: State) {
    && s.limit <= 255 && s.cap < ALLOCATED && |s.heads| == |s.locals| > 0
    && |s.localNext| == |s.globalNext| == s.cap + 1
  }

  /** The constructed indices are 1 to min(size_, actualCapacity_). */
  ghost predicate Domain(s: State) {
    forall i :: i in s.place <==> 1 <= i <= s.size && i <= s.cap
  }

  ghost predicate ListsPlaced(s: State) {
    && (forall l, p :: 0 <= l < |s.locals| && 0 <= p < |s.locals[l]| ==> s.locals[l][p] in s.place && s.place[s.locals[l][p]] == Local(l, p))
    && (forall g, p :: 0 <= g < |s.global| && 0 <= p < |s.global[g]| ==> s.global[g][p] in s.place && s.place[s.global[g][p]] == Global(g, p))
  }

  ghost predicate CarryPlaced(s: State, t: Tid, carry: seq<nat>) {
    forall p :: 0 <= p < |carry| ==> carry[p] in s.place && s.place[carry[p]] == Flight(t, p)
  }

  ghost predicate ThreadsPlaced(s: State) {
    forall t :: t in s.threads ==> CarryPlaced(s, t, Carry(s.threads[t]))
  }

  /** Every constructed index is where its place says. */
  ghost predicate Found(s: State, i: nat) {
    i in s.place ==>
      match s.place[i]
      case Own => i < |s.localNext| && s.localNext[i] == ALLOCATED
      case Local(l, p) => l < |s.locals| && p < |s.locals[l]| && s.locals[l][p] == i
      case Global(g, p) => g < |s.global| && p < |s.global[g]| && s.global[g][p] == i
      case Flight(t, p) => t in s.threads && p < |Carry(s.threads[t])| && Carry(s.threads[t])[p] == i
  }

  ghost predicate AllFound(s: State) {
    forall i :: Found(s, i)
  }

  /** A list chained by `localNext`, bottom first. */
  ghost predicate Linked(next: seq<nat>, list: seq<nat>) {
    forall p: nat :: p < |list| ==> LinkAt(next, list, p)
  }

  ghost predicate LinkAt(next: seq<nat>, list: seq<nat>, p: nat)
    requires p < |list|
  {
    list[p] < |next| && next[list[p]] == if p == 0 then 0 else list[p - 1]
  }

  ghost predicate LocalOK(s: State, l: nat)
    requires l < |s.heads| && l < |s.locals|
  {
    s.heads[l].idx == Top(s.locals[l]) && Size(s.heads[l]) == |s.locals[l]| <= s.limit && Linked(s.localNext, s.locals[l])
  }

  ghost predicate LocalsOK(s: State) {
    |s.heads| == |s.locals| && forall l: nat :: l < |s.locals| ==> LocalOK(s, l)
  }

  ghost predicate ChunkOK(s: State, chunk: seq<nat>) {
    |chunk| == s.limit + 1 && Linked(s.localNext, chunk)
  }

  ghost predicate GlobalAt(s: State, g: nat)
    requires g < |s.global|
  {
    && ChunkOK(s, s.global[g]) && Top(s.global[g]) < |s.globalNext|
    && s.globalNext[Top(s.global[g])] == if g == 0 then 0 else Top(s.global[g - 1])
  }

  ghost predicate GlobalOK(s: State) {
    && s.ghead.idx == (if s.global == [] then 0 else Top(s.global[|s.global| - 1]))
    && forall g: nat :: g < |s.global| ==> GlobalAt(s, g)
  }

  /** What a thread remembers of a head may be old, but not if the tag is still the same. */
  ghost predicate Fresh(now: TaggedPtr, h: TaggedPtr) {
    Tag(h) <= Tag(now) && (Tag(h) == Tag(now) ==> now == h)
  }

  ghost predicate Remembers(s: State, l: nat, h: TaggedPtr) {
    l < |s.heads| && Fresh(s.heads[l], h) && h.idx <= s.size && h.idx <= s.cap
  }

  ghost predicate RemembersGlobal(s: State, gh: TaggedPtr) {
    Fresh(s.ghead, gh) && gh.idx <= s.size && gh.idx <= s.cap
  }

  ghost predicate PcOK(s: State, pc: Pc) {
    match pc
    case PopLoad(l) => l < |s.heads|
    case PopNext(l, h) => Remembers(s, l, h) && h.idx != 0
    case PopCas(l, h, next) =>
      Remembers(s, l, h) && h.idx != 0 && (s.heads[l] == h ==> h.idx < |s.localNext| && next == s.localNext[h.idx])
    case GLoad(l, h) => Remembers(s, l, h) && h.idx == 0
    case GNext(l, h, gh) => Remembers(s, l, h) && h.idx == 0 && RemembersGlobal(s, gh) && gh.idx != 0
    case GCas(l, h, gh, next) =>
      && Remembers(s, l, h) && h.idx == 0 && RemembersGlobal(s, gh) && gh.idx != 0
      && (s.ghead == gh ==> gh.idx < |s.globalNext| && next == s.globalNext[gh.idx])
    case BulkNext(l, h, idx, chunk) => Remembers(s, l, h) && h.idx == 0 && ChunkOK(s, chunk) && idx == Top(chunk)
    case BulkCas(l, h, idx, next, chunk) =>
      && Remembers(s, l, h) && h.idx == 0 && ChunkOK(s, chunk) && idx == Top(chunk)
      && idx < |s.localNext| && next == s.localNext[idx]
    case Grow(l) => l < |s.heads|
    case GrowInc(l) => l < |s.heads|
    case Mark(l, idx) => l < |s.heads|
    case Granted(l, idx) => l < |s.heads|
    case PushLoad(l, idx) => l < |s.heads|
    case PushNext(l, idx, h) => Remembers(s, l, h)
    case PushCas(l, idx, h) => Remembers(s, l, h) && idx < |s.localNext| && s.localNext[idx] == h.idx
    case Recycled => true
    case GPushLoad(l, idx, back, chunk) => l < |s.heads| && ChunkOK(s, chunk) && idx == Top(chunk)
    case GPushNext(l, idx, back, gh, chunk) => l < |s.heads| && ChunkOK(s, chunk) && idx == Top(chunk) && RemembersGlobal(s, gh)
    case GPushCas(l, idx, back, gh, chunk) =>
      && l < |s.heads| && ChunkOK(s, chunk) && idx == Top(chunk) && RemembersGlobal(s, gh)
      && idx < |s.globalNext| && s.globalNext[idx] == gh.idx
  }

  ghost predicate ThreadsOK(s: State) {
    forall t :: t in s.threads ==> PcOK(s, s.threads[t])
  }

  ghost predicate Inv(s: State) {
    && Shape(s) && Domain(s) && ListsPlaced(s) && ThreadsPlaced(s) && AllFound(s)
    && LocalsOK(s) && GlobalOK(s) && ThreadsOK(s)
  }
}
