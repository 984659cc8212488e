/**
 The memory behind folly::fbstring_core: string objects (small, medium or large) and the
 blocks they point to, with the reference counts of large blocks.

 Characters are one byte on a 64-bit machine, in the default build: the terminator is
 written by `c_str()` only.
 */
module FBStringHeap {
  type Byte = x: int | 0 <= x < 256

  const MAX_SMALL: nat := 23
  const MAX_MEDIUM: nat := 254

  /** `small_` with its last byte holding 23 - size, or `ml_` with the category taken out of `capacity_`. */
  datatype Core = Small(bytes: seq<Byte>) | Big(large: bool, data: nat, size: nat, cap: nat)

  /** A block from malloc; `refs` is `refCount_`, and 0 for the plain block of a medium string. */
  datatype Block = Block(refs: nat, chars: seq<Byte>)

  type Cores = map<nat, Core>
  type Blocks = map<nat, Block>

  ghost predicate CoreOK(blocks: Blocks, c: Core) {
    match c
    case Small(bytes) => |bytes| == MAX_SMALL + 1 && bytes[MAX_SMALL] <= MAX_SMALL
    case Big(large, data, size, cap) =>
      data in blocks && size <= cap < |blocks[data].chars| && (large <==> blocks[data].refs > 0)
  }

  function SizeOf(c: Core): (r: nat)
    requires c.Small? ==> |c.bytes| == MAX_SMALL + 1 && c.bytes[MAX_SMALL] <= MAX_SMALL
  {
    if c.Small? then MAX_SMALL - c.bytes[MAX_SMALL] else c.size
  }

  ghost function ValueOf(blocks: Blocks, c: Core): (r: seq<Byte>)
    requires CoreOK(blocks, c)
  {
    if c.Small? then c.bytes[..SizeOf(c)] else blocks[c.data].chars[..c.size]
  }

  /** The strings that point to a block. */
  ghost function Users(cores: Cores, a: nat): set<nat> {
    set id | id in cores && cores[id].Big? && cores[id].data == a
  }

  ghost predicate BlockOK(cores: Cores, blocks: Blocks, a: nat)
    requires a in blocks
  {
    |Users(cores, a)| == if blocks[a].refs == 0 then 1 else blocks[a].refs
  }

  /** Sharers of a block hold the same `ml_`, in particular the same size. */
  ghost predicate Agree(cores: Cores) {
    forall i, j :: i in cores && j in cores && cores[i].Big? && cores[j].Big? && cores[i].data == cores[j].data ==> cores[i] == cores[j]
  }

  ghost predicate CoresOK(cores: Cores, blocks: Blocks) {
    forall id :: id in cores ==> CoreOK(blocks, cores[id])
  }

  ghost predicate BlocksOK(cores: Cores, blocks: Blocks) {
    forall a :: a in blocks ==> BlockOK(cores, blocks, a)
  }

  ghost predicate HeapOK(cores: Cores, blocks: Blocks) {
    CoresOK(cores, blocks) && BlocksOK(cores, blocks) && Agree(cores)
  }

  ghost function Values(cores: Cores, blocks: Blocks): (r: map<nat, seq<Byte>>)
    requires CoresOK(cores, blocks)
  {
    map id | id in cores :: ValueOf(blocks, cores[id])
  }

  /** A string gives up its block: `free`, or `decrementRefs`, which frees at the last reference. */
  function Released(blocks: Blocks, a: nat): (r: Blocks)
    requires a in blocks
  {
    if blocks[a].refs <= 1 then blocks - {a} else blocks[a := blocks[a].(refs := blocks[a].refs - 1)]
  }

  // ---------------------------------------------------------------- values before and after

  /** Strings other than `id` keep their object and their characters. */
  ghost predicate Kept(cores: Cores, blocks: Blocks, cores': Cores, blocks': Blocks, id: nat) {
    forall j :: j in cores && j != id ==>
      && j in cores' && cores'[j] == cores[j] && CoreOK(blocks, cores[j]) && CoreOK(blocks', cores[j])
      && ValueOf(blocks', cores[j]) == ValueOf(blocks, cores[j])
  }

  /** String `id` now has value `x`; every other string has the value it had. */
  ghost predicate Becomes(v: map<nat, seq<Byte>>, v': map<nat, seq<Byte>>, id: nat, x: seq<Byte>) {
    v'.Keys == v.Keys + {id} && v'[id] == x && forall j :: j in v && j != id ==> v'[j] == v[j]
  }

  lemma ValuesSet(cores: Cores, blocks: Blocks, cores': Cores, blocks': Blocks, id: nat)
    requires CoresOK(cores, blocks) && CoresOK(cores', blocks') && Kept(cores, blocks, cores', blocks', id) && cores'.Keys == cores.Keys + {id}
    ensures Becomes(Values(cores, blocks), Values(cores', blocks'), id, ValueOf(blocks', cores'[id]))
  {
    assert id in cores';
  }

  lemma ValuesDrop(cores: Cores, blocks: Blocks, blocks': Blocks, id: nat)
    requires CoresOK(cores, blocks) && id in cores && CoresOK(cores - {id}, blocks') && Kept(cores, blocks, cores - {id}, blocks', id)
    ensures Values(cores - {id}, blocks') == Values(cores, blocks) - {id}
  {
    var v, v' := Values(cores, blocks) - {id}, Values(cores - {id}, blocks');
    assert v'.Keys == v.Keys;
    forall j | j in v' ensures v'[j] == v[j] { assert j in cores && j != id; }
  }

  // ---------------------------------------------------------------- what each kind of change keeps

  lemma NoUsers(cores: Cores, blocks: Blocks, a: nat)
    requires HeapOK(cores, blocks) && a !in blocks
    ensures Users(cores, a) == {}
  {
    forall id | id in cores ensures id !in Users(cores, a) { assert CoreOK(blocks, cores[id]); }
  }

  lemma OnlyUser(cores: Cores, blocks: Blocks, id: nat)
    requires HeapOK(cores, blocks) && id in cores && cores[id].Big? && blocks[cores[id].data].refs <= 1
    ensures Users(cores, cores[id].data) == {id}
  {
    var a := cores[id].data;
    assert CoreOK(blocks, cores[id]) && BlockOK(cores, blocks, a);
    assert id in Users(cores, a);
    assert |Users(cores, a) - {id}| == 0;
  }

  lemma NobodyElse(cores: Cores, blocks: Blocks, id: nat)
    requires HeapOK(cores, blocks) && id in cores && cores[id].Big? && blocks[cores[id].data].refs <= 1
    ensures forall j :: j in cores && j != id && cores[j].Big? ==> cores[j].data != cores[id].data
  {
    OnlyUser(cores, blocks, id);
    forall j | j in cores && j != id && cores[j].Big? ensures cores[j].data != cores[id].data {
      assert j !in Users(cores, cores[id].data);
    }
  }

  lemma DropUsers(cores: Cores, id: nat, a: nat)
    requires id in cores
    ensures Users(cores - {id}, a) == Users(cores, a) - {id}
  {
  }

  lemma DropKept(cores: Cores, blocks: Blocks, id: nat)
    requires HeapOK(cores, blocks) && id in cores && cores[id].Big?
    ensures cores[id].data in blocks && Kept(cores, blocks, cores - {id}, Released(blocks, cores[id].data), id)
  {
    var a := cores[id].data;
    assert CoreOK(blocks, cores[id]);
    if blocks[a].refs <= 1 { OnlyUser(cores, blocks, id); }
    forall j | j in cores && j != id
      ensures CoreOK(Released(blocks, a), cores[j]) && ValueOf(Released(blocks, a), cores[j]) == ValueOf(blocks, cores[j])
    {
      assert CoreOK(blocks, cores[j]);
      assert cores[j].Big? && cores[j].data == a ==> j in Users(cores, a);
    }
  }

  lemma DropBlocks(cores: Cores, blocks: Blocks, id: nat, b: nat)
    requires HeapOK(cores, blocks) && id in cores && cores[id].Big? && cores[id].data in blocks && b in Released(blocks, cores[id].data)
    ensures BlockOK(cores - {id}, Released(blocks, cores[id].data), b)
  {
    assert BlockOK(cores, blocks, b);
    DropUsers(cores, id, b);
    assert id in Users(cores, b) <==> b == cores[id].data;
  }

  /** A string goes away. */
  lemma Drop(cores: Cores, blocks: Blocks, id: nat)
    requires HeapOK(cores, blocks) && id in cores && cores[id].Big?
    ensures cores[id].data in blocks && HeapOK(cores - {id}, Released(blocks, cores[id].data))
    ensures Values(cores - {id}, Released(blocks, cores[id].data)) == Values(cores, blocks) - {id}
  {
    var a := cores[id].data;
    DropKept(cores, blocks, id);
    forall b | b in Released(blocks, a) ensures BlockOK(cores - {id}, Released(blocks, a), b) { DropBlocks(cores, blocks, id, b); }
    ValuesDrop(cores, blocks, Released(blocks, a), id);
  }

  lemma DropSmall(cores: Cores, blocks: Blocks, id: nat)
    requires HeapOK(cores, blocks) && id in cores && cores[id].Small?
    ensures HeapOK(cores - {id}, blocks) && Values(cores - {id}, blocks) == Values(cores, blocks) - {id}
  {
    forall b | b in blocks ensures BlockOK(cores - {id}, blocks, b) {
      assert BlockOK(cores, blocks, b);
      DropUsers(cores, id, b);
      assert id !in Users(cores, b);
    }
    ValuesDrop(cores, blocks, blocks, id);
  }

  lemma AddUsers(cores: Cores, id: nat, c: Core, a: nat)
    requires id !in cores
    ensures Users(cores[id := c], a) == Users(cores, a) + if c.Big? && c.data == a then {id} else {}
  {
  }

  /** A small string appears. */
  lemma AddSmall(cores: Cores, blocks: Blocks, id: nat, c: Core)
    requires HeapOK(cores, blocks) && id !in cores && c.Small? && CoreOK(blocks, c)
    ensures HeapOK(cores[id := c], blocks) && Becomes(Values(cores, blocks), Values(cores[id := c], blocks), id, ValueOf(blocks, c))
  {
    forall b | b in blocks ensures BlockOK(cores[id := c], blocks, b) {
      assert BlockOK(cores, blocks, b);
      AddUsers(cores, id, c, b);
    }
    ValuesSet(cores, blocks, cores[id := c], blocks, id);
  }

  lemma FreshCores(cores: Cores, blocks: Blocks, id: nat, c: Core, block: Block)
    requires CoresOK(cores, blocks) && id !in cores && c.Big? && c.data !in blocks && CoreOK(blocks[c.data := block], c)
    ensures CoresOK(cores[id := c], blocks[c.data := block]) && Kept(cores, blocks, cores[id := c], blocks[c.data := block], id)
    ensures Agree(cores) ==> Agree(cores[id := c])
  {
    forall j | j in cores ensures cores[j].Big? ==> cores[j].data != c.data { assert CoreOK(blocks, cores[j]); }
  }

  lemma FreshBlocks(cores: Cores, blocks: Blocks, id: nat, c: Core, block: Block)
    requires HeapOK(cores, blocks) && id !in cores && c.Big? && c.data !in blocks && block.refs <= 1
    ensures BlocksOK(cores[id := c], blocks[c.data := block])
  {
    NoUsers(cores, blocks, c.data);
    forall b | b in blocks || b == c.data ensures BlockOK(cores[id := c], blocks[c.data := block], b) {
      AddUsers(cores, id, c, b);
      if b != c.data { assert BlockOK(cores, blocks, b); }
    }
  }

  /** A medium or large string appears, with a block of its own. */
  lemma AddFresh(cores: Cores, blocks: Blocks, id: nat, c: Core, block: Block)
    requires HeapOK(cores, blocks) && id !in cores && c.Big? && c.data !in blocks && block.refs <= 1
    requires CoreOK(blocks[c.data := block], c)
    ensures HeapOK(cores[id := c], blocks[c.data := block])
    ensures Becomes(Values(cores, blocks), Values(cores[id := c], blocks[c.data := block]), id, block.chars[..c.size])
  {
    var cores', blocks' := cores[id := c], blocks[c.data := block];
    FreshCores(cores, blocks, id, c, block);
    FreshBlocks(cores, blocks, id, c, block);
    ValuesSet(cores, blocks, cores', blocks', id);
  }

  function Shared(blocks: Blocks, a: nat): (r: Blocks)
    requires a in blocks
  {
    blocks[a := blocks[a].(refs := blocks[a].refs + 1)]
  }

  lemma ShareCores(cores: Cores, blocks: Blocks, id: nat, src: nat)
    requires CoresOK(cores, blocks) && id !in cores && src in cores && cores[src].Big? && cores[src].large
    ensures cores[src].data in blocks
    ensures CoresOK(cores[id := cores[src]], Shared(blocks, cores[src].data))
    ensures Kept(cores, blocks, cores[id := cores[src]], Shared(blocks, cores[src].data), id)
    ensures ValueOf(Shared(blocks, cores[src].data), cores[src]) == ValueOf(blocks, cores[src])
  {
    assert CoreOK(blocks, cores[src]);
    forall j | j in cores ensures CoreOK(Shared(blocks, cores[src].data), cores[j]) { assert CoreOK(blocks, cores[j]); }
  }

  lemma ShareBlocks(cores: Cores, blocks: Blocks, id: nat, src: nat)
    requires HeapOK(cores, blocks) && id !in cores && src in cores && cores[src].Big? && cores[src].large && cores[src].data in blocks
    ensures BlocksOK(cores[id := cores[src]], Shared(blocks, cores[src].data))
  {
    assert CoreOK(blocks, cores[src]);
    forall b | b in blocks ensures BlockOK(cores[id := cores[src]], Shared(blocks, cores[src].data), b) {
      assert BlockOK(cores, blocks, b);
      AddUsers(cores, id, cores[src], b);
    }
  }

  /** A large string is copied: `incrementRefs`. */
  lemma AddShare(cores: Cores, blocks: Blocks, id: nat, src: nat)
    requires HeapOK(cores, blocks) && id !in cores && src in cores && cores[src].Big? && cores[src].large
    ensures cores[src].data in blocks && HeapOK(cores[id := cores[src]], Shared(blocks, cores[src].data))
    ensures Becomes(Values(cores, blocks), Values(cores[id := cores[src]], Shared(blocks, cores[src].data)), id, Values(cores, blocks)[src])
  {
    ShareCores(cores, blocks, id, src);
    ShareBlocks(cores, blocks, id, src);
    ValuesSet(cores, blocks, cores[id := cores[src]], Shared(blocks, cores[src].data), id);
  }

  lemma ModifyCores(cores: Cores, blocks: Blocks, id: nat, c: Core, chars: seq<Byte>)
    requires HeapOK(cores, blocks) && id in cores && cores[id].Big? && blocks[cores[id].data].refs <= 1
    requires c.Big? && c.data == cores[id].data && CoreOK(blocks[c.data := blocks[c.data].(chars := chars)], c)
    ensures var blocks' := blocks[c.data := blocks[c.data].(chars := chars)];
      CoresOK(cores[id := c], blocks') && Kept(cores, blocks, cores[id := c], blocks', id) && Agree(cores[id := c])
  {
    NobodyElse(cores, blocks, id);
    assert CoreOK(blocks, cores[id]);
  }

  lemma ModifyUsers(cores: Cores, id: nat, c: Core, b: nat)
    requires id in cores && cores[id].Big? && c.Big? && c.data == cores[id].data
    ensures Users(cores[id := c], b) == Users(cores, b)
  {
  }

  /** The only user of a block changes its characters, its size or its capacity. */
  lemma Modify(cores: Cores, blocks: Blocks, id: nat, c: Core, chars: seq<Byte>)
    requires HeapOK(cores, blocks) && id in cores && cores[id].Big? && blocks[cores[id].data].refs <= 1
    requires c.Big? && c.data == cores[id].data && CoreOK(blocks[c.data := blocks[c.data].(chars := chars)], c)
    ensures HeapOK(cores[id := c], blocks[c.data := blocks[c.data].(chars := chars)])
    ensures Becomes(Values(cores, blocks), Values(cores[id := c], blocks[c.data := blocks[c.data].(chars := chars)]), id, chars[..c.size])
  {
    var cores', blocks' := cores[id := c], blocks[c.data := blocks[c.data].(chars := chars)];
    ModifyCores(cores, blocks, id, c, chars);
    assert CoreOK(blocks, cores[id]);
    forall b | b in blocks ensures BlockOK(cores', blocks', b) {
      assert BlockOK(cores, blocks, b);
      ModifyUsers(cores, id, c, b);
    }
    ValuesSet(cores, blocks, cores', blocks', id);
  }

  /** A byte right after the end of every sharer's string changes nobody's value. */
  lemma WriteEnd(cores: Cores, blocks: Blocks, id: nat, x: Byte)
    requires HeapOK(cores, blocks) && id in cores && cores[id].Big?
    ensures cores[id].data in blocks && cores[id].size < |blocks[cores[id].data].chars|
    ensures var a := cores[id].data;
      var blocks' := blocks[a := blocks[a].(chars := blocks[a].chars[cores[id].size := x])];
      HeapOK(cores, blocks') && Values(cores, blocks') == Values(cores, blocks)
  {
    var a := cores[id].data;
    assert CoreOK(blocks, cores[id]);
    var blocks' := blocks[a := blocks[a].(chars := blocks[a].chars[cores[id].size := x])];
    forall j | j in cores ensures CoreOK(blocks', cores[j]) && ValueOf(blocks', cores[j]) == ValueOf(blocks, cores[j]) {
      assert CoreOK(blocks, cores[j]);
    }
    forall b | b in blocks' ensures BlockOK(cores, blocks', b) { assert BlockOK(cores, blocks, b); }
    ValuesSet(cores, blocks, cores, blocks', id);
    Unchanged(Values(cores, blocks), Values(cores, blocks'), id);
  }

  function Moved(cores: Cores, id: nat, src: nat, rest: Core): (r: Cores)
    requires src in cores
  {
    cores[id := cores[src]][src := rest]
  }

  lemma MoveUsers(cores: Cores, id: nat, src: nat, rest: Core, b: nat)
    requires id !in cores && src in cores && cores[src].Big? && rest.Small?
    ensures |Users(Moved(cores, id, src, rest), b)| == |Users(cores, b)|
  {
    var cores' := Moved(cores, id, src, rest);
    if b == cores[src].data { assert Users(cores', b) == Users(cores, b) - {src} + {id}; }
    else { assert Users(cores', b) == Users(cores, b); }
  }

  lemma MoveBlocks(cores: Cores, blocks: Blocks, id: nat, src: nat, rest: Core)
    requires HeapOK(cores, blocks) && id !in cores && src in cores && cores[src].Big? && rest.Small?
    ensures BlocksOK(Moved(cores, id, src, rest), blocks)
  {
    forall b | b in blocks ensures BlockOK(Moved(cores, id, src, rest), blocks, b) {
      assert BlockOK(cores, blocks, b);
      MoveUsers(cores, id, src, rest, b);
    }
  }

  lemma MoveValues(cores: Cores, blocks: Blocks, id: nat, src: nat, rest: Core)
    requires CoresOK(cores, blocks) && id !in cores && src in cores && CoreOK(blocks, rest)
    ensures CoresOK(Moved(cores, id, src, rest), blocks)
    ensures Values(Moved(cores, id, src, rest), blocks) == Values(cores, blocks)[id := Values(cores, blocks)[src]][src := ValueOf(blocks, rest)]
  {
  }

  /** A medium or large string moves to a new object and leaves a small one. */
  lemma MoveBig(cores: Cores, blocks: Blocks, id: nat, src: nat, rest: Core)
    requires HeapOK(cores, blocks) && id !in cores && src in cores && cores[src].Big? && rest.Small? && CoreOK(blocks, rest)
    ensures HeapOK(Moved(cores, id, src, rest), blocks)
  {
    MoveBlocks(cores, blocks, id, src, rest);
    MoveValues(cores, blocks, id, src, rest);
  }

  lemma BecomesTwice(v: map<nat, seq<Byte>>, v1: map<nat, seq<Byte>>, v2: map<nat, seq<Byte>>, id: nat, x: seq<Byte>, y: seq<Byte>)
    requires Becomes(v, v1, id, x) && Becomes(v1, v2, id, y)
    ensures Becomes(v, v2, id, y)
  {
  }

  /** One string is replaced by another: drop, then add. */
  lemma Replaced(cores: Cores, id: nat, c: Core)
    requires id in cores
    ensures (cores - {id})[id := c] == cores[id := c]
  {
  }

  lemma Unchanged(v: map<nat, seq<Byte>>, v': map<nat, seq<Byte>>, id: nat)
    requires id in v && Becomes(v, v', id, v[id])
    ensures v' == v
  {
    assert v'.Keys == v.Keys;
    forall j | j in v ensures v'[j] == v[j] { if j == id { } }
  }

  /** The blocks left when string `id` gives up what it holds. */
  function Without(cores: Cores, blocks: Blocks, id: nat): (r: Blocks)
    requires id in cores && (cores[id].Big? ==> cores[id].data in blocks)
  {
    if cores[id].Big? then Released(blocks, cores[id].data) else blocks
  }

  lemma DropAny(cores: Cores, blocks: Blocks, id: nat)
    requires HeapOK(cores, blocks) && id in cores
    ensures cores[id].Big? ==> cores[id].data in blocks
    ensures HeapOK(cores - {id}, Without(cores, blocks, id))
    ensures Values(cores - {id}, Without(cores, blocks, id)) == Values(cores, blocks) - {id}
  {
    if cores[id].Big? { Drop(cores, blocks, id); } else { DropSmall(cores, blocks, id); }
  }

  /** String `id` gets a fresh block in place of what it had. */
  lemma RehomeKeeps(cores: Cores, blocks: Blocks, id: nat, c: Core, block: Block)
    requires HeapOK(cores, blocks) && id in cores && c.Big? && c.data !in blocks && block.refs <= 1 && CoreOK(map[c.data := block], c)
    ensures cores[id].Big? ==> cores[id].data in blocks
    ensures var blocks' := Without(cores, blocks, id)[c.data := block];
      HeapOK(cores[id := c], blocks') && Becomes(Values(cores, blocks), Values(cores[id := c], blocks'), id, block.chars[..c.size])
  {
    DropAny(cores, blocks, id);
    AddFresh(cores - {id}, Without(cores, blocks, id), id, c, block);
    Replaced(cores, id, c);
  }

  /** String `id` becomes a small one. */
  lemma TurnSmallKeeps(cores: Cores, blocks: Blocks, id: nat, c: Core)
    requires HeapOK(cores, blocks) && id in cores && c.Small? && CoreOK(blocks, c)
    ensures cores[id].Big? ==> cores[id].data in blocks
    ensures var blocks' := Without(cores, blocks, id);
      HeapOK(cores[id := c], blocks') && Becomes(Values(cores, blocks), Values(cores[id := c], blocks'), id, ValueOf(blocks', c))
  {
    DropAny(cores, blocks, id);
    AddSmall(cores - {id}, Without(cores, blocks, id), id, c);
    Replaced(cores, id, c);
  }
}
