/**
 folly::fbstring_core and the appending path of basic_fbstring, as methods on one heap of
 string objects. Contents() is what the strings stand for: plain values.
 */
module FBString {
  import opened FBStringHeap

  /** Where the character pointer of an append points. */
  datatype Ptr = InCore(id: nat, off: nat) | InBlock(a: nat, off: nat)

  const HEADER: nat := 8        // refCount_ before the characters
  const REFCOUNTED: nat := 16   // sizeof(RefCounted)

  /** `text` written over `s` from position `pos`. */
  function Overwritten(s: seq<Byte>, pos: nat, text: seq<Byte>): (r: seq<Byte>)
    requires pos + |text| <= |s|
    ensures |r| == |s|
  {
    s[..pos] + text + s[pos + |text|..]
  }

  /** String objects other than `id` are as they were. */
  ghost predicate SameBut(c0: Cores, c1: Cores, id: nat) {
    c1.Keys == c0.Keys + {id} && forall j :: j in c0 && j != id ==> c1[j] == c0[j]
  }

  class StringHeap {
    var cores: Cores
    var blocks: Blocks
    var next: nat

    const goodSize: nat -> nat          // goodMallocSize
    const junk: (nat, nat) -> Byte      // what malloc leaves in a block

    ghost predicate Valid()
      reads this
    {
      && HeapOK(cores, blocks) && (forall a :: a in blocks ==> a < next) && (forall n :: goodSize(n) >= n)
    }

    ghost function Contents(): (r: map<nat, seq<Byte>>)
      requires Valid()
      reads this
    {
      Values(cores, blocks)
    }

    /** `isShared()` is false. */
    ghost predicate Unique(id: nat)
      requires Valid() && id in cores
      reads this
    {
      cores[id].Big? ==> cores[id].data in blocks && blocks[cores[id].data].refs <= 1
    }

    function Size(id: nat): (r: nat)
      requires Valid() && id in cores
      reads this
    {
      SizeOf(cores[id])
    }

    /** A multi-referenced block has no available capacity. */
    function Capacity(id: nat): (r: nat)
      requires Valid() && id in cores
      reads this
    {
      match cores[id]
      case Small(_) => MAX_SMALL
      case Big(large, data, size, cap) => if blocks[data].refs > 1 then size else cap
    }

    lemma SizeIsLength(id: nat)
      requires Valid() && id in cores
      ensures CoreOK(blocks, cores[id]) && id in Contents() && Contents()[id] == ValueOf(blocks, cores[id]) && |Contents()[id]| == Size(id)
    {
      assert CoreOK(blocks, cores[id]);
    }

    constructor (goodSize: nat -> nat, junk: (nat, nat) -> Byte)
      requires forall n :: goodSize(n) >= n
      ensures Valid() && Contents() == map[]
    {
      this.goodSize, this.junk := goodSize, junk;
      cores, blocks, next := map[], map[], 0;
    }

    /** `data` copied to the start of `n` bytes of fresh memory. */
    function Pad(data: seq<Byte>, n: nat): (r: seq<Byte>)
      requires |data| <= n
      reads this
      ensures |r| == n && data <= r && forall k: nat :: k <= |data| ==> r[..k] == data[..k]
    {
      var a := next;
      data + seq(n - |data|, i requires i >= 0 => junk(a, i))
    }

    /** `setSmallSize` after copying `data` to `small_`. */
    function SmallBytes(data: seq<Byte>): (r: seq<Byte>)
      requires |data| <= MAX_SMALL
      reads this
      ensures |r| == MAX_SMALL + 1 && r[MAX_SMALL] == MAX_SMALL - |data| && r[..|data|] == data
    {
      Pad(data, MAX_SMALL) + [MAX_SMALL - |data|]
    }

    // ---------------------------------------------------------------- building blocks

    /** A string with a block of its own replaces string `id`, which releases what it had. */
    method Rehome(id: nat, large: bool, size: nat, cap: nat, chars: seq<Byte>)
      requires Valid() && id in cores && size <= cap < |chars|
      modifies this`cores, this`blocks, this`next
      ensures Valid() && SameBut(old(cores), cores, id) && cores[id] == Big(large, old(next), size, cap)
      ensures Becomes(old(Contents()), Contents(), id, chars[..size]) && Unique(id)
    {
      var c := Big(large, next, size, cap);
      var block := Block(if large then 1 else 0, chars);
      RehomeKeeps(cores, blocks, id, c, block);
      blocks := Without(cores, blocks, id)[next := block];
      cores, next := cores[id := c], next + 1;
    }

    /** Fill an object that holds nothing yet. */
    method Adopt(id: nat, large: bool, size: nat, cap: nat, chars: seq<Byte>)
      requires Valid() && id !in cores && size <= cap < |chars|
      modifies this`cores, this`blocks, this`next
      ensures Valid() && SameBut(old(cores), cores, id) && cores[id] == Big(large, old(next), size, cap)
      ensures Becomes(old(Contents()), Contents(), id, chars[..size])
    {
      var c := Big(large, next, size, cap);
      var block := Block(if large then 1 else 0, chars);
      AddFresh(cores, blocks, id, c, block);
      cores, blocks, next := cores[id := c], blocks[next := block], next + 1;
    }

    method SetSmall(id: nat, bytes: seq<Byte>)
      requires Valid() && (id in cores ==> cores[id].Small?) && CoreOK(blocks, Small(bytes))
      modifies this`cores
      ensures Valid() && SameBut(old(cores), cores, id) && cores[id] == Small(bytes)
      ensures Becomes(old(Contents()), Contents(), id, bytes[..SizeOf(Small(bytes))])
    {
      if id in cores { TurnSmallKeeps(cores, blocks, id, Small(bytes)); } else { AddSmall(cores, blocks, id, Small(bytes)); }
      cores := cores[id := Small(bytes)];
    }

    /** The only user of a block writes to it. */
    method SetBig(id: nat, size: nat, chars: seq<Byte>)
      requires Valid() && id in cores && cores[id].Big? && Unique(id)
      requires size <= cores[id].cap && |chars| == |blocks[cores[id].data].chars|
      modifies this`cores, this`blocks
      ensures Valid() && SameBut(old(cores), cores, id) && cores[id] == old(cores)[id].(size := size) && Unique(id)
      ensures Becomes(old(Contents()), Contents(), id, chars[..size])
    {
      var c := cores[id].(size := size);
      assert CoreOK(blocks, cores[id]);
      Modify(cores, blocks, id, c, chars);
      blocks, cores := blocks[c.data := blocks[c.data].(chars := chars)], cores[id := c];
    }

    // ---------------------------------------------------------------- constructors and destructor

    method Create(id: nat, data: seq<Byte>)
      requires Valid() && id !in cores
      modifies this`cores, this`blocks, this`next
      ensures Valid() && Becomes(old(Contents()), Contents(), id, data) && id in cores && SameBut(old(cores), cores, id)
      ensures cores[id].Small? <==> |data| <= MAX_SMALL
      ensures cores[id].Big? ==> (cores[id].large <==> |data| > MAX_MEDIUM)
    {
      var size := |data|;
      if size <= MAX_SMALL {
        SetSmall(id, SmallBytes(data));
      } else if size <= MAX_MEDIUM {
        var allocSize := goodSize(1 + size);
        Adopt(id, false, size, allocSize - 1, Pad(data, allocSize));
      } else {
        var allocSize := goodSize(REFCOUNTED + size);
        Adopt(id, true, size, allocSize - REFCOUNTED, Pad(data, allocSize - HEADER));
      }
    }

    method Copy(id: nat, src: nat)
      requires Valid() && id !in cores && src in cores
      modifies this`cores, this`blocks, this`next
      ensures Valid() && SameBut(old(cores), cores, id)
      ensures Becomes(old(Contents()), Contents(), id, old(Contents())[src])
      ensures old(cores)[src].Big? && old(cores)[src].large ==> cores[id] == old(cores)[src]
    {
      var c := cores[src];
      SizeIsLength(src);
      match c
      case Small(bytes) =>
        SetSmall(id, if SizeOf(c) == 0 then Pad([], 16) + bytes[16..] else bytes);
      case Big(large, data, size, cap) =>
        if large { CopyLarge(id, src); } else { CopyMedium(id, src); }
    }

    method CopyLarge(id: nat, src: nat)
      requires Valid() && id !in cores && src in cores && cores[src].Big? && cores[src].large
      modifies this`cores, this`blocks
      ensures Valid() && SameBut(old(cores), cores, id) && cores[id] == old(cores)[src]
      ensures Becomes(old(Contents()), Contents(), id, old(Contents())[src])
    {
      AddShare(cores, blocks, id, src);
      blocks := Shared(blocks, cores[src].data);
      cores := cores[id := cores[src]];
    }

    method CopyMedium(id: nat, src: nat)
      requires Valid() && id !in cores && src in cores && cores[src].Big? && !cores[src].large
      modifies this`cores, this`blocks, this`next
      ensures Valid() && SameBut(old(cores), cores, id)
      ensures Becomes(old(Contents()), Contents(), id, old(Contents())[src])
    {
      var Big(_, data, size, _) := cores[src];
      SizeIsLength(src);
      var allocSize := goodSize(1 + size);
      var chars := blocks[data].chars;
      assert chars[..size + 1][..size] == chars[..size];
      Adopt(id, false, size, allocSize - 1, Pad(chars[..size + 1], allocSize));
    }

    /** The source of a move is left empty, unless it was small. */
    method Move(id: nat, src: nat)
      requires Valid() && id !in cores && src in cores
      modifies this`cores, this`blocks, this`next
      ensures Valid()
      ensures Contents() == old(Contents())[id := old(Contents())[src]][src := if old(cores)[src].Small? then old(Contents())[src] else []]
    {
      var c := cores[src];
      assert CoreOK(blocks, c);
      if c.Small? {
        Create(id, c.bytes[..SizeOf(c)]);
      } else {
        var rest := Small(SmallBytes([]));
        MoveBig(cores, blocks, id, src, rest);
        MoveValues(cores, blocks, id, src, rest);
        cores := Moved(cores, id, src, rest);
      }
    }

    method Destroy(id: nat)
      requires Valid() && id in cores
      modifies this`cores, this`blocks
      ensures Valid() && Contents() == old(Contents()) - {id} && cores == old(cores) - {id}
      ensures old(cores)[id].Big? ==> (old(cores)[id].data !in blocks <==> Users(old(cores), old(cores)[id].data) == {id})
    {
      var c := cores[id];
      assert CoreOK(blocks, c);
      if c.Big? {
        assert BlockOK(cores, blocks, c.data);
        if blocks[c.data].refs <= 1 { OnlyUser(cores, blocks, id); }
        Drop(cores, blocks, id);
        blocks := Released(blocks, c.data);
      } else {
        DropSmall(cores, blocks, id);
      }
      cores := cores - {id};
    }

    // ---------------------------------------------------------------- the primitives

    /** Fork a shared block: `mutable_data`. */
    method MutableData(id: nat)
      requires Valid() && id in cores
      modifies this`cores, this`blocks, this`next
      ensures Valid() && SameBut(old(cores), cores, id)
      ensures Contents() == old(Contents()) && Unique(id) && Size(id) == old(Size(id))
    {
      var c := cores[id];
      SizeIsLength(id);
      if c.Big? && c.large && blocks[c.data].refs > 1 {
        var allocSize := goodSize(REFCOUNTED + c.cap);
        var chars := blocks[c.data].chars[..c.size + 1];
        assert chars[..c.size] == blocks[c.data].chars[..c.size];
        Rehome(id, true, c.size, c.cap, Pad(chars, allocSize - HEADER));
        Unchanged(old(Contents()), Contents(), id);
      }
    }

    method Shrink(id: nat, delta: nat)
      requires Valid() && id in cores && delta <= Size(id)
      modifies this`cores, this`blocks, this`next
      ensures Valid() && SameBut(old(cores), cores, id)
      ensures Becomes(old(Contents()), Contents(), id, old(Contents())[id][..old(Size(id)) - delta])
    {
      if cores[id].Small? { ShrinkSmall(id, delta); } else { ShrinkBig(id, delta); }
    }

    lemma PrefixOfPrefix(s: seq<Byte>, n: nat, m: nat)
      requires m <= n <= |s|
      ensures s[..n][..m] == s[..m]
    {
    }

    method ShrinkBig(id: nat, delta: nat)
      requires Valid() && id in cores && cores[id].Big? && delta <= Size(id)
      modifies this`cores, this`blocks, this`next
      ensures Valid() && SameBut(old(cores), cores, id)
      ensures Becomes(old(Contents()), Contents(), id, old(Contents())[id][..old(Size(id)) - delta])
    {
      SizeIsLength(id);
      var c := cores[id];
      var chars := blocks[c.data].chars;
      PrefixOfPrefix(chars, c.size, c.size - delta);
      if !c.large || blocks[c.data].refs == 1 {
        SetBig(id, c.size - delta, chars);
      } else if delta > 0 {
        ShrinkShared(id, chars[..c.size - delta]);
      }
    }

    method ShrinkSmall(id: nat, delta: nat)
      requires Valid() && id in cores && cores[id].Small? && delta <= Size(id)
      modifies this`cores
      ensures Valid() && SameBut(old(cores), cores, id)
      ensures Becomes(old(Contents()), Contents(), id, old(Contents())[id][..old(Size(id)) - delta])
    {
      SizeIsLength(id);
      var c := cores[id];
      var bytes := c.bytes[MAX_SMALL := c.bytes[MAX_SMALL] + delta];
      assert bytes[..SizeOf(c) - delta] == c.bytes[..SizeOf(c)][..SizeOf(c) - delta];
      SetSmall(id, bytes);
    }

    /** A medium or large string becomes a small one. */
    method TurnSmall(id: nat, bytes: seq<Byte>)
      requires Valid() && id in cores && cores[id].Big? && CoreOK(blocks, Small(bytes))
      modifies this`cores, this`blocks
      ensures Valid() && SameBut(old(cores), cores, id) && cores[id] == Small(bytes)
      ensures Becomes(old(Contents()), Contents(), id, bytes[..SizeOf(Small(bytes))])
    {
      TurnSmallKeeps(cores, blocks, id, Small(bytes));
      blocks := Without(cores, blocks, id);
      cores := cores[id := Small(bytes)];
    }

    /** `fbstring_core(data, size).swap(*this)`: a fresh string takes over. */
    method ShrinkShared(id: nat, data: seq<Byte>)
      requires Valid() && id in cores && cores[id].Big?
      modifies this`cores, this`blocks, this`next
      ensures Valid() && SameBut(old(cores), cores, id) && Becomes(old(Contents()), Contents(), id, data)
    {
      var size := |data|;
      if size <= MAX_SMALL {
        TurnSmall(id, SmallBytes(data));
      } else if size <= MAX_MEDIUM {
        var allocSize := goodSize(1 + size);
        Rehome(id, false, size, allocSize - 1, Pad(data, allocSize));
      } else {
        var allocSize := goodSize(REFCOUNTED + size);
        Rehome(id, true, size, allocSize - REFCOUNTED, Pad(data, allocSize - HEADER));
      }
    }

    ghost predicate HasRoom(id: nat, n: nat)
      requires Valid() && id in cores
      reads this
    {
      Unique(id) && n <= Capacity(id)
    }

    /** The characters of `id` are still in the same place, with the same capacity. */
    ghost predicate StaysHome(c0: Cores, id: nat)
      requires id in cores && id in c0
      reads this
    {
      match cores[id]
      case Small(_) => c0[id].Small?
      case Big(_, data, _, cap) => c0[id].Big? && c0[id].data == data && c0[id].cap == cap
    }

    /** A new home is large if the old one was or if it must hold more than a medium string, and the capacity does not shrink. */
    static ghost predicate Grown(c: Core, c': Core, minCapacity: nat) {
      && c'.Big? && c'.cap >= (if c.Small? then MAX_SMALL else c.cap)
      && (c'.large <==> (c.Big? && c.large) || minCapacity > MAX_MEDIUM)
    }

    method Reserve(id: nat, minCapacity: nat)
      requires Valid() && id in cores
      modifies this`cores, this`blocks, this`next
      ensures Valid() && SameBut(old(cores), cores, id)
      ensures Contents() == old(Contents()) && Size(id) == old(Size(id))
      ensures HasRoom(id, minCapacity) && (cores[id].Small? ==> old(cores)[id].Small? && minCapacity <= MAX_SMALL)
      ensures old(HasRoom(id, minCapacity)) ==> cores == old(cores) && blocks == old(blocks)
      ensures !old(HasRoom(id, minCapacity)) ==> Grown(old(cores)[id], cores[id], minCapacity)
    {
      match cores[id]
      case Big(_, _, _, _) => ReserveBig(id, minCapacity);
      case Small(bytes) =>
        SizeIsLength(id);
        var size := SizeOf(cores[id]);
        assert bytes[..size + 1][..size] == bytes[..size];
        if minCapacity > MAX_MEDIUM {
          var allocSize := goodSize(REFCOUNTED + minCapacity);
          Rehome(id, true, size, allocSize - REFCOUNTED, Pad(bytes[..size + 1], allocSize - HEADER));
          Unchanged(old(Contents()), Contents(), id);
        } else if minCapacity > MAX_SMALL {
          var allocSize := goodSize(1 + minCapacity);
          Rehome(id, false, size, allocSize - 1, Pad(bytes[..size + 1], allocSize));
          Unchanged(old(Contents()), Contents(), id);
        }
    }

    method ReserveBig(id: nat, minCapacity: nat)
      requires Valid() && id in cores && cores[id].Big?
      modifies this`cores, this`blocks, this`next
      ensures Valid() && SameBut(old(cores), cores, id)
      ensures Contents() == old(Contents()) && cores[id].Big? && Size(id) == old(Size(id)) && HasRoom(id, minCapacity)
      ensures old(HasRoom(id, minCapacity)) ==> cores == old(cores) && blocks == old(blocks)
      ensures !old(HasRoom(id, minCapacity)) ==> Grown(old(cores)[id], cores[id], minCapacity)
    {
      var Big(large, data, size, cap) := cores[id];
      SizeIsLength(id);
      var chars := blocks[data].chars;
      assert chars[..size + 1][..size] == chars[..size];
      if large {
        if blocks[data].refs > 1 {
          var wanted := if minCapacity > cap then minCapacity else cap;
          var allocSize := goodSize(REFCOUNTED + wanted);
          Rehome(id, true, size, allocSize - REFCOUNTED, Pad(chars[..size + 1], allocSize - HEADER));
          Unchanged(old(Contents()), Contents(), id);
        } else if minCapacity > cap {
          Rehome(id, true, size, minCapacity, Pad(chars[..size], minCapacity + HEADER));
          Unchanged(old(Contents()), Contents(), id);
        }
      } else if minCapacity > cap {
        if minCapacity <= MAX_MEDIUM {
          var capacityBytes := goodSize(1 + minCapacity);
          Rehome(id, false, size, capacityBytes - 1, Pad(chars[..size], capacityBytes));
          Unchanged(old(Contents()), Contents(), id);
        } else {
          var allocSize := goodSize(REFCOUNTED + minCapacity);
          Rehome(id, true, size, allocSize - REFCOUNTED, Pad(chars[..size], allocSize - HEADER));
          Unchanged(old(Contents()), Contents(), id);
        }
      }
    }

    /** Grow by `delta` characters, whatever they are; old characters stay. */
    method ExpandNoInit(id: nat, delta: nat)
      requires Valid() && id in cores
      modifies this`cores, this`blocks, this`next
      ensures Valid() && SameBut(old(cores), cores, id)
      ensures id in Contents() && Becomes(old(Contents()), Contents(), id, Contents()[id])
      ensures Size(id) == old(Size(id)) + delta && old(Contents())[id] <= Contents()[id]
      ensures delta > 0 ==> Unique(id)
      ensures old(HasRoom(id, Size(id) + delta)) ==> StaysHome(old(cores), id)
    {
      var newSz := Size(id) + delta;
      if cores[id].Small? && newSz <= MAX_SMALL {
        StretchSmall(id, newSz);
      } else if delta == 0 {
        SizeIsLength(id);   // storing the same size, in a shared string too, changes nothing
      } else {
        ExpandBig(id, newSz);
      }
    }

    method ExpandBig(id: nat, newSz: nat)
      requires Valid() && id in cores && Size(id) < newSz && (cores[id].Small? ==> newSz > MAX_SMALL)
      modifies this`cores, this`blocks, this`next
      ensures Valid() && SameBut(old(cores), cores, id)
      ensures id in Contents() && Becomes(old(Contents()), Contents(), id, Contents()[id])
      ensures Size(id) == newSz && old(Contents())[id] <= Contents()[id] && Unique(id)
      ensures old(HasRoom(id, newSz)) ==> StaysHome(old(cores), id)
    {
      if cores[id].Small? || newSz > Capacity(id) { Reserve(id, newSz); }
      Stretch(id, newSz);
    }

    method StretchSmall(id: nat, newSz: nat)
      requires Valid() && id in cores && cores[id].Small? && Size(id) <= newSz <= MAX_SMALL
      modifies this`cores
      ensures Valid() && SameBut(old(cores), cores, id) && cores[id].Small?
      ensures id in Contents() && Becomes(old(Contents()), Contents(), id, Contents()[id])
      ensures Size(id) == newSz && old(Contents())[id] <= Contents()[id]
    {
      SizeIsLength(id);
      var c := cores[id];
      var bytes := c.bytes[MAX_SMALL := MAX_SMALL - newSz];
      assert bytes[..newSz][..SizeOf(c)] == c.bytes[..SizeOf(c)];
      SetSmall(id, bytes);
    }

    /** `ml_.size_ = newSz` on a string with enough room. */
    method Stretch(id: nat, newSz: nat)
      requires Valid() && id in cores && cores[id].Big? && Unique(id) && Size(id) <= newSz <= cores[id].cap
      modifies this`cores, this`blocks
      ensures Valid() && SameBut(old(cores), cores, id) && cores[id] == old(cores)[id].(size := newSz) && Unique(id)
      ensures id in Contents() && Becomes(old(Contents()), Contents(), id, Contents()[id])
      ensures Size(id) == newSz && old(Contents())[id] <= Contents()[id]
    {
      SizeIsLength(id);
      var c := cores[id];
      assert blocks[c.data].chars[..newSz][..c.size] == blocks[c.data].chars[..c.size];
      SetBig(id, newSz, blocks[c.data].chars);
    }

    method PushBack(id: nat, x: Byte)
      requires Valid() && id in cores
      modifies this`cores, this`blocks, this`next
      ensures Valid() && SameBut(old(cores), cores, id)
      ensures Becomes(old(Contents()), Contents(), id, old(Contents())[id] + [x])
      ensures old(HasRoom(id, Size(id) + 1)) ==> StaysHome(old(cores), id) && Unique(id)
    {
      var c := cores[id];
      assert CoreOK(blocks, c);
      var sz := SizeOf(c);
      if c.Small? && sz < MAX_SMALL {
        var bytes := c.bytes[MAX_SMALL := MAX_SMALL - (sz + 1)][sz := x];
        assert bytes[..sz + 1] == c.bytes[..sz] + [x];
        SetSmall(id, bytes);
      } else {
        if c.Small? { Reserve(id, MAX_SMALL * 2); }
        else if sz == Capacity(id) { Reserve(id, 1 + sz * 3 / 2); }
        PutLast(id, x);
      }
    }

    /** `ml_.size_ = sz + 1; ml_.data_[sz] = c;` */
    method PutLast(id: nat, x: Byte)
      requires Valid() && id in cores && cores[id].Big? && Unique(id) && cores[id].size < cores[id].cap
      modifies this`cores, this`blocks
      ensures Valid() && SameBut(old(cores), cores, id) && cores[id] == old(cores)[id].(size := old(cores)[id].size + 1) && Unique(id)
      ensures Becomes(old(Contents()), Contents(), id, old(Contents())[id] + [x])
    {
      var c := cores[id];
      assert CoreOK(blocks, c);
      var chars := blocks[c.data].chars[c.size := x];
      assert chars[..c.size + 1] == blocks[c.data].chars[..c.size] + [x];
      SetBig(id, c.size + 1, chars);
    }

    /** Write through the pointer given by `mutable_data()`. */
    method SetAt(id: nat, i: nat, x: Byte)
      requires Valid() && id in cores && i < Size(id)
      modifies this`cores, this`blocks, this`next
      ensures Valid() && SameBut(old(cores), cores, id)
      ensures Becomes(old(Contents()), Contents(), id, Overwritten(old(Contents())[id], i, [x]))
    {
      MutableData(id);
      WriteAt(id, i, [x]);
    }

    /** Raw write inside the string, by its only user. */
    method WriteAt(id: nat, pos: nat, text: seq<Byte>)
      requires Valid() && id in cores && pos + |text| <= Size(id) && (text != [] ==> Unique(id))
      modifies this`cores, this`blocks
      ensures Valid() && SameBut(old(cores), cores, id)
      ensures Becomes(old(Contents()), Contents(), id, Overwritten(old(Contents())[id], pos, text))
    {
      var c := cores[id];
      assert CoreOK(blocks, c);
      if text == [] {
        assert Overwritten(Contents()[id], pos, text) == Contents()[id];
        return;
      }
      if c.Small? { WriteSmall(id, pos, text); } else { WriteBig(id, pos, text); }
    }

    method WriteSmall(id: nat, pos: nat, text: seq<Byte>)
      requires Valid() && id in cores && cores[id].Small? && pos + |text| <= Size(id)
      modifies this`cores
      ensures Valid() && SameBut(old(cores), cores, id)
      ensures Becomes(old(Contents()), Contents(), id, Overwritten(old(Contents())[id], pos, text))
    {
      SizeIsLength(id);
      var bytes, size := cores[id].bytes, SizeOf(cores[id]);
      assert Overwritten(bytes, pos, text)[..size] == Overwritten(bytes[..size], pos, text);
      assert Overwritten(bytes, pos, text)[MAX_SMALL] == bytes[MAX_SMALL];
      SetSmall(id, Overwritten(bytes, pos, text));
    }

    method WriteBig(id: nat, pos: nat, text: seq<Byte>)
      requires Valid() && id in cores && cores[id].Big? && pos + |text| <= Size(id) && Unique(id)
      modifies this`cores, this`blocks
      ensures Valid() && SameBut(old(cores), cores, id)
      ensures Becomes(old(Contents()), Contents(), id, Overwritten(old(Contents())[id], pos, text))
    {
      SizeIsLength(id);
      var chars, size := blocks[cores[id].data].chars, cores[id].size;
      assert Overwritten(chars, pos, text)[..size] == Overwritten(chars[..size], pos, text);
      SetBig(id, size, Overwritten(chars, pos, text));
    }

    /** `c_str()`, which is also `data()`: terminate the characters, on a shared block too. */
    method CStr(id: nat)
      requires Valid() && id in cores
      modifies this`cores, this`blocks
      ensures Valid() && Contents() == old(Contents()) && id in cores && cores.Keys == old(cores.Keys) && blocks.Keys == old(blocks.Keys)
      ensures forall j :: j in cores ==> cores[j] == old(cores)[j] || (j == id && cores[j].Small? && old(cores)[j].Small?)
      ensures forall a :: a in blocks ==> blocks[a].refs == old(blocks)[a].refs
      ensures match cores[id]
              case Small(bytes) => |bytes| == MAX_SMALL + 1 && Size(id) < |bytes| && bytes[Size(id)] == 0
              case Big(_, data, size, _) => data in blocks && size < |blocks[data].chars| && blocks[data].chars[size] == 0
    {
      var c := cores[id];
      assert CoreOK(blocks, c);
      if c.Small? {
        var size := SizeOf(c);
        assert c.bytes[size := 0][..size] == c.bytes[..size];
        SetSmall(id, c.bytes[size := 0]);
        Unchanged(old(Contents()), Contents(), id);
      } else {
        WriteEnd(cores, blocks, id, 0);
        blocks := blocks[c.data := blocks[c.data].(chars := blocks[c.data].chars[c.size := 0])];
      }
    }

    // ---------------------------------------------------------------- append

    ghost predicate Live(p: Ptr, n: nat)
      reads this
    {
      match p
      case InCore(j, off) => j in cores && cores[j].Small? && off + n <= |cores[j].bytes|
      case InBlock(a, off) => a in blocks && off + n <= |blocks[a].chars|
    }

    /** The `n` bytes a live pointer points to. */
    function Deref(p: Ptr, n: nat): (r: seq<Byte>)
      requires Live(p, n)
      reads this
    {
      match p
      case InCore(j, off) => cores[j].bytes[off..off + n]
      case InBlock(a, off) => blocks[a].chars[off..off + n]
    }

    function Plus(p: Ptr, k: nat): (r: Ptr) {
      if p.InCore? then InCore(p.id, p.off + k) else InBlock(p.a, p.off + k)
    }

    /** `data() + off` of string `j`. */
    function PtrTo(j: nat, off: nat): (r: Ptr)
      requires Valid() && j in cores
      reads this
    {
      if cores[j].Small? then InCore(j, off) else InBlock(cores[j].data, off)
    }

    lemma PtrReadsValue(j: nat, off: nat, n: nat)
      requires Valid() && j in cores && off + n <= Size(j)
      ensures Live(PtrTo(j, off), n) && j in Contents() && off + n <= |Contents()[j]| && Deref(PtrTo(j, off), n) == Contents()[j][off..off + n]
    {
      SizeIsLength(j);
      var c := cores[j];
      if c.Small? { SliceOfPrefix(c.bytes, SizeOf(c), off, n); } else { SliceOfPrefix(blocks[c.data].chars, c.size, off, n); }
    }

    lemma SliceOfPrefix(s: seq<Byte>, k: nat, off: nat, n: nat)
      requires off + n <= k <= |s|
      ensures s[..k][off..off + n] == s[off..off + n]
    {
    }

    /** `push_back` of the first character, `expand_noinit` for the rest. */
    method GrowFor(id: nat, first: Byte, n: nat)
      requires Valid() && id in cores && n > 0
      modifies this`cores, this`blocks, this`next
      ensures Valid() && SameBut(old(cores), cores, id)
      ensures id in Contents() && Becomes(old(Contents()), Contents(), id, Contents()[id])
      ensures Size(id) == old(Size(id)) + n && old(Contents())[id] + [first] <= Contents()[id]
      ensures n > 1 ==> Unique(id)
      ensures old(HasRoom(id, Size(id) + n)) ==> StaysHome(old(cores), id)
    {
      ghost var v := Contents();
      SizeIsLength(id);
      PushBack(id, first);
      ghost var v1 := Contents();
      SizeIsLength(id);
      ExpandNoInit(id, n - 1);
      BecomesTwice(v, v1, Contents(), id, v1[id], Contents()[id]);
    }

    lemma Filled(v: seq<Byte>, w: seq<Byte>, text: seq<Byte>)
      requires text != [] && |w| == |v| + |text| && v + [text[0]] <= w
      ensures Overwritten(w, |v| + 1, text[1..]) == v + text
    {
    }

    /** Characters that belong to no string of this heap. */
    method AppendText(id: nat, text: seq<Byte>)
      requires Valid() && id in cores && text != []
      modifies this`cores, this`blocks, this`next
      ensures Valid() && SameBut(old(cores), cores, id)
      ensures Becomes(old(Contents()), Contents(), id, old(Contents())[id] + text)
    {
      ghost var v := Contents()[id];
      SizeIsLength(id);
      var sz := Size(id);
      GrowFor(id, text[0], |text|);
      ghost var v1 := Contents();
      FillRest(id, sz, text[1..], v, text);
      BecomesTwice(old(Contents()), v1, Contents(), id, v1[id], v + text);
    }

    /** The `memcpy` into the expanded region. */
    method FillRest(id: nat, sz: nat, rest: seq<Byte>, ghost v: seq<Byte>, ghost text: seq<Byte>)
      requires Valid() && id in cores && text != [] && rest == text[1..] && sz == |v| && Size(id) == sz + |text| && (rest != [] ==> Unique(id))
      requires id in Contents() && v + [text[0]] <= Contents()[id]
      modifies this`cores, this`blocks
      ensures Valid() && SameBut(old(cores), cores, id) && Becomes(old(Contents()), Contents(), id, v + text)
    {
      SizeIsLength(id);
      Filled(v, Contents()[id], text);
      WriteAt(id, sz + 1, rest);
    }

    /** Is the source inside the characters of `id`? The comparison of pointers in `append`. */
    predicate Aliases(id: nat, s: Ptr)
      requires Valid() && id in cores
      reads this
    {
      match PtrTo(id, 0)
      case InCore(j, _) => s.InCore? && s.id == j && s.off < Size(id)
      case InBlock(a, _) => s.InBlock? && s.a == a && s.off < Size(id)
    }

    lemma AliasesAgree(id: nat, src: nat, off: nat)
      requires Valid() && id in cores && src in cores && Aliases(id, PtrTo(src, off))
      ensures Size(id) == Size(src) && id in Contents() && src in Contents() && Contents()[id] == Contents()[src]
    {
      SizeIsLength(id);
      SizeIsLength(src);
      if cores[id].Big? { assert cores[id] == cores[src]; }
    }

    /**
     Characters of a string of this heap, possibly of `id` itself or of one that shares its
     block: then make room first and point into the block that `id` has now.
     */
    method AppendFrom(id: nat, src: nat, off: nat, n: nat)
      requires Valid() && id in cores && src in cores && off + n <= Size(src) && n > 0
      modifies this`cores, this`blocks, this`next
      ensures Valid() && SameBut(old(cores), cores, id)
      ensures off + n <= |old(Contents())[src]| && Becomes(old(Contents()), Contents(), id, old(Contents())[id] + old(Contents())[src][off..off + n])
    {
      SizeIsLength(src);
      if Aliases(id, PtrTo(src, off)) {
        AliasesAgree(id, src, off);
        Reserve(id, Size(id) + n);
        AppendAt(id, id, off, n);
      } else {
        AppendAt(id, src, off, n);
      }
    }

    lemma FirstChar(src: nat, off: nat, n: nat)
      requires Valid() && src in cores && off + n <= Size(src) && n > 0
      ensures Live(PtrTo(src, off), 1) && src in Contents() && off + n <= |Contents()[src]|
      ensures Deref(PtrTo(src, off), 1)[0] == Contents()[src][off..off + n][0]
    {
      SizeIsLength(src);
      PtrReadsValue(src, off, 1);
    }

    /** After `id` has grown, a pointer into `src` still reads the characters it was taken for. */
    lemma PtrAfterGrowth(v: map<nat, seq<Byte>>, id: nat, src: nat, off: nat, n: nat)
      requires Valid() && id in cores && src in cores && id in v && src in v && off + n <= |v[src]| && n > 0
      requires id in Contents() && Becomes(v, Contents(), id, Contents()[id]) && v[id] <= Contents()[id]
      ensures Live(PtrTo(src, off + 1), n - 1) && Deref(PtrTo(src, off + 1), n - 1) == v[src][off..off + n][1..]
    {
      SizeIsLength(src);
      PtrReadsValue(src, off + 1, n - 1);
      assert src == id ==> Contents()[id][..|v[id]|] == v[id];
      assert Contents()[src][off + 1..off + n] == v[src][off..off + n][1..];
    }

    lemma PtrStays(c0: Cores, id: nat, src: nat, off: nat)
      requires Valid() && id in cores && src in cores && src in c0 && id in c0 && SameBut(c0, cores, id) && (src == id ==> StaysHome(c0, id))
      ensures PtrTo(src, off + 1) == if c0[src].Small? then InCore(src, off + 1) else InBlock(c0[src].data, off + 1)
    {
    }

    /** Read on through a pointer taken before string `id` grew: it is still good. */
    method ReadOn(s: Ptr, id: nat, src: nat, off: nat, n: nat, ghost c0: Cores, ghost v: map<nat, seq<Byte>>) returns (rest: seq<Byte>)
      requires Valid() && id in cores && src in cores && id in v && src in v && off + n <= |v[src]| && n > 0
      requires id in Contents() && Becomes(v, Contents(), id, Contents()[id]) && v[id] <= Contents()[id]
      requires src in c0 && id in c0 && SameBut(c0, cores, id) && (src == id ==> StaysHome(c0, id))
      requires s == if c0[src].Small? then InCore(src, off) else InBlock(c0[src].data, off)
      ensures rest == v[src][off..off + n][1..]
    {
      PtrAfterGrowth(v, id, src, off, n);
      PtrStays(c0, id, src, off);
      rest := Deref(Plus(s, 1), n - 1);
    }

    method ReadFirst(s: Ptr, src: nat, off: nat, n: nat, ghost text: seq<Byte>) returns (x: Byte)
      requires Valid() && src in cores && off + n <= Size(src) && n > 0 && s == PtrTo(src, off)
      requires src in Contents() && off + n <= |Contents()[src]| && text == Contents()[src][off..off + n]
      ensures x == text[0]
    {
      FirstChar(src, off, n);
      x := Deref(s, 1)[0];
    }

    method AppendAt(id: nat, src: nat, off: nat, n: nat)
      requires Valid() && id in cores && src in cores && off + n <= Size(src) && n > 0
      requires src == id ==> HasRoom(id, Size(id) + n)
      modifies this`cores, this`blocks, this`next
      ensures Valid() && SameBut(old(cores), cores, id)
      ensures off + n <= |old(Contents())[src]| && Becomes(old(Contents()), Contents(), id, old(Contents())[id] + old(Contents())[src][off..off + n])
    {
      SizeIsLength(src);
      SizeIsLength(id);
      ghost var v := Contents();
      ghost var text := v[src][off..off + n];
      var sz := Size(id);
      var s := PtrTo(src, off);
      var x := ReadFirst(s, src, off, n, text);
      GrowFor(id, x, n);
      ghost var v1 := Contents();
      var rest := ReadOn(s, id, src, off, n, old(cores), v);
      FillRest(id, sz, rest, v[id], text);
      BecomesTwice(v, v1, Contents(), id, v1[id], v[id] + text);
    }
  }
}
