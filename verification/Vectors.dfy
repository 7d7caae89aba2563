/** vec.c: growing vectors that live in a slab block at their least capacity and on
    the heap otherwise. */
module Vectors {
  import opened Storage

  // ---- stretches of memory -------------------------------------------------

  /** Nothing outside [at, at + n) has changed. */
  twostate predicate Within(a: array<int>, at: nat, n: nat)
    reads a
  {
    forall k :: 0 <= k < a.Length && !(at <= k < at + n) ==> a[k] == old(a[k])
  }

  method Store(a: array<int>, k: nat, x: int)
    requires k < a.Length
    modifies a
    ensures a[k] == x && forall j :: 0 <= j < a.Length && j != k ==> a[j] == old(a[j])
  {
    a[k] := x;
  }

  /** memset behind the `n` items, and a store. */
  method PutAt(a: array<int>, at: nat, n: nat, i: nat, x: int)
    requires at + n <= a.Length && at + i < a.Length
    modifies a
    ensures a[at..at + if i + 1 > n then i + 1 else n] == Stored(old(a[at..at + n]), i, x)
    ensures Within(a, at, if i + 1 > n then i + 1 else n)
  {
    forall k | at + n <= k < at + i { a[k] := 0; }
    a[at + i] := x;
  }

  /** memmove up, and a store. */
  method MoveUp(a: array<int>, at: nat, n: nat, i: nat, x: int, ghost was: seq<int>)
    requires at + n < a.Length && i <= n && a[at..at + n] == was
    modifies a
    ensures a[at..at + n + 1] == was[..i] + [x] + was[i..]
    ensures Within(a, at, n + 1)
  {
    assert was[..i] == a[at..at + i] && was[i..] == a[at + i..at + n];
    forall k | at + i < k <= at + n { a[k] := a[k - 1]; }
    a[at + i] := x;
    assert a[at..at + i] == was[..i];
    assert a[at + i + 1..at + n + 1] == was[i..];
    Join(a, at, at + i, at + n + 1);
  }

  /** A stretch is what is before an item, the item, and what is behind it. */
  lemma Join(a: array<int>, lo: nat, i: nat, hi: nat)
    requires lo <= i < hi <= a.Length
    ensures a[lo..hi] == a[lo..i] + [a[i]] + a[i + 1..hi]
  {
  }

  /** memmove down */
  method MoveDown(a: array<int>, at: nat, n: nat, i: nat, ghost was: seq<int>)
    requires at + n <= a.Length && i < n && a[at..at + n] == was
    modifies a
    ensures a[at..at + n - 1] == was[..i] + was[i + 1..]
    ensures Within(a, at, n)
  {
    assert was[..i] == a[at..at + i] && was[i + 1..] == a[at + i + 1..at + n];
    forall k | at + i <= k < at + n - 1 { a[k] := a[k + 1]; }
  }

  /** Where a vector's items are. */
  datatype Items = Nowhere | InSlot(slot: Slot) | OnHeap(block: array<int>)

  /** malloc and free of the C library: which blocks are out. */
  class Heap {
    ghost var blocks: set<array<int>>

    constructor ()
      ensures blocks == {}
    {
      blocks := {};
    }

    method Take(n: nat) returns (a: array<int>)
      modifies this
      ensures fresh(a) && a.Length == n && blocks == old(blocks) + {a}
    {
      a := new int[n];
      blocks := blocks + {a};
    }

    method Release(a: array<int>)
      requires a in blocks
      modifies this
      ensures blocks == old(blocks) - {a}
    {
      blocks := blocks - {a};
    }
  }

  class Vec {
    var count: nat
    var capac: nat
    var items: Items
    const alloc: Malloc?
    const heap: Heap

    constructor (alloc: Malloc?, heap: Heap)
      requires alloc != null ==> alloc.Valid()
      ensures Ready() && Contents() == [] && this.alloc == alloc && this.heap == heap && items.Nowhere?
    {
      count, capac, items := 0, 0, Nowhere;
      this.alloc, this.heap := alloc, heap;
      if alloc != null { OwnObjects(alloc); }
    }

    /** A vector owns a slab block iff it has an allocator and the least capacity. */
    ghost predicate Valid()
      reads this, alloc, heap
    {
      && this !in Pool() && heap !in Pool()
      && count <= capac && (capac == 0 || capac >= VEC_MIN)
      && match items
         case Nowhere => capac == 0
         case InSlot(s) =>
           && alloc != null && capac == VEC_MIN && s in alloc.live && s.slab.mem in Mem()
           && s.At() + VEC_MIN <= s.slab.mem.Length
         case OnHeap(a) =>
           && a in heap.blocks && a.Length == capac && capac > 0 && !(alloc != null && capac == VEC_MIN)
           && a !in Mem() && a !in Pool()
    }

    ghost function Slots(): set<Slot>
      reads this
    {
      if items.InSlot? then {items.slot} else {}
    }

    ghost function Blocks(): set<array<int>>
      reads this
    {
      if items.OnHeap? then {items.block} else {}
    }

    ghost function Cells(): set<array<int>>
      reads this
    {
      match items
      case Nowhere => {}
      case InSlot(s) => {s.slab.mem}
      case OnHeap(a) => {a}
    }

    ghost function Contents(): seq<int>
      reads this, Cells(), alloc, heap
      requires Valid()
    {
      match items
      case Nowhere => []
      case InSlot(s) => s.slab.mem[s.At()..s.At() + count]
      case OnHeap(a) => a[..count]
    }

    /** What the allocator's methods may change. */
    ghost function Pool(): set<object>
      reads this, alloc
    {
      if alloc == null then {} else alloc.repr
    }

    /** The memory of the allocator's slabs. */
    ghost function Mem(): set<array<int>>
      reads this, alloc
    {
      if alloc == null then {} else alloc.mems
    }

    ghost predicate Ready()
      reads this, alloc, heap, Pool()
    {
      Valid() && (alloc != null ==> alloc.Valid())
    }

    /** Blocks change hands one for one, each at the place it came from; new ones were
        in nobody's hands. */
    twostate predicate Exchanged()
      reads this, alloc, heap
    {
      && (Blocks() == old(Blocks()) || fresh(Blocks()))
      && (alloc != null ==> alloc.live == old(alloc.live) - old(Slots()) + Slots()
                            && Slots() !! (old(alloc.live) - old(Slots())))
      && heap.blocks == old(heap.blocks) - old(Blocks()) + Blocks()
    }

    /** Cell `k` of `m` belongs to this vector's slot. */
    ghost predicate Owns(m: array<int>, k: int)
      reads this
    {
      items.InSlot? && items.slot.slab.mem == m && items.slot.At() <= k < items.slot.At() + VEC_MIN
    }

    /** In the memory of the slabs nothing changed but this vector's own block. */
    twostate predicate KeepsOthers()
      reads *
    {
      forall m :: m in old(Mem()) ==> Kept(m)
    }

    twostate predicate Kept(m: array<int>)
      reads this, m
    {
      forall k :: 0 <= k < m.Length && !Owns(m, k) ==> m[k] == old(m[k])
    }

    /** The items are in `a`, the first at `at`. */
    ghost predicate IsAt(a: array<int>, at: nat)
      reads this
    {
      && Cells() == {a} && at + capac <= a.Length
      && if items.InSlot? then a == items.slot.slab.mem && at == items.slot.At() else at == 0
    }

    method Room() returns (a: array<int>, at: nat)
      requires Valid() && !items.Nowhere?
      ensures IsAt(a, at) && Contents() == a[at..at + count]
    {
      match items
      case InSlot(s) => a, at := s.slab.mem, s.At();
      case OnHeap(b) => a, at := b, 0;
    }

    /** The capacity cx_vec_grow settles on. */
    method NewCapacity(want: nat) returns (c: nat)
      requires want > capac
      ensures c >= want
      ensures capac == 0 ==> c == if want > VEC_MIN then want else VEC_MIN
      ensures capac > 0 ==> c > capac
    {
      if capac > 0 {
        c := capac;
        while c < want
          invariant c >= capac && (c > capac || c < want)
          decreases want - c
        {
          c := c * VEC_GROW;
        }
      } else {
        c := if want > VEC_MIN then want else VEC_MIN;
      }
    }

    /** cx_vec_grow: the contents stay, whether the block moves from the slab to the
        heap, within the heap, or not at all; no memory of a slab is written. */
    method Grow(want: nat)
      requires Ready()
      modifies this, heap, Pool()
      ensures Ready() && Contents() == old(Contents()) && count == old(count)
      ensures capac >= want && capac >= old(capac) && Exchanged()
      ensures fresh(Pool() - old(Pool())) && fresh(Mem() - old(Mem())) && old(Mem()) <= Mem()
      ensures Cells() == old(Cells()) || fresh(Cells()) || Cells() <= Mem()
    {
      hide Malloc.Valid;
      if want > capac {
        var c := NewCapacity(want);
        if alloc != null && c == VEC_MIN { FirstInSlab(); } else { ToHeap(c); }
      }
    }

    method FirstInSlab()
      requires Ready() && alloc != null && capac == 0
      modifies this, Pool()
      ensures Ready() && Contents() == [] && count == 0 && capac == VEC_MIN && Exchanged()
      ensures fresh(Pool() - old(Pool())) && fresh(Mem() - old(Mem())) && old(Mem()) <= Mem() && Cells() <= Mem()
    {
      hide Malloc.Valid;
      var s := alloc.Alloc();
      LiveInside(alloc, s);
      items, capac := InSlot(s), VEC_MIN;
    }

    method ToHeap(c: nat)
      requires Ready() && c > capac && c >= VEC_MIN && !(alloc != null && c == VEC_MIN)
      modifies this`items, this`capac, heap, Pool()
      ensures Ready() && Contents() == old(Contents()) && Pool() == old(Pool()) && Mem() == old(Mem())
      ensures items.OnHeap? && fresh(items.block) && capac == c && count == old(count)
      ensures alloc != null ==> alloc.live == old(alloc.live) - old(Slots())
      ensures heap.blocks == old(heap.blocks) - old(Blocks()) + {items.block}
    {
      hide Malloc.Valid;
      var a := heap.Take(c);
      MoveTo(a);
    }

    /** The contents move to a new block and the old one is given back. */
    method MoveTo(a: array<int>)
      requires Ready() && a.Length > capac && a.Length >= VEC_MIN && !(alloc != null && a.Length == VEC_MIN)
      requires a in heap.blocks && a !in Cells() && a !in Mem() && a !in Pool()
      modifies this`items, this`capac, heap, Pool(), a
      ensures Ready() && Contents() == old(Contents()) && Pool() == old(Pool()) && Mem() == old(Mem())
      ensures items == OnHeap(a) && capac == a.Length && count == old(count)
      ensures alloc != null ==> alloc.live == old(alloc.live) - old(Slots())
      ensures heap.blocks == old(heap.blocks) - old(Blocks())
    {
      hide Malloc.Valid;
      if capac > 0 { CopyTo(a); }
      ghost var was := Contents();
      Drop();
      assert a[..count] == was;
      items, capac := OnHeap(a), a.Length;
    }

    method CopyTo(a: array<int>)
      requires Valid() && !items.Nowhere? && a.Length >= count && a !in Cells()
      modifies a
      ensures a[..count] == Contents()
    {
      var b, at := Room();
      var i := 0;
      while i < count
        invariant i <= count && a[..i] == b[at..at + i]
      {
        a[i] := b[at + i];
        i := i + 1;
      }
    }

    /** The block goes back to where it came from: to the allocator if the vector has
        one and is at its least capacity, to the heap otherwise. */
    method Drop()
      requires Ready()
      modifies heap, Pool()
      ensures alloc != null ==> alloc.Valid() && alloc.live == old(alloc.live) - Slots()
      ensures heap.blocks == old(heap.blocks) - Blocks() && Pool() == old(Pool()) && Mem() == old(Mem())
    {
      if capac > 0 {
        if alloc != null && capac == VEC_MIN { alloc.Free(items.slot); } else { heap.Release(items.block); }
      }
    }

    // Growing does nothing where there is room, so that callers need not test.

    // ---- items -------------------------------------------------------------

    /** cx_vec_push, and the caller's store */
    method Push(x: int)
      requires Ready()
      modifies this, heap, Pool(), Cells(), Mem()
      ensures Ready() && Contents() == old(Contents()) + [x] && Exchanged() && KeepsOthers()
      ensures fresh(Pool() - old(Pool())) && fresh(Mem() - old(Mem())) && old(Mem()) <= Mem()
    {
      hide Malloc.Valid, Vec.Contents, Vec.Ready, Vec.Valid, Vec.Owns;
      NoMemory();
      Grow(count + 1);
      Append(x);
    }

    /** The allocator's own objects are not in the memory it hands out. */
    lemma NoMemory()
      requires Ready()
      ensures forall a :: a in Cells() + Mem() ==> a !in Pool()
    {
    }

    method Append(x: int)
      requires Ready() && count < capac
      modifies this`count, Cells()
      ensures Ready() && Contents() == old(Contents()) + [x] && items == old(items) && capac == old(capac)
      ensures KeepsOthers()
    {
      hide Malloc.Valid;
      NoMemory();
      ghost var a, at := StoreLast(x);
      count := count + 1;
    }

    method StoreLast(x: int) returns (ghost a: array<int>, ghost at: nat)
      requires Valid() && count < capac
      modifies Cells()
      ensures IsAt(a, at) && a[at..at + count + 1] == old(Contents()) + [x] && KeepsOthers()
    {
      var b, i := Room();
      a, at := b, i;
      ghost var was := Contents();
      Store(b, i + count, x);
      assert a[at..at + count + 1] == was + [x];
    }

    /** cx_vec_pop; the original aborts on an empty vector. */
    method Pop() returns (x: int)
      requires Valid() && Contents() != []
      modifies this`count
      ensures Valid() && old(Contents()) == Contents() + [x] && items == old(items) && capac == old(capac)
    {
      var a, at := Room();
      count := count - 1;
      x := a[at + count];
    }

    /** cx_vec_put, and the caller's store: items between the old end and `i` are
        zeroed. */
    method Put(i: nat, x: int)
      requires Ready()
      modifies this, heap, Pool(), Cells(), Mem()
      ensures Ready() && Exchanged() && KeepsOthers() && fresh(Pool() - old(Pool())) && fresh(Mem() - old(Mem()))
              && old(Mem()) <= Mem()
      ensures Contents() == Stored(old(Contents()), i, x)
    {
      hide Malloc.Valid, Stored, Vec.Contents, Vec.Ready, Vec.Valid, Vec.Owns;
      NoMemory();
      Grow(i + 1);
      PutIn(i, x);
    }

    method PutIn(i: nat, x: int)
      requires Ready() && i < capac
      modifies this`count, Cells()
      ensures Ready() && Contents() == Stored(old(Contents()), i, x) && items == old(items) && capac == old(capac)
      ensures KeepsOthers()
    {
      hide Malloc.Valid, Stored;
      NoMemory();
      ghost var a, at := StoreAt(i, x);
      count := if i + 1 > count then i + 1 else count;
    }

    method StoreAt(i: nat, x: int) returns (ghost a: array<int>, ghost at: nat)
      requires Valid() && i < capac
      modifies Cells()
      ensures IsAt(a, at) && KeepsOthers()
      ensures a[at..at + if i + 1 > count then i + 1 else count] == Stored(old(Contents()), i, x)
    {
      hide Stored;
      var b, j := Room();
      a, at := b, j;
      PutAt(b, j, count, i, x);
    }

    /** cx_vec_insert, and the caller's store: what follows moves up by one. */
    method Insert(i: nat, x: int)
      requires Ready() && i <= |Contents()|
      modifies this, heap, Pool(), Cells(), Mem()
      ensures Ready() && Contents() == old(Contents()[..i] + [x] + Contents()[i..]) && Exchanged() && KeepsOthers()
      ensures fresh(Pool() - old(Pool())) && fresh(Mem() - old(Mem())) && old(Mem()) <= Mem()
    {
      hide Malloc.Valid, Vec.Contents, Vec.Ready, Vec.Valid, Vec.Owns;
      NoMemory();
      Grow(count + 1);
      InsertIn(i, x);
    }

    method InsertIn(i: nat, x: int)
      requires Ready() && i <= |Contents()| && count < capac
      modifies this`count, Cells()
      ensures Ready() && i <= |old(Contents())| && Contents() == old(Contents()[..i] + [x] + Contents()[i..])
      ensures items == old(items) && capac == old(capac) && KeepsOthers()
    {
      hide Malloc.Valid;
      NoMemory();
      ghost var a, at := StoreBetween(i, x);
      count := count + 1;
    }

    method StoreBetween(i: nat, x: int) returns (ghost a: array<int>, ghost at: nat)
      requires Valid() && i <= |Contents()| && count < capac
      modifies Cells()
      ensures IsAt(a, at) && KeepsOthers() && i <= |old(Contents())|
      ensures a[at..at + count + 1] == old(Contents()[..i] + [x] + Contents()[i..])
    {
      var b, j := Room();
      a, at := b, j;
      MoveUp(b, j, count, i, x, Contents());
    }

    /** cx_vec_delete: what follows moves down by one. */
    method Delete(i: nat)
      requires Valid() && i < |Contents()|
      modifies this`count, Cells()
      ensures Valid() && Contents() == old(Contents()[..i] + Contents()[i + 1..]) && items == old(items)
              && capac == old(capac)
      ensures KeepsOthers()
    {
      var a, at := Room();
      MoveDown(a, at, count, i, Contents());
      count := count - 1;
    }

    /** cx_vec_clear keeps the block. */
    method Clear()
      requires Valid()
      modifies this`count
      ensures Valid() && Contents() == [] && items == old(items) && capac == old(capac)
    {
      count := 0;
    }

    /** cx_vec_deinit */
    method Deinit()
      requires Ready()
      modifies heap, Pool()
      ensures alloc != null ==> alloc.Valid() && alloc.live == old(alloc.live) - Slots()
      ensures heap.blocks == old(heap.blocks) - Blocks()
    {
      Drop();
    }
  }

  /** `s` with `x` at `i`, filled up with zeros if it was shorter. */
  function Stored(s: seq<int>, i: nat, x: int): (r: seq<int>)
    ensures |r| == if i < |s| then |s| else i + 1
    ensures r[i] == x && forall k :: 0 <= k < |r| && k != i ==> r[k] == if k < |s| then s[k] else 0
  {
    if i < |s| then s[i := x] else s + seq(i - |s|, _ => 0) + [x]
  }

  lemma OwnObjects(m: Malloc)
    requires m.Valid()
    ensures forall o :: o in m.repr ==> o is Malloc || o is Slab || o is Slot
  {
  }

  lemma LiveInside(m: Malloc, s: Slot)
    requires m.Valid() && s in m.live
    ensures s.slab.mem in m.mems && s.At() + VEC_MIN <= s.slab.mem.Length
  {
    SlotInside(m, s);
  }

  /** Two vectors of one allocator have no cell in common, wherever their blocks are. */
  lemma Apart(v: Vec, u: Vec, m: array<int>, k: int)
    requires v.Ready() && u.Valid() && v.alloc == u.alloc && v.Slots() !! u.Slots() && v.Blocks() !! u.Blocks()
    ensures !(v.Owns(m, k) && u.Owns(m, k))
    ensures v.Blocks() !! v.Mem() && u.Blocks() !! u.Mem()
  {
    if v.items.InSlot? && u.items.InSlot? { LiveDisjoint(v.alloc, v.items.slot, u.items.slot); }
  }

  /** What one vector does, growth and release of blocks included, leaves every other
      one as it was. */
  method PushApart(v: Vec, u: Vec, x: int)
    requires BothReady(v, u) && v.alloc == u.alloc && v.heap == u.heap && v != u
    requires v.Slots() !! u.Slots() && v.Blocks() !! u.Blocks()
    modifies v, v.heap, v.Pool(), v.Cells(), v.Mem()
    ensures BothReady(v, u) && v.Contents() == old(v.Contents()) + [x] && u.Contents() == old(u.Contents())
    ensures v.Slots() !! u.Slots() && v.Blocks() !! u.Blocks()
  {
    hide Malloc.Valid;
    ghost var was := u.Contents();
    v.Push(x);
    if u.items.InSlot? {
      var (m, at) := (u.items.slot.slab.mem, u.items.slot.At());
      OwnsApart(v, u, m);
      assert forall k :: at <= k < at + u.count ==> m[k] == old(m[k]);
      assert m[at..at + u.count] == was;
    }
  }

  ghost predicate BothReady(v: Vec, u: Vec)
    reads *
  {
    v.Ready() && u.Ready()
  }

  lemma OwnsApart(v: Vec, u: Vec, m: array<int>)
    requires v.Ready() && u.Slots() <= (if u.alloc == null then {} else u.alloc.live) && v.alloc == u.alloc
             && v.Slots() !! u.Slots()
    ensures forall k :: u.Owns(m, k) ==> !v.Owns(m, k)
  {
    if v.items.InSlot? && u.items.InSlot? { LiveDisjoint(v.alloc, v.items.slot, u.items.slot); }
  }
}
