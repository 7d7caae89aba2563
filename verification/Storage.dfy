/** The slab allocator of malloc.c and the vectors of vec.c on top of it. */
module Storage {

  const VEC_MIN: nat := 5
  const VEC_GROW: nat := 3

  /** A slot in memory: the link that is used while it is free, then room for VEC_MIN
      items. */
  const HEAD: nat := 1
  const STRIDE: nat := HEAD + VEC_MIN

  /** A slab: one stretch of memory with a fixed number of slots, of which the first
      `used` have been handed out. */
  class Slab {
    var used: nat
    const next: Slab?
    const mem: array<int>

    constructor (next: Slab?, slots: nat)
      ensures used == 0 && this.next == next && fresh(mem) && mem.Length == slots * STRIDE
    {
      used, this.next := 0, next;
      mem := new int[slots * STRIDE];
    }
  }

  /** The address of a slot, and its link. */
  class Slot {
    const slab: Slab
    const index: nat
    var next: Slot?

    constructor (slab: Slab, index: nat)
      ensures this.slab == slab && this.index == index
    {
      this.slab, this.index, next := slab, index, null;
    }

    /** Where the items begin. */
    function At(): nat {
      index * STRIDE + HEAD
    }
  }

  /** The slots' items are in their slabs' memory and do not overlap. */
  ghost predicate Disjoint(s: Slot, t: Slot) {
    s.slab.mem == t.slab.mem ==> s.At() + VEC_MIN <= t.At() || t.At() + VEC_MIN <= s.At()
  }

  /** The slabs from `head` on, in order. */
  predicate SlabList(head: Slab?, q: seq<Slab>) {
    if q == [] then head == null else head == q[0] && SlabList(q[0].next, q[1..])
  }

  /** The free slots from `head` on, in order. */
  predicate FreeList(head: Slot?, q: seq<Slot>)
    reads set s | s in q
  {
    if q == [] then head == null else head == q[0] && FreeList(q[0].next, q[1..])
  }

  /** `live` are the blocks in the hands of callers. */
  class Malloc {
    const slabSize: nat
    var root: Slab?
    var free: Slot?
    ghost var slabs: seq<Slab>
    ghost var handed: seq<Slot>
    ghost var freed: seq<Slot>
    ghost var live: set<Slot>

    /** The allocator's own objects, and the memory of its slabs. */
    ghost var repr: set<object>
    ghost var mems: set<array<int>>

    constructor (slabSize: nat)
      requires slabSize > 0
      ensures Valid() && live == {} && slabs == [] && handed == [] && this.slabSize == slabSize
      ensures repr == {this} && mems == {}
    {
      this.slabSize, root, free := slabSize, null, null;
      slabs, handed, freed, live := [], [], [], {};
      repr, mems := {this}, {};
    }

    ghost predicate Valid()
      reads this, repr
    {
      slabSize > 0 && Owned() && Chained() && FreeListed() && Placed() && Partitioned()
    }

    ghost predicate Owned()
      reads this
    {
      && this in repr && (forall o :: o in repr ==> o is Malloc || o is Slab || o is Slot)
      && (forall s :: s in slabs ==> s in repr && s.mem in mems)
      && (forall s :: s in handed ==> s in repr)
      && (forall m :: m in mems ==> m !in repr)
    }

    /** The slab list, newest first; every slab but the root is full. */
    ghost predicate Chained()
      reads this, repr
      requires Owned()
    {
      && SlabList(root, slabs)
      && (forall i, j :: 0 <= i < j < |slabs| ==> slabs[i].mem != slabs[j].mem)
      && (forall s :: s in slabs ==> s.mem.Length == slabSize * STRIDE)
      && (forall s :: s in slabs ==> s.used <= slabSize)
      && (forall s :: s in slabs && s != root ==> s.used == slabSize)
    }

    /** The free list is what `freed` says: finite, without repeats. */
    ghost predicate FreeListed()
      reads this, repr
      requires Owned()
    {
      && (forall s :: s in freed ==> s in handed)
      && FreeList(free, freed)
      && (forall j, k :: 0 <= j < k < |freed| ==> freed[j] != freed[k])
    }

    /** Every slot handed out lies in the used part of a slab, no two in one place. */
    ghost predicate Placed()
      reads this, repr
      requires Owned()
    {
      && (forall k :: 0 <= k < |handed| ==> handed[k].slab in slabs && handed[k].index < handed[k].slab.used)
      && (forall j, k :: 0 <= j < k < |handed| ==>
          handed[j].slab != handed[k].slab || handed[j].index != handed[k].index)
    }

    /** A slot handed out is live or free, never both. */
    ghost predicate Partitioned()
      reads this
    {
      && (forall s :: s in live ==> s in handed && s !in freed)
      && (forall s :: s in handed ==> s in live || s in freed)
    }

    /** new_slab */
    method NewSlab()
      requires Valid() && (root == null || root.used == slabSize)
      modifies this
      ensures Valid() && root != null && root.used < slabSize
      ensures fresh(root) && fresh(root.mem) && slabs == [root] + old(slabs)
      ensures handed == old(handed) && freed == old(freed) && live == old(live) && free == old(free)
      ensures repr == old(repr) + {root} && mems == old(mems) + {root.mem}
    {
      root := new Slab(root, slabSize);
      slabs := [root] + slabs;
      repr, mems := repr + {root}, mems + {root.mem};
    }

    /** cx_malloc: the free list first, then the root slab. */
    method Alloc() returns (s: Slot)
      requires Valid()
      modifies repr
      ensures Valid() && fresh(repr - old(repr)) && old(repr) <= repr
      ensures s !in old(live) && live == old(live) + {s}
      ensures fresh(mems - old(mems)) && old(mems) <= mems
      ensures old(freed) != [] ==> s == old(freed)[0] && freed == old(freed)[1..] && handed == old(handed)
      ensures old(freed) == [] ==> fresh(s) && freed == [] && handed == old(handed) + [s]
      ensures |slabs| <= |old(slabs)| + 1
    {
      if free != null {
        s := free;
        Reuse(s);
        return;
      }
      if root == null || root.used == slabSize { NewSlab(); }
      s := Carve();
    }

    method Reuse(s: Slot)
      requires Valid() && freed != [] && s == free
      modifies this
      ensures Valid() && live == old(live) + {s} && freed == old(freed)[1..]
      ensures handed == old(handed) && slabs == old(slabs) && repr == old(repr) && mems == old(mems)
    {
      free := s.next;
      freed := freed[1..];
      live := live + {s};
    }

    /** The next slot of the root slab. */
    method Carve() returns (s: Slot)
      requires Valid() && root != null && root.used < slabSize && freed == []
      modifies this, root
      ensures Valid() && fresh(s)
      ensures handed == old(handed) + [s] && live == old(live) + {s} && freed == [] && slabs == old(slabs)
      ensures s.slab == root && s.index == old(root.used) && repr == old(repr) + {s} && mems == old(mems)
    {
      s := new Slot(root, root.used);
      root.used := root.used + 1;
      handed, repr := handed + [s], repr + {s};
      live := live + {s};
    }

    /** cx_free: the block goes to the front of the free list. */
    method Free(s: Slot)
      requires Valid() && s in live
      modifies this, s
      ensures Valid() && live == old(live) - {s} && freed == [s] + old(freed)
      ensures handed == old(handed) && slabs == old(slabs) && repr == old(repr) && mems == old(mems)
    {
      s.next := free;
      free := s;
      freed := [s] + freed;
      live := live - {s};
    }

    /** cx_malloc_deinit walks the list and releases every slab once. */
    method Deinit() returns (ghost released: seq<Slab>)
      requires Valid()
      ensures released == slabs
    {
      released := [];
      ghost var left := slabs;
      var s := root;
      while s != null
        invariant released + left == slabs && SlabList(s, left)
        decreases |left|
      {
        var ns := s.next;
        released, left := released + [s], left[1..];
        s := ns;
      }
    }
  }

  /** A slot lies within the memory of its slab, its link included. */
  lemma SlotInside(m: Malloc, s: Slot)
    requires m.Valid() && s in m.handed
    ensures s.slab in m.slabs && s.slab.mem in m.mems
    ensures HEAD <= s.At() && s.At() + VEC_MIN <= s.slab.mem.Length
  {
    var k :| 0 <= k < |m.handed| && m.handed[k] == s;
    Fit(s.index + 1, m.slabSize);
  }

  lemma Fit(i: nat, n: nat)
    requires i <= n
    ensures i * STRIDE <= n * STRIDE
  {
  }

  /** Two slots that were handed out never overlap. */
  lemma HandedDisjoint(m: Malloc, s: Slot, t: Slot)
    requires m.Valid() && s in m.handed && t in m.handed && s != t
    ensures Disjoint(s, t)
  {
    var j :| 0 <= j < |m.handed| && m.handed[j] == s;
    var k :| 0 <= k < |m.handed| && m.handed[k] == t;
    var a :| 0 <= a < |m.slabs| && m.slabs[a] == s.slab;
    var b :| 0 <= b < |m.slabs| && m.slabs[b] == t.slab;
    if s.slab.mem == t.slab.mem {
      assert a == b;
      if s.index < t.index { Fit(s.index + 1, t.index); } else { Fit(t.index + 1, s.index); }
    }
  }

  /** What Valid says about any two live blocks: both lie within slabs of the list, they
      share no memory, and neither is free. */
  lemma LiveDisjoint(m: Malloc, s: Slot, t: Slot)
    requires m.Valid() && s in m.live && t in m.live && s != t
    ensures Disjoint(s, t) && s !in m.freed && t !in m.freed
    ensures s.slab in m.slabs && HEAD <= s.At() && s.At() + VEC_MIN <= s.slab.mem.Length
  {
    HandedDisjoint(m, s, t);
    SlotInside(m, s);
  }

  /** A live block shares no memory with a free one. */
  lemma LiveFreeDisjoint(m: Malloc, s: Slot, t: Slot)
    requires m.Valid() && s in m.live && t in m.freed
    ensures Disjoint(s, t)
  {
    HandedDisjoint(m, s, t);
  }
}
