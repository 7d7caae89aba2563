/** Hashed environments (env.c) and the variables of nested scopes (scope.c). */
module Environments {
  import opened Basics

  const SLOTS: nat := 5

  /** A variable binding in its chain. */
  class Var {
    const tag: nat
    var value: int
    var next: Var?

    constructor (tag: nat, value: int, next: Var?)
      ensures this.tag == tag && this.value == value && this.next == next
    {
      this.tag, this.value, this.next := tag, value, next;
    }
  }

  function At(q: seq<Var>, i: nat): Var? {
    if i < |q| then q[i] else null
  }

  /** The chain from `head` on is `q`. */
  ghost predicate Linked(head: Var?, q: seq<Var>)
    reads set v | v in q
  {
    && head == At(q, 0)
    && (forall i, j :: 0 <= i < j < |q| && j == i + 1 ==> q[i].next == q[j])
    && (q != [] ==> q[|q| - 1].next == null)
  }

  /** Bindings of bucket `b`, in ascending order; equal tags may follow each other. */
  ghost predicate Bucket(q: seq<Var>, b: nat) {
    && (forall i :: 0 <= i < |q| ==> q[i].tag % SLOTS == b)
    && (forall i, j :: 0 <= i < j < |q| ==> q[i].tag <= q[j].tag && q[i] != q[j])
  }

  /** The value of the first binding of a tag in a chain. */
  ghost function First(q: seq<Var>, tag: nat): Option<Var>
    decreases |q|
  {
    if q == [] then None else if q[0].tag == tag then Some(q[0]) else First(q[1..], tag)
  }

  lemma {:induction false} FirstAt(q: seq<Var>, tag: nat, k: nat)
    requires k <= |q| && forall i :: 0 <= i < k ==> q[i].tag != tag
    ensures k < |q| && q[k].tag == tag ==> First(q, tag) == Some(q[k])
    ensures k == |q| ==> First(q, tag) == None
    decreases k
  {
    if k > 0 { FirstAt(q[1..], tag, k - 1); }
  }

  /** Nothing after a larger tag. */
  lemma NoneBeyond(q: seq<Var>, b: nat, tag: nat, k: nat)
    requires Bucket(q, b) && k <= |q| && forall i :: 0 <= i < k ==> q[i].tag < tag
    requires k < |q| ==> q[k].tag > tag
    ensures First(q, tag) == None
  {
    forall i | 0 <= i < |q| ensures q[i].tag != tag {
      if i > k { assert q[k].tag <= q[i].tag; }
    }
    FirstAt(q, tag, |q|);
  }

  class Env {
    const slots: array<Var?>
    var count: nat
    ghost var chains: seq<seq<Var>>

    constructor ()
      ensures Valid() && fresh(slots) && (forall tag :: Find(tag) == None)
    {
      slots := new Var?[SLOTS](_ => null);
      count, chains := 0, [[], [], [], [], []];
    }

    ghost function Nodes(): set<Var>
      reads this
    {
      set b, i | 0 <= b < |chains| && 0 <= i < |chains[b]| :: chains[b][i]
    }

    ghost predicate Valid()
      reads this, slots, Nodes()
    {
      && slots.Length == SLOTS == |chains|
      && (forall b :: 0 <= b < SLOTS ==> Bucket(chains[b], b))
      && (forall b :: 0 <= b < SLOTS ==> Linked(slots[b], chains[b]))
    }

    /** The binding a tag has now. */
    ghost function Find(tag: nat): Option<Var>
      reads this
    {
      if |chains| == SLOTS then First(chains[tag % SLOTS], tag) else None
    }

    /** cx_env_get: stops at the first larger tag. */
    method Get(tag: nat) returns (r: Var?)
      requires Valid()
      ensures r == match Find(tag) case None => null case Some(v) => v
      ensures r != null ==> r in Nodes() && r.tag == tag
    {
      ghost var q := chains[tag % SLOTS];
      var v := slots[tag % SLOTS];
      ghost var k := 0;
      assert Linked(v, q);
      while v != null
        invariant k <= |q| && v == At(q, k) && forall i :: 0 <= i < k ==> q[i].tag < tag
        decreases |q| - k
      {
        if v.tag == tag {
          FirstAt(q, tag, k);
          return v;
        }
        if v.tag > tag { break; }
        v := v.next;
        k := k + 1;
      }
      NoneBeyond(q, tag % SLOTS, tag, k);
      return null;
    }

    /** cx_env_put: in order, in front of bindings of the same tag. */
    method Put(tag: nat, value: int) returns (v: Var)
      requires Valid()
      modifies this, slots, Nodes()
      ensures Valid() && fresh(v) && v.tag == tag && v.value == value && count == old(count) + 1
      ensures Find(tag) == Some(v) && forall other :: other != tag ==> Find(other) == old(Find(other))
      ensures |chains| == SLOTS && chains == old(chains)[tag % SLOTS := chains[tag % SLOTS]]
      ensures forall u :: u in old(Nodes()) ==> u.value == old(u.value)
    {
      ghost var q := chains[tag % SLOTS];
      var pu, u, k := Locate(tag);
      v := LinkIn(tag, value, pu, u, k);
      ghost var r := chains[tag % SLOTS];
      assert r == q[..k] + [v] + q[k..] && forall i :: 0 <= i < k ==> r[i] == q[i];
      FirstAt(r, tag, k);
      forall other | other != tag ensures Find(other) == old(Find(other)) { FirstOther(q, k, v, other); }
    }

    /** The first binding that does not come before `tag`, and the one in front. */
    method Locate(tag: nat) returns (pu: Var?, u: Var?, ghost k: nat)
      requires Valid()
      ensures Gap(chains[tag % SLOTS], tag, pu, u, k)
    {
      ghost var q := chains[tag % SLOTS];
      u, pu := slots[tag % SLOTS], null;
      k := 0;
      assert Linked(u, q);
      while u != null
        invariant k <= |q| && u == At(q, k) && pu == (if k == 0 then null else q[k - 1])
        invariant forall i :: 0 <= i < k ==> q[i].tag < tag
        decreases |q| - k
      {
        if u.tag >= tag { break; }
        pu, u := u, u.next;
        k := k + 1;
      }
    }

    method LinkIn(tag: nat, value: int, pu: Var?, u: Var?, ghost k: nat) returns (v: Var)
      requires Valid() && Gap(chains[tag % SLOTS], tag, pu, u, k)
      modifies this, slots, if pu == null then {} else {pu}
      ensures pu != null ==> pu.value == old(pu.value)
      ensures Valid() && fresh(v) && v.tag == tag && v.value == value && count == old(count) + 1
      ensures var q := old(chains[tag % SLOTS]); k <= |q| && chains == old(chains)[tag % SLOTS := q[..k] + [v] + q[k..]]
    {
      v := new Var(tag, value, u);
      ghost var q := chains[tag % SLOTS];
      assert k == 0 ==> q[..k] + [v] + q[k..] == [v] + q;
      if pu != null { LinkAfter(tag, pu, v, k); } else { LinkFront(tag, v); }
      count := count + 1;
    }

    method LinkAfter(tag: nat, pu: Var, v: Var, ghost k: nat)
      requires Valid() && Gap(chains[tag % SLOTS], tag, pu, v.next, k)
      requires v.tag == tag && forall c :: c in chains ==> v !in c
      modifies this`chains, pu`next
      ensures Valid() && chains == old(chains)[tag % SLOTS := chains[tag % SLOTS]]
      ensures var q := old(chains[tag % SLOTS]); k <= |q| && chains[tag % SLOTS] == q[..k] + [v] + q[k..]
    {
      ghost var (b, q) := (tag % SLOTS, chains[tag % SLOTS]);
      OtherBuckets(tag, pu, v.next, k);
      BucketInsert(q, b, tag, k, v);
      assert forall i :: 0 <= i < |q| && i != k - 1 ==> q[i] != pu;
      pu.next := v;
      assert forall c :: 0 <= c < SLOTS && c != b ==> Linked(slots[c], chains[c]);
      LinkedInsert(q, k, v, slots[b]);
      hide Linked, Bucket;
      chains := chains[b := q[..k] + [v] + q[k..]];
    }

    method LinkFront(tag: nat, v: Var)
      requires Valid() && Gap(chains[tag % SLOTS], tag, null, v.next, 0)
      requires v.tag == tag && forall c :: c in chains ==> v !in c
      modifies this`chains, slots
      ensures Valid() && chains == old(chains)[tag % SLOTS := [v] + old(chains[tag % SLOTS])]
    {
      var b := tag % SLOTS;
      ghost var q := chains[b];
      BucketInsert(q, b, tag, 0, v);
      slots[b] := v;
      LinkedInsert(q, 0, v, v);
      assert q[..0] + [v] + q[0..] == [v] + q;
      hide Linked, Bucket;
      chains := chains[b := [v] + q];
    }

    /** cx_env_clear: every binding is released once, bucket by bucket. */
    method Clear() returns (ghost released: seq<Var>)
      requires Valid()
      modifies this, slots
      ensures Valid() && count == 0 && (forall tag :: Find(tag) == None)
      ensures released == Joined(old(chains), SLOTS)
    {
      released := [];
      ghost var was := chains;
      var i := 0;
      while i < SLOTS
        invariant i <= SLOTS && Valid() && chains[i..] == was[i..]
        invariant forall b :: 0 <= b < i ==> chains[b] == []
        invariant released == Joined(was, i)
        modifies this`chains, slots
      {
        ghost var nodes := Release(i);
        released := released + nodes;
        slots[i] := null;
        chains := chains[i := []];
        i := i + 1;
      }
      count := 0;
    }

    method Release(b: nat) returns (ghost released: seq<Var>)
      requires Valid() && b < SLOTS
      ensures released == chains[b]
    {
      released := [];
      ghost var left := chains[b];
      var v := slots[b];
      assert Linked(v, left);
      while v != null
        invariant Linked(v, left) && released + left == chains[b]
        decreases |left|
      {
        var nv := v.next;
        released, left := released + [v], left[1..];
        v := nv;
      }
    }

    /** The binding in front of the gap is in no other chain. */
    lemma OtherBuckets(tag: nat, pu: Var?, u: Var?, k: nat)
      requires Valid() && Gap(chains[tag % SLOTS], tag, pu, u, k)
      ensures forall c :: 0 <= c < SLOTS && c != tag % SLOTS ==> pu !in chains[c]
    {
    }
  }

  /** The first `n` chains, one after the other. */
  ghost function Joined(chains: seq<seq<Var>>, n: nat): seq<Var>
    requires n <= |chains|
  {
    if n == 0 then [] else Joined(chains, n - 1) + chains[n - 1]
  }

  /** The place for `tag` in a chain: `pu` is in front of it, `u` behind. */
  ghost predicate Gap(q: seq<Var>, tag: nat, pu: Var?, u: Var?, k: nat) {
    && k <= |q| && u == At(q, k) && pu == (if k == 0 then null else q[k - 1])
    && (forall i :: 0 <= i < k ==> q[i].tag < tag)
    && (k < |q| ==> q[k].tag >= tag)
  }

  lemma LinkedInsert(q: seq<Var>, k: nat, v: Var, head: Var?)
    requires k <= |q| && v !in q && head == (if k == 0 then v else At(q, 0)) && v.next == At(q, k)
    requires forall i, j :: 0 <= i < j < |q| && j == i + 1 && j != k ==> q[i].next == q[j]
    requires (k > 0 ==> q[k - 1].next == v) && (k < |q| ==> q[|q| - 1].next == null)
    ensures Linked(head, q[..k] + [v] + q[k..])
  {
    var r := q[..k] + [v] + q[k..];
    forall i, j | 0 <= i < j < |r| && j == i + 1 ensures r[i].next == r[j] {
      if j < k { assert r[i] == q[i] && r[j] == q[j]; } else if i > k { assert r[i] == q[i - 1] && r[j] == q[j - 1]; }
    }
  }

  lemma BucketInsert(q: seq<Var>, b: nat, tag: nat, k: nat, v: Var)
    requires Bucket(q, b) && k <= |q| && v !in q && v.tag == tag && tag % SLOTS == b
    requires (forall i :: 0 <= i < k ==> q[i].tag < tag) && (k < |q| ==> q[k].tag >= tag)
    ensures Bucket(q[..k] + [v] + q[k..], b)
  {
    forall i | k <= i < |q| ensures q[i].tag >= tag { assert i > k ==> q[k].tag <= q[i].tag; }
  }

  /** Lookups of other tags do not see the new binding. */
  lemma {:induction false} FirstOther(q: seq<Var>, k: nat, v: Var, tag: nat)
    requires k <= |q| && v.tag != tag
    ensures First(q[..k] + [v] + q[k..], tag) == First(q, tag)
    decreases k
  {
    var r := q[..k] + [v] + q[k..];
    if k == 0 {
      assert r[1..] == q;
    } else {
      assert r[1..] == q[1..][..k - 1] + [v] + q[1..][k - 1..];
      FirstOther(q[1..], k - 1, v, tag);
    }
  }

  // ---- scopes --------------------------------------------------------------

  /** The i-th scope has the binding and none before it has one. */
  ghost predicate Nearest(chain: seq<VarScope>, tag: nat, r: Var?, i: int)
    reads set s | s in chain :: s.vars
  {
    && r != null && 0 <= i < |chain| && chain[i].vars.Find(tag) == Some(r)
    && forall j :: 0 <= j < i ==> chain[j].vars.Find(tag) == None
  }

  class VarScope {
    const parent: VarScope?
    const vars: Env
    /** This scope and the ones around it. */
    ghost const chain: seq<VarScope>

    constructor (parent: VarScope?, vars: Env)
      requires parent != null ==> parent.Nested()
      ensures this.parent == parent && this.vars == vars && Nested()
    {
      this.parent, this.vars := parent, vars;
      chain := [this] + if parent == null then [] else parent.chain;
    }

    /** The parent links lead along `chain`. */
    ghost predicate Nested()
      decreases |chain|
    {
      && chain == [this] + (if parent == null then [] else parent.chain)
      && (parent != null ==> |parent.chain| < |chain| && parent.Nested())
    }

    /** cx_get_var: the binding of the nearest scope that has one. */
    method GetVar(tag: nat) returns (r: Var?)
      requires Nested() && forall s :: s in chain ==> s.vars.Valid()
      ensures r != null ==> exists i :: Nearest(chain, tag, r, i)
      ensures r == null ==> forall s :: s in chain ==> s.vars.Find(tag) == None
      decreases |chain|
    {
      r := vars.Get(tag);
      if r != null {
        assert Nearest(chain, tag, r, 0);
      } else if parent != null {
        forall s | s in parent.chain ensures s.vars.Valid() { assert s in chain; }
        r := parent.GetVar(tag);
        FoundOuter(tag, r);
      }
    }

    /** What is found further out is found here if this scope has nothing. */
    lemma FoundOuter(tag: nat, r: Var?)
      requires parent != null && chain == [this] + parent.chain && vars.Find(tag) == None
      ensures (exists i :: Nearest(parent.chain, tag, r, i)) ==> exists i :: Nearest(chain, tag, r, i)
      ensures (forall s :: s in parent.chain ==> s.vars.Find(tag) == None) ==> forall s :: s in chain ==>
              s.vars.Find(tag) == None
    {
      if i :| Nearest(parent.chain, tag, r, i) {
        forall j | 0 <= j < i + 1 ensures chain[j].vars.Find(tag) == None {
          if j > 0 { assert chain[j] == parent.chain[j - 1]; }
        }
        assert Nearest(chain, tag, r, i + 1);
      }
    }

    /** cx_put_var, and the caller's store: one binding for each name of a scope. */
    method PutVar(tag: nat, value: int)
      requires vars.Valid()
      modifies vars, vars.slots, vars.Nodes()
      ensures vars.Valid() && vars.Find(tag).Some? && vars.Find(tag).value.value == value
      ensures forall other :: other != tag ==> vars.Find(other) == old(vars.Find(other))
      ensures old(vars.Find(tag)).Some? ==> vars.chains == old(vars.chains)
    {
      var v := vars.Get(tag);
      if v != null { v.value := value; } else { v := vars.Put(tag, value); }
    }
  }
}
