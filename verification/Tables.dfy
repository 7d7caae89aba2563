/** Sorted sets with binary search (set.c) and the tables on top of them (table.c):
    they agree with a map whose keys are in order. */
module Tables {
  import opened Basics

  datatype Cmp = LT | EQ | GT
  datatype Entry<K, V> = Entry(key: K, val: V)

  /** `cmp` orders its keys strictly and totally. */
  ghost predicate Orders<K(!new)>(cmp: (K, K) -> Cmp) {
    && (forall x, y :: cmp(x, y) == EQ <==> x == y)
    && (forall x, y :: cmp(x, y) == LT <==> cmp(y, x) == GT)
    && (forall x, y, z :: cmp(x, y) == LT && cmp(y, z) == LT ==> cmp(x, z) == LT)
  }

  ghost predicate Sorted<K, V>(cmp: (K, K) -> Cmp, es: seq<Entry<K, V>>) {
    forall i, j :: 0 <= i < j < |es| ==> cmp(es[i].key, es[j].key) == LT
  }

  /** The entries are the pairs of the map. */
  ghost predicate Agrees<K, V>(es: seq<Entry<K, V>>, m: map<K, V>) {
    && (forall i :: 0 <= i < |es| ==> es[i].key in m && m[es[i].key] == es[i].val)
    && (forall k :: k in m ==> exists i :: 0 <= i < |es| && es[i].key == k)
  }

  /** cx_set_find: the place of `key`, or where it would go. */
  method Find<K(!new, ==), V>(cmp: (K, K) -> Cmp, es: seq<Entry<K, V>>, key: K, min: nat) returns (i: nat, found: bool)
    requires Orders(cmp) && Sorted(cmp, es) && min <= |es|
    ensures min <= i <= |es|
    ensures forall j :: min <= j < i ==> cmp(es[j].key, key) == LT
    ensures forall j :: i < j < |es| ==> cmp(key, es[j].key) == LT
    ensures if found then i < |es| && es[i].key == key else i < |es| ==> cmp(key, es[i].key) == LT
  {
    var lo, hi := min, |es|;
    while lo < hi
      invariant min <= lo <= hi <= |es|
      invariant forall j :: min <= j < lo ==> cmp(es[j].key, key) == LT
      invariant forall j :: hi <= j < |es| ==> cmp(key, es[j].key) == LT
    {
      var mid := (hi + lo) / 2;
      match cmp(key, es[mid].key) {
        case LT => hi := mid;
        case EQ => return mid, true;
        case GT => lo := mid + 1;
      }
    }
    return lo, false;
  }

  // ---- one entry more, changed, or less ------------------------------------

  function With<K, V>(es: seq<Entry<K, V>>, i: nat, e: Entry<K, V>): (r: seq<Entry<K, V>>)
    requires i <= |es|
    ensures |r| == |es| + 1 && r[i] == e
    ensures forall j :: 0 <= j < |r| && j != i ==> r[j] == es[if j < i then j else j - 1]
    ensures forall j :: 0 <= j < |es| ==> r[if j < i then j else j + 1] == es[j]
  {
    es[..i] + [e] + es[i..]
  }

  function Without<K, V>(es: seq<Entry<K, V>>, i: nat): (r: seq<Entry<K, V>>)
    requires i < |es|
    ensures |r| == |es| - 1
    ensures forall j :: 0 <= j < |r| ==> r[j] == es[if j < i then j else j + 1]
    ensures forall j :: 0 <= j < |es| && j != i ==> r[if j < i then j else j - 1] == es[j]
  {
    es[..i] + es[i + 1..]
  }

  lemma WithoutAt<K, V>(es: seq<Entry<K, V>>, i: nat)
    requires i < |es|
    ensures var r := Without(es, i);
            && |r| == |es| - 1 && (forall j :: 0 <= j < |r| ==> r[j] == es[if j < i then j else j + 1])
            && (forall j :: 0 <= j < |es| && j != i ==> r[if j < i then j else j - 1] == es[j])
  {
  }

  lemma Inserted<K(!new), V>(cmp: (K, K) -> Cmp, es: seq<Entry<K, V>>, i: nat, e: Entry<K, V>, m: map<K, V>)
    requires Orders(cmp) && Sorted(cmp, es) && Agrees(es, m) && i <= |es|
    requires forall j :: 0 <= j < i ==> cmp(es[j].key, e.key) == LT
    requires forall j :: i <= j < |es| ==> cmp(e.key, es[j].key) == LT
    ensures Sorted(cmp, With(es, i, e)) && Agrees(With(es, i, e), m[e.key := e.val])
  {
    hide With;
    var r := With(es, i, e);
    var n := m[e.key := e.val];
    forall k | k in n ensures exists j :: 0 <= j < |r| && r[j].key == k {
      if k == e.key {
        assert r[i].key == k;
      } else {
        var j :| 0 <= j < |es| && es[j].key == k;
        assert r[if j < i then j else j + 1].key == k;
      }
    }
    forall j | 0 <= j < |es| ensures es[j].key != e.key { assert cmp(e.key, e.key) == EQ; }
  }

  lemma Replaced<K(!new), V>(cmp: (K, K) -> Cmp, es: seq<Entry<K, V>>, i: nat, e: Entry<K, V>, m: map<K, V>)
    requires Orders(cmp) && Sorted(cmp, es) && Agrees(es, m) && i < |es| && es[i].key == e.key
    ensures Sorted(cmp, es[i := e]) && Agrees(es[i := e], m[e.key := e.val])
  {
    var r := es[i := e];
    forall j | 0 <= j < |es| && j != i ensures es[j].key != e.key { assert cmp(e.key, e.key) == EQ; }
    var n := m[e.key := e.val];
    forall k | k in n ensures exists j :: 0 <= j < |r| && r[j].key == k {
      if k == e.key {
        assert r[i].key == k;
      } else {
        var j :| 0 <= j < |es| && es[j].key == k;
        assert r[j].key == k;
      }
    }
  }

  lemma Removed<K(!new), V>(cmp: (K, K) -> Cmp, es: seq<Entry<K, V>>, i: nat, m: map<K, V>)
    requires Orders(cmp) && Sorted(cmp, es) && Agrees(es, m) && i < |es|
    ensures Sorted(cmp, Without(es, i)) && Agrees(Without(es, i), m - {es[i].key})
  {
    hide Without;
    var (r, x) := (Without(es, i), es[i].key);
    WithoutAt(es, i);
    RemovedSorted(cmp, es, i, r);
    hide Sorted, Orders;
    RemovedAgrees(es, i, r, m);
  }

  lemma RemovedAgrees<K, V>(es: seq<Entry<K, V>>, i: nat, r: seq<Entry<K, V>>, m: map<K, V>)
    requires Agrees(es, m) && i < |es| && |r| == |es| - 1
    requires forall j :: 0 <= j < |r| ==> r[j] == es[if j < i then j else j + 1]
    requires forall j :: 0 <= j < |es| && j != i ==> r[if j < i then j else j - 1] == es[j] && es[j].key != es[i].key
    ensures Agrees(r, m - {es[i].key})
  {
    forall k | k in m - {es[i].key} ensures exists j :: 0 <= j < |r| && r[j].key == k {
      var j :| 0 <= j < |es| && es[j].key == k;
      assert r[if j < i then j else j - 1].key == k;
    }
  }

  lemma RemovedSorted<K(!new), V>(cmp: (K, K) -> Cmp, es: seq<Entry<K, V>>, i: nat, r: seq<Entry<K, V>>)
    requires Orders(cmp) && Sorted(cmp, es) && i < |es| && |r| == |es| - 1
    requires forall j :: 0 <= j < |r| ==> r[j] == es[if j < i then j else j + 1]
    ensures Sorted(cmp, r) && forall j :: 0 <= j < |es| && j != i ==> es[j].key != es[i].key
  {
    forall j | 0 <= j < |es| && j != i ensures es[j].key != es[i].key { assert cmp(es[i].key, es[i].key) == EQ; }
  }

  class Table<K(!new, ==), V> {
    const cmp: (K, K) -> Cmp
    var entries: seq<Entry<K, V>>
    ghost var model: map<K, V>

    constructor (cmp: (K, K) -> Cmp)
      requires Orders(cmp)
      ensures Valid() && model == map[] && this.cmp == cmp
    {
      this.cmp, entries, model := cmp, [], map[];
    }

    ghost predicate Valid()
      reads this
    {
      Orders(cmp) && Sorted(cmp, entries) && Agrees(entries, model)
    }

    /** cx_table_get */
    method Get(key: K) returns (r: Option<V>)
      requires Valid()
      ensures r == if key in model then Some(model[key]) else None
    {
      var i, found := Find(cmp, entries, key, 0);
      if !found { Missing(cmp, entries, key, i, model); }
      r := if found then Some(entries[i].val) else None;
    }

    /** cx_table_put */
    method Put(key: K, val: V)
      requires Valid()
      modifies this
      ensures Valid() && model == old(model)[key := val]
    {
      hide Agrees, Orders, Sorted;
      var i, found := Find(cmp, entries, key, 0);
      if found {
        Replaced(cmp, entries, i, Entry(key, val), model);
        entries := entries[i := Entry(key, val)];
      } else {
        Inserted(cmp, entries, i, Entry(key, val), model);
        entries := entries[..i] + [Entry(key, val)] + entries[i..];
      }
      model := model[key := val];
    }

    /** cx_table_delete */
    method Delete(key: K) returns (ok: bool)
      requires Valid()
      modifies this
      ensures Valid() && ok == (key in old(model)) && model == old(model) - {key}
    {
      hide Agrees, Orders, Sorted;
      var i, found := Find(cmp, entries, key, 0);
      if !found {
        Missing(cmp, entries, key, i, model);
        return false;
      }
      Removed(cmp, entries, i, model);
      Present(entries, i, model);
      entries := entries[..i] + entries[i + 1..];
      model := model - {key};
      return true;
    }
  }

  lemma Present<K, V>(es: seq<Entry<K, V>>, i: nat, m: map<K, V>)
    requires Agrees(es, m) && i < |es|
    ensures es[i].key in m
  {
  }

  lemma Missing<K(!new), V>(cmp: (K, K) -> Cmp, es: seq<Entry<K, V>>, key: K, i: nat, m: map<K, V>)
    requires Orders(cmp) && Agrees(es, m) && i <= |es|
    requires forall j :: 0 <= j < i ==> cmp(es[j].key, key) == LT
    requires forall j :: i <= j < |es| ==> cmp(key, es[j].key) == LT
    ensures key !in m
  {
    assert cmp(key, key) == EQ;
  }

  /** A table iterator */
  class Iter<K(!new, ==), V> {
    const table: Table<K, V>
    var i: nat
    var done: bool

    constructor (table: Table<K, V>)
      ensures this.table == table && i == 0 && !done
    {
      this.table, i, done := table, 0, false;
    }

    /** table_next */
    method Next() returns (r: Option<Entry<K, V>>)
      modifies this
      ensures r == if old(i) < |table.entries| then Some(table.entries[old(i)]) else None
      ensures i == if r.Some? then old(i) + 1 else old(i)
      ensures done == (old(done) || r.None?)
    {
      if i < |table.entries| {
        r := Some(table.entries[i]);
        i := i + 1;
      } else {
        r := None;
        done := true;
      }
    }
  }

  /** An iteration to the end meets every pair of the map once, in ascending order. */
  method Collect<K(!new, ==), V>(t: Table<K, V>) returns (es: seq<Entry<K, V>>)
    requires t.Valid()
    ensures Sorted(t.cmp, es) && Agrees(es, t.model) && |es| == |t.model|
  {
    hide Agrees, Orders, Sorted;
    var it := new Iter(t);
    es := [];
    var e := it.Next();
    while e.Some?
      invariant it.table == t
      invariant if e.Some? then 0 < it.i <= |t.entries| && es == t.entries[..it.i - 1] && e.value == t.entries[it.i - 1]
                else es == t.entries
      decreases |t.entries| - |es|
    {
      es := es + [e.value];
      e := it.Next();
    }
    OncePerKey(t.cmp, es, t.model);
  }

  /** As many entries as keys. */
  lemma {:induction false} OncePerKey<K(!new), V>(cmp: (K, K) -> Cmp, es: seq<Entry<K, V>>, m: map<K, V>)
    requires Orders(cmp) && Sorted(cmp, es) && Agrees(es, m)
    ensures |es| == |m|
    decreases |es|
  {
    if es == [] {
      assert m == map[];
    } else {
      hide Agrees, Orders, Sorted;
      var i := |es| - 1;
      Removed(cmp, es, i, m);
      Present(es, i, m);
      OncePerKey(cmp, Without(es, i), m - {es[i].key});
      assert m.Keys == (m - {es[i].key}).Keys + {es[i].key};
      assert |m| == |m.Keys| && |m - {es[i].key}| == |(m - {es[i].key}).Keys|;
    }
  }
}
