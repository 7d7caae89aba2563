/** The intrusive circular lists of ls.c, which the scheduler's queues are made of. */
module Rings {

  class Node {
    var prev: Node?
    var next: Node?

    /** cx_ls_init */
    constructor ()
      ensures Ring([this])
    {
      new;
      prev, next := this, this;
    }
  }

  /** `q` in order, closed at the ends: its first node is the list's head. */
  ghost predicate Ring(q: seq<Node>)
    reads set n | n in q
  {
    && q != []
    && (forall i, j :: 0 <= i < j < |q| ==> q[i] != q[j])
    && (forall i, j :: 0 <= i < j < |q| && j == i + 1 ==> q[i].next == q[j] && q[j].prev == q[i])
    && q[|q| - 1].next == q[0] && q[0].prev == q[|q| - 1]
  }

  /** cx_ls_append: `n` becomes the first member. */
  method Append(head: Node, n: Node, ghost q: seq<Node>)
    requires Ring(q) && q[0] == head && n !in q
    modifies n, set m | m in q
    ensures Ring([head, n] + q[1..])
  {
    assert head.next == if |q| > 1 then q[1] else q[0];
    n.prev := head;
    n.next := head.next;
    head.next.prev := n;
    head.next := n;
    ghost var r := [head, n] + q[1..];
    assert forall i :: 2 <= i < |r| ==> r[i] == q[i - 1];
    if |q| > 1 { assert q[1] == r[2]; }
  }

  /** cx_ls_prepend: `n` becomes the last member. */
  method Prepend(head: Node, n: Node, ghost q: seq<Node>)
    requires Ring(q) && q[0] == head && n !in q
    modifies n, set m | m in q
    ensures Ring(q + [n])
  {
    n.prev := head.prev;
    n.next := head;
    head.prev.next := n;
    head.prev := n;
    ghost var r := q + [n];
    assert r[|q|] == n;
  }

  /** cx_ls_delete: a member leaves, the others stay in order. */
  method Delete(n: Node, ghost q: seq<Node>, ghost k: nat)
    requires Ring(q) && 0 < k < |q| && q[k] == n
    modifies set m | m in q
    ensures Ring(q[..k] + q[k + 1..])
  {
    ghost var r := q[..k] + q[k + 1..];
    assert q[k].prev == q[k - 1] && q[k].next == if k + 1 < |q| then q[k + 1] else q[0];
    n.prev.next := n.next;
    n.next.prev := n.prev;
    forall i, j | 0 <= i < j < |r| && j == i + 1 ensures r[i].next == r[j] && r[j].prev == r[i] {
      assert r[i] == q[if i < k then i else i + 1] && r[j] == q[if j < k then j else j + 1];
    }
  }

  /** Prepending at the head and taking what follows the head: first in, first out. */
  method Enqueue(head: Node, n: Node, ghost q: seq<Node>)
    requires Ring([head] + q) && n !in [head] + q
    modifies n, head, set m | m in q
    ensures Ring([head] + (q + [n]))
  {
    Prepend(head, n, [head] + q);
    assert [head] + q + [n] == [head] + (q + [n]);
  }

  method Dequeue(head: Node, ghost q: seq<Node>) returns (n: Node)
    requires Ring([head] + q) && q != []
    modifies head, set m | m in q
    ensures n == q[0] && Ring([head] + q[1..])
  {
    ghost var all := [head] + q;
    assert all[1] == q[0];
    n := head.next;
    Delete(n, all, 1);
    assert all[..1] + all[2..] == [head] + q[1..];
  }
}
