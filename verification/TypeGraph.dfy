/** type.c: which types a type is.  `is` is kept up to date edge by edge, over a graph
    that may have cycles, and always is the reflexive transitive closure of the parent
    edges. */
module TypeGraph {

  type Edges = seq<seq<nat>>

  // ---- reachability, independent of how it is maintained -------------------

  ghost predicate IsPath(g: Edges, path: seq<nat>) {
    && path != []
    && (forall i :: 0 <= i < |path| ==> path[i] < |g|)
    && (forall i :: 0 <= i < |path| - 1 ==> path[i + 1] in g[path[i]])
  }

  /** `y` is `x`, or can be reached from it along parent edges. */
  ghost predicate Reaches(g: Edges, x: nat, y: nat) {
    exists path :: IsPath(g, path) && path[0] == x && path[|path| - 1] == y
  }

  lemma ReachesSelf(g: Edges, x: nat)
    requires x < |g|
    ensures Reaches(g, x, x)
  {
    assert IsPath(g, [x]) && [x][0] == x;
  }

  lemma ReachesEdge(g: Edges, x: nat, y: nat)
    requires x < |g| && y < |g| && y in g[x]
    ensures Reaches(g, x, y)
  {
    assert IsPath(g, [x, y]) && [x, y][0] == x && [x, y][1] == y;
  }

  lemma ReachesTrans(g: Edges, x: nat, y: nat, z: nat)
    requires Reaches(g, x, y) && Reaches(g, y, z)
    ensures Reaches(g, x, z)
  {
    var p :| IsPath(g, p) && p[0] == x && p[|p| - 1] == y;
    var q :| IsPath(g, q) && q[0] == y && q[|q| - 1] == z;
    var r := p + q[1..];
    forall i | 0 <= i < |r| - 1 ensures r[i + 1] in g[r[i]] {
      if i < |p| - 1 {
        assert r[i] == p[i] && r[i + 1] == p[i + 1];
      } else {
        assert r[i] == q[i - (|p| - 1)] && r[i + 1] == q[i + 1 - (|p| - 1)];
      }
    }
    assert IsPath(g, r) && r[0] == x && r[|r| - 1] == z;
  }

  /** More edges reach no less. */
  ghost predicate SubGraph(g: Edges, h: Edges) {
    |g| <= |h| && forall x, y :: 0 <= x < |g| && y in g[x] ==> y in h[x]
  }

  lemma ReachesMore(g: Edges, h: Edges, x: nat, y: nat)
    requires SubGraph(g, h) && Reaches(g, x, y)
    ensures Reaches(h, x, y)
  {
    var p :| IsPath(g, p) && p[0] == x && p[|p| - 1] == y;
    assert IsPath(h, p);
  }

  // ---- marks ---------------------------------------------------------------

  type Marks = seq<set<nat>>

  ghost predicate Mirrored(parents: Edges, children: Edges) {
    && |parents| == |children|
    && (forall x, y :: 0 <= x < |parents| && y in parents[x] ==> y < |parents|)
    && (forall x, y :: 0 <= x < |parents| && y in children[x] ==> y < |parents|)
    && (forall x, y :: 0 <= x < |parents| && 0 <= y < |parents| ==> (y in parents[x] <==> x in children[y]))
  }

  /** Everything next to a marked pair is marked. */
  ghost predicate Closed(parents: Edges, children: Edges, m: Marks, x: nat, y: nat)
    requires |m| == |parents| == |children| && x < |m| && y < |m|
  {
    && (forall z :: z in parents[y] ==> z in m[x])
    && (forall w :: w in children[x] && w < |m| ==> y in m[w])
  }

  ghost predicate Reflexive(m: Marks) {
    forall x :: 0 <= x < |m| ==> x in m[x]
  }

  ghost predicate Bounded(m: Marks) {
    forall x, y :: 0 <= x < |m| && y in m[x] ==> y < |m|
  }

  ghost predicate Grows(m: Marks, k: Marks) {
    |m| == |k| && forall x :: 0 <= x < |m| ==> m[x] <= k[x]
  }

  /** Marks are exactly what can be reached. */
  ghost predicate Exact(g: Edges, m: Marks) {
    |m| == |g| && forall x: nat, y: nat :: x < |m| ==> (y in m[x] <==> Reaches(g, x, y))
  }

  ghost predicate Sound(g: Edges, m: Marks) {
    forall x: nat, y: nat :: x < |m| && y in m[x] ==> Reaches(g, x, y)
  }

  /** Every pair marked since `was` is closed. */
  ghost predicate NewClosed(g: Edges, kids: Edges, was: Marks, m: Marks)
    requires |was| == |m| == |g| == |kids|
  {
    forall x: nat, y: nat :: x < |m| && y < |m| && y in m[x] && y !in was[x] ==> Closed(g, kids, m, x, y)
  }

  /** Every such pair but one. */
  ghost predicate OthersClosed(g: Edges, kids: Edges, was: Marks, m: Marks, c: nat, p: nat)
    requires |was| == |m| == |g| == |kids|
  {
    forall x: nat, y: nat :: x < |m| && y < |m| && y in m[x] && y !in was[x] && !(x == c && y == p) ==>
        Closed(g, kids, m, x, y)
  }

  // ---- adding an edge ------------------------------------------------------

  /** One more path element: marks that were exact for `g` and are closed at every
      new pair hold everything that can be reached in `h`. */
  lemma {:induction false} PathMarked(g: Edges, h: Edges, kids: Edges, was: Marks, m: Marks, c: nat, p: nat,
                                      path: seq<nat>)
    requires Exact(g, was) && Grows(was, m) && Mirrored(h, kids) && |h| == |m| == |g| && c < |m| && p < |m|
    requires NewClosed(h, kids, was, m)
    requires p in m[c] && Bounded(m) && SubGraph(g, h)
    requires forall x, y :: 0 <= x < |h| && y in h[x] ==> y in g[x] || (x == c && y == p)
    requires IsPath(h, path)
    ensures path[|path| - 1] in m[path[0]]
    decreases |path|
  {
    var (x, y) := (path[0], path[|path| - 1]);
    if |path| == 1 {
      ReachesSelf(g, x);
    } else {
      var front := path[..|path| - 1];
      var u := path[|path| - 2];
      assert IsPath(h, front) && y in h[u] by { assert path[|path| - 2 + 1] in h[path[|path| - 2]]; }
      PathMarked(g, h, kids, was, m, c, p, front);
      assert u in m[x];
      if u !in was[x] {
        assert Closed(h, kids, m, x, u);
      } else if y in g[u] {
        ReachesEdge(g, u, y);
        ReachesTrans(g, x, u, y);
      } else {
        BeforeEdge(g, h, kids, was, m, c, p, x);
      }
    }
  }

  /** Whatever reached `c` before now is marked with `p`. */
  lemma BeforeEdge(g: Edges, h: Edges, kids: Edges, was: Marks, m: Marks, c: nat, p: nat, x: nat)
    requires Exact(g, was) && Grows(was, m) && Mirrored(h, kids) && |h| == |m| == |g| && c < |m| && p < |m| && x < |m|
    requires NewClosed(h, kids, was, m)
    requires SubGraph(g, h) && p in m[c] && c in was[x]
    ensures p in m[x]
  {
    var path :| IsPath(g, path) && path[0] == x && path[|path| - 1] == c;
    UpPath(g, h, kids, was, m, p, path);
  }

  lemma {:induction false} UpPath(g: Edges, h: Edges, kids: Edges, was: Marks, m: Marks, p: nat, path: seq<nat>)
    requires Exact(g, was) && Grows(was, m) && Mirrored(h, kids) && |h| == |m| == |g| && p < |m|
    requires NewClosed(h, kids, was, m)
    requires SubGraph(g, h) && IsPath(g, path) && p in m[path[|path| - 1]]
    ensures p in m[path[0]]
    decreases |path|
  {
    if |path| > 1 {
      var rest := path[1..];
      forall i | 0 <= i < |rest| - 1 ensures rest[i + 1] in g[rest[i]] { assert path[i + 1 + 1] in g[path[i + 1]]; }
      assert IsPath(g, rest);
      UpPath(g, h, kids, was, m, p, rest);
      var (x, v) := (path[0], path[1]);
      assert path[0 + 1] in g[path[0]];
      if p in was[v] {
        ReachesEdge(g, x, v);
        ReachesTrans(g, x, v, p);
      } else {
        assert Closed(h, kids, m, v, p) && x in kids[v];
      }
    }
  }

  // ---- the graph -----------------------------------------------------------

  /** All types of a cx, by tag. */
  class Types {
    var parents: Edges
    var children: Edges
    var marks: Marks

    constructor ()
      ensures Valid() && parents == []
    {
      parents, children, marks := [], [], [];
    }

    ghost predicate Valid()
      reads this
    {
      Shaped() && Exact(parents, marks)
    }

    ghost predicate Shaped()
      reads this
    {
      Mirrored(parents, children) && |marks| == |parents| && Reflexive(marks) && Bounded(marks)
    }

    /** Pairs that are not marked. */
    ghost function Unmarked(): set<(nat, nat)>
      reads this
    {
      set x: nat, y: nat | x < |marks| && y < |marks| && y !in marks[x] :: (x, y)
    }

    /** cx_type_new */
    method New() returns (tag: nat)
      requires Valid()
      modifies this
      ensures Valid() && tag == old(|parents|) && parents == old(parents) + [[]]
    {
      tag := |parents|;
      ghost var (g, m) := (parents, marks);
      parents, children, marks := parents + [[]], children + [[]], marks + [{tag}];
      NewExact(g, m);
    }

    /** cx_is, for types without parameters */
    method Is(child: nat, parent: nat) returns (r: bool)
      requires Valid() && child < |parents| && parent < |parents|
      ensures r <==> Reaches(parents, child, parent)
    {
      if child == parent {
        ReachesSelf(parents, child);
        return true;
      }
      return parent in marks[child];
    }

    /** cx_derive */
    method AddParent(child: nat, parent: nat)
      requires Valid() && child < |parents| && parent < |parents|
      modifies this
      ensures Valid()
      ensures |parents| == |old(parents)|
      ensures forall x, y :: 0 <= x < |parents| ==>
                (y in parents[x] <==> y in old(parents)[x] || (x == child && y == parent))
    {
      ghost var (g, m) := (parents, marks);
      if parent !in parents[child] { parents := parents[child := parents[child] + [parent]]; }
      if child !in children[parent] { children := children[parent := children[parent] + [child]]; }
      ReachesEdge(parents, child, parent);
      forall x: nat, y: nat | x < |marks| && y in marks[x]
        ensures Reaches(parents, x, y) { ReachesMore(g, parents, x, y); }
      Derive(child, parent);
      forall x: nat, y: nat | x < |marks| && Reaches(parents, x, y) ensures y in marks[x] {
        var path :| IsPath(parents, path) && path[0] == x && path[|path| - 1] == y;
        PathMarked(g, parents, children, m, marks, child, parent, path);
      }
    }

    /** derive: marks a new pair and goes on to the pairs next to it. */
    method Derive(child: nat, parent: nat)
      requires Shaped() && child < |marks| && parent < |marks|
      requires Reaches(parents, child, parent)
      requires Sound(parents, marks)
      modifies this`marks
      ensures Shaped() && Grows(old(marks), marks) && parent in marks[child]
      ensures Sound(parents, marks) && NewClosed(parents, children, old(marks), marks)
      decreases Unmarked()
    {
      hide Reaches;
      if parent in marks[child] { return; }
      ghost var was := marks;
      marks := marks[child := marks[child] + {parent}];
      assert (child, parent) !in Unmarked() && Unmarked() <= old(Unmarked()) && (child, parent) in old(Unmarked());
      ghost var left := Unmarked();
      var i := 0;
      while i < |parents[parent]|
        invariant i <= |parents[parent]| && Shaped() && Grows(was, marks) && parent in marks[child]
                  && Unmarked() <= left
        invariant Sound(parents, marks) && OthersClosed(parents, children, was, marks, child, parent)
        invariant forall k :: 0 <= k < i ==> parents[parent][k] in marks[child]
      {
        var t := parents[parent][i];
        assert t in parents[parent];
        if t != child && t != parent {
          UpStep(parents, child, parent, t);
          ghost var before := marks;
          Derive(child, t);
          StillClosed(parents, children, was, before, marks, child, parent);
        }
        i := i + 1;
      }
      var j := 0;
      while j < |children[child]|
        invariant j <= |children[child]| && Shaped() && Grows(was, marks) && parent in marks[child]
                  && Unmarked() <= left
        invariant Sound(parents, marks) && OthersClosed(parents, children, was, marks, child, parent)
        invariant forall k :: 0 <= k < |parents[parent]| ==> parents[parent][k] in marks[child]
        invariant forall k :: 0 <= k < j ==> children[child][k] < |marks| && parent in marks[children[child][k]]
      {
        var t := children[child][j];
        assert t in children[child];
        if t != child && t != parent {
          DownStep(parents, children, child, parent, t);
          ghost var before := marks;
          Derive(t, parent);
          StillClosed(parents, children, was, before, marks, child, parent);
        }
        j := j + 1;
      }
      assert Closed(parents, children, marks, child, parent);
    }
  }

  lemma UpStep(g: Edges, child: nat, parent: nat, t: nat)
    requires Reaches(g, child, parent) && parent < |g| && t < |g| && t in g[parent]
    ensures Reaches(g, child, t)
  {
    ReachesEdge(g, parent, t);
    ReachesTrans(g, child, parent, t);
  }

  lemma DownStep(g: Edges, kids: Edges, child: nat, parent: nat, t: nat)
    requires Mirrored(g, kids) && Reaches(g, child, parent) && child < |g| && t in kids[child]
    ensures Reaches(g, t, parent)
  {
    ReachesEdge(g, t, child);
    ReachesTrans(g, t, child, parent);
  }

  /** Closed pairs stay closed when marks are added. */
  lemma StillClosed(g: Edges, kids: Edges, was: Marks, before: Marks, m: Marks, c: nat, p: nat)
    requires |g| == |kids| == |m| == |was| && Grows(was, before) && Grows(before, m)
    requires OthersClosed(g, kids, was, before, c, p) && NewClosed(g, kids, before, m)
    ensures OthersClosed(g, kids, was, m, c, p)
  {
    forall x: nat, y: nat | x < |m| && y < |m| && y in m[x] && y !in was[x] && !(x == c && y == p)
      ensures Closed(g, kids, m, x, y) {
      if y in before[x] { assert Closed(g, kids, before, x, y); }
    }
  }

  lemma FirstHop(g: Edges, x: nat, y: nat)
    requires x < |g| && x != y && Reaches(g, x, y)
    ensures g[x] != []
  {
    var p :| IsPath(g, p) && p[0] == x && p[|p| - 1] == y;
    assert p[0 + 1] in g[p[0]];
  }

  /** A type without edges reaches itself only. */
  lemma NewExact(g: Edges, m: Marks)
    requires Exact(g, m) && forall x, y :: 0 <= x < |g| && y in g[x] ==> y < |g|
    ensures Exact(g + [[]], m + [{|g|}])
  {
    var (h, k) := (g + [[]], m + [{|g|}]);
    forall x: nat, y: nat | x < |k| ensures y in k[x] <==> Reaches(h, x, y) {
      if Reaches(h, x, y) {
        var p :| IsPath(h, p) && p[0] == x && p[|p| - 1] == y;
        if x == |g| {
          if y != x { FirstHop(h, x, y); }
        } else {
          StaysInside(g, h, p);
        }
      }
      if y in k[x] { if x < |g| { ReachesMore(g, h, x, y); } else { ReachesSelf(h, x); } }
    }
  }

  lemma {:induction false} StaysInside(g: Edges, h: Edges, p: seq<nat>)
    requires h == g + [[]] && IsPath(h, p) && p[0] < |g| && forall x, y :: 0 <= x < |g| && y in g[x] ==> y < |g|
    ensures IsPath(g, p)
    decreases |p|
  {
    if |p| > 1 {
      var front := p[..|p| - 1];
      assert IsPath(h, front);
      StaysInside(g, h, front);
      assert p[|p| - 2 + 1] in h[p[|p| - 2]] && front[|p| - 2] == p[|p| - 2];
      forall i | 0 <= i < |p| ensures p[i] < |g| { if i < |p| - 1 { assert p[i] == front[i]; } }
    }
  }
}
