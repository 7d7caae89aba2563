/** Edit distance (util.c): the last cell of the table is the length of a shortest
    script of insertions, deletions and substitutions. */
module EditDistance {

  // ---- scripts -------------------------------------------------------------

  datatype Edit = Insert(at: nat, c: char) | Delete(at: nat) | Substitute(at: nat, c: char)

  predicate Fits(e: Edit, s: string) {
    if e.Insert? then e.at <= |s| else e.at < |s|
  }

  function Apply(e: Edit, s: string): string
    requires Fits(e, s)
  {
    match e
    case Insert(at, c) => s[..at] + [c] + s[at..]
    case Delete(at) => s[..at] + s[at + 1..]
    case Substitute(at, c) => s[..at] + [c] + s[at + 1..]
  }

  /** The edits, one after the other, turn `x` into `y`. */
  predicate IsScript(es: seq<Edit>, x: string, y: string)
    decreases |es|
  {
    if es == [] then x == y else Fits(es[0], x) && IsScript(es[1..], Apply(es[0], x), y)
  }

  lemma {:induction false} ScriptsJoin(es: seq<Edit>, fs: seq<Edit>, x: string, y: string, z: string)
    requires IsScript(es, x, y) && IsScript(fs, y, z)
    ensures IsScript(es + fs, x, z)
    decreases |es|
  {
    hide Apply;
    if es == [] {
      assert es + fs == fs;
    } else {
      assert (es + fs)[0] == es[0];
      assert (es + fs)[1..] == es[1..] + fs;
      ScriptsJoin(es[1..], fs, Apply(es[0], x), y, z);
    }
  }

  /** Edits at the front do not mind what follows. */
  lemma {:induction false} ScriptExtends(es: seq<Edit>, x: string, y: string, z: string)
    requires IsScript(es, x, y)
    ensures IsScript(es, x + z, y + z)
    decreases |es|
  {
    if es != [] {
      var x1 := Apply(es[0], x);
      assert Apply(es[0], x + z) == x1 + z;
      ScriptExtends(es[1..], x1, y, z);
    }
  }

  // ---- distance ------------------------------------------------------------

  function Min(a: nat, b: nat): nat {
    if a < b then a else b
  }

  function Front(s: string): string
    requires s != []
  {
    s[..|s| - 1]
  }

  function Last(s: string): char
    requires s != []
  {
    s[|s| - 1]
  }

  /** What a table cell holds. */
  function Dist(x: string, y: string): nat
    decreases |x| + |y|
  {
    if x == [] then |y|
    else if y == [] then |x|
    else Min(Dist(Front(x), y) + 1,
             Min(Dist(x, Front(y)) + 1, Dist(Front(x), Front(y)) + if Last(x) == Last(y) then 0 else 1))
  }

  lemma DistStep(x: string, y: string)
    requires x != [] && y != []
    ensures Dist(x, y) ==
              Min(Dist(Front(x), y) + 1,
                  Min(Dist(x, Front(y)) + 1, Dist(Front(x), Front(y)) + if Last(x) == Last(y) then 0 else 1))
  {
    hide Min, Front, Last;
  }

  lemma DistEmpty(x: string)
    ensures Dist(x, []) == |x| && Dist([], x) == |x|
  {
  }

  /** cx_str_dist */
  method StrDist(x: string, y: string) returns (res: nat)
    ensures res == Dist(x, y)
  {
    var d := new nat[|x| + 1, |y| + 1]((i, j) => 0);
    var i := 1;
    while i < |x| + 1
      invariant 1 <= i <= |x| + 1
      invariant d[0, 0] == 0 && forall k :: 0 <= k < i ==> d[k, 0] == k
    {
      d[i, 0] := i;
      i := i + 1;
    }
    var j := 1;
    while j < |y| + 1
      invariant 1 <= j <= |y| + 1
      invariant (forall k :: 0 <= k <= |x| ==> d[k, 0] == k) && (forall k :: 0 <= k < j ==> d[0, k] == k)
    {
      d[0, j] := j;
      j := j + 1;
    }
    Edges(x, y);
    hide Dist;
    i := 1;
    while i < |x| + 1
      invariant 1 <= i <= |x| + 1 && Filled(d, x, y, i)
    {
      FillRow(d, x, y, i);
      i := i + 1;
    }
    assert x[..|x|] == x && y[..|y|] == y;
    res := d[|x|, |y|];
  }

  /** The first `i` rows and the first column are done. */
  ghost predicate Filled(d: array2<nat>, x: string, y: string, i: nat)
    reads d
  {
    && d.Length0 == |x| + 1 && d.Length1 == |y| + 1 && i <= |x| + 1
    && (forall k :: 0 <= k <= |x| ==> d[k, 0] == Dist(x[..k], y[..0]))
    && (forall k, l :: 0 <= k < i && 0 <= l <= |y| ==> d[k, l] == Dist(x[..k], y[..l]))
  }

  lemma Edges(x: string, y: string)
    ensures forall k :: 0 <= k <= |y| ==> Dist(x[..0], y[..k]) == k
    ensures forall k :: 0 <= k <= |x| ==> Dist(x[..k], y[..0]) == k
  {
  }

  /** One row of the table. */
  method FillRow(d: array2<nat>, x: string, y: string, i: nat)
    requires 1 <= i <= |x| && Filled(d, x, y, i)
    modifies d
    ensures Filled(d, x, y, i + 1)
  {
    hide Dist;
    var j := 1;
    while j < |y| + 1
      invariant 1 <= j <= |y| + 1 && Filled(d, x, y, i)
      invariant forall l :: 0 <= l < j ==> d[i, l] == Dist(x[..i], y[..l])
    {
      var sc := if x[i - 1] == y[j - 1] then 0 else 1;
      d[i, j] := Min(d[i - 1, j] + 1, Min(d[i, j - 1] + 1, d[i - 1, j - 1] + sc));
      Cell(x, y, i, j);
      j := j + 1;
    }
  }

  lemma Cell(x: string, y: string, i: nat, j: nat)
    requires 1 <= i <= |x| && 1 <= j <= |y|
    ensures Dist(x[..i], y[..j]) ==
              Min(Dist(x[..i - 1], y[..j]) + 1,
                  Min(Dist(x[..i], y[..j - 1]) + 1,
                      Dist(x[..i - 1], y[..j - 1]) + if x[i - 1] == y[j - 1] then 0 else 1))
  {
    assert Front(x[..i]) == x[..i - 1] && Front(y[..j]) == y[..j - 1];
  }

  // ---- a shortest script exists --------------------------------------------

  lemma {:induction false} ScriptExists(x: string, y: string) returns (es: seq<Edit>)
    ensures IsScript(es, x, y) && |es| == Dist(x, y)
    decreases |x| + |y|
  {
    if x == [] && y == [] {
      es := [];
    } else if x == [] || (y != [] && Dist(x, y) == Dist(x, Front(y)) + 1) {
      es := ScriptExists(x, Front(y));
      es := ThenInsert(es, x, y);
    } else if y == [] || Dist(x, y) == Dist(Front(x), y) + 1 {
      es := ScriptExists(Front(x), y);
      es := DeleteFirst(es, x, y);
    } else {
      es := ScriptExists(Front(x), Front(y));
      es := ThenLast(es, x, y);
    }
  }

  lemma OneEdit(e: Edit, x: string, y: string)
    requires Fits(e, x) && Apply(e, x) == y
    ensures IsScript([e], x, y)
  {
    assert [e][1..] == [];
  }

  lemma ThenInsert(es: seq<Edit>, x: string, y: string) returns (fs: seq<Edit>)
    requires y != [] && IsScript(es, x, Front(y))
    ensures IsScript(fs, x, y) && |fs| == |es| + 1
  {
    var e := Insert(|y| - 1, Last(y));
    assert Apply(e, Front(y)) == y;
    OneEdit(e, Front(y), y);
    ScriptsJoin(es, [e], x, Front(y), y);
    fs := es + [e];
  }

  lemma DeleteFirst(es: seq<Edit>, x: string, y: string) returns (fs: seq<Edit>)
    requires x != [] && IsScript(es, Front(x), y)
    ensures IsScript(fs, x, y) && |fs| == |es| + 1
  {
    var e := Delete(|x| - 1);
    assert Apply(e, x) == Front(x);
    OneEdit(e, x, Front(x));
    ScriptsJoin([e], es, x, Front(x), y);
    fs := [e] + es;
  }

  lemma ThenLast(es: seq<Edit>, x: string, y: string) returns (fs: seq<Edit>)
    requires x != [] && y != [] && IsScript(es, Front(x), Front(y))
    ensures IsScript(fs, x, y) && |fs| == |es| + if Last(x) == Last(y) then 0 else 1
  {
    assert x == Front(x) + [Last(x)] && y == Front(y) + [Last(y)];
    ScriptExtends(es, Front(x), Front(y), [Last(x)]);
    fs := es;
    if Last(x) != Last(y) {
      var e := Substitute(|y| - 1, Last(y));
      var m := Front(y) + [Last(x)];
      assert Apply(e, m) == y;
      OneEdit(e, m, y);
      ScriptsJoin(es, [e], x, m, y);
      fs := es + [e];
    }
  }

  // ---- no script is shorter ------------------------------------------------

  /** One edit of the first string changes the distance by at most one. */
  predicate Near(a: nat, b: nat) {
    a <= b + 1 && b <= a + 1
  }

  lemma {:induction false} NearInsert(a: string, c: char, y: string)
    ensures Near(Dist(a, y), Dist(a + [c], y))
    decreases |y|
  {
    assert Front(a + [c]) == a;
    if y != [] { NearInsert(a, c, Front(y)); }
  }

  lemma {:induction false} NearSubstitute(a: string, c: char, d: char, y: string)
    ensures Near(Dist(a + [c], y), Dist(a + [d], y))
    decreases |y|
  {
    assert Front(a + [c]) == a && Front(a + [d]) == a;
    if y != [] { NearSubstitute(a, c, d, Front(y)); }
  }

  /** A common end keeps two strings near. */
  lemma {:induction false} NearExtends(p: string, q: string, z: string, y: string)
    requires forall t :: |t| <= |y| ==> Near(Dist(p, t), Dist(q, t))
    requires Near(|p|, |q|)
    ensures Near(Dist(p + z, y), Dist(q + z, y))
    decreases |z| + |y|
  {
    hide Dist;
    if z == [] {
      assert p + z == p && q + z == q;
    } else if y == [] {
      DistEmpty(p + z);
      DistEmpty(q + z);
    } else {
      assert Front(p + z) == p + Front(z) && Front(q + z) == q + Front(z);
      NearExtends(p, q, Front(z), y);
      NearExtends(p, q, z, Front(y));
      NearExtends(p, q, Front(z), Front(y));
      DistStep(p + z, y);
      DistStep(q + z, y);
    }
  }

  lemma NearApply(e: Edit, x: string, y: string)
    requires Fits(e, x)
    ensures Near(Dist(x, y), Dist(Apply(e, x), y))
  {
    hide Dist;
    var a := x[..e.at];
    match e
    case Insert(at, c) =>
      forall t | |t| <= |y| ensures Near(Dist(a, t), Dist(a + [c], t)) { NearInsert(a, c, t); }
      NearExtends(a, a + [c], x[at..], y);
      assert a + x[at..] == x && a + [c] + x[at..] == Apply(e, x);
    case Delete(at) =>
      forall t | |t| <= |y| ensures Near(Dist(a + [x[at]], t), Dist(a, t)) { NearInsert(a, x[at], t); }
      NearExtends(a + [x[at]], a, x[at + 1..], y);
      assert a + [x[at]] + x[at + 1..] == x;
    case Substitute(at, c) =>
      forall t | |t| <= |y| ensures Near(Dist(a + [x[at]], t), Dist(a + [c], t)) { NearSubstitute(a, x[at], c, t); }
      NearExtends(a + [x[at]], a + [c], x[at + 1..], y);
      assert a + [x[at]] + x[at + 1..] == x;
  }

  lemma {:induction false} DistSelf(x: string)
    ensures Dist(x, x) == 0
    decreases |x|
  {
    if x != [] { DistSelf(Front(x)); }
  }

  /** No script from `x` to `y` is shorter than their distance. */
  lemma {:induction false} ScriptsAreLong(es: seq<Edit>, x: string, y: string)
    requires IsScript(es, x, y)
    ensures Dist(x, y) <= |es|
    decreases |es|
  {
    if es == [] {
      DistSelf(x);
    } else {
      NearApply(es[0], x, y);
      ScriptsAreLong(es[1..], Apply(es[0], x), y);
    }
  }

  // ---- the distance is a metric --------------------------------------------

  lemma {:induction false} Symmetric(x: string, y: string)
    ensures Dist(x, y) == Dist(y, x)
    decreases |x| + |y|
  {
    if x != [] && y != [] {
      Symmetric(Front(x), y);
      Symmetric(x, Front(y));
      Symmetric(Front(x), Front(y));
    }
  }

  lemma ZeroIffEqual(x: string, y: string)
    ensures Dist(x, y) == 0 <==> x == y
  {
    DistSelf(x);
    var es := ScriptExists(x, y);
  }

  lemma Triangle(x: string, y: string, z: string)
    ensures Dist(x, z) <= Dist(x, y) + Dist(y, z)
  {
    var es := ScriptExists(x, y);
    var fs := ScriptExists(y, z);
    ScriptsJoin(es, fs, x, y, z);
    ScriptsAreLong(es + fs, x, z);
  }
}
