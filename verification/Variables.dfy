/** Variables are lexical: a name is looked up from the scope it is used in outward,
    through the scopes in which the code around it was entered or made. */
module Variables {
  import opened Basics
  import opened VmState
  import opened Vm

  /** Different scopes, each the parent of the one before. */
  ghost predicate Outward(st: State, p: seq<nat>) {
    && p != [] && (forall k :: 0 <= k < |p| ==> p[k] < |st.heap|)
    && (forall j, k :: 0 <= j < k < |p| ==> p[j] != p[k])
    && (forall k :: 0 <= k < |p| - 1 ==> st.heap[p[k]].parent == Some(p[k + 1]))
  }

  /** `p[i]` is the first of them that binds the name. */
  ghost predicate FirstWith(st: State, p: seq<nat>, i: nat, id: Sym)
    requires Outward(st, p)
  {
    i < |p| && id in st.heap[p[i]].vars && forall k :: 0 <= k < i ==> id !in st.heap[p[k]].vars
  }

  lemma {:induction false} LookupFirst(st: State, p: seq<nat>, i: nat, id: Sym, n: nat)
    requires Outward(st, p) && FirstWith(st, p, i, id) && n >= i
    ensures Lookup(st, p[0], id, n) == Some(st.heap[p[i]].vars[id])
    decreases i
  {
    if i > 0 {
      OutwardRest(st, p);
      assert FirstWith(st, p[1..], i - 1, id);
      LookupFirst(st, p[1..], i - 1, id, n - 1);
    }
  }

  lemma OutwardRest(st: State, p: seq<nat>)
    requires Outward(st, p) && |p| > 1
    ensures Outward(st, p[1..]) && st.heap[p[0]].parent == Some(p[1..][0])
  {
  }

  lemma {:induction false} LookupNone(st: State, p: seq<nat>, id: Sym, n: nat)
    requires Outward(st, p) && st.heap[p[|p| - 1]].parent.None?
    requires forall k :: 0 <= k < |p| ==> id !in st.heap[p[k]].vars
    ensures Lookup(st, p[0], id, n).None?
    decreases |p|
  {
    if |p| > 1 && n > 0 {
      OutwardRest(st, p);
      LookupNone(st, p[1..], id, n - 1);
    }
  }

  /** A name has the value that the nearest scope outward binds it to; an inner binding
      hides every outer one.  It has none if no scope up to the outermost binds it. */
  lemma NearestBinding(st: State, p: seq<nat>, id: Sym)
    requires Outward(st, p)
    ensures forall i :: 0 <= i < |p| && id in st.heap[p[i]].vars
                        && (forall k :: 0 <= k < i ==> id !in st.heap[p[k]].vars) ==>
              GetVar(st, p[0], id) == Some(st.heap[p[i]].vars[id])
    ensures st.heap[p[|p| - 1]].parent.None? && (forall k :: 0 <= k < |p| ==> id !in st.heap[p[k]].vars) ==>
              GetVar(st, p[0], id).None?
  {
    Distinct(p, |st.heap|);
    forall i | 0 <= i < |p| && id in st.heap[p[i]].vars && (forall k :: 0 <= k < i ==> id !in st.heap[p[k]].vars)
      ensures GetVar(st, p[0], id) == Some(st.heap[p[i]].vars[id]) {
      LookupFirst(st, p, i, id, |st.heap|);
    }
    if st.heap[p[|p| - 1]].parent.None? && (forall k :: 0 <= k < |p| ==> id !in st.heap[p[k]].vars) {
      LookupNone(st, p, id, |st.heap|);
    }
  }

  /** Reading a name pushes its value; a name that no scope binds is an error. */
  lemma ReadsNearest(st: State, p: seq<nat>, id: Sym, i: nat)
    requires Outward(st, p) && p[0] == Top(st)
    ensures i < |p| && id in st.heap[p[i]].vars && (forall k :: 0 <= k < i ==> id !in st.heap[p[k]].vars) ==>
              && TopStack(DoGetVar(st, id)) == TopStack(st) + [st.heap[p[i]].vars[id]]
              && DoGetVar(st, id).errors == st.errors
    ensures st.heap[p[|p| - 1]].parent.None? && (forall k :: 0 <= k < |p| ==> id !in st.heap[p[k]].vars) ==>
              DoGetVar(st, id) == st.(errors := st.errors + [Text("Unknown var")])
  {
    NearestBinding(st, p, id);
  }

  // ---- groups --------------------------------------------------------------

  /** A group's scope is new and lies in the scope around it. */
  lemma GroupInside(st: State, p: seq<nat>)
    requires Outward(st, p) && p[0] == Top(st)
    ensures var (r, s) := (EnterGroup(st), |st.heap|);
            && r == st.(heap := st.heap + [r.heap[s]], scopes := st.scopes + [s]) && Top(r) == s
            && r.heap[s].parent == Some(Top(st)) && r.heap[s].vars == map[] && r.heap[s].stack == []
            && (st.scopes != [] ==> r.heap[s].safe == Obj(st, Top(st)).safe)
            && Outward(r, [s] + p)
  {
  }

  /** `($id)` in `n` groups. */
  function Nested(n: nat, id: Sym): Node {
    if n == 0 then NGetVar(id) else NGroup([Nested(n - 1, id)])
  }

  lemma RunOne(w: World, b: Bin, fuel: nat, n: Node, st: State)
    ensures EvalSeq(w, b, fuel, [n], st) == EvalNode(w, b, fuel, n, st)
  {
    var r := EvalNode(w, b, fuel, n, st);
    if r.Some? { assert EvalSeq(w, b, fuel, [n][1..], r.value) == r; }
  }

  /** However deep in groups it is used, a name means what it means around them. */
  lemma {:induction false} GroupsSeeOut(w: World, b: Bin, fuel: nat, n: nat, id: Sym, st: State, p: seq<nat>, i: nat)
    requires st.errors == [] && st.scopes != [] && Outward(st, p) && p[0] == Top(st) && FirstWith(st, p, i, id)
    ensures var x := EvalNode(w, b, fuel, Nested(n, id), st);
            && x.Some? && TopStack(x.value) == TopStack(st) + [st.heap[p[i]].vars[id]]
            && x.value.errors == [] && x.value.scopes == st.scopes && |x.value.heap| >= |st.heap|
            && forall j :: 0 <= j < |st.heap| && j != Top(st) ==> x.value.heap[j] == st.heap[j]
    decreases n
  {
    assert Top(st) < |st.heap|;
    hide EvalNode, EvalSeq, End, FirstWith, Outward, EnterGroup;
    if n == 0 {
      ReadHere(w, b, fuel, id, st, p, i);
    } else {
      var (st1, q) := (EnterGroup(st), [|st.heap|] + p);
      GroupInside(st, p);
      FirstInside(st, st1, p, i, id);
      GroupsSeeOut(w, b, fuel, n - 1, id, st1, q, i + 1);
      RunOne(w, b, fuel, Nested(n - 1, id), st1);
      var r := EvalNode(w, b, fuel, Nested(n - 1, id), st1).value;
      GroupRuns(w, b, fuel, Nested(n - 1, id), st);
      GroupLeft(st, r);
    }
  }

  lemma GroupRuns(w: World, b: Bin, fuel: nat, n: Node, st: State)
    requires st.errors == [] && EvalSeq(w, b, fuel, [n], EnterGroup(st)).Some?
    ensures EvalNode(w, b, fuel, NGroup([n]), st) == Some(End(EvalSeq(w, b, fuel, [n], EnterGroup(st)).value))
  {
    hide EvalSeq, End, EnterGroup;
  }

  lemma ReadHere(w: World, b: Bin, fuel: nat, id: Sym, st: State, p: seq<nat>, i: nat)
    requires st.errors == [] && st.scopes != [] && Outward(st, p) && p[0] == Top(st) && FirstWith(st, p, i, id)
    ensures var x := EvalNode(w, b, fuel, NGetVar(id), st);
            && x.Some? && TopStack(x.value) == TopStack(st) + [st.heap[p[i]].vars[id]]
            && x.value.errors == [] && x.value.scopes == st.scopes && |x.value.heap| >= |st.heap|
            && forall j :: 0 <= j < |st.heap| && j != Top(st) ==> x.value.heap[j] == st.heap[j]
  {
    ReadsNearest(st, p, id, i);
  }

  lemma FirstInside(st: State, r: State, p: seq<nat>, i: nat, id: Sym)
    requires Outward(st, p) && FirstWith(st, p, i, id) && |r.heap| == |st.heap| + 1 && r.heap[..|st.heap|] == st.heap
    requires Outward(r, [|st.heap|] + p) && r.heap[|st.heap|].vars == map[]
    ensures FirstWith(r, [|st.heap|] + p, i + 1, id)
            && r.heap[([|st.heap|] + p)[i + 1]].vars[id] == st.heap[p[i]].vars[id]
  {
    var q := [|st.heap|] + p;
    forall k | 0 <= k < i + 1 ensures id !in r.heap[q[k]].vars {
      if k > 0 { assert q[k] == p[k - 1]; }
    }
  }

  lemma GroupLeft(st: State, r: State)
    requires st.scopes != [] && Top(st) < |st.heap| && r.scopes == st.scopes + [|st.heap|] && |r.heap| > |st.heap|
    requires r.errors == [] && forall j :: 0 <= j < |st.heap| ==> r.heap[j] == st.heap[j]
    ensures var x := End(r);
            && TopStack(x) == TopStack(st) + TopStack(r) && x.errors == [] && x.scopes == st.scopes
            && |x.heap| == |r.heap| && forall j :: 0 <= j < |st.heap| && j != Top(st) ==> x.heap[j] == st.heap[j]
  {
    assert TopStack(st) + [] == TopStack(st);
  }

  /** `let: id v; (… ($id))`: what was bound outside is read inside. */
  lemma LetSeenInGroups(w: World, b: Bin, fuel: nat, n: nat, id: Sym, v: Value, st: State)
    requires st.errors == [] && st.scopes != [] && Top(st) < |st.heap|
    ensures var x := EvalSeq(w, b, fuel, [NPush(v), NPutVar(id, None), Nested(n, id)], st);
            x.Some? && TopStack(x.value) == TopStack(st) + [v] && x.value.errors == [] && x.value.scopes == st.scopes
  {
    var ns := [NPush(v), NPutVar(id, None), Nested(n, id)];
    var st1 := Push(st, v);
    var st2 := DoPutVar(w, st1, id, None);
    assert TopStack(st1)[..|TopStack(st)|] == TopStack(st);
    assert Outward(st2, [Top(st)]) && FirstWith(st2, [Top(st)], 0, id) && TopStack(st2) == TopStack(st);
    GroupsSeeOut(w, b, fuel, n, id, st2, [Top(st)], 0);
    hide Nested, DoPutVar, Outward, FirstWith;
    RunOne(w, b, fuel, Nested(n, id), st2);
    assert ns[1..][1..] == [Nested(n, id)];
    assert EvalSeq(w, b, fuel, ns[1..], st1) == EvalSeq(w, b, fuel, ns[1..][1..], st2);
    assert EvalSeq(w, b, fuel, ns, st) == EvalSeq(w, b, fuel, ns[1..], st1);
  }
}
