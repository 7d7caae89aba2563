/** Where values go: scopes, lambdas, arguments and results pass them on without
    losing any or changing their order. */
module Values {
  import opened Basics
  import opened VmState
  import opened Vm

  /** All open scopes are different objects. */
  ghost predicate Separate(st: State) {
    && (forall i :: 0 <= i < |st.scopes| ==> st.scopes[i] < |st.heap|)
    && (forall i, j :: 0 <= i < j < |st.scopes| ==> st.scopes[i] != st.scopes[j])
  }

  /** The stacks of the first `n` open scopes, bottom first. */
  function Stacked(st: State, n: nat): seq<Value>
    requires n <= |st.scopes|
  {
    if n == 0 then [] else Stacked(st, n - 1) + Obj(st, st.scopes[n - 1]).stack
  }

  function AllValues(st: State): seq<Value> {
    Stacked(st, |st.scopes|)
  }

  lemma {:induction false} SameBelow(st: State, r: State, n: nat)
    requires n <= |st.scopes| && n <= |r.scopes|
    requires forall i :: 0 <= i < n ==>
             r.scopes[i] == st.scopes[i] && Obj(r, r.scopes[i]).stack == Obj(st, st.scopes[i]).stack
    ensures Stacked(r, n) == Stacked(st, n)
  {
    if n > 0 { SameBelow(st, r, n - 1); }
  }

  lemma StackedStep(st: State, n: nat)
    requires 0 < n <= |st.scopes|
    ensures Stacked(st, n) == Stacked(st, n - 1) + Obj(st, st.scopes[n - 1]).stack
  {
  }

  /** Leaving a scope moves what it holds behind what the scope below holds, wherever
      else either is open, and touches no other object.  A scope that lies directly on
      itself loses what it holds. */
  lemma EndMoves(st: State)
    requires |st.scopes| >= 2 && Top(st) < |st.heap| && Under(st) < |st.heap|
    ensures var (r, s, below) := (End(st), Top(st), Under(st));
            && r.scopes == st.scopes[..|st.scopes| - 1] && |r.heap| == |st.heap| && r.errors == st.errors
            && (s != below ==>
                  Obj(r, below).stack == Obj(st, below).stack + Obj(st, s).stack && Obj(r, s).stack == [])
            && (s == below ==> Obj(r, s).stack == [])
            && forall i: nat :: i < |st.heap| && i != s && i != below ==> Obj(r, i) == Obj(st, i)
  {
    var (s, below) := (Top(st), Under(st));
    assert Obj(st, s).stack == [] ==> Obj(st, below).stack + Obj(st, s).stack == Obj(st, below).stack;
  }

  /** Leaving a scope, for different open scopes: those further down keep their stacks. */
  lemma EndFurtherDown(st: State)
    requires Separate(st) && |st.scopes| >= 2
    ensures var (r, n) := (End(st), |st.scopes|);
            && Separate(r) && |r.scopes| == n - 1 && (forall i :: 0 <= i < n - 1 ==> r.scopes[i] == st.scopes[i])
            && (forall i :: 0 <= i < n - 2 ==> Obj(r, r.scopes[i]).stack == Obj(st, st.scopes[i]).stack)
            && Obj(r, st.scopes[n - 2]).stack == Obj(st, st.scopes[n - 2]).stack + Obj(st, st.scopes[n - 1]).stack
  {
    var (r, n) := (End(st), |st.scopes|);
    EndMoves(st);
    assert Top(st) != Under(st);
    hide End, Obj;
    forall i | 0 <= i < n - 2 ensures Obj(r, r.scopes[i]).stack == Obj(st, st.scopes[i]).stack {
      assert st.scopes[i] != st.scopes[n - 1] && st.scopes[i] != st.scopes[n - 2];
    }
  }

  /** While all open scopes are different objects, leaving one keeps all their values in
      order. */
  lemma EndKeepsValues(st: State)
    requires Separate(st) && |st.scopes| >= 2
    ensures Separate(End(st)) && AllValues(End(st)) == AllValues(st) && |End(st).scopes| == |st.scopes| - 1
  {
    var (r, n) := (End(st), |st.scopes|);
    EndFurtherDown(st);
    hide End, Stacked, Obj, Separate;
    SameBelow(st, r, n - 2);
    StackedStep(st, n);
    StackedStep(st, n - 1);
    StackedStep(r, n - 1);
  }

  /** Entering a lambda moves the caller's values into its scope, behind what is there,
      and touches no other object, whether or not that scope is open already.  A lambda
      called in its own scope moves nothing. */
  lemma EnterLambdaMoves(lib: Lib, home: nat, st: State)
    requires st.scopes != [] && Top(st) < |st.heap| && home < |st.heap|
    ensures var (r, s) := (EnterLambda(lib, home, Top(st), st), Top(st));
            if home == s then r == if InLib(st, lib) then st else PushLib(st, lib)
            else
              && r.scopes == st.scopes + [home] && Top(r) == home && |r.heap| == |st.heap|
              && TopStack(r) == Obj(st, home).stack + TopStack(st) && Obj(r, s).stack == []
              && (forall i: nat :: i < |st.heap| && i != home && i != s ==> Obj(r, i) == Obj(st, i))
              && (Separate(st) && home !in st.scopes ==> Separate(r))
  {
    assert TopStack(st) == [] ==> Obj(st, home).stack + TopStack(st) == Obj(st, home).stack;
  }

  /** The last values of the stack become the arguments, in order. */
  lemma ArgsTaken(st: State, nargs: nat)
    requires st.calls != [] && TopCall(st).scope < |st.heap| && 0 < nargs <= |Obj(st, TopCall(st).scope).stack|
    ensures var (r, c) := (PopArgs(st, nargs), TopCall(st));
            && |TopCall(r).args| == nargs && TopCall(r) == c.(args := TopCall(r).args)
            && Obj(r, c.scope).stack + TopCall(r).args == Obj(st, c.scope).stack
  {
  }

  // ---- arguments -----------------------------------------------------------

  /** The values of the positional arguments, in order. */
  function Positional(args: seq<Arg>, vals: seq<Value>): seq<Value>
    requires |args| == |vals|
  {
    if args == [] then []
    else (if args[0].PosArg? then [vals[0]] else []) + Positional(args[1..], vals[1..])
  }

  /** The last argument of that name, or -1. */
  function LastNamed(args: seq<Arg>, id: Sym): (k: int)
    ensures -1 <= k < |args| && (k >= 0 ==> args[k] == NamedArg(id))
    ensures forall i :: k < i < |args| ==> args[i] != NamedArg(id)
  {
    if args == [] then -1 else if args[|args| - 1] == NamedArg(id) then |args| - 1
        else LastNamed(args[..|args| - 1], id)
  }

  function PutOne(st: State, arg: Arg, v: Value): State {
    match arg
    case ConstArg => st
    case NamedArg(id) => SetVar(st, Top(st), id, v)
    case PosArg => Push(st, v)
  }

  lemma {:induction false} PutsLast(st: State, args: seq<Arg>, vals: seq<Value>)
    requires |args| == |vals| && args != []
    ensures var n := |args| - 1;
            PutArgs(st, args, vals) == PutOne(PutArgs(st, args[..n], vals[..n]), args[n], vals[n])
    decreases |args|
  {
    var n := |args| - 1;
    var st1 := PutOne(st, args[0], vals[0]);
    assert PutArgs(st, args, vals) == PutArgs(st1, args[1..], vals[1..]);
    if n > 0 {
      PutsLast(st1, args[1..], vals[1..]);
      assert args[..n][1..] == args[1..][..n - 1] && vals[..n][1..] == vals[1..][..n - 1];
      assert PutArgs(st, args[..n], vals[..n]) == PutArgs(st1, args[..n][1..], vals[..n][1..]);
    }
  }

  lemma {:induction false} PositionalLast(args: seq<Arg>, vals: seq<Value>)
    requires |args| == |vals| && args != []
    ensures var n := |args| - 1;
            Positional(args, vals) == Positional(args[..n], vals[..n]) + if args[n].PosArg? then [vals[n]] else []
    decreases |args|
  {
    var n := |args| - 1;
    if n > 0 {
      PositionalLast(args[1..], vals[1..]);
      assert args[..n][1..] == args[1..][..n - 1] && vals[..n][1..] == vals[1..][..n - 1];
      assert args[..n][0] == args[0];
    }
  }

  lemma PutOneAt(st: State, arg: Arg, v: Value)
    requires Top(st) < |st.heap|
    ensures var (r, s) := (PutOne(st, arg, v), Top(st));
            && r == st.(heap := r.heap) && |r.heap| == |st.heap|
            && r.heap == st.heap[s := st.heap[s].(stack := Obj(r, s).stack, vars := Obj(r, s).vars)]
            && Obj(r, s).stack == TopStack(st) + (if arg.PosArg? then [v] else [])
            && Obj(r, s).vars == if arg.NamedArg? then Obj(st, s).vars[arg.id := v] else Obj(st, s).vars
  {
    assert TopStack(st) + [] == TopStack(st);
  }

  lemma LastNamedStep(args: seq<Arg>, id: Sym)
    requires args != []
    ensures var n := |args| - 1; LastNamed(args, id) == if args[n] == NamedArg(id) then n else LastNamed(args[..n], id)
  {
  }

  /** Only the stack and the variables of the top scope change. */
  ghost predicate PutInto(st: State, r: State, s: nat)
    requires s < |st.heap|
  {
    r == st.(heap := r.heap) && |r.heap| == |st.heap|
    && r.heap == st.heap[s := st.heap[s].(stack := r.heap[s].stack, vars := r.heap[s].vars)]
  }

  ghost predicate Named(args: seq<Arg>, vals: seq<Value>, was: map<Sym, Value>, now: map<Sym, Value>, id: Sym)
    requires |args| == |vals|
  {
    var k := LastNamed(args, id);
    if k >= 0 then id in now && now[id] == vals[k]
    else (id in now <==> id in was) && (id in was ==> now[id] == was[id])
  }

  /** Positional arguments go on the stack in order; a name has the value of its last
      argument, and every other variable is as it was. */
  lemma {:induction false} ArgsPut(st: State, args: seq<Arg>, vals: seq<Value>)
    requires |args| == |vals| && Top(st) < |st.heap|
    ensures var (r, s) := (PutArgs(st, args, vals), Top(st));
            && PutInto(st, r, s)
            && r.heap[s].stack == TopStack(st) + Positional(args, vals)
            && forall id :: Named(args, vals, st.heap[s].vars, r.heap[s].vars, id)
    decreases |args|
  {
    var (n, s) := (|args| - 1, Top(st));
    if args == [] {
      assert TopStack(st) + [] == TopStack(st);
      assert st.heap[s := st.heap[s]] == st.heap;
    } else {
      hide PutArgs, PutOne, Positional, LastNamed;
      ArgsPut(st, args[..n], vals[..n]);
      PutsLast(st, args, vals);
      PositionalLast(args, vals);
      var (st1, r) := (PutArgs(st, args[..n], vals[..n]), PutArgs(st, args, vals));
      PutOneAt(st1, args[n], vals[n]);
      forall id ensures Named(args, vals, st.heap[s].vars, r.heap[s].vars, id) {
        LastNamedStep(args, id);
        assert Named(args[..n], vals[..n], st.heap[s].vars, st1.heap[s].vars, id);
      }
    }
  }

  /** Arguments without names go on the stack as they are, and change nothing else. */
  lemma {:induction false} PlainArgs(st: State, args: seq<Arg>, vals: seq<Value>)
    requires |args| == |vals| && Top(st) < |st.heap| && forall k :: 0 <= k < |args| ==> args[k].PosArg?
    ensures var t := Top(st);
            PutArgs(st, args, vals) == st.(heap := st.heap[t := st.heap[t].(stack := st.heap[t].stack + vals)])
    decreases |args|
  {
    var t := Top(st);
    if args == [] {
      assert st.heap[t].stack + vals == st.heap[t].stack && st.heap[t := st.heap[t]] == st.heap;
    } else {
      var st1 := Push(st, vals[0]);
      PlainArgs(st1, args[1..], vals[1..]);
      assert st.heap[t].stack + [vals[0]] + vals[1..] == st.heap[t].stack + vals;
    }
  }

  // ---- results -------------------------------------------------------------

  function PosCount(rets: seq<Ret>, n: nat): (k: nat)
    requires n <= |rets|
    ensures k <= n
  {
    if n == 0 then 0 else PosCount(rets, n - 1) + if rets[n - 1].PosRet? then 1 else 0
  }

  /** Where the i-th result comes from: the signature, a variable, or the next value of
      the function's stack. */
  function Result(rets: seq<Ret>, st: State, i: nat): Option<Value>
    requires i < |rets|
  {
    match rets[i]
    case ConstRet(v) => Some(v)
    case NamedRet(id) => GetVar(st, Top(st), id)
    case PosRet =>
      var k := PosCount(rets, i);
      if k < |TopStack(st)| then Some(TopStack(st)[k]) else None
  }

  /** It is there and passes its check. */
  predicate Passes(w: World, imp: Imp, rets: seq<Ret>, st: State, i: nat)
    requires i < |rets|
  {
    var v := Result(rets, st, i);
    v.Some? && (rets[i].ConstRet? || !Obj(st, Top(st)).safe || w.retIs(imp, i, TopCall(st).args, v.value))
  }

  /** The first `n` results. */
  function Results(w: World, imp: Imp, rets: seq<Ret>, st: State, n: nat): (r: seq<Value>)
    requires n <= |rets| && forall i :: 0 <= i < n ==> Passes(w, imp, rets, st, i)
    ensures |r| == n && forall i :: 0 <= i < n ==> Passes(w, imp, rets, st, i) && r[i] == Result(rets, st, i).value
  {
    seq(n, i requires 0 <= i < n => assert Passes(w, imp, rets, st, i); Result(rets, st, i).value)
  }

  lemma {:induction false} LookupSame(st: State, r: State, id: nat, name: Sym, n: nat)
    requires |r.heap| == |st.heap| && forall i :: 0 <= i < |st.heap| ==>
             r.heap[i].vars == st.heap[i].vars && r.heap[i].parent == st.heap[i].parent
    ensures Lookup(r, id, name, n) == Lookup(st, id, name, n)
    decreases n
  {
    var s := Obj(st, id);
    if name !in s.vars && s.parent.Some? && n > 0 { LookupSame(st, r, s.parent.value, name, n - 1); }
  }

  /** Results already copied below change nothing of where the others come from. */
  lemma CopyKeeps(w: World, imp: Imp, rets: seq<Ret>, st: State, s: seq<Value>, i: nat)
    requires i < |rets| && Top(st) < |st.heap| && Top(st) != Under(st)
    ensures var r := SetStack(st, Under(st), s);
            && Result(rets, r, i) == Result(rets, st, i) && Passes(w, imp, rets, r, i) == Passes(w, imp, rets, st, i)
            && r.scopes == st.scopes && r.calls == st.calls && TopStack(r) == TopStack(st)
            && Obj(r, Top(r)).safe == Obj(st, Top(st)).safe
  {
    var r := SetStack(st, Under(st), s);
    if rets[i].NamedRet? { LookupSame(st, r, Top(st), rets[i].id, |st.heap|); }
  }

  lemma ResultsStep(w: World, imp: Imp, rets: seq<Ret>, st: State, i: nat)
    requires i < |rets| && forall j :: 0 <= j <= i ==> Passes(w, imp, rets, st, j)
    ensures Passes(w, imp, rets, st, i)
            && Results(w, imp, rets, st, i) + [Result(rets, st, i).value] == Results(w, imp, rets, st, i + 1)
  {
  }

  /** One result: it is copied below, or collecting ends with an error. */
  lemma CopyStep(w: World, imp: Imp, rets: seq<Ret>, i: nat, st: State)
    requires i < |rets|
    ensures var (r, p) := (CollectRets(w, imp, rets, i, PosCount(rets, i), st), Passes(w, imp, rets, st, i));
            && (!p ==> !r.ok)
            && (p ==> r == CollectRets(w, imp, rets, i + 1, PosCount(rets, i + 1),
                                       PushOn(st, Under(st), Result(rets, st, i).value)))
  {
  }

  /** From the i-th on: all are copied, or the first that does not pass stops it. */
  lemma {:induction false} CopiesFrom(w: World, imp: Imp, rets: seq<Ret>, i: nat, st0: State, st: State)
    requires i <= |rets| && Top(st0) < |st0.heap| && Under(st0) < |st0.heap| && Top(st0) != Under(st0)
    requires forall j :: 0 <= j < i ==> Passes(w, imp, rets, st0, j)
    requires st == SetStack(st0, Under(st0), Obj(st0, Under(st0)).stack + Results(w, imp, rets, st0, i))
    ensures var r := CollectRets(w, imp, rets, i, PosCount(rets, i), st);
            && (r.ok <==> forall j :: 0 <= j < |rets| ==> Passes(w, imp, rets, st0, j))
            && (r.ok ==> r.used == PosCount(rets, |rets|)
                         && r.st == SetStack(st0, Under(st0),
                                             Obj(st0, Under(st0)).stack + Results(w, imp, rets, st0, |rets|)))
    decreases |rets| - i
  {
    hide Results;
    if i < |rets| {
      var below := Obj(st0, Under(st0)).stack;
      CopyKeeps(w, imp, rets, st0, below + Results(w, imp, rets, st0, i), i);
      CopyStep(w, imp, rets, i, st);
      hide CollectRets, CheckRet;
      if Passes(w, imp, rets, st0, i) {
        var v := Result(rets, st0, i).value;
        ResultsStep(w, imp, rets, st0, i);
        assert below + Results(w, imp, rets, st0, i) + [v] == below + Results(w, imp, rets, st0, i + 1);
        SetTwice(st0, Under(st0), below + Results(w, imp, rets, st0, i), below + Results(w, imp, rets, st0, i + 1));
        CopiesFrom(w, imp, rets, i + 1, st0, PushOn(st, Under(st), v));
      }
    }
  }

  /** Results are copied to the scope below, in the order of the signature, exactly if
      each is there and passes its check; `used` of the function's own values went. */
  lemma RetsCopied(w: World, imp: Imp, rets: seq<Ret>, st: State)
    requires Top(st) < |st.heap| && Under(st) < |st.heap| && Top(st) != Under(st)
    ensures var r := CollectRets(w, imp, rets, 0, 0, st);
            && (r.ok <==> forall j :: 0 <= j < |rets| ==> Passes(w, imp, rets, st, j))
            && (r.ok ==> r.used == PosCount(rets, |rets|)
                         && r.st == SetStack(st, Under(st),
                                             Obj(st, Under(st)).stack + Results(w, imp, rets, st, |rets|)))
  {
    var below := Obj(st, Under(st)).stack;
    assert below + Results(w, imp, rets, st, 0) == below;
    assert SetStack(st, Under(st), below).heap == st.heap;
    CopiesFrom(w, imp, rets, 0, st, st);
  }

  // ---- stack literals and variables ----------------------------------------

  /** Whatever a stack literal's body leaves on its own stack becomes one value that
      holds it in order; if the body throws, it is left one by one. */
  lemma StackLiteral(w: World, b: Bin, fuel: nat, body: seq<Node>, st: State, r: State)
    requires st.errors == [] && EvalSeq(w, b, fuel, body, EnterGroup(st)) == Some(r)
    requires |r.scopes| >= 2 && Top(r) < |r.heap| && Under(r) < |r.heap| && Top(r) != Under(r)
    ensures var (x, below) := (EvalNode(w, b, fuel, NStack(body), st), Under(r));
            && x.Some? && x.value.scopes == r.scopes[..|r.scopes| - 1]
            && Obj(x.value, below).stack == Obj(r, below).stack + if r.errors == [] then [StackV(TopStack(r))]
                else TopStack(r)
  {
    hide EvalSeq, EnterGroup, End;
    var r1 := if r.errors == [] then Stash(r) else r;
    assert Obj(r1, Under(r)).stack == Obj(r, Under(r)).stack;
    EndMoves(r1);
  }

  lemma SetTwice(st: State, id: nat, s: seq<Value>, t: seq<Value>)
    ensures SetStack(SetStack(st, id, s), id, t) == SetStack(st, id, t)
  {
    if id < |st.heap| {
      var h := st.heap[id := st.heap[id].(stack := s)];
      assert h[id := h[id].(stack := t)] == st.heap[id := st.heap[id].(stack := t)];
    }
  }

  /** A variable gives back what was put into it, if it has the asked type, and leaves
      other names alone. */
  lemma PutThenGet(w: World, st: State, id: Sym, ty: Option<TypeId>, other: Sym)
    requires TopStack(st) != [] && Top(st) < |st.heap|
    ensures var (r, v) := (DoPutVar(w, st, id, ty), TopStack(st)[|TopStack(st)| - 1]);
            && (if ty.Some? && !w.isA(v, ty.value) then r.errors == st.errors + [Text("Expected type")]
                else r.errors == st.errors && TopStack(DoGetVar(r, id)) == TopStack(st))
            && TopStack(r) == TopStack(st)[..|TopStack(st)| - 1] && r.scopes == st.scopes
            && (r.errors != st.errors || other != id ==>
                  (other in Obj(r, Top(r)).vars <==> other in Obj(st, Top(st)).vars)
                  && (other in Obj(st, Top(st)).vars ==> Obj(r, Top(r)).vars[other] == Obj(st, Top(st)).vars[other]))
  {
    var s := TopStack(st);
    var v := s[|s| - 1];
    var r := DoPutVar(w, st, id, ty);
    assert s[..|s| - 1] + [v] == s;
    if !(ty.Some? && !w.isA(v, ty.value)) { assert GetVar(r, Top(r), id) == Some(v); }
  }

  // ---- a whole call --------------------------------------------------------

  /** The state in which a function without body returns. */
  function Filled(w: World, imp: Imp, st: State): State
    requires imp in w.imps
  {
    DoPutArgs(w, EnterFn(w, st, imp), imp)
  }

  /** Nothing but the return is left to do in an empty body. */
  lemma EmptyBody(w: World, b: Bin, fuel: nat, imp: Imp, st: State)
    requires imp in w.imps && imp in b.fns && b.fns[imp] == [] && st.errors == []
    requires DoReturn(w, Filled(w, imp, st), imp).Leave?
    ensures RunTarget(Tree, w, b, fuel, BodyOf(imp), st) == Some(DoReturn(w, Filled(w, imp, st), imp).st)
  {
    hide DoReturn;
    var st1 := EnterFn(w, st, imp);
    var st2 := DoPutArgs(w, st1, imp);
    assert st1.errors == [] && st2.errors == [];
    hide EnterFn, DoPutArgs;
    assert EvalSeq(w, b, fuel, b.fns[imp], st2) == Some(st2);
    assert FnRounds(w, b, fuel, imp, st1) == Some(DoReturn(w, st2, imp).st);
    assert FnTree(w, b, fuel, imp, st) == FnRounds(w, b, fuel, imp, st1);
  }

  /** When all results pass and none of the function's values is left over, the results
      are on the scope below and the frame is gone. */
  lemma ReturnsAll(w: World, imp: Imp, st: State)
    requires imp in w.imps && TopCall(st).recalls == 0
    requires Top(st) < |st.heap| && Under(st) < |st.heap| && Top(st) != Under(st)
    requires forall i :: 0 <= i < |w.imps[imp].rets| ==> Passes(w, imp, w.imps[imp].rets, st, i)
    requires PosCount(w.imps[imp].rets, |w.imps[imp].rets|) == |TopStack(st)|
    ensures var rets := w.imps[imp].rets;
            var below := Obj(st, Under(st)).stack + Results(w, imp, rets, st, |rets|);
            DoReturn(w, st, imp) == Leave(LeaveFn(SetStack(SetStack(st, Under(st), below), Top(st), [])))
  {
    hide CollectRets, LeaveFn, Passes, Results;
    RetsCopied(w, imp, w.imps[imp].rets, st);
  }

  lemma EntersFresh(w: World, imp: Imp, st: State)
    requires imp in w.imps && st.calls != []
    ensures var r := EnterFn(w, st, imp);
            && r.scopes == st.scopes + [|st.heap|] && r.libs == st.libs + [w.imps[imp].lib] && r.errors == st.errors
            && |r.heap| == |st.heap| + 1 && r.heap[..|st.heap|] == st.heap && Obj(r, |st.heap|).stack == []
            && |r.calls| == |st.calls| && r.calls[..|st.calls| - 1] == st.calls[..|st.calls| - 1]
            && TopCall(r).args == TopCall(st).args && TopCall(r).recalls == TopCall(st).recalls
            && TopCall(r).scope == |st.heap| && TopCall(r).imp == TopCall(st).imp
  {
  }

  /** A function returns exactly if each result is there and passes its check and none of
      its values is left over; then the results are on the scope below and its frame is
      gone.  Otherwise there is one error more and scope, lib and call stay. */
  lemma ReturnsIff(w: World, imp: Imp, st: State)
    requires imp in w.imps && TopCall(st).recalls == 0 && st.calls != [] && |st.libs| >= 2 && |st.scopes| >= 2
    requires Top(st) < |st.heap| && Under(st) < |st.heap| && Top(st) != Under(st)
    ensures var (rets, r, t, u) := (w.imps[imp].rets, DoReturn(w, st, imp).st, Top(st), Under(st));
            var fine := (forall i :: 0 <= i < |rets| ==> Passes(w, imp, rets, st, i))
                        && PosCount(rets, |rets|) == |TopStack(st)|;
            && DoReturn(w, st, imp).Leave?
            && (fine ==>
                  && r.scopes == st.scopes[..|st.scopes| - 1] && r.libs == st.libs[..|st.libs| - 1]
                  && r.calls == st.calls[..|st.calls| - 1] && r.errors == st.errors
                  && Obj(r, u).stack == Obj(st, u).stack + Results(w, imp, rets, st, |rets|) && Obj(r, t).stack == [])
            && (!fine ==>
                  r.scopes == st.scopes && r.libs == st.libs && r.calls == st.calls
                  && |r.errors| == |st.errors| + 1)
  {
    hide CollectRets, LeaveFn, Passes, Results, End;
    var rets := w.imps[imp].rets;
    RetsCopied(w, imp, rets, st);
    PassesEnough(w, imp, rets, st, |rets|);
    var c := CollectRets(w, imp, rets, 0, 0, st);
    if c.ok && c.used >= |TopStack(c.st)| {
      ReturnsAll(w, imp, st);
      LeavesEmpty(SetStack(c.st, Top(c.st), []));
    }
  }

  /** Results that pass find their values. */
  lemma {:induction false} PassesEnough(w: World, imp: Imp, rets: seq<Ret>, st: State, n: nat)
    requires n <= |rets|
    ensures (forall i :: 0 <= i < n ==> Passes(w, imp, rets, st, i)) ==> PosCount(rets, n) <= |TopStack(st)|
  {
    if n > 0 {
      PassesEnough(w, imp, rets, st, n - 1);
      if forall i :: 0 <= i < n ==> Passes(w, imp, rets, st, i) { assert Passes(w, imp, rets, st, n - 1); }
    }
  }

  lemma {:induction false} AllPositional(rets: seq<Ret>, n: nat)
    requires n <= |rets| && forall i :: 0 <= i < |rets| ==> rets[i].PosRet?
    ensures PosCount(rets, n) == n
  {
    if n > 0 { AllPositional(rets, n - 1); }
  }

  /** A function with as many results as values on its stack, all by position, gives its
      stack as it is to its caller, if the scope is unchecked or each value passes. */
  lemma PlainReturn(w: World, imp: Imp, st: State)
    requires imp in w.imps && TopCall(st).recalls == 0 && st.calls != [] && |st.libs| >= 2 && |st.scopes| >= 2
    requires Top(st) < |st.heap| && Under(st) < |st.heap| && Top(st) != Under(st)
    requires var rets := w.imps[imp].rets;
             |rets| == |TopStack(st)| && forall i :: 0 <= i < |rets| ==> rets[i].PosRet?
    ensures var (r, u) := (DoReturn(w, st, imp).st, Under(st));
            if forall i :: 0 <= i < |TopStack(st)| ==>
                 !st.heap[Top(st)].safe || w.retIs(imp, i, TopCall(st).args, TopStack(st)[i])
            then
              && r.errors == st.errors && r.scopes == st.scopes[..|st.scopes| - 1]
              && Obj(r, u).stack == Obj(st, u).stack + TopStack(st)
            else |r.errors| == |st.errors| + 1 && r.scopes == st.scopes
  {
    var rets := w.imps[imp].rets;
    forall i | 0 <= i < |rets|
      ensures Result(rets, st, i) == Some(TopStack(st)[i])
              && (Passes(w, imp, rets, st, i) <==>
                  !st.heap[Top(st)].safe || w.retIs(imp, i, TopCall(st).args, TopStack(st)[i])) {
      AllPositional(rets, i);
    }
    AllPositional(rets, |rets|);
    ReturnsIff(w, imp, st);
    hide DoReturn, Passes, Result;
    if forall i :: 0 <= i < |rets| ==> Passes(w, imp, rets, st, i) {
      assert Results(w, imp, rets, st, |rets|) == TopStack(st);
    }
  }

  lemma LeavesEmpty(st: State)
    requires |st.scopes| >= 2 && |st.libs| >= 2 && st.calls != [] && TopStack(st) == []
    ensures LeaveFn(st) == st.(scopes := st.scopes[..|st.scopes| - 1], libs := st.libs[..|st.libs| - 1],
              calls := st.calls[..|st.calls| - 1])
  {
  }

  /** Arguments and results of this signature fit together: each result is there and
      passes, and every positional argument is given back. */
  predicate Fits(w: World, imp: Imp, st: State)
    requires imp in w.imps
  {
    var (rets, r) := (w.imps[imp].rets, Filled(w, imp, st));
    && (forall i :: 0 <= i < |rets| ==> Passes(w, imp, rets, r, i))
    && PosCount(rets, |rets|) == |TopStack(r)|
  }

  /** The call record of `imp`, with the arguments taken off the stack. */
  function Called(w: World, imp: Imp, st: State): State
    requires imp in w.imps
  {
    PopArgs(st.(calls := st.calls + [Call(imp, Top(st), [], 0)]), |w.imps[imp].args|)
  }

  /** A function without body does to the caller's stack what its signature says: the
      arguments are replaced by the results, whichever way either are named, and all
      else is as it was.  With results in another order this is how values are swapped. */
  lemma EmptyFunctionRearranges(w: World, b: Bin, fuel: nat, imp: Imp, st: State)
    requires fuel > 0 && imp in w.imps && imp in b.fns && b.fns[imp] == [] && st.errors == [] && |st.calls| < MAX_CALLS
    requires st.scopes != [] && Top(st) < |st.heap| && st.libs != []
    requires w.imps[imp].prim.None? && |w.imps[imp].args| <= |TopStack(st)| && Fits(w, imp, Called(w, imp, st))
    ensures var (r, rets) := (CallImp(Tree, w, b, fuel, imp, Top(st), st), w.imps[imp].rets);
            && r.Some? && r.value.scopes == st.scopes && r.value.libs == st.libs && r.value.calls == st.calls
            && r.value.errors == []
            && TopStack(r.value) == TopStack(st)[..|TopStack(st)| - |w.imps[imp].args|]
                + Results(w, imp, rets, Filled(w, imp, Called(w, imp, st)), |rets|)
  {
    hide RunTarget, PopArgs, Fits, Filled;
    var (n, st1) := (|w.imps[imp].args|, st.(calls := st.calls + [Call(imp, Top(st), [], 0)]));
    ArgsKeep(st1, n);
    EmptyBodyRuns(w, b, fuel - 1, imp, Called(w, imp, st), Top(st));
  }

  lemma EmptyBodyRuns(w: World, b: Bin, fuel: nat, imp: Imp, st: State, below: nat)
    requires imp in w.imps && imp in b.fns && b.fns[imp] == [] && st.errors == [] && st.calls != []
    requires st.scopes != [] && below == Top(st) < |st.heap| && st.libs != [] && TopCall(st).recalls == 0
    requires |TopCall(st).args| == |w.imps[imp].args| && Fits(w, imp, st)
    ensures var (r, rets) := (RunTarget(Tree, w, b, fuel, BodyOf(imp), st), w.imps[imp].rets);
            && r.Some? && Obj(r.value, below).stack
                == Obj(st, below).stack + Results(w, imp, rets, Filled(w, imp, st), |rets|)
            && r.value.scopes == st.scopes
            && r.value.libs == st.libs && r.value.calls == st.calls[..|st.calls| - 1] && r.value.errors == []
  {
    hide PutArgs, CollectRets, DoReturn, EnterFn, LeaveFn, RunTarget, Passes, Results, Positional, LastNamed;
    var (vals, rets) := (TopCall(st).args, w.imps[imp].rets);
    EntersFresh(w, imp, st);
    var st3 := EnterFn(w, st, imp);
    ArgsPut(st3, w.imps[imp].args, vals);
    var st4 := Filled(w, imp, st);
    assert st4 == PutArgs(st3, w.imps[imp].args, vals);
    ReturnsAll(w, imp, st4);
    EmptyBody(w, b, fuel, imp, st);
    var st5 := SetStack(SetStack(st4, Under(st4), Obj(st4, Under(st4)).stack + Results(w, imp, rets, st4, |rets|)),
                        Top(st4), []);
    LeavesEmpty(st5);
    assert Obj(st4, below).stack == Obj(st, below).stack;
  }

  lemma ArgsKeep(st: State, nargs: nat)
    requires st.calls != [] && TopCall(st).scope < |st.heap| && nargs <= |Obj(st, TopCall(st).scope).stack|
    requires nargs == 0 ==> TopCall(st).args == []
    ensures var (r, s) := (PopArgs(st, nargs), Obj(st, TopCall(st).scope).stack);
            && r == st.(heap := r.heap, calls := r.calls) && |r.heap| == |st.heap| && |r.calls| == |st.calls|
            && r.calls[..|st.calls| - 1] == st.calls[..|st.calls| - 1]
            && |TopCall(r).args| == nargs && TopCall(r).recalls == TopCall(st).recalls
            && Obj(r, TopCall(st).scope).stack == s[..|s| - nargs]
  {
    var s := Obj(st, TopCall(st).scope).stack;
    assert s[..|s| - 0] == s;
  }
}
