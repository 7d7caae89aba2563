/** Whatever runs, a scope keeps its parent and a function the scope it was defined in.
    So a lambda or function called much later, from wherever, looks its names up where
    it was made. */
module Lexical {
  import opened Basics
  import opened VmState
  import opened Vm
  import opened Compiler
  import opened TailSwitch
  import opened TailRuns
  import opened Values
  import opened Variables

  ghost predicate Rooted(st: State, r: State) {
    && |st.heap| <= |r.heap|
    && (forall i :: 0 <= i < |st.heap| ==> r.heap[i].parent == st.heap[i].parent)
    && (forall imp :: imp in st.home ==> imp in r.home && r.home[imp] == st.home[imp])
  }

  /** Primitives and bodies in other bins move no scope either. */
  ghost predicate Static(w: World) {
    && (forall p, hist: seq<State> :: hist != [] ==> StaticStep(w, p, hist))
    && (forall t, st: State :: StaticApart(w, t, st))
  }

  ghost predicate StaticStep(w: World, p: Prim, hist: seq<State>)
    requires hist != []
  {
    Rooted(hist[|hist| - 1], w.prim(p, hist).st)
  }

  ghost predicate StaticApart(w: World, t: Target, st: State) {
    var r := w.apart(t, st);
    r.Some? ==> Rooted(st, r.value)
  }

  ghost predicate Stays(st: State, r: Option<State>) {
    r.Some? ==> Rooted(st, r.value)
  }

  lemma Trans(st: State, m: State, r: State)
    requires Rooted(st, m) && Rooted(m, r)
    ensures Rooted(st, r)
  {
  }

  lemma Then(st: State, m: State, r: Option<State>)
    requires Rooted(st, m) && Stays(m, r)
    ensures Stays(st, r)
  {
    if r.Some? { Trans(st, m, r.value); }
  }

  // ---- small steps ---------------------------------------------------------

  lemma SameHeap(st: State, r: State, s: State)
    requires Rooted(st, r) && s.heap == r.heap && s.home == r.home
    ensures Rooted(st, s)
  {
  }

  lemma Self(st: State)
    ensures Rooted(st, st)
  {
  }

  lemma SetStep(st: State, r: State, id: nat, s: seq<Value>)
    requires Rooted(st, r)
    ensures Rooted(st, SetStack(r, id, s))
  {
  }

  lemma EndStep(st: State)
    ensures Rooted(st, End(st))
  {
    hide Rooted, SetStack;
    Self(st);
    SameHeap(st, st, Error(st, "No open scopes"));
    if |st.scopes| > 1 {
      var st1 := st.(scopes := st.scopes[..|st.scopes| - 1]);
      var s := Obj(st1, Top(st1)).stack + TopStack(st);
      SameHeap(st, st, st1);
      SetStep(st, st1, Top(st1), s);
      SetStep(st, SetStack(st1, Top(st1), s), Top(st), []);
    }
  }

  lemma StackSteps(st: State)
    ensures Rooted(st, st) && Rooted(st, Stash(st)) && Rooted(st, End(st)) && Rooted(st, LeaveFn(st))
  {
    hide Rooted, SetStack, End;
    Self(st);
    SetStep(st, st, Top(st), [StackV(TopStack(st))]);
    EndStep(st);
    SameHeap(st, End(st), LeaveFn(st));
  }

  lemma PushStep(st: State, id: nat, v: Value)
    ensures Rooted(st, PushOn(st, id, v))
  {
  }

  lemma BeginStep(st: State, parent: Option<nat>)
    ensures Rooted(st, Begin(st, parent))
  {
  }

  lemma LambdaStep(st: State, at: nat)
    ensures Rooted(st, PushLambda(st, at))
  {
  }

  lemma FuncdefStep(st: State, imp: Imp)
    ensures Rooted(st, DoFuncdef(st, imp))
  {
  }

  lemma TakeStep(st: State, nargs: nat)
    ensures Rooted(st, PopArgs(st, nargs))
  {
    hide Rooted, SetStack;
    Self(st);
    SameHeap(st, st, Error(st, "Not enough args to call"));
    var (c, s) := (TopCall(st), Obj(st, TopCall(st).scope).stack);
    if 0 < nargs <= |s| {
      var st1 := SetStack(st, c.scope, s[..|s| - nargs]);
      SetStep(st, st, c.scope, s[..|s| - nargs]);
      SameHeap(st, st1, PopArgs(st, nargs));
    }
  }

  lemma EnterStep(lib: Lib, home: nat, scope: nat, st: State)
    ensures Rooted(st, EnterLambda(lib, home, scope, st))
  {
    hide Rooted, SetStack;
    Self(st);
    var st1 := if InLib(st, lib) then st else PushLib(st, lib);
    var st2 := PushScope(st1, home);
    SameHeap(st, st, st1);
    SameHeap(st, st, st2);
    var s := Obj(st2, home).stack + Obj(st2, scope).stack;
    SetStep(st, st2, home, s);
    SetStep(st, SetStack(st2, home, s), scope, []);
  }

  lemma LeaveStep(st: State, popLib: bool, popScope: bool, r: State)
    requires Rooted(st, r)
    ensures Rooted(st, LeaveLambda(popLib, popScope, r))
  {
    hide Rooted, End;
    EndStep(r);
    Trans(st, r, End(r));
    SameHeap(st, if popScope then End(r) else r, LeaveLambda(popLib, popScope, r));
  }

  lemma VarSteps(w: World, st: State, id: Sym, ty: Option<TypeId>)
    ensures Rooted(st, DoGetVar(st, id)) && Rooted(st, DoPutVar(w, st, id, ty))
  {
    hide GetVar;
  }

  lemma {:induction false} ArgsStep(st: State, args: seq<Arg>, vals: seq<Value>)
    ensures Rooted(st, PutArgs(st, args, vals))
    decreases |args|
  {
    if args != [] && vals != [] {
      var st1 := match args[0]
        case ConstArg => st
        case NamedArg(id) => SetVar(st, Top(st), id, vals[0])
        case PosArg => Push(st, vals[0]);
      ArgsStep(st1, args[1..], vals[1..]);
    }
  }

  lemma FnSteps(w: World, st: State, imp: Imp)
    requires imp in w.imps
    ensures Rooted(st, EnterFn(w, st, imp)) && Rooted(st, DoPutArgs(w, st, imp))
  {
    hide Rooted, Begin;
    var parent := if imp in st.home then Some(st.home[imp]) else None;
    BeginStep(st, parent);
    SameHeap(st, Begin(st, parent), EnterFn(w, st, imp));
    ArgsStep(st, w.imps[imp].args, TopCall(st).args);
  }

  lemma {:induction false} CollectStep(w: World, imp: Imp, rets: seq<Ret>, ri: nat, used: nat, st: State)
    requires ri <= |rets|
    ensures Rooted(st, CollectRets(w, imp, rets, ri, used, st).st)
    decreases |rets| - ri
  {
    hide GetVar, CheckRet;
    if ri < |rets| {
      match rets[ri]
      case ConstRet(v) =>
        CollectStep(w, imp, rets, ri + 1, used, PushOn(st, Under(st), v));
      case NamedRet(id) =>
        var v := GetVar(st, Top(st), id);
        if v.Some? { CheckStep(w, imp, rets, ri, used, st, v.value); }
      case PosRet =>
        if used < |TopStack(st)| { CheckStep(w, imp, rets, ri, used + 1, st, TopStack(st)[used]); }
    }
  }

  lemma {:induction false} CheckStep(w: World, imp: Imp, rets: seq<Ret>, ri: nat, used: nat, st: State, v: Value)
    requires ri < |rets|
    ensures Rooted(st, CheckRet(w, imp, rets, ri, used, st, v).st)
    decreases |rets| - ri, 0
  {
    hide CollectRets;
    CollectStep(w, imp, rets, ri + 1, used, PushOn(st, Under(st), v));
  }

  lemma ReturnSteps(w: World, st: State, imp: Imp)
    requires imp in w.imps
    ensures Rooted(st, DoReturn(w, st, imp).st)
  {
    hide CollectRets, LeaveFn, RecallFails, Rooted, PopArgs, SetStack;
    Self(st);
    var c := TopCall(st);
    if c.recalls > 0 {
      var st1 := SetTopCall(st, c.(recalls := c.recalls - 1));
      SameHeap(st, st, st1);
      SameHeap(st, st1, Part(Bad(Error(st1, "Recall not applicable"))));
      TakeStep(st1, |w.imps[imp].args|);
      Trans(st, st1, PopArgs(st1, |w.imps[imp].args|));
    } else {
      var r := CollectRets(w, imp, w.imps[imp].rets, 0, 0, st);
      CollectStep(w, imp, w.imps[imp].rets, 0, 0, st);
      SameHeap(st, r.st, Bad(r.st));
      SameHeap(st, r.st, Bad(Error(r.st, "Stack not empty on return")));
      var st2 := SetStack(r.st, Top(r.st), []);
      SetStep(st, r.st, Top(r.st), []);
      StackSteps(st2);
      Trans(st, st2, LeaveFn(st2));
    }
  }

  lemma ErrorSteps(w: World, st: State)
    ensures Rooted(st, DoElse(w, st).st)
    ensures st.errors != [] ==> Rooted(st, CatchError(st))
  {
  }

  // ---- calls ---------------------------------------------------------------

  lemma {:induction false} ImpStays(w: World, b: Bin, fuel: nat, imp: Imp, scope: nat, st: State)
    requires Static(w)
    ensures Stays(st, CallImp(Tree, w, b, fuel, imp, scope, st))
    decreases fuel, 0, 0, 0
  {
    hide RunTarget, RunPrim, Static, Rooted, PopArgs;
    Self(st);
    if fuel > 0 && imp in w.imps {
      SameHeap(st, st, Error(st, "Max calls exceeded"));
      var info := w.imps[imp];
      var st1 := st.(calls := st.calls + [Call(imp, scope, [], 0)]);
      var st2 := PopArgs(st1, |info.args|);
      SameHeap(st, st, st1);
      TakeStep(st1, |info.args|);
      Trans(st, st1, st2);
      SameHeap(st, st2, PopCall(st2));
      match info.prim
      case None =>
        TargetStays(w, b, fuel - 1, BodyOf(imp), st2);
        Then(st, st2, RunTarget(Tree, w, b, fuel - 1, BodyOf(imp), st2));
      case Some(p) =>
        var same := InLib(st2, info.lib);
        var st3 := if same then st2 else PushLib(st2, info.lib);
        SameHeap(st, st2, st3);
        PrimStays(w, b, fuel - 1, p, [st3]);
        var r := RunPrim(Tree, w, b, fuel - 1, p, [st3]);
        Then(st, st3, r);
        if r.Some? { SameHeap(st, r.value, PopCall(if same then r.value else PopLib(r.value))); }
    }
  }

  lemma {:induction false} PrimStays(w: World, b: Bin, fuel: nat, p: Prim, hist: seq<State>)
    requires Static(w) && hist != []
    ensures Stays(hist[|hist| - 1], RunPrim(Tree, w, b, fuel, p, hist))
    decreases fuel, 0, 0, 0
  {
    assert StaticStep(w, p, hist);
    hide CallValue, Static, Rooted;
    var was := hist[|hist| - 1];
    SameHeap(was, w.prim(p, hist).st, Carry(hist, w.prim(p, hist).st));
    match w.prim(p, hist)
    case Done(st) =>
    case Ask(v, scope, st) =>
      if fuel > 0 {
        ValueStays(w, b, fuel - 1, v, scope, Carry(hist, st));
        var r := CallValue(Tree, w, b, fuel - 1, v, scope, Carry(hist, st));
        Then(was, Carry(hist, st), r);
        if r.Some? {
          PrimStays(w, b, fuel - 1, p, hist + [r.value]);
          Then(was, r.value, RunPrim(Tree, w, b, fuel - 1, p, hist + [r.value]));
        }
      }
  }

  lemma {:induction false} ValueStays(w: World, b: Bin, fuel: nat, v: Value, scope: nat, st: State)
    requires Static(w)
    ensures Stays(st, CallValue(Tree, w, b, fuel, v, scope, st))
    decreases fuel, 2, 0, 0
  {
    hide RunTarget, CallImp, Static, Rooted, EnterLambda, LeaveLambda, PushOn;
    Self(st);
    SameHeap(st, st, Error(st, "Func not applicable"));
    PushStep(st, scope, v);
    match v
    case LambdaV(at, lib, home) =>
      if fuel > 0 {
        var st1 := EnterLambda(lib, home, scope, st);
        EnterStep(lib, home, scope, st);
        TargetStays(w, b, fuel - 1, LambdaAt(at), st1);
        var r := RunTarget(Tree, w, b, fuel - 1, LambdaAt(at), st1);
        Then(st, st1, r);
        if r.Some? { LeaveStep(st, !InLib(st, lib), scope != home, r.value); }
      }
    case FimpV(imp) => ImpStays(w, b, fuel, imp, scope, st);
    case FuncV(func) =>
      var imp := w.best(func, Obj(st, scope).stack);
      if imp.Some? { ImpStays(w, b, fuel, imp.value, scope, st); }
    case _ =>
  }

  lemma FuncallStays(w: World, b: Bin, fuel: nat, site: nat, func: Func, imp0: Option<Imp>, st: State)
    requires Static(w)
    ensures Stays(st, Funcall(Tree, w, b, fuel, site, func, imp0, st))
    decreases fuel, 2, 0, 0
  {
    hide CallImp, Static, Rooted;
    var (st1, imp) := Resolve(w, site, func, imp0, Met(w, site, imp0, st));
    Self(st);
    SameHeap(st, st, st1);
    SameHeap(st, st, Error(st1, "Func not applicable"));
    if imp.Some? {
      ImpStays(w, b, fuel, imp.value, Top(st1), st1);
      Then(st, st1, CallImp(Tree, w, b, fuel, imp.value, Top(st1), st1));
    }
  }

  lemma ApartStays(w: World, t: Target, st: State)
    requires Static(w)
    ensures Stays(st, RunApart(w, t, st))
  {
    assert StaticApart(w, t, st);
  }

  lemma {:induction false} TargetStays(w: World, b: Bin, fuel: nat, t: Target, st: State)
    requires Static(w)
    ensures Stays(st, RunTarget(Tree, w, b, fuel, t, st))
    decreases fuel, 6, 0, 0
  {
    ApartStays(w, t, st);
    hide EvalSeq, FnTree, Static, Rooted, RunApart;
    match t
    case BodyOf(imp) => if imp in b.fns && imp in w.imps { FnStays(w, b, fuel, imp, st); }
    case LambdaAt(at) => if at in b.lams { SeqStays(w, b, fuel, b.lams[at], st); }
  }

  lemma {:induction false} FnStays(w: World, b: Bin, fuel: nat, imp: Imp, st: State)
    requires Static(w) && imp in w.imps && imp in b.fns
    ensures Stays(st, FnTree(w, b, fuel, imp, st))
    decreases fuel, 5, 0, 0
  {
    hide FnRounds, Static, EnterFn, Rooted;
    Self(st);
    if st.errors == [] {
      FnSteps(w, st, imp);
      RoundsStay(w, b, fuel, imp, EnterFn(w, st, imp));
      Then(st, EnterFn(w, st, imp), FnRounds(w, b, fuel, imp, EnterFn(w, st, imp)));
    }
  }

  lemma {:induction false} RoundsStay(w: World, b: Bin, fuel: nat, imp: Imp, st: State)
    requires Static(w) && imp in w.imps && imp in b.fns
    ensures Stays(st, FnRounds(w, b, fuel, imp, st))
    decreases fuel, 4, 0, 0
  {
    hide EvalSeq, DoReturn, DoPutArgs, LeaveFn, Static, Rooted;
    var st1 := if st.errors == [] then DoPutArgs(w, st, imp) else st;
    FnSteps(w, st, imp);
    Self(st);
    SeqStays(w, b, fuel, b.fns[imp], st1);
    var r := EvalSeq(w, b, fuel, b.fns[imp], st1);
    Then(st, st1, r);
    if r.Some? {
      ReturnSteps(w, r.value, imp);
      StackSteps(r.value);
      var st2 := if r.value.errors != [] then LeaveFn(r.value) else DoReturn(w, r.value, imp).st;
      Trans(st, r.value, st2);
      if r.value.errors == [] && DoReturn(w, r.value, imp).Again? && fuel > 0 {
        RoundsStay(w, b, fuel - 1, imp, st2);
        Then(st, st2, FnRounds(w, b, fuel - 1, imp, st2));
      }
    }
  }

  // ---- tokens --------------------------------------------------------------

  lemma {:induction false} SeqStays(w: World, b: Bin, fuel: nat, ns: seq<Node>, st: State)
    requires Static(w)
    ensures Stays(st, EvalSeq(w, b, fuel, ns, st))
    decreases fuel, 3, ns, 0
  {
    hide EvalNode, Static;
    if ns != [] {
      NodeStays(w, b, fuel, ns[0], st);
      var r := EvalNode(w, b, fuel, ns[0], st);
      if r.Some? {
        SeqStays(w, b, fuel, ns[1..], r.value);
        Then(st, r.value, EvalSeq(w, b, fuel, ns[1..], r.value));
      }
    }
  }

  lemma {:induction false} NodeStays(w: World, b: Bin, fuel: nat, n: Node, st: State)
    requires Static(w)
    ensures Stays(st, EvalNode(w, b, fuel, n, st))
    decreases fuel, 3, n, 0
  {
    hide EvalSeq, EvalCases, Funcall, Static, Rooted, DoGetVar, DoPutVar, DoFuncdef, PushLambda, PushOn, End,
        EnterGroup;
    Self(st);
    match n
    case NPush(v) => PushStep(st, Top(st), v);
    case NLambda(at, body) => LambdaStep(st, at);
    case NFunc(def, inl) => FuncdefStep(st, def);
    case NGetVar(id) => VarSteps(w, st, id, None);
    case NPutVar(id, ty) => VarSteps(w, st, id, ty);
    case NGroup(body) => GroupStays(w, b, fuel, body, st);
    case NStack(body) => GroupStays(w, b, fuel, body, st);
    case NCall(site, func, imp, inl) => if st.errors == [] { FuncallStays(w, b, fuel, site, func, imp, st); }
    case NCatch(ty, body) => CatchStays(w, b, fuel, ty, body, st);
    case NSwitch(cases) => CasesStay(w, b, fuel, cases, st);
  }

  lemma {:induction false} GroupStays(w: World, b: Bin, fuel: nat, body: seq<Node>, st: State)
    requires Static(w)
    ensures Stays(st, EvalNode(w, b, fuel, NGroup(body), st)) && Stays(st, EvalNode(w, b, fuel, NStack(body), st))
    decreases fuel, 3, body, 1
  {
    hide EvalSeq, Static, Rooted, End, Begin, Stash;
    Self(st);
    BeginStep(st, Some(Top(st)));
    var st1 := EnterGroup(st);
    SeqStays(w, b, fuel, body, st1);
    var r := EvalSeq(w, b, fuel, body, st1);
    Then(st, st1, r);
    if r.Some? {
      StackSteps(r.value);
      StackSteps(Stash(r.value));
      Trans(st, r.value, End(r.value));
      Trans(st, r.value, Stash(r.value));
      Trans(st, Stash(r.value), End(Stash(r.value)));
    }
  }

  lemma {:induction false} CatchStays(w: World, b: Bin, fuel: nat, ty: Option<TypeId>, body: seq<Node>, st: State)
    requires Static(w)
    ensures Stays(st, EvalNode(w, b, fuel, NCatch(ty, body), st))
    decreases fuel, 3, body, 1
  {
    hide EvalSeq, Static, CatchError;
    ErrorSteps(w, st);
    if st.errors == [] {
      if ty.None? { SeqStays(w, b, fuel, body, st); }
    } else if ty.None? {
      SeqStays(w, b, fuel, body, DropError(st));
      var r := EvalSeq(w, b, fuel, body, DropError(st));
      if r.Some? {
        var st2 := Rethrow(r.value, st.errors[|st.errors| - 1]);
        SeqStays(w, b, fuel, body, st2);
        Then(st, st2, EvalSeq(w, b, fuel, body, st2));
      }
    } else if Catches(w, st, ty.value) {
      SeqStays(w, b, fuel, body, CatchError(st));
      Then(st, CatchError(st), EvalSeq(w, b, fuel, body, CatchError(st)));
    }
  }

  lemma {:induction false} CasesStay(w: World, b: Bin, fuel: nat, cs: seq<Case>, st: State)
    requires Static(w)
    ensures Stays(st, EvalCases(w, b, fuel, cs, st))
    decreases fuel, 3, cs, 0
  {
    hide EvalSeq, Static, DoElse, Rooted;
    Self(st);
    if cs != [] {
      SeqStays(w, b, fuel, cs[0].cond, st);
      var r := EvalSeq(w, b, fuel, cs[0].cond, st);
      if r.Some? {
        ErrorSteps(w, r.value);
        Self(r.value);
        var st1 := if r.value.errors != [] then r.value else DoElse(w, r.value).st;
        Trans(st, r.value, st1);
        SeqStays(w, b, fuel, cs[0].body, st1);
        Then(st, st1, EvalSeq(w, b, fuel, cs[0].body, st1));
        CasesStay(w, b, fuel, cs[1..], st1);
        Then(st, st1, EvalCases(w, b, fuel, cs[1..], st1));
      }
    }
  }

  // ---- what is found, much later -------------------------------------------

  /** A path outward stays one. */
  lemma PathStays(st: State, r: State, p: seq<nat>)
    requires Rooted(st, r) && Outward(st, p)
    ensures Outward(r, p)
  {
    forall k | 0 <= k < |p| - 1 ensures r.heap[p[k]].parent == Some(p[k + 1]) {
      assert st.heap[p[k]].parent == Some(p[k + 1]);
    }
  }

  /** In `r` a name means, used in `q[0]`, what the nearest of these scopes binds it to in
      `m`, and nothing if none does and they are all there are. */
  ghost predicate ReadsFrom(m: State, r: State, q: seq<nat>)
    requires Outward(m, q)
  {
    && (forall id, i: nat :: i < |q| && FirstWith(m, q, i, id) ==> GetVar(r, q[0], id) == Some(m.heap[q[i]].vars[id]))
    && (m.heap[q[|q| - 1]].parent.None? ==>
          forall id: Sym :: (forall k :: 0 <= k < |q| ==> id !in m.heap[q[k]].vars) ==> GetVar(r, q[0], id).None?)
  }

  lemma ReadsOutward(m: State, r: State, q: seq<nat>)
    requires Outward(m, q) && |r.heap| == |m.heap|
    requires forall i :: 0 <= i < |m.heap| ==>
               r.heap[i].vars == m.heap[i].vars && r.heap[i].parent == m.heap[i].parent
    ensures Outward(r, q) && ReadsFrom(m, r, q)
  {
    assert Outward(r, q);
    forall id: Sym, i: nat | i < |q| && FirstWith(m, q, i, id)
      ensures GetVar(r, q[0], id) == Some(m.heap[q[i]].vars[id]) {
      NearestBinding(r, q, id);
    }
    forall id: Sym | forall k :: 0 <= k < |q| ==> id !in m.heap[q[k]].vars
      ensures m.heap[q[|q| - 1]].parent.None? ==> GetVar(r, q[0], id).None? {
      NearestBinding(r, q, id);
    }
  }

  /** Making a lambda pushes a value with its address, the current lib and a new, empty
      scope inside the current one, checked if that one is. */
  lemma LambdaMade(st: State, at: nat, p: seq<nat>)
    requires Outward(st, p) && p[0] == Top(st) && st.scopes != []
    ensures var (r, home) := (PushLambda(st, at), |st.heap|);
            && r == st.(heap := r.heap) && |r.heap| == home + 1
            && (st.libs != [] ==> TopStack(r) == TopStack(st) + [LambdaV(at, st.libs[|st.libs| - 1], home)])
            && r.heap[home] == Scope(Some(Top(st)), [], map[], st.heap[Top(st)].safe)
            && Outward(r, [home] + p)
            && r.heap[..home] == st.heap[Top(st) := st.heap[Top(st)].(stack := TopStack(r))]
  {
  }

  /** A lambda called later, whatever ran in between and from whichever scope, reads its
      names in the scopes around the place where it was made, as they are by then. */
  lemma LambdaReadsWhereMade(w: World, b: Bin, fuel: nat, ns: seq<Node>, at: nat, st: State, m: State, p: seq<nat>,
                             lib: Lib, scope: nat)
    requires Static(w) && Outward(st, p) && p[0] == Top(st) && st.scopes != [] && scope != |st.heap|
    requires EvalSeq(w, b, fuel, ns, PushLambda(st, at)) == Some(m)
    ensures var (r, home) := (EnterLambda(lib, |st.heap|, scope, m), |st.heap|);
            Top(r) == home && Outward(m, [home] + p) && ReadsFrom(m, r, [home] + p)
  {
    LambdaMade(st, at, p);
    SeqStays(w, b, fuel, ns, PushLambda(st, at));
    PathStays(PushLambda(st, at), m, [|st.heap|] + p);
    EntersOver(lib, |st.heap|, scope, m);
    ReadsOutward(m, EnterLambda(lib, |st.heap|, scope, m), [|st.heap|] + p);
  }

  lemma EntersOver(lib: Lib, home: nat, scope: nat, st: State)
    requires scope != home
    ensures var r := EnterLambda(lib, home, scope, st);
            && Top(r) == home && |r.heap| == |st.heap|
            && forall i :: 0 <= i < |st.heap| ==>
                 r.heap[i].vars == st.heap[i].vars && r.heap[i].parent == st.heap[i].parent
  {
  }

  /** `{$id}` made in one place and called in another gives the value the name has where
      it was made, even if the caller's scopes bind it to something else. */
  lemma CalledLambdaReads(w: World, b: Bin, fuel: nat, ns: seq<Node>, at: nat, id: Sym, st: State, m: State,
                          p: seq<nat>, i: nat, lib: Lib)
    requires Static(w) && Outward(st, p) && p[0] == Top(st) && st.scopes != [] && fuel > 0
    requires at in b.lams && b.lams[at] == [NGetVar(id)]
    requires EvalSeq(w, b, fuel, ns, PushLambda(st, at)) == Some(m) && m.errors == []
    requires m.scopes != [] && Top(m) < |m.heap| && Top(m) != |st.heap| && Obj(m, |st.heap|).stack == []
    requires Outward(m, [|st.heap|] + p) && FirstWith(m, [|st.heap|] + p, i, id)
    ensures var x := CallLambda(Tree, w, b, fuel, at, lib, |st.heap|, Top(m), m);
            && x.Some? && TopStack(x.value) == TopStack(m) + [m.heap[([|st.heap|] + p)[i]].vars[id]]
            && x.value.errors == [] && x.value.scopes == m.scopes
  {
    var (home, q) := (|st.heap|, [|st.heap|] + p);
    LambdaReadsWhereMade(w, b, fuel, ns, at, st, m, p, lib, Top(m));
    assert ReadsFrom(m, EnterLambda(lib, home, Top(m), m), q) && q[0] == home && i < |q|;
    hide Outward, FirstWith, Static, EvalSeq, GetVar, EnterLambda, CallLambda;
    CallReads(w, b, fuel, at, id, lib, home, m, m.heap[q[i]].vars[id]);
  }

  lemma CallReads(w: World, b: Bin, fuel: nat, at: nat, id: Sym, lib: Lib, home: nat, m: State, v: Value)
    requires fuel > 0 && at in b.lams && b.lams[at] == [NGetVar(id)] && m.errors == []
    requires m.scopes != [] && Top(m) < |m.heap| && home < |m.heap| && Top(m) != home && Obj(m, home).stack == []
    requires GetVar(EnterLambda(lib, home, Top(m), m), home, id) == Some(v)
    ensures var x := CallLambda(Tree, w, b, fuel, at, lib, home, Top(m), m);
            x.Some? && TopStack(x.value) == TopStack(m) + [v] && x.value.errors == [] && x.value.scopes == m.scopes
  {
    hide EnterLambda, LeaveLambda, GetVar, RunTarget, PushOn;
    LambdaStacks(lib, home, m);
    var r := EnterLambda(lib, home, Top(m), m);
    LambdaBodyReads(w, b, fuel - 1, at, id, r, v);
    LambdaLeaves(lib, home, m, r, v);
  }

  lemma LambdaBodyReads(w: World, b: Bin, fuel: nat, at: nat, id: Sym, r: State, v: Value)
    requires at in b.lams && b.lams[at] == [NGetVar(id)] && r.errors == [] && GetVar(r, Top(r), id) == Some(v)
    ensures RunTarget(Tree, w, b, fuel, LambdaAt(at), r) == Some(Push(r, v))
  {
    hide GetVar, PushOn;
    RunOne(w, b, fuel, NGetVar(id), r);
  }

  lemma LambdaStacks(lib: Lib, home: nat, m: State)
    requires m.scopes != [] && Top(m) < |m.heap| && home < |m.heap| && Top(m) != home && Obj(m, home).stack == []
    ensures var r := EnterLambda(lib, home, Top(m), m);
            && r.scopes == m.scopes + [home] && r.errors == m.errors && |r.heap| == |m.heap|
            && Obj(r, home).stack == TopStack(m) && Obj(r, Top(m)).stack == []
  {
    EnterLambdaMoves(lib, home, m);
    hide SetStack;
  }

  lemma LambdaLeaves(lib: Lib, home: nat, m: State, r: State, v: Value)
    requires m.scopes != [] && Top(m) < |m.heap| == |r.heap| && home < |m.heap| && Top(m) != home
    requires r.scopes == m.scopes + [home] && Obj(r, home).stack == TopStack(m) && Obj(r, Top(m)).stack == []
    ensures var x := LeaveLambda(!InLib(m, lib), true, Push(r, v));
            TopStack(x) == TopStack(m) + [v] && x.errors == r.errors && x.scopes == m.scopes
  {
  }

  /** The first time a definition is run, with errors pending or not, decides where its
      function reads names; running it again changes nothing. */
  lemma DefinedOnce(w: World, b: Bin, fuel: nat, st: State, imp: Imp, inl: nat)
    ensures EvalNode(w, b, fuel, NFunc(imp, inl), st) == Some(DoFuncdef(st, imp))
    ensures var r := DoFuncdef(st, imp);
            && r == st.(home := r.home) && imp in r.home
            && r.home[imp] == (if imp in st.home then st.home[imp] else Top(st))
            && forall other :: other != imp ==> (other in r.home <==> other in st.home)
                                                && (other in st.home ==> r.home[other] == st.home[other])
  {
  }

  /** A function called later reads its names in the scopes around its definition; its
      own scope is new, and its lib is on top. */
  lemma FunctionReadsWhereDefined(w: World, b: Bin, fuel: nat, ns: seq<Node>, imp: Imp, st: State, m: State,
                                  p: seq<nat>)
    requires Static(w) && imp in w.imps && imp !in st.home && Outward(st, p) && p[0] == Top(st)
    requires EvalSeq(w, b, fuel, ns, DoFuncdef(st, imp)) == Some(m)
    ensures var (r, s) := (EnterFn(w, m, imp), |m.heap|);
            && Top(r) == s && |r.heap| == s + 1 && r.heap[s].vars == map[] && r.heap[s].stack == []
            && r.libs == m.libs + [w.imps[imp].lib] && Outward(r, [s] + p) && ReadsFrom(r, r, [s] + p)
            && r.heap[..s] == m.heap
  {
    SeqStays(w, b, fuel, ns, DoFuncdef(st, imp));
    PathStays(st, m, p);
    EntersFnOver(w, m, imp, p);
    hide EnterFn;
    ReadsOutward(EnterFn(w, m, imp), EnterFn(w, m, imp), [|m.heap|] + p);
  }

  lemma EntersFnOver(w: World, m: State, imp: Imp, p: seq<nat>)
    requires imp in w.imps && imp in m.home && Outward(m, p) && m.home[imp] == p[0]
    ensures var (r, s) := (EnterFn(w, m, imp), |m.heap|);
            && Top(r) == s && |r.heap| == s + 1 && r.heap[s].vars == map[] && r.heap[s].stack == []
            && r.libs == m.libs + [w.imps[imp].lib] && Outward(r, [s] + p) && r.heap[..s] == m.heap
  {
  }

  /** A function that no definition was run for, as those that libraries register, sees no
      variable but its own. */
  lemma NoHomeNoNames(w: World, st: State, imp: Imp, id: Sym)
    requires imp in w.imps && imp !in st.home
    ensures var (r, s) := (EnterFn(w, st, imp), |st.heap|);
            && Top(r) == s && |r.heap| == s + 1 && r.heap[s].parent == None && r.heap[s].stack == []
            && (st.scopes != [] ==> r.heap[s].safe == Obj(st, Top(st)).safe)
            && GetVar(r, s, id).None?
  {
    var r := EnterFn(w, st, imp);
    assert Outward(r, [|st.heap|]);
    NearestBinding(r, [|st.heap|], id);
  }

  /** Running compiled code moves no scope and no function either, so the same holds
      across the programs a VM runs one after another. */
  lemma CompiledCodeStays(w: World, toks: seq<Tok>, fuel: nat, st: State)
    requires Static(w) && TailSeq(w, toks, {}, false)
    ensures Stays(st, RunOps(w, Compile(w, PatchAll, toks).0, fuel, 0, -1, st))
  {
    var (b, ns) := Compile(w, PatchOwn, toks);
    TailProgramsRunAsTokens(w, toks, fuel, st);
    SeqStays(w, b, fuel, ns, st);
  }
}
