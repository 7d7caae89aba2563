/** Scopes, libs and call records: what runs leaves them as it found them, whether
    or not errors are thrown inside.  The one exception is return_eval, which gives
    up before popping when its own checks fail; the excess is exactly the number of
    times that happened. */
module Balance {
  import opened Basics
  import opened VmState
  import opened Vm
  import opened Compiler
  import opened CompilerProof
  import opened TailSwitch
  import opened TailRuns

  predicate SameFrame(c: Call, d: Call) {
    c.imp == d.imp && c.scope == d.scope
  }

  ghost predicate FramesUnder(x: seq<Call>, y: seq<Call>) {
    |x| <= |y| && forall i :: 0 <= i < |x| ==> SameFrame(x[i], y[i])
  }

  /** `r` has the stacks of `st` below, and above them the given numbers of entries
      plus one each per return check that failed in between. */
  ghost predicate Above(st: State, r: State, scopes: nat, libs: nat, calls: nat) {
    && st.badReturns <= r.badReturns
    && var k := r.badReturns - st.badReturns;
    && st.scopes <= r.scopes && |r.scopes| == |st.scopes| + scopes + k
    && st.libs <= r.libs && |r.libs| == |st.libs| + libs + k
    && FramesUnder(st.calls, r.calls) && |r.calls| == |st.calls| + calls + k
  }

  ghost predicate Level(st: State, r: Option<State>) {
    r.Some? ==> Above(st, r.value, 0, 0, 0)
  }

  /** The VM always has its root scope and root lib. */
  predicate Based(st: State) {
    st.scopes != [] && st.libs != []
  }

  lemma Self(st: State)
    ensures Above(st, st, 0, 0, 0)
  {
  }

  lemma Trans(st: State, m: State, r: State, scopes: nat, libs: nat, calls: nat)
    requires Above(st, m, scopes, libs, calls) && Above(m, r, 0, 0, 0)
    ensures Above(st, r, scopes, libs, calls)
  {
    forall i | 0 <= i < |st.calls| ensures SameFrame(st.calls[i], r.calls[i]) {
      assert SameFrame(st.calls[i], m.calls[i]) && SameFrame(m.calls[i], r.calls[i]);
    }
  }

  /** Only the three stacks and the history variable matter. */
  lemma Same(st: State, r: State, s: State, scopes: nat, libs: nat, calls: nat)
    requires Above(st, r, scopes, libs, calls)
    requires s.scopes == r.scopes && s.libs == r.libs && s.calls == r.calls && s.badReturns == r.badReturns
    ensures Above(st, s, scopes, libs, calls)
  {
  }

  lemma AboveEnd(st: State, r: State, scopes: nat, libs: nat, calls: nat)
    requires Based(st) && Above(st, r, scopes + 1, libs, calls)
    ensures Above(st, End(r), scopes, libs, calls)
  {
  }

  lemma AbovePopLib(st: State, r: State, scopes: nat, libs: nat, calls: nat)
    requires Based(st) && Above(st, r, scopes, libs + 1, calls)
    ensures Above(st, PopLib(r), scopes, libs, calls)
  {
  }

  lemma AbovePopCall(st: State, r: State, scopes: nat, libs: nat, calls: nat)
    requires Above(st, r, scopes, libs, calls + 1)
    ensures Above(st, PopCall(r), scopes, libs, calls)
  {
  }

  lemma AboveLeaveFn(st: State, r: State)
    requires Based(st) && Above(st, r, 1, 1, 1)
    ensures Above(st, LeaveFn(r), 0, 0, 0)
  {
    AboveEnd(st, r, 0, 1, 1);
    AbovePopLib(st, End(r), 0, 0, 1);
    AbovePopCall(st, PopLib(End(r)), 0, 0, 0);
  }

  lemma AboveSetCall(st: State, r: State, c: Call, scopes: nat, libs: nat, calls: nat)
    requires Above(st, r, scopes, libs, calls) && (calls > 0 || SameFrame(TopCall(r), c))
    ensures Above(st, SetTopCall(r, c), scopes, libs, calls)
  {
  }

  lemma AbovePopArgs(st: State, r: State, nargs: nat, scopes: nat, libs: nat, calls: nat)
    requires Above(st, r, scopes, libs, calls)
    ensures Above(st, PopArgs(r, nargs), scopes, libs, calls)
  {
    var c := TopCall(r);
    var s := Obj(r, c.scope).stack;
    if 0 < nargs <= |s| {
      var r1 := SetStack(r, c.scope, s[..|s| - nargs]);
      Same(st, r, r1, scopes, libs, calls);
      AboveSetCall(st, r1, c.(args := s[|s| - nargs..]), scopes, libs, calls);
    }
  }

  // ---- primitives ----------------------------------------------------------

  ghost predicate SameStacks(st: State, r: State) {
    r.scopes == st.scopes && r.libs == st.libs && FramesUnder(st.calls, r.calls) && |r.calls| == |st.calls|
  }

  /** Primitives leave the stacks alone and ask for calls only while no errors are
      pending; bodies in other bins do what those in this one are proved to do. */
  ghost predicate Polite(w: World) {
    && (forall p, hist: seq<State> :: hist != [] ==> PoliteStep(w, p, hist))
    && (forall t, st: State :: PoliteApart(w, t, st))
  }

  ghost predicate PoliteApart(w: World, t: Target, st: State) {
    var r := w.apart(t, st);
    r.Some? ==>
      match t
      case LambdaAt(_) => SameStacks(st, r.value)
      case BodyOf(_) => st.calls != [] ==> SameStacks(st.(calls := st.calls[..|st.calls| - 1]), r.value)
  }

  lemma ApartBalanced(w: World, t: Target, base: State, st: State, scopes: nat, libs: nat)
    requires Polite(w) && (if t.BodyOf? then Above(base, st, scopes, libs, 1) else Above(base, st, scopes, libs, 0))
    ensures var r := RunApart(w, t, st); r.Some? ==> Above(base, r.value, scopes, libs, 0)
  {
    assert PoliteApart(w, t, st);
    var r := RunApart(w, t, st);
    if r.Some? {
      var st1 := if t.BodyOf? then st.(calls := st.calls[..|st.calls| - 1]) else st;
      assert Above(base, st1, scopes, libs, 0);
      assert SameStacks(st1, r.value) && r.value.badReturns == st.badReturns;
      StacksKept(st1, r.value);
      hide SameStacks;
      Trans(base, st1, r.value, scopes, libs, 0);
    }
  }

  /** `recall` is such a primitive: it only counts, in one call record. */
  lemma RecallIsPolite(w: World, st: State)
    ensures SameStacks(st, Recalled(w, st))
    ensures |Recalled(w, st).calls| == |st.calls| && forall i :: 0 <= i < |st.calls| ==>
              Recalled(w, st).calls[i].recalls ==
                st.calls[i].recalls + if i == NearestBody(w, st.calls, |st.calls|) then 1 else 0
  {
  }

  ghost predicate PoliteStep(w: World, p: Prim, hist: seq<State>)
    requires hist != []
  {
    match w.prim(p, hist)
    case Done(st) => SameStacks(hist[|hist| - 1], st)
    case Ask(v, scope, st) => SameStacks(hist[|hist| - 1], st) && st.errors == []
  }

  lemma {:induction false} ImpBalanced(w: World, b: Bin, fuel: nat, imp: Imp, scope: nat, st: State)
    requires Polite(w) && Based(st) && st.errors == []
    ensures Level(st, CallImp(Tree, w, b, fuel, imp, scope, st))
    decreases fuel, 0, 0, 0
  {
    hide Above, RunTarget, RunPrim, PopArgs;
    Self(st);
    if fuel > 0 && imp in w.imps {
      if |st.calls| >= MAX_CALLS {
        Same(st, st, Error(st, "Max calls exceeded"), 0, 0, 0);
      } else {
        var info := w.imps[imp];
        var st1 := st.(calls := st.calls + [Call(imp, scope, [], 0)]);
        PushedCall(st, st1);
        AbovePopArgs(st, st1, |info.args|, 0, 0, 1);
        var st2 := PopArgs(st1, |info.args|);
        AbovePopCall(st, st2, 0, 0, 0);
        if |Obj(st1, scope).stack| >= |info.args| {
          ArgsPopped(st1, |info.args|);
          match info.prim
          case None => BodyBalanced(w, b, fuel - 1, imp, st, st2);
          case Some(p) =>
            var same := InLib(st2, info.lib);
            var st3 := if same then st2 else PushLib(st2, info.lib);
            PushedLib(st, st2, info.lib);
            PrimBalanced(w, b, fuel - 1, p, [st3], st, if same then 0 else 1);
            var r := RunPrim(Tree, w, b, fuel - 1, p, [st3]);
            if r.Some? {
              if !same { AbovePopLib(st, r.value, 0, 0, 1); }
              AbovePopCall(st, if same then r.value else PopLib(r.value), 0, 0, 0);
            }
        }
      }
    }
  }

  lemma PushedCall(st: State, st1: State)
    requires |st1.calls| == |st.calls| + 1 && st1.calls[..|st.calls|] == st.calls && st1 == st.(calls := st1.calls)
    ensures Above(st, st1, 0, 0, 1)
  {
  }

  lemma PushedLib(st: State, st2: State, lib: Lib)
    requires Above(st, st2, 0, 0, 1)
    ensures Above(st, PushLib(st2, lib), 0, 1, 1)
  {
  }

  lemma ArgsPopped(st: State, nargs: nat)
    requires |Obj(st, TopCall(st).scope).stack| >= nargs && st.errors == []
    ensures PopArgs(st, nargs).errors == []
  {
  }

  lemma {:induction false} PrimBalanced(w: World, b: Bin, fuel: nat, p: Prim, hist: seq<State>, base: State, libs: nat)
    requires Polite(w) && hist != [] && Based(base) && Above(base, hist[|hist| - 1], 0, libs, 1)
    ensures var r := RunPrim(Tree, w, b, fuel, p, hist); r.Some? ==> Above(base, r.value, 0, libs, 1)
    decreases fuel, 0, 0, 0
  {
    hide CallValue, Above;
    var last := hist[|hist| - 1];
    assert PoliteStep(w, p, hist);
    match w.prim(p, hist)
    case Done(st) =>
      StacksKept(last, Carry(hist, st));
      Trans(base, last, Carry(hist, st), 0, libs, 1);
    case Ask(v, scope, st) =>
      var st1 := Carry(hist, st);
      StacksKept(last, st1);
      Trans(base, last, st1, 0, libs, 1);
      if fuel > 0 {
        BasedUp(base, st1, 0, libs, 1);
        ValueBalanced(w, b, fuel - 1, v, scope, st1);
        var r := CallValue(Tree, w, b, fuel - 1, v, scope, st1);
        if r.Some? {
          Trans(base, st1, r.value, 0, libs, 1);
          PrimBalanced(w, b, fuel - 1, p, hist + [r.value], base, libs);
        }
      }
  }

  lemma StacksKept(st: State, r: State)
    requires SameStacks(st, r) && r.badReturns == st.badReturns
    ensures Above(st, r, 0, 0, 0)
  {
  }

  lemma BasedUp(st: State, r: State, scopes: nat, libs: nat, calls: nat)
    requires Based(st) && Above(st, r, scopes, libs, calls)
    ensures Based(r)
  {
  }

  // ---- values and calls ----------------------------------------------------

  lemma {:induction false} ValueBalanced(w: World, b: Bin, fuel: nat, v: Value, scope: nat, st: State)
    requires Polite(w) && Based(st) && st.errors == []
    ensures Level(st, CallValue(Tree, w, b, fuel, v, scope, st))
    decreases fuel, 2, 0, 0
  {
    hide CallImp, CallLambda, Above;
    Self(st);
    match v
    case LambdaV(at, lib, home) => LambdaBalanced(w, b, fuel, at, lib, home, scope, st);
    case FimpV(imp) =>
      Same(st, st, Error(st, "Func not applicable"), 0, 0, 0);
      ImpBalanced(w, b, fuel, imp, scope, st);
    case FuncV(func) =>
      Same(st, st, Error(st, "Func not applicable"), 0, 0, 0);
      var imp := w.best(func, Obj(st, scope).stack);
      if imp.Some? { ImpBalanced(w, b, fuel, imp.value, scope, st); }
    case _ => Same(st, st, PushOn(st, scope, v), 0, 0, 0);
  }

  /** Calling a lambda, in either mode. */
  lemma {:induction false} LambdaBalanced(w: World, b: Bin, fuel: nat, at: nat, lib: Lib, home: nat, scope: nat,
                                          st: State)
    requires Polite(w) && Based(st)
    ensures Level(st, CallLambda(Tree, w, b, fuel, at, lib, home, scope, st))
    decreases fuel, 1, 0, 0
  {
    hide Above, EvalSeq, EnterLambda, LeaveLambda, RunApart;
    if fuel > 0 {
      var (scopes, libs) := (if scope == home then 0 else 1, if InLib(st, lib) then 0 else 1);
      var st1 := EnterLambda(lib, home, scope, st);
      LambdaEntered(lib, home, scope, st);
      BasedUp(st, st1, scopes, libs, 0);
      var r := RunTarget(Tree, w, b, fuel - 1, LambdaAt(at), st1);
      if at in b.lams {
        SeqBalanced(w, b, fuel - 1, b.lams[at], st1);
        if r.Some? { Trans(st, st1, r.value, scopes, libs, 0); }
      } else {
        ApartBalanced(w, LambdaAt(at), st, st1, scopes, libs);
      }
      if r.Some? { LambdaLeft(lib, home, scope, st, r.value); }
    }
  }

  lemma LambdaEntered(lib: Lib, home: nat, scope: nat, st: State)
    ensures Above(st, EnterLambda(lib, home, scope, st),
                  if scope == home then 0 else 1, if InLib(st, lib) then 0 else 1, 0)
  {
  }

  lemma LambdaLeft(lib: Lib, home: nat, scope: nat, st: State, r: State)
    requires Based(st) && Above(st, r, if scope == home then 0 else 1, if InLib(st, lib) then 0 else 1, 0)
    ensures Above(st, LeaveLambda(!InLib(st, lib), scope != home, r), 0, 0, 0)
  {
    hide Above;
    var libs := if InLib(st, lib) then 0 else 1;
    var r1 := if scope != home then End(r) else r;
    if scope != home { AboveEnd(st, r, 0, libs, 0); }
    if !InLib(st, lib) { AbovePopLib(st, r1, 0, 0, 0); }
  }

  lemma CallBalanced(w: World, b: Bin, fuel: nat, site: nat, func: Func, imp0: Option<Imp>, st: State)
    requires Polite(w) && Based(st) && st.errors == []
    ensures Level(st, Funcall(Tree, w, b, fuel, site, func, imp0, st))
    decreases fuel, 2, 0, 0
  {
    hide CallImp, Above;
    var (st1, imp) := Resolve(w, site, func, imp0, Met(w, site, imp0, st));
    Self(st);
    Same(st, st, st1, 0, 0, 0);
    if imp.None? {
      Same(st, st, Error(st1, "Func not applicable"), 0, 0, 0);
    } else {
      ImpBalanced(w, b, fuel, imp.value, Top(st1), st1);
      var r := CallImp(Tree, w, b, fuel, imp.value, Top(st1), st1);
      if r.Some? { Trans(st, st1, r.value, 0, 0, 0); }
    }
  }

  // ---- function bodies -----------------------------------------------------

  lemma {:induction false} BodyBalanced(w: World, b: Bin, fuel: nat, imp: Imp, base: State, st: State)
    requires Polite(w) && Based(base) && Above(base, st, 0, 0, 1) && st.errors == []
    ensures Level(base, RunTarget(Tree, w, b, fuel, BodyOf(imp), st))
    decreases fuel, 6, 0, 0
  {
    hide Above, FnRounds;
    if imp in b.fns && imp in w.imps {
      FnEntered(w, imp, base, st);
      RoundsBalanced(w, b, fuel, imp, base, EnterFn(w, st, imp));
    } else {
      hide RunApart;
      ApartBalanced(w, BodyOf(imp), base, st, 0, 0);
    }
  }

  lemma FnEntered(w: World, imp: Imp, base: State, st: State)
    requires imp in w.imps && Above(base, st, 0, 0, 1)
    ensures Above(base, EnterFn(w, st, imp), 1, 1, 1)
  {
    var st1 := PushLib(Begin(st, if imp in st.home then Some(st.home[imp]) else None), w.imps[imp].lib);
    assert Above(base, st1, 1, 1, 1);
    AboveSetCall(base, st1, TopCall(st1).(scope := Top(st1)), 1, 1, 1);
  }

  /** All rounds of a body run in one scope, lib and call record, which are gone at
      the end. */
  lemma {:induction false} RoundsBalanced(w: World, b: Bin, fuel: nat, imp: Imp, base: State, st: State)
    requires Polite(w) && Based(base) && imp in w.imps && imp in b.fns && Above(base, st, 1, 1, 1)
    ensures Level(base, FnRounds(w, b, fuel, imp, st))
    decreases fuel, 4, 0, 0
  {
    hide Above, EvalSeq, DoReturn, DoPutArgs;
    var st1 := if st.errors == [] then DoPutArgs(w, st, imp) else st;
    ArgsPut(w, imp, base, st);
    BasedUp(base, st1, 1, 1, 1);
    SeqBalanced(w, b, fuel, b.fns[imp], st1);
    var r := EvalSeq(w, b, fuel, b.fns[imp], st1);
    if r.Some? {
      Trans(base, st1, r.value, 1, 1, 1);
      if r.value.errors != [] {
        AboveLeaveFn(base, r.value);
      } else {
        match DoReturn(w, r.value, imp)
        case Leave(st2) => LeaveBalanced(w, imp, base, r.value);
        case Again(st2) =>
          RecallKeepsFrame(w, imp, r.value);
          Trans(base, r.value, st2, 1, 1, 1);
          if fuel > 0 { RoundsBalanced(w, b, fuel - 1, imp, base, st2); }
      }
    }
  }

  lemma ArgsPut(w: World, imp: Imp, base: State, st: State)
    requires imp in w.imps && Above(base, st, 1, 1, 1)
    ensures Above(base, DoPutArgs(w, st, imp), 1, 1, 1)
  {
    Same(base, st, DoPutArgs(w, st, imp), 1, 1, 1);
  }

  /** A recall goes on in the same scope, lib and call record and is counted down. */
  lemma RecallKeepsFrame(w: World, imp: Imp, st: State)
    requires imp in w.imps && DoReturn(w, st, imp).Again?
    ensures var r := DoReturn(w, st, imp).st;
            && SameStacks(st, r) && r.badReturns == st.badReturns && Above(st, r, 0, 0, 0)
            && st.calls != [] && TopCall(r).recalls == TopCall(st).recalls - 1
  {
    var c := TopCall(st);
    var st1 := SetTopCall(st, c.(recalls := c.recalls - 1));
    Self(st);
    AboveSetCall(st, st, c.(recalls := c.recalls - 1), 0, 0, 0);
    AbovePopArgs(st, st1, |w.imps[imp].args|, 0, 0, 0);
  }

  /** return_eval pops scope, lib and call record if its checks pass, and none of
      them if one fails. */
  lemma ReturnPopsAllOrNone(w: World, imp: Imp, st: State)
    requires imp in w.imps && |st.scopes| >= 2 && |st.libs| >= 2 && |st.calls| >= 1 && DoReturn(w, st, imp).Leave?
    ensures var r := DoReturn(w, st, imp).st;
            if r.badReturns > st.badReturns then SameStacks(st, r) && r.errors != []
            else && r.scopes == st.scopes[..|st.scopes| - 1] && r.libs == st.libs[..|st.libs| - 1]
                 && r.calls == st.calls[..|st.calls| - 1] && r.errors == st.errors
  {
    hide End;
    var c := TopCall(st);
    var r := CollectRets(w, imp, w.imps[imp].rets, 0, 0, st);
    if c.recalls > 0 {
      AboveSetCall(st, st, c.(recalls := c.recalls - 1), 0, 0, 0);
    } else if r.ok && r.used >= |TopStack(r.st)| {
      LeaveFnPops(SetStack(r.st, Top(r.st), []));
    }
  }

  lemma LeaveFnPops(st: State)
    requires |st.scopes| >= 2 && |st.libs| >= 2 && |st.calls| >= 1
    ensures var r := LeaveFn(st);
            && r.scopes == st.scopes[..|st.scopes| - 1] && r.libs == st.libs[..|st.libs| - 1]
            && r.calls == st.calls[..|st.calls| - 1] && r.errors == st.errors && r.badReturns == st.badReturns
  {
  }

  lemma LeaveBalanced(w: World, imp: Imp, base: State, st: State)
    requires imp in w.imps && Based(base) && Above(base, st, 1, 1, 1) && DoReturn(w, st, imp).Leave?
    ensures Above(base, DoReturn(w, st, imp).st, 0, 0, 0)
  {
    hide DoReturn;
    ReturnPopsAllOrNone(w, imp, st);
    ReturnCounts(w, imp, st);
    var r := DoReturn(w, st, imp).st;
    if r.badReturns > st.badReturns {
      forall i | 0 <= i < |base.calls| ensures SameFrame(base.calls[i], r.calls[i]) {
        assert SameFrame(base.calls[i], st.calls[i]) && SameFrame(st.calls[i], r.calls[i]);
      }
    }
  }

  lemma ReturnCounts(w: World, imp: Imp, st: State)
    requires imp in w.imps
    ensures st.badReturns <= DoReturn(w, st, imp).st.badReturns <= st.badReturns + 1
  {
  }

  // ---- tokens --------------------------------------------------------------

  lemma {:induction false} SeqBalanced(w: World, b: Bin, fuel: nat, ns: seq<Node>, st: State)
    requires Polite(w) && Based(st)
    ensures Level(st, EvalSeq(w, b, fuel, ns, st))
    decreases fuel, 3, ns, 0
  {
    hide Above, EvalNode;
    Self(st);
    if ns != [] {
      NodeBalanced(w, b, fuel, ns[0], st);
      var r := EvalNode(w, b, fuel, ns[0], st);
      if r.Some? {
        BasedUp(st, r.value, 0, 0, 0);
        SeqBalanced(w, b, fuel, ns[1..], r.value);
        var r1 := EvalSeq(w, b, fuel, ns[1..], r.value);
        if r1.Some? { Trans(st, r.value, r1.value, 0, 0, 0); }
      }
    }
  }

  lemma {:induction false} NodeBalanced(w: World, b: Bin, fuel: nat, n: Node, st: State)
    requires Polite(w) && Based(st)
    ensures Level(st, EvalNode(w, b, fuel, n, st))
    decreases fuel, 3, n, 0
  {
    hide Above, EvalSeq, EvalCases, Funcall, Begin, End;
    Self(st);
    match n
    case NPush(v) => Same(st, st, Push(st, v), 0, 0, 0);
    case NGetVar(id) => Same(st, st, DoGetVar(st, id), 0, 0, 0);
    case NPutVar(id, ty) => Same(st, st, DoPutVar(w, st, id, ty), 0, 0, 0);
    case NGroup(body) => GroupBalanced(w, b, fuel, body, st);
    case NStack(body) => GroupBalanced(w, b, fuel, body, st);
    case NLambda(at, body) => Same(st, st, PushLambda(st, at), 0, 0, 0);
    case NCall(site, func, imp, inl) => if st.errors == [] { CallBalanced(w, b, fuel, site, func, imp, st); }
    case NFunc(def, inl) => Same(st, st, DoFuncdef(st, def), 0, 0, 0);
    case NCatch(ty, body) => CatchBalanced(w, b, fuel, ty, body, st);
    case NSwitch(cases) => CasesBalanced(w, b, fuel, cases, st);
  }

  lemma {:induction false} GroupBalanced(w: World, b: Bin, fuel: nat, body: seq<Node>, st: State)
    requires Polite(w) && Based(st)
    ensures Level(st, EvalNode(w, b, fuel, NGroup(body), st)) && Level(st, EvalNode(w, b, fuel, NStack(body), st))
    decreases fuel, 3, body, 1
  {
    hide Above, EvalSeq, End, EnterGroup;
    Self(st);
    var st1 := EnterGroup(st);
    GroupEntered(st);
    SeqBalanced(w, b, fuel, body, st1);
    var r := EvalSeq(w, b, fuel, body, st1);
    if r.Some? {
      Trans(st, st1, r.value, 1, 0, 0);
      AboveEnd(st, r.value, 0, 0, 0);
      Same(st, r.value, Stash(r.value), 1, 0, 0);
      AboveEnd(st, Stash(r.value), 0, 0, 0);
    }
  }

  lemma GroupEntered(st: State)
    requires Based(st)
    ensures Above(st, EnterGroup(st), 1, 0, 0) && Based(EnterGroup(st))
  {
  }

  lemma {:induction false} CatchBalanced(w: World, b: Bin, fuel: nat, ty: Option<TypeId>, body: seq<Node>, st: State)
    requires Polite(w) && Based(st)
    ensures Level(st, EvalNode(w, b, fuel, NCatch(ty, body), st))
    decreases fuel, 3, body, 1
  {
    hide Above, EvalSeq;
    Self(st);
    if st.errors == [] {
      if ty.None? { SeqBalanced(w, b, fuel, body, st); }
    } else if ty.None? {
      var st1 := DropError(st);
      Same(st, st, st1, 0, 0, 0);
      SeqBalanced(w, b, fuel, body, st1);
      var r := EvalSeq(w, b, fuel, body, st1);
      if r.Some? {
        var st2 := Rethrow(r.value, st.errors[|st.errors| - 1]);
        Trans(st, st1, r.value, 0, 0, 0);
        Same(st, r.value, st2, 0, 0, 0);
        BasedUp(st, st2, 0, 0, 0);
        SeqBalanced(w, b, fuel, body, st2);
        var r2 := EvalSeq(w, b, fuel, body, st2);
        if r2.Some? { Trans(st, st2, r2.value, 0, 0, 0); }
      }
    } else if Catches(w, st, ty.value) {
      var st1 := CatchError(st);
      Same(st, st, st1, 0, 0, 0);
      SeqBalanced(w, b, fuel, body, st1);
      var r := EvalSeq(w, b, fuel, body, st1);
      if r.Some? { Trans(st, st1, r.value, 0, 0, 0); }
    }
  }

  lemma {:induction false} CasesBalanced(w: World, b: Bin, fuel: nat, cs: seq<Case>, st: State)
    requires Polite(w) && Based(st)
    ensures Level(st, EvalCases(w, b, fuel, cs, st))
    decreases fuel, 3, cs, 0
  {
    hide Above, EvalSeq, DoElse;
    Self(st);
    if cs != [] {
      SeqBalanced(w, b, fuel, cs[0].cond, st);
      var r := EvalSeq(w, b, fuel, cs[0].cond, st);
      if r.Some? {
        BasedUp(st, r.value, 0, 0, 0);
        ElseKeeps(w, r.value);
        var st1 := if r.value.errors != [] then r.value else DoElse(w, r.value).st;
        Self(r.value);
        Same(st, r.value, st1, 0, 0, 0);
        BasedUp(st, st1, 0, 0, 0);
        if r.value.errors != [] || DoElse(w, r.value).Taken? {
          SeqBalanced(w, b, fuel, cs[0].body, st1);
          var r1 := EvalSeq(w, b, fuel, cs[0].body, st1);
          if r1.Some? { Trans(st, st1, r1.value, 0, 0, 0); }
        } else {
          CasesBalanced(w, b, fuel, cs[1..], st1);
          var r1 := EvalCases(w, b, fuel, cs[1..], st1);
          if r1.Some? { Trans(st, st1, r1.value, 0, 0, 0); }
        }
      }
    }
  }

  lemma ElseKeeps(w: World, st: State)
    ensures DoElse(w, st).st == st.(heap := DoElse(w, st).st.heap, errors := DoElse(w, st).st.errors)
  {
  }

  // ---- compiled code -------------------------------------------------------

  /** Compiled code, entered in any mode, leaves the scope and lib stacks and every
      call record's function and scope exactly as they were if no return check
      failed; otherwise each failure leaves one of each behind. */
  lemma CompiledCodeBalanced(w: World, toks: seq<Tok>, fuel: nat, st: State)
    requires Polite(w) && Based(st) && TailSeq(w, toks, {}, false)
    ensures var b := Compile(w, PatchAll, toks).0;
            var r := RunOps(w, b, fuel, 0, -1, st);
            r.Some? ==>
              && Above(st, r.value, 0, 0, 0)
              && (r.value.badReturns == st.badReturns ==> SameStacks(st, r.value))
  {
    var (b, ns) := Compile(w, PatchOwn, toks);
    TailProgramsRunAsTokens(w, toks, fuel, st);
    SeqBalanced(w, b, fuel, ns, st);
  }
}
