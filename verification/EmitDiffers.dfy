/** The two ways in which emitted code parts from the eval loop do happen: for each a
    program and a state from which the two end differently. */
module EmitDiffers {
  import opened Basics
  import opened VmState
  import opened Vm
  import opened Compiler
  import opened NestedSwitch
  import opened EmitProof

  /** One scope, checks on, nothing run yet. */
  function Fresh(cache: map<nat, Option<Imp>>): State {
    State([Scope(None, [], map[], true)], [0], [0], [], [], cache, map[], 0, 0)
  }

  /** Where the label of an op leads, both engines go. */
  lemma BothGo(w: World, b: Bin, fuel: nat, pc: nat, stop: int, st: State, x: Next, y: Next)
    requires pc < |b.ops| && pc != stop && x.pc > pc && y.pc > pc
    requires Label(w, b, fuel, pc, st) == Some(x) && Step(w, b, fuel, pc, st) == Some(y)
    ensures RunLabels(w, b, fuel, pc, stop, st) == RunLabels(w, b, fuel, x.pc, stop, x.st)
    ensures RunOps(w, b, fuel, pc, stop, st) == RunOps(w, b, fuel, y.pc, stop, y.st)
  {
    hide Step, Label;
  }

  lemma Ends(w: World, b: Bin, fuel: nat, pc: nat, stop: int, st: State)
    requires pc >= |b.ops| || pc == stop
    ensures RunOps(w, b, fuel, pc, stop, st) == RunLabels(w, b, fuel, pc, stop, st) == Some(st)
  {
  }

  lemma CallsGo(w: World, b: Bin, fuel: nat, pc: nat, stop: int, st: State, x: State, y: State)
    requires pc < |b.ops| && pc != stop && b.ops[pc].OFuncall? && st.errors == []
    requires Funcall(Emitted, w, b, fuel, pc, b.ops[pc].func, b.ops[pc].imp0, st) == Some(x)
    requires Funcall(Interp, w, b, fuel, pc, b.ops[pc].func, b.ops[pc].imp0, st) == Some(y)
    ensures RunLabels(w, b, fuel, pc, stop, st) == RunLabels(w, b, fuel, pc + 1, stop, x)
    ensures RunOps(w, b, fuel, pc, stop, st) == RunOps(w, b, fuel, pc + 1, stop, y)
  {
    hide Funcall, Label, RunStmts, RunOps, RunLabels;
    LabelRuns(w, b, fuel, pc, SCall(pc, b.ops[pc].func, b.ops[pc].imp0, pc + 1), st);
    BothGo(w, b, fuel, pc, stop, st, Next(pc + 1, x), Next(pc + 1, y));
  }

  lemma SkipsGo(w: World, b: Bin, fuel: nat, pc: nat, stop: int, st: State)
    requires pc < |b.ops| && pc != stop && b.ops[pc].OFimp? && b.ops[pc].imp in b.fimps
             && b.fimps[b.ops[pc].imp].nops >= 0
    ensures var next := pc + 1 + b.fimps[b.ops[pc].imp].nops;
            && RunLabels(w, b, fuel, pc, stop, st) == RunLabels(w, b, fuel, next, stop, st)
            && RunOps(w, b, fuel, pc, stop, st) == RunOps(w, b, fuel, next, stop, st)
  {
    hide Label, RunStmts, RunOps, RunLabels;
    var next := pc + 1 + b.fimps[b.ops[pc].imp].nops;
    LabelRuns(w, b, fuel, pc, SGoto(next), st);
    BothGo(w, b, fuel, pc, stop, st, Next(next, st), Next(next, st));
  }

  lemma BeginsGo(w: World, b: Bin, fuel: nat, pc: nat, stop: int, st: State, imp: Imp)
    requires pc < |b.ops| && pc != stop && b.ops[pc].OBegin? && b.ops[pc].fimp == Some(imp) && imp in w.imps
             && st.errors == []
    ensures RunLabels(w, b, fuel, pc, stop, st) == RunLabels(w, b, fuel, pc + 1, stop, EnterFn(w, st, imp))
    ensures RunOps(w, b, fuel, pc, stop, st) == RunOps(w, b, fuel, pc + 1, stop, EnterFn(w, st, imp))
  {
    hide Label, RunStmts, RunOps, RunLabels, EnterFn;
    var next := Next(pc + 1, EnterFn(w, st, imp));
    LabelRuns(w, b, fuel, pc, SBegin(Some(imp)), st);
    BothGo(w, b, fuel, pc, stop, st, next, next);
  }

  // ---- a call site whose last dispatch failed ------------------------------

  /** Implementation 0 is a primitive that does nothing; dispatch finds none. */
  ghost predicate Unfound(w: World) {
    && 0 in w.imps && w.imps[0] == Fimp(0, [], [], Some(0), [])
    && (forall s: State :: w.prim(0, [s]) == Done(s))
    && w.matches(0, []) && w.best(0, []) == None
  }

  /** A call that names implementation 0, where a dispatch has failed before: the loop
      reports an error, the emitted code calls it. */
  lemma StaleSiteDiffers(w: World, fuel: nat)
    requires Unfound(w) && fuel > 1
    ensures var b := Compile(w, PatchAll, [TCall(0, Some(0))]).0;
            var st := Fresh(map[0 := None]);
            var (x, y) := (RunLabels(w, b, fuel, 0, -1, st), RunOps(w, b, fuel, 0, -1, st));
            x.Some? && y.Some? && x.value.errors == [] && y.value.errors == [Text("Func not applicable")]
  {
    var (toks, st) := ([TCall(0, Some(0))], Fresh(map[0 := None]));
    var b := Compile(w, PatchAll, toks).0;
    OneCall(w, 0, Some(0), EMPTY_BIN);
    assert b.ops == [OFuncall(0, Some(0))];
    hide Compile, Funcall, RunOps, RunLabels;
    CallFails(w, b, fuel, st);
    var (x, y) := (Funcall(Emitted, w, b, fuel, 0, 0, Some(0), st), Funcall(Interp, w, b, fuel, 0, 0, Some(0), st));
    CallsGo(w, b, fuel, 0, -1, st, x.value, y.value);
    Ends(w, b, fuel, 1, -1, x.value);
    Ends(w, b, fuel, 1, -1, y.value);
  }

  lemma CallFails(w: World, b: Bin, fuel: nat, st: State)
    requires Unfound(w) && fuel > 1 && st == Fresh(map[0 := None])
    ensures var (x, y) :=
            (Funcall(Emitted, w, b, fuel, 0, 0, Some(0), st), Funcall(Interp, w, b, fuel, 0, 0, Some(0), st));
            x.Some? && y.Some? && x.value.errors == [] && y.value.errors == [Text("Func not applicable")]
  {
    hide CallImp;
    var st0 := Met(w, 0, Some(0), st);
    assert ResolveEmitted(w, 0, 0, Some(0), st0) == (st0, Some(0));
    PrimReturns(Emitted, w, b, fuel, 0, 0, st0);
    assert Resolve(w, 0, 0, Some(0), st0).1 == None;
  }

  /** Calling a primitive without arguments that is done at once. */
  lemma PrimReturns(eng: Engine, w: World, b: Bin, fuel: nat, imp: Imp, scope: nat, st: State)
    requires fuel > 1 && imp in w.imps && |st.calls| < MAX_CALLS && w.imps[imp].args == [] && w.imps[imp].prim.Some?
    requires InLib(st, w.imps[imp].lib)
    requires forall s: State :: w.prim(w.imps[imp].prim.value, [s]).Done?
    ensures var st1 := st.(calls := st.calls + [Call(imp, scope, [], 0)]);
            CallImp(eng, w, b, fuel, imp, scope, st)
              == Some(PopCall(Carry([st1], w.prim(w.imps[imp].prim.value, [st1]).st)))
  {
  }

  // ---- a recall whose check fails ------------------------------------------

  /** Function 0 has implementation 0, whose body calls function 1; that is `recall`.
      Implementation 0 never applies. */
  ghost predicate Recalls(w: World) {
    && 0 in w.imps && w.imps[0] == Fimp(0, [], [], None, [TCall(1, None)])
    && 1 in w.imps && w.imps[1] == Fimp(0, [], [], Some(0), [])
    && w.sole == map[0 := 0, 1 := 1]
    && (forall s: seq<Value> :: w.best(0, s) == Some(0) && w.best(1, s) == Some(1) && !w.matches(0, s))
    && (forall s: State :: w.prim(0, [s]) == Done(Recalled(w, s)))
  }

  function RecallOps(): seq<Op> {
    [OFimp(0), OBegin(Some(0), 2), OFuncall(1, None), OReturn(0, 1), OFuncall(0, None)]
  }

  lemma RecallCompiles(w: World)
    requires Recalls(w)
    ensures var b := Compile(w, PatchAll, [TCall(0, None)]).0;
            b.ops == RecallOps() && b.fimps == map[0 := Range(1, 3)]
  {
    hide CompileSeq, CompileTok;
    var b0 := BeginInline(w, 0, EMPTY_BIN);
    OneCall(w, 1, None, b0);
    OneCall(w, 0, None, EMPTY_BIN);
  }

  /** A program of one call. */
  lemma OneCall(w: World, func: Func, imp: Option<Imp>, b: Bin)
    ensures var one := ToInline(w, func, imp);
            var b1 := if one.Some? then Inline(w, PatchAll, one.value, b) else b;
            CompileSeq(w, PatchAll, [TCall(func, imp)], b).0 == Emit(b1, OFuncall(func, imp))
  {
    OneTok(w, TCall(func, imp), b);
    hide CompileSeq, Inline;
  }

  /** The state in which the body reaches its return. */
  function BeforeReturn(): State {
    var st := Fresh(map[4 := Some(0), 2 := Some(1)]);
    st.(heap := st.heap + [Scope(None, [], map[], true)], scopes := [0, 1], libs := [0, 0],
        calls := [Call(0, 1, [], 1)])
  }

  /** Both engines run the function's body alike up to its return. */
  lemma BodyRuns(w: World, b: Bin, fuel: nat, st: State)
    requires Recalls(w) && fuel > 1 && b.ops == RecallOps() && b.fimps == map[0 := Range(1, 3)]
    requires st == Fresh(map[4 := Some(0)]).(calls := [Call(0, 0, [], 0)])
    ensures RunOps(w, b, fuel, 1, 4, st) == RunOps(w, b, fuel, 3, 4, BeforeReturn())
    ensures RunLabels(w, b, fuel, 1, 4, st) == RunLabels(w, b, fuel, 3, 4, BeforeReturn())
  {
    hide RunOps, RunLabels, Funcall;
    BeginsGo(w, b, fuel, 1, 4, st, 0);
    var st1 := EnterFn(w, st, 0);
    FindsRecall(Emitted, w, b, fuel, st1);
    FindsRecall(Interp, w, b, fuel, st1);
    CallsGo(w, b, fuel, 2, 4, st1, BeforeReturn(), BeforeReturn());
  }

  lemma FindsRecall(eng: Engine, w: World, b: Bin, fuel: nat, st: State)
    requires Recalls(w) && fuel > 1
    requires st == EnterFn(w, Fresh(map[4 := Some(0)]).(calls := [Call(0, 0, [], 0)]), 0)
    ensures Funcall(eng, w, b, fuel, 2, 1, None, st) == Some(BeforeReturn())
  {
    hide CallImp;
    var st1 := st.(cache := st.cache[2 := Some(1)]);
    PrimReturns(eng, w, b, fuel, 1, 1, st1);
    var st2 := st1.(calls := st1.calls + [Call(1, 1, [], 0)]);
    assert st2.calls == [Call(0, 1, [], 0), Call(1, 1, [], 0)];
    assert !HasBody(w, st2.calls[1]) && HasBody(w, st2.calls[0]);
    assert NearestBody(w, st2.calls, 2) == 0;
    assert st2.calls[0 := Call(0, 1, [], 1)][..1] == BeforeReturn().calls;
    assert PopCall(Recalled(w, st2)) == BeforeReturn();
    assert Met(w, 2, None, st) == st
           && Resolve(w, 2, 1, None, st) == (st1, Some(1)) == ResolveEmitted(w, 2, 1, None, st);
  }

  /** The return op, in either engine. */
  lemma ReturnFails(w: World, b: Bin, fuel: nat)
    requires Recalls(w) && b.ops == RecallOps()
    ensures var st := Error(BeforeReturn(), "Recall not applicable");
            && RunLabels(w, b, fuel, 3, 4, BeforeReturn()) == Some(Part(Bad(st)))
            && RunOps(w, b, fuel, 3, 4, BeforeReturn()) == Some(Part(Bad(st.(calls := [Call(0, 1, [], 0)]))))
  {
    hide RunOps, RunLabels, Label, RunStmts, DoReturn, RecallFails;
    var st := BeforeReturn();
    var x := Part(Bad(Error(st, "Recall not applicable")));
    var y := x.(calls := [Call(0, 1, [], 0)]);
    RecallRefused(w);
    LabelRuns(w, b, fuel, 3, SReturn(0, 4, 2), st);
    BothGo(w, b, fuel, 3, 4, st, Next(4, x), Next(4, y));
    Ends(w, b, fuel, 4, 4, x);
    Ends(w, b, fuel, 4, 4, y);
  }

  lemma RecallRefused(w: World)
    requires Recalls(w)
    ensures var st := BeforeReturn();
            && RecallFails(w, st, 0) && TopCall(st).recalls > 0
            && DoReturn(w, st, 0) == Leave(Part(Bad(Error(st, "Recall not applicable"))).(calls := [Call(0, 1, [], 0)]))
  {
    assert [Call(0, 1, [], 1)][0 := Call(0, 1, [], 0)] == [Call(0, 1, [], 0)];
  }

  lemma CallsBody(eng: Engine, w: World, b: Bin, fuel: nat, st: State)
    requires Recalls(w) && fuel > 2 && b.ops == RecallOps() && b.fimps == map[0 := Range(1, 3)] && st == Fresh(map[])
             && eng != Tree
    ensures Funcall(eng, w, b, fuel, 4, 0, None, st)
         == RunFlat(eng, w, b, fuel - 1, 1, 4, Fresh(map[4 := Some(0)]).(calls := [Call(0, 0, [], 0)]))
  {
    hide CallImp;
    var st1 := st.(cache := st.cache[4 := Some(0)]);
    assert Met(w, 4, None, st) == st
           && Resolve(w, 4, 0, None, st) == (st1, Some(0)) == ResolveEmitted(w, 4, 0, None, st);
    BodyCalled(eng, w, b, fuel, st1);
  }

  lemma BodyCalled(eng: Engine, w: World, b: Bin, fuel: nat, st: State)
    requires Recalls(w) && fuel > 2 && b.fimps == map[0 := Range(1, 3)] && eng != Tree && st.calls == []
    ensures CallImp(eng, w, b, fuel, 0, 0, st) == RunFlat(eng, w, b, fuel - 1, 1, 4, st.(calls := [Call(0, 0, [], 0)]))
  {
    hide RunFlat;
    var st1 := st.(calls := [Call(0, 0, [], 0)]);
    assert st.calls + [Call(0, 0, [], 0)] == [Call(0, 0, [], 0)];
    assert PopArgs(st1, 0) == st1;
    assert RunTarget(eng, w, b, fuel - 1, BodyOf(0), st1) == RunFlat(eng, w, b, fuel - 1, 1, 4, st1);
  }

  /** How the call ends in emitted code; in the loop the recall is counted down. */
  function Refused(): State {
    Part(Bad(Error(BeforeReturn(), "Recall not applicable")))
  }

  lemma CallRefused(w: World, b: Bin, fuel: nat)
    requires Recalls(w) && fuel > 2 && b.ops == RecallOps() && b.fimps == map[0 := Range(1, 3)]
    ensures Funcall(Emitted, w, b, fuel, 4, 0, None, Fresh(map[])) == Some(Refused())
    ensures Funcall(Interp, w, b, fuel, 4, 0, None, Fresh(map[])) == Some(Refused().(calls := [Call(0, 1, [], 0)]))
  {
    hide RunOps, RunLabels, Funcall;
    var st := Fresh(map[]);
    CallsBody(Emitted, w, b, fuel, st);
    CallsBody(Interp, w, b, fuel, st);
    BodyRuns(w, b, fuel - 1, st.(cache := map[4 := Some(0)], calls := [Call(0, 0, [], 0)]));
    ReturnFails(w, b, fuel - 1);
  }

  /** The function asks for one more round, whose check fails.  The loop has counted it
      down by then, the emitted code has not. */
  lemma FailingRecallDiffers(w: World, fuel: nat)
    requires Recalls(w) && fuel > 2
    ensures var b := Compile(w, PatchAll, [TCall(0, None)]).0;
            var (x, y) := (RunLabels(w, b, fuel, 0, -1, Fresh(map[])), RunOps(w, b, fuel, 0, -1, Fresh(map[])));
            && x.Some? && y.Some? && x.value.errors == [Text("Recall not applicable")] == y.value.errors
            && x.value.calls == [Call(0, 1, [], 1)] && y.value.calls == [Call(0, 1, [], 0)]
  {
    RecallCompiles(w);
    hide Compile, RunOps, RunLabels, Funcall, Recalls;
    var b := Compile(w, PatchAll, [TCall(0, None)]).0;
    CallRefused(w, b, fuel);
    SkipsGo(w, b, fuel, 0, -1, Fresh(map[]));
    CallsGo(w, b, fuel, 4, -1, Fresh(map[]), Refused(), Refused().(calls := [Call(0, 1, [], 0)]));
    Ends(w, b, fuel, 5, -1, Refused());
    Ends(w, b, fuel, 5, -1, Refused().(calls := [Call(0, 1, [], 0)]));
  }
}
