/** When emitted code and loop never part: no call names an implementation, and nobody
    asks for a recall.  Both can be seen before anything is run. */
module EmitEqual {
  import opened Basics
  import opened VmState
  import opened Vm
  import opened Visits
  import opened EmitProof

  /** No call site starts with an implementation. */
  ghost predicate NoNames(b: Bin) {
    forall i :: 0 <= i < |b.ops| && b.ops[i].OFuncall? ==> b.ops[i].imp0.None?
  }

  /** No open call is to be run again. */
  ghost predicate Settled(st: State) {
    forall i :: 0 <= i < |st.calls| ==> st.calls[i].recalls == 0
  }

  /** No primitive asks for that, nor does a body in another bin. */
  ghost predicate NoRecalls(w: World) {
    && (forall p, hist: seq<State> :: hist != [] && Settled(hist[|hist| - 1]) ==> Settled(w.prim(p, hist).st))
    && (forall t, st: State :: Settled(st) && w.apart(t, st).Some? ==> Settled(w.apart(t, st).value))
  }

  /** Nothing has parted, and nothing can. */
  ghost predicate Stays(st: State, r: State) {
    Settled(r) && r.partings == st.partings
  }

  /** Both engines come to the same, and it stays so. */
  ghost predicate Equal(st: State, x: Option<State>, y: Option<State>) {
    x == y && (y.Some? ==> Stays(st, y.value))
  }

  ghost predicate Equals(w: World, b: Bin, fuel: nat) {
    forall t, st: State :: Settled(st) ==>
      Equal(st, RunTarget(Emitted, w, b, fuel, t, st), RunTarget(Interp, w, b, fuel, t, st))
  }

  // ---- single changes ------------------------------------------------------

  lemma StackChanges(w: World, st: State)
    requires Settled(st)
    ensures Stays(st, EnterGroup(st)) && Stays(st, Stash(st)) && Stays(st, DoElse(w, st).st)
    ensures forall imp :: imp in w.imps ==> Stays(st, EnterFn(w, st, imp)) && Stays(st, DoPutArgs(w, st, imp))
    ensures forall at: nat :: Stays(st, PushLambda(st, at))
    ensures st.errors != [] ==> Stays(st, CatchError(st))
  {
  }

  lemma Leaves(w: World, st: State)
    requires Settled(st)
    ensures Stays(st, End(st)) && Stays(st, LeaveFn(st))
  {
    assert Stays(st, End(st)) && Stays(st, PopLib(End(st)));
  }

  lemma ValueChanges(w: World, st: State)
    requires Settled(st)
    ensures Stays(st, st) && (forall v :: Stays(st, Push(st, v))) && (forall id :: Stays(st, DoGetVar(st, id)))
    ensures (forall id, ty :: Stays(st, DoPutVar(w, st, id, ty))) && (forall imp :: Stays(st, DoFuncdef(st, imp)))
  {
  }

  lemma ReturnStays(w: World, st: State, imp: Imp)
    requires Settled(st) && imp in w.imps
    ensures DoReturn(w, st, imp).Leave? && Stays(st, DoReturn(w, st, imp).st)
  {
    assert TopCall(st).recalls == 0;
    var r := CollectRets(w, imp, w.imps[imp].rets, 0, 0, st);
    assert Settled(r.st);
    if r.ok && r.used >= |TopStack(r.st)| {
      Leaves(w, SetStack(r.st, Top(r.st), []));
    }
  }

  lemma CallChanges(w: World, st: State, imp: Imp, scope: nat, nargs: nat)
    requires Settled(st)
    ensures var st1 := st.(calls := st.calls + [Call(imp, scope, [], 0)]);
            Stays(st, st1) && Stays(st, PopArgs(st1, nargs))
  {
  }

  // ---- both engines, side by side ------------------------------------------

  lemma {:induction false} PrimEqual(w: World, b: Bin, fuel: nat, p: Prim, hist: seq<State>)
    requires NoRecalls(w) && hist != [] && Settled(hist[|hist| - 1]) && forall k | 0 <= k < fuel :: Equals(w, b, k)
    ensures Equal(hist[|hist| - 1], RunPrim(Emitted, w, b, fuel, p, hist), RunPrim(Interp, w, b, fuel, p, hist))
    decreases fuel, 0
  {
    hide CallValue;
    var last := hist[|hist| - 1];
    assert Settled(w.prim(p, hist).st);
    match w.prim(p, hist)
    case Done(st) =>
    case Ask(v, scope, st) =>
      if fuel > 0 {
        var st1 := Carry(hist, st);
        ValueEqual(w, b, fuel - 1, v, scope, st1);
        var r := CallValue(Interp, w, b, fuel - 1, v, scope, st1);
        if r.Some? { PrimEqual(w, b, fuel - 1, p, hist + [r.value]); }
      }
  }

  lemma LambdaChanges(lib: Lib, home: nat, scope: nat, st: State)
    requires Settled(st)
    ensures Stays(st, EnterLambda(lib, home, scope, st))
    ensures forall popLib, popScope, r :: Stays(st, r) ==> Stays(st, LeaveLambda(popLib, popScope, r))
  {
  }

  lemma {:induction false} ValueEqual(w: World, b: Bin, fuel: nat, v: Value, scope: nat, st: State)
    requires NoRecalls(w) && Settled(st) && forall k | 0 <= k < fuel :: Equals(w, b, k)
    ensures Equal(st, CallValue(Emitted, w, b, fuel, v, scope, st), CallValue(Interp, w, b, fuel, v, scope, st))
    decreases fuel, 2
  {
    hide RunTarget, CallImp;
    match v
    case LambdaV(at, lib, home) =>
      if fuel > 0 {
        LambdaChanges(lib, home, scope, st);
        hide EnterLambda, LeaveLambda;
        assert Equals(w, b, fuel - 1);
        var st1 := EnterLambda(lib, home, scope, st);
        assert Equal(st1, RunTarget(Emitted, w, b, fuel - 1, LambdaAt(at), st1),
                     RunTarget(Interp, w, b, fuel - 1, LambdaAt(at), st1));
      }
    case FimpV(imp) => ImpEqual(w, b, fuel, imp, scope, st);
    case FuncV(func) =>
      var imp := w.best(func, Obj(st, scope).stack);
      if imp.Some? { ImpEqual(w, b, fuel, imp.value, scope, st); }
    case _ =>
  }

  lemma {:induction false} ImpEqual(w: World, b: Bin, fuel: nat, imp: Imp, scope: nat, st: State)
    requires NoRecalls(w) && Settled(st) && forall k | 0 <= k < fuel :: Equals(w, b, k)
    ensures Equal(st, CallImp(Emitted, w, b, fuel, imp, scope, st), CallImp(Interp, w, b, fuel, imp, scope, st))
    decreases fuel, 1
  {
    hide RunTarget, RunPrim, PopLib, PopCall, NoRecalls;
    if fuel > 0 && imp in w.imps {
      var info := w.imps[imp];
      var st2 := PopArgs(st.(calls := st.calls + [Call(imp, scope, [], 0)]), |info.args|);
      CallChanges(w, st, imp, scope, |info.args|);
      hide PopArgs;
      Pops(w, st2);
      match info.prim
      case Some(p) => PrimCallEqual(w, b, fuel - 1, p, info.lib, st2);
      case None =>
        assert Equals(w, b, fuel - 1);
        assert Equal(st2, RunTarget(Emitted, w, b, fuel - 1, BodyOf(imp), st2),
                     RunTarget(Interp, w, b, fuel - 1, BodyOf(imp), st2));
    }
  }

  lemma Pops(w: World, st: State)
    requires Settled(st)
    ensures Stays(st, PopCall(st)) && Stays(st, PopLib(st)) && Stays(st, PopCall(PopLib(st)))
    ensures forall lib :: Stays(st, PushLib(st, lib))
  {
  }

  lemma {:induction false} PrimCallEqual(w: World, b: Bin, fuel: nat, p: Prim, lib: Lib, st: State)
    requires NoRecalls(w) && Settled(st) && forall k | 0 <= k <= fuel :: Equals(w, b, k)
    ensures var st1 := if InLib(st, lib) then st else PushLib(st, lib);
            var (x, y) := (RunPrim(Emitted, w, b, fuel, p, [st1]), RunPrim(Interp, w, b, fuel, p, [st1]));
            x == y && (y.Some? ==> Stays(st, PopCall(y.value)) && Stays(st, PopCall(PopLib(y.value))))
    decreases fuel, 1
  {
    hide RunPrim, PopLib, PopCall, NoRecalls, PushLib;
    Pops(w, st);
    var st1 := if InLib(st, lib) then st else PushLib(st, lib);
    PrimEqual(w, b, fuel, p, [st1]);
    var r := RunPrim(Interp, w, b, fuel, p, [st1]);
    if r.Some? { Pops(w, r.value); }
  }

  lemma FuncallEqual(w: World, b: Bin, fuel: nat, site: nat, func: Func, st: State)
    requires NoRecalls(w) && Settled(st) && forall k | 0 <= k < fuel :: Equals(w, b, k)
    ensures Equal(st, Funcall(Emitted, w, b, fuel, site, func, None, st),
              Funcall(Interp, w, b, fuel, site, func, None, st))
  {
    hide CallImp;
    assert !Stale(w, site, None, st);
    ResolvedAlike(w, site, func, None, st);
    var (st1, imp) := Resolve(w, site, func, None, st);
    if imp.Some? { ImpEqual(w, b, fuel, imp.value, Top(st1), st1); }
  }

  /** An op that neither calls nor cleans up. */
  lemma PlainStays(w: World, b: Bin, fuel: nat, pc: nat, st: State)
    requires pc < |b.ops| && Settled(st)
    requires !(st.errors == [] && b.ops[pc].OFuncall?) && !(st.errors != [] && b.ops[pc].OCatch? && b.ops[pc].ty.None?)
    ensures Step(w, b, fuel, pc, st).Some? ==> Stays(st, Step(w, b, fuel, pc, st).value.st)
  {
    hide StepNormal, StepError;
    if st.errors == [] { NormalStays(w, b, fuel, pc, st); } else { ErrorStays(w, b, fuel, pc, st); }
  }

  lemma NormalStays(w: World, b: Bin, fuel: nat, pc: nat, st: State)
    requires pc < |b.ops| && Settled(st) && !b.ops[pc].OFuncall?
    ensures StepNormal(w, b, fuel, pc, st).Some? ==> Stays(st, StepNormal(w, b, fuel, pc, st).value.st)
  {
    hide Stays, Settled, Funcall, DoReturn, DoElse, EnterGroup, EnterFn, End, Stash, PushLambda, DoPutArgs, DoGetVar;
    hide DoPutVar, DoFuncdef, Push;
    StackChanges(w, st);
    Leaves(w, st);
    ValueChanges(w, st);
    if b.ops[pc].OReturn? && b.ops[pc].imp in w.imps { ReturnStays(w, st, b.ops[pc].imp); }
  }

  lemma ErrorStays(w: World, b: Bin, fuel: nat, pc: nat, st: State)
    requires pc < |b.ops| && Settled(st) && st.errors != [] && !(b.ops[pc].OCatch? && b.ops[pc].ty.None?)
    ensures StepError(w, b, fuel, pc, st).Some? ==> Stays(st, StepError(w, b, fuel, pc, st).value.st)
  {
    hide Stays, Settled, RunOps, End, LeaveFn, CatchError, DoFuncdef;
    StackChanges(w, st);
    Leaves(w, st);
    ValueChanges(w, st);
  }

  lemma {:induction false} StepEqual(w: World, b: Bin, fuel: nat, pc: nat, st: State)
    requires Emittable(b) && NoNames(b) && NoRecalls(w) && pc < |b.ops| && Settled(st)
    requires forall k | 0 <= k < fuel :: Equals(w, b, k)
    ensures Label(w, b, fuel, pc, st) == Step(w, b, fuel, pc, st)
    ensures Step(w, b, fuel, pc, st).Some? ==> Stays(st, Step(w, b, fuel, pc, st).value.st)
    decreases fuel, |b.ops| - pc, 0
  {
    hide RunOps, RunLabels, Label, RunStmts, Funcall, DoReturn;
    if st.errors == [] && b.ops[pc].OFuncall? {
      LabelRuns(w, b, fuel, pc, SCall(pc, b.ops[pc].func, b.ops[pc].imp0, pc + 1), st);
      FuncallEqual(w, b, fuel, pc, b.ops[pc].func, st);
    } else if st.errors != [] && b.ops[pc].OCatch? && b.ops[pc].ty.None? {
      LabelRuns(w, b, fuel, pc, SCleanup(pc + 1, pc + 1 + b.ops[pc].nops), st);
      LabelsEqual(w, b, fuel, pc + 1, pc + 1 + b.ops[pc].nops, DropError(st));
    } else {
      LabelIsStep(w, b, fuel, pc, st);
      assert !FailingRecall(w, b, pc, st);
      PlainStays(w, b, fuel, pc, st);
    }
  }

  lemma {:induction false} LabelsEqual(w: World, b: Bin, fuel: nat, pc: nat, stop: int, st: State)
    requires Emittable(b) && NoNames(b) && NoRecalls(w) && Settled(st)
    requires forall k | 0 <= k < fuel :: Equals(w, b, k)
    ensures Equal(st, RunLabels(w, b, fuel, pc, stop, st), RunOps(w, b, fuel, pc, stop, st))
    decreases fuel, if pc < |b.ops| then |b.ops| - pc else 0, 1
  {
    hide Label, Step;
    if pc < |b.ops| && pc != stop {
      StepEqual(w, b, fuel, pc, st);
      var r := Step(w, b, fuel, pc, st);
      if r.Some? {
        if r.value.pc > pc { LabelsEqual(w, b, fuel, r.value.pc, stop, r.value.st); }
        else if fuel > 0 { LabelsEqual(w, b, fuel - 1, r.value.pc, stop, r.value.st); }
      }
    }
  }

  lemma {:induction false} TargetsEqual(w: World, b: Bin, fuel: nat)
    requires Emittable(b) && NoNames(b) && NoRecalls(w)
    ensures Equals(w, b, fuel)
    decreases fuel
  {
    hide RunLabels, RunOps;
    forall k | 0 <= k < fuel ensures Equals(w, b, k) { TargetsEqual(w, b, k); }
    forall t, st: State | Settled(st)
      ensures Equal(st, RunTarget(Emitted, w, b, fuel, t, st), RunTarget(Interp, w, b, fuel, t, st))
    { TargetEqual(w, b, fuel, t, st); }
  }

  lemma TargetEqual(w: World, b: Bin, fuel: nat, t: Target, st: State)
    requires Emittable(b) && NoNames(b) && NoRecalls(w) && Settled(st) && forall k | 0 <= k < fuel :: Equals(w, b, k)
    ensures Equal(st, RunTarget(Emitted, w, b, fuel, t, st), RunTarget(Interp, w, b, fuel, t, st))
  {
    hide RunLabels, RunOps;
    match t
    case BodyOf(imp) =>
      if imp in b.fimps && b.fimps[imp].nops >= 0 {
        LabelsEqual(w, b, fuel, b.fimps[imp].start, b.fimps[imp].start + b.fimps[imp].nops, st);
      }
    case LambdaAt(at) =>
      if at < |b.ops| && b.ops[at].OLambda? {
        LabelsEqual(w, b, fuel, b.ops[at].start, b.ops[at].start + b.ops[at].nops, st);
      }
  }

  // ---- the result ----------------------------------------------------------

  /** Such a program does exactly the same as emitted code and in the loop: it meets the
      same ops in the same modes and ends in the same state, or runs out of the same
      fuel. */
  lemma EmittedEqualsOps(w: World, b: Bin, fuel: nat, pc: nat, stop: int, st: State)
    requires Emittable(b) && NoNames(b) && NoRecalls(w) && Settled(st)
    ensures RunLabels(w, b, fuel, pc, stop, st) == RunOps(w, b, fuel, pc, stop, st)
    ensures RunOps(w, b, fuel, pc, stop, st).Some? ==>
              LabelVisits(w, b, fuel, pc, stop, st) == OpVisits(w, b, fuel, pc, stop, st)
  {
    forall k | 0 <= k < fuel ensures Equals(w, b, k) { TargetsEqual(w, b, k); }
    LabelsEqual(w, b, fuel, pc, stop, st);
    EmittedRunsAsOps(w, b, fuel, pc, stop, st);
  }
}
