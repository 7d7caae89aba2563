/** The emitted `goto` program does what the eval loop does: label by label, and
    over whole runs. */
module EmitProof {
  import opened Basics
  import opened VmState
  import opened Vm
  import opened Sticky
  import opened Visits

  /** Ended without a parting since there were `n`. */
  ghost predicate Quiet(n: nat, x: Option<State>) {
    x.Some? && x.value.partings == n
  }

  /** Equal outcomes, unless both have parted. */
  ghost predicate Near(n: nat, x: Option<State>, y: Option<State>) {
    Quiet(n, x) || Quiet(n, y) ==> x == y
  }

  ghost predicate NearNext(n: nat, x: Option<Next>, y: Option<Next>) {
    (x.Some? && x.value.st.partings == n) || (y.Some? && y.value.st.partings == n) ==> x == y
  }

  /** Every OFIMP stands before a finished function. */
  ghost predicate Emittable(b: Bin) {
    forall i :: 0 <= i < |b.ops| && b.ops[i].OFimp? ==> b.ops[i].imp in b.fimps && b.fimps[b.ops[i].imp].nops >= 0
  }

  // ---- one label -----------------------------------------------------------

  /** Call sites decide alike except when the last dispatch there failed and the
      implementation the site was printed with applies now. */
  lemma ResolvedAlike(w: World, site: nat, func: Func, imp0: Option<Imp>, st: State)
    ensures ResolveEmitted(w, site, func, imp0, st) == Resolve(w, site, func, imp0, st)
       <==> !Stale(w, site, imp0, st)
  {
  }

  ghost predicate FailingRecall(w: World, b: Bin, pc: nat, st: State)
    requires pc < |b.ops|
  {
    && b.ops[pc].OReturn? && b.ops[pc].imp in w.imps && st.errors == []
    && TopCall(st).recalls > 0 && RecallFails(w, st, b.ops[pc].imp)
  }

  /** For every op but a call or a clean-up clause, the label takes the same state to
      the same state and label, except at a recall whose check fails: the printed
      code has not counted it down yet. */
  lemma LabelIsStep(w: World, b: Bin, fuel: nat, pc: nat, st: State)
    requires pc < |b.ops| && Emittable(b)
    requires !(st.errors == [] && b.ops[pc].OFuncall?) && !(st.errors != [] && b.ops[pc].OCatch? && b.ops[pc].ty.None?)
    ensures Label(w, b, fuel, pc, st) == Step(w, b, fuel, pc, st) <==> !FailingRecall(w, b, pc, st)
    ensures NearNext(st.partings, Label(w, b, fuel, pc, st), Step(w, b, fuel, pc, st))
  {
    hide RunOps, RunLabels, DoReturn, Funcall;
    if b.ops[pc].OReturn? && st.errors == [] {
      ReturnLabel(w, b, fuel, pc, st);
    } else {
      PlainLabel(w, b, fuel, pc, st);
    }
  }

  /** A block of one statement. */
  lemma OneStmt(w: World, b: Bin, fuel: nat, pc: nat, s: Stmt, st: State)
    requires pc < |b.ops|
    ensures RunStmts(w, b, fuel, pc, [s], st) == RunStmt(w, b, fuel, pc, s, st)
  {
    hide RunStmt;
    var r := RunStmt(w, b, fuel, pc, s, st);
    if r.Some? && r.value.Fall? { assert RunStmts(w, b, fuel, pc, [s][1..], r.value.st) == r; }
  }

  lemma LabelRuns(w: World, b: Bin, fuel: nat, pc: nat, s: Stmt, st: State)
    requires pc < |b.ops| && Chosen(b, pc, st) == [s]
    ensures var r := RunStmt(w, b, fuel, pc, s, st);
            Label(w, b, fuel, pc, st) ==
              if r.None? then None
              else Some(Next(if r.value.Fall? then pc + 1 else r.value.target, r.value.st))
  {
    hide RunStmt, RunStmts;
    OneStmt(w, b, fuel, pc, s, st);
  }

  lemma LabelFalls(w: World, b: Bin, fuel: nat, pc: nat, st: State)
    requires pc < |b.ops| && Chosen(b, pc, st) == []
    ensures Label(w, b, fuel, pc, st) == Some(Next(pc + 1, st))
  {
  }

  lemma PlainLabel(w: World, b: Bin, fuel: nat, pc: nat, st: State)
    requires pc < |b.ops| && Emittable(b)
    requires !(st.errors == [] && (b.ops[pc].OFuncall? || b.ops[pc].OReturn?))
    requires !(st.errors != [] && b.ops[pc].OCatch? && b.ops[pc].ty.None?)
    ensures Label(w, b, fuel, pc, st) == Step(w, b, fuel, pc, st)
  {
    hide RunOps, RunLabels, Funcall, Label, RunStmts, DoReturn, EnterFn, End, PushLambda;
    var body := Chosen(b, pc, st);
    if body == [] {
      LabelFalls(w, b, fuel, pc, st);
    } else if b.ops[pc].OLambda? && st.errors == [] {
      LambdaLabel(w, b, fuel, pc, st);
    } else {
      LabelRuns(w, b, fuel, pc, body[0], st);
    }
  }

  lemma FirstFalls(w: World, b: Bin, fuel: nat, pc: nat, body: seq<Stmt>, st: State, st1: State)
    requires pc < |b.ops| && |body| == 2 && RunStmt(w, b, fuel, pc, body[0], st) == Some(Fall(st1))
    ensures RunStmts(w, b, fuel, pc, body, st) == RunStmts(w, b, fuel, pc, [body[1]], st1)
  {
    assert body[1..] == [body[1]];
  }

  lemma LambdaLabel(w: World, b: Bin, fuel: nat, pc: nat, st: State)
    requires pc < |b.ops| && b.ops[pc].OLambda? && st.errors == []
    ensures Label(w, b, fuel, pc, st) == Some(Next(pc + 1 + b.ops[pc].nops, PushLambda(st, pc)))
  {
    hide RunStmts;
    var (go, st1) := (SGoto(pc + b.ops[pc].nops + 1), PushLambda(st, pc));
    OneStmt(w, b, fuel, pc, go, st1);
    FirstFalls(w, b, fuel, pc, [SLambda(pc), go], st, st1);
  }

  lemma ReturnLabel(w: World, b: Bin, fuel: nat, pc: nat, st: State)
    requires pc < |b.ops| && b.ops[pc].OReturn? && st.errors == []
    ensures Label(w, b, fuel, pc, st) == Step(w, b, fuel, pc, st) <==> !FailingRecall(w, b, pc, st)
    ensures NearNext(st.partings, Label(w, b, fuel, pc, st), Step(w, b, fuel, pc, st))
  {
    hide RunOps, RunLabels, Funcall, Label, RunStmts, DoReturn, RecallFails;
    var (imp, start) := (b.ops[pc].imp, b.ops[pc].pc);
    LabelRuns(w, b, fuel, pc, SReturn(imp, pc + 1, start + 1), st);
    if imp in w.imps && TopCall(st).recalls > 0 && RecallFails(w, st, imp) { CountsDown(w, st, imp); }
  }

  lemma CountsDown(w: World, st: State, imp: Imp)
    requires imp in w.imps && TopCall(st).recalls > 0 && RecallFails(w, st, imp)
    ensures DoReturn(w, st, imp).Leave? && DoReturn(w, st, imp).st.partings == st.partings + 1
    ensures DoReturn(w, st, imp).st != Part(Bad(Error(st, "Recall not applicable")))
  {
    var st1 := SetTopCall(st, TopCall(st).(recalls := TopCall(st).recalls - 1));
    assert TopCall(st1).recalls == TopCall(st).recalls - 1;
    assert DoReturn(w, st, imp).st.calls == st1.calls;
  }

  // ---- whole runs ----------------------------------------------------------

  /** The claim for one body called with this much fuel. */
  ghost predicate AlikeAt(w: World, b: Bin, fuel: nat, t: Target, st: State) {
    && Near(st.partings, RunTarget(Emitted, w, b, fuel, t, st), RunTarget(Interp, w, b, fuel, t, st))
    && (Quiet(st.partings, RunTarget(Interp, w, b, fuel, t, st)) ==>
          TargetVisits(Emitted, w, b, fuel, t, st) == TargetVisits(Interp, w, b, fuel, t, st))
  }

  ghost predicate Alike(w: World, b: Bin, fuel: nat) {
    forall t, st: State :: AlikeAt(w, b, fuel, t, st)
  }

  lemma {:induction false} PrimAlike(w: World, b: Bin, fuel: nat, p: Prim, hist: seq<State>)
    requires hist != [] && forall k | 0 <= k < fuel :: Alike(w, b, k)
    ensures var n := hist[|hist| - 1].partings;
            && Near(n, RunPrim(Emitted, w, b, fuel, p, hist), RunPrim(Interp, w, b, fuel, p, hist))
            && (Quiet(n, RunPrim(Interp, w, b, fuel, p, hist)) ==>
                  PrimVisits(Emitted, w, b, fuel, p, hist) == PrimVisits(Interp, w, b, fuel, p, hist))
    decreases fuel, 0
  {
    hide CallValue, ValueVisits;
    match w.prim(p, hist)
    case Done(st) =>
    case Ask(v, scope, st) =>
      if fuel > 0 {
        var st1 := Carry(hist, st);
        ValueAlike(w, b, fuel - 1, v, scope, st1);
        ValueKeeps(Emitted, w, b, fuel - 1, v, scope, st1);
        ValueKeeps(Interp, w, b, fuel - 1, v, scope, st1);
        var x := CallValue(Emitted, w, b, fuel - 1, v, scope, st1);
        var y := CallValue(Interp, w, b, fuel - 1, v, scope, st1);
        if x.Some? { PrimKeeps(Emitted, w, b, fuel - 1, p, hist + [x.value]); }
        if y.Some? { PrimKeeps(Interp, w, b, fuel - 1, p, hist + [y.value]); }
        if x.Some? && x.value.partings == st1.partings { PrimAlike(w, b, fuel - 1, p, hist + [x.value]); }
      }
  }

  lemma LambdaCounts(lib: Lib, home: nat, scope: nat, st: State)
    ensures EnterLambda(lib, home, scope, st).partings == st.partings
    ensures forall popLib, popScope, r :: LeaveLambda(popLib, popScope, r).partings == r.partings
  {
  }

  lemma {:induction false} ValueAlike(w: World, b: Bin, fuel: nat, v: Value, scope: nat, st: State)
    requires forall k | 0 <= k < fuel :: Alike(w, b, k)
    ensures Near(st.partings, CallValue(Emitted, w, b, fuel, v, scope, st), CallValue(Interp, w, b, fuel, v, scope, st))
    ensures Quiet(st.partings, CallValue(Interp, w, b, fuel, v, scope, st)) ==>
              ValueVisits(Emitted, w, b, fuel, v, scope, st) == ValueVisits(Interp, w, b, fuel, v, scope, st)
    decreases fuel, 2
  {
    hide RunTarget, CallImp, TargetVisits, ImpVisits;
    match v
    case LambdaV(at, lib, home) =>
      if fuel > 0 {
        LambdaCounts(lib, home, scope, st);
        hide EnterLambda, LeaveLambda;
        assert Alike(w, b, fuel - 1);
        assert AlikeAt(w, b, fuel - 1, LambdaAt(at), EnterLambda(lib, home, scope, st));
      }
    case FimpV(imp) => ImpAlike(w, b, fuel, imp, scope, st);
    case FuncV(func) =>
      var imp := w.best(func, Obj(st, scope).stack);
      if imp.Some? { ImpAlike(w, b, fuel, imp.value, scope, st); }
    case _ =>
  }

  lemma {:induction false} ImpAlike(w: World, b: Bin, fuel: nat, imp: Imp, scope: nat, st: State)
    requires forall k | 0 <= k < fuel :: Alike(w, b, k)
    ensures Near(st.partings, CallImp(Emitted, w, b, fuel, imp, scope, st), CallImp(Interp, w, b, fuel, imp, scope, st))
    ensures Quiet(st.partings, CallImp(Interp, w, b, fuel, imp, scope, st)) ==>
              ImpVisits(Emitted, w, b, fuel, imp, scope, st) == ImpVisits(Interp, w, b, fuel, imp, scope, st)
    decreases fuel, 1
  {
    hide RunTarget, RunPrim, TargetVisits, PrimVisits;
    if fuel > 0 && imp in w.imps {
      var info := w.imps[imp];
      var st2 := PopArgs(st.(calls := st.calls + [Call(imp, scope, [], 0)]), |info.args|);
      match info.prim
      case Some(p) => PrimAlike(w, b, fuel - 1, p, [if InLib(st2, info.lib) then st2 else PushLib(st2, info.lib)]);
      case None =>
        assert Alike(w, b, fuel - 1);
        assert AlikeAt(w, b, fuel - 1, BodyOf(imp), st2);
    }
  }

  lemma ResolveKeeps(w: World, site: nat, func: Func, imp0: Option<Imp>, st: State)
    ensures Resolve(w, site, func, imp0, st).0.partings == st.partings
    ensures ResolveEmitted(w, site, func, imp0, st).0.partings == st.partings
    ensures Met(w, site, imp0, st).partings == st.partings + if Stale(w, site, imp0, st) then 1 else 0
    ensures !Stale(w, site, imp0, st) ==> Met(w, site, imp0, st) == st
  {
  }

  /** A site where the two rules part is counted by both; everywhere else they agree. */
  lemma CallAlike(w: World, b: Bin, fuel: nat, site: nat, func: Func, imp0: Option<Imp>, st: State)
    requires forall k | 0 <= k < fuel :: Alike(w, b, k)
    ensures Near(st.partings, Funcall(Emitted, w, b, fuel, site, func, imp0, st),
              Funcall(Interp, w, b, fuel, site, func, imp0, st))
    ensures Quiet(st.partings, Funcall(Interp, w, b, fuel, site, func, imp0, st)) ==>
              FuncallVisits(Emitted, w, b, fuel, site, func, imp0, st)
                  == FuncallVisits(Interp, w, b, fuel, site, func, imp0, st)
  {
    hide CallImp, Resolve, ResolveEmitted, ImpVisits, Stale, Met;
    var st0 := Met(w, site, imp0, st);
    ResolveKeeps(w, site, func, imp0, st);
    if Stale(w, site, imp0, st) {
      ResolveKeeps(w, site, func, imp0, st0);
      StaleParts(Emitted, w, b, fuel, site, func, imp0, st);
      StaleParts(Interp, w, b, fuel, site, func, imp0, st);
    } else {
      ResolvedAlike(w, site, func, imp0, st);
      var (st1, imp) := Resolve(w, site, func, imp0, st);
      if imp.Some? { ImpAlike(w, b, fuel, imp.value, Top(st1), st1); }
    }
  }

  lemma StaleParts(eng: Engine, w: World, b: Bin, fuel: nat, site: nat, func: Func, imp0: Option<Imp>, st: State)
    requires Stale(w, site, imp0, st)
    ensures !Quiet(st.partings, Funcall(eng, w, b, fuel, site, func, imp0, st))
  {
    hide CallImp, Resolve, ResolveEmitted, Stale, Met;
    var st0 := Met(w, site, imp0, st);
    ResolveKeeps(w, site, func, imp0, st);
    ResolveKeeps(w, site, func, imp0, st0);
    var (st1, imp) := if eng == Emitted then ResolveEmitted(w, site, func, imp0, st0)
        else Resolve(w, site, func, imp0, st0);
    if imp.Some? { ImpKeeps(eng, w, b, fuel, imp.value, Top(st1), st1); }
  }

  lemma {:induction false} StepAlike(w: World, b: Bin, fuel: nat, pc: nat, st: State)
    requires pc < |b.ops| && Emittable(b) && forall k | 0 <= k < fuel :: Alike(w, b, k)
    ensures NearNext(st.partings, Label(w, b, fuel, pc, st), Step(w, b, fuel, pc, st))
    ensures Step(w, b, fuel, pc, st).Some? && Step(w, b, fuel, pc, st).value.st.partings == st.partings ==>
              InBlock(w, b, fuel, pc, Chosen(b, pc, st), st) == InOp(w, b, fuel, pc, st)
    decreases fuel, |b.ops| - pc, 0
  {
    hide RunOps, RunLabels, Label, RunStmts, Funcall, OpVisits, LabelVisits, FuncallVisits;
    if st.errors == [] && b.ops[pc].OFuncall? {
      LabelRuns(w, b, fuel, pc, SCall(pc, b.ops[pc].func, b.ops[pc].imp0, pc + 1), st);
      CallAlike(w, b, fuel, pc, b.ops[pc].func, b.ops[pc].imp0, st);
    } else if st.errors != [] && b.ops[pc].OCatch? && b.ops[pc].ty.None? {
      LabelRuns(w, b, fuel, pc, SCleanup(pc + 1, pc + 1 + b.ops[pc].nops), st);
      LabelsAlike(w, b, fuel, pc + 1, pc + 1 + b.ops[pc].nops, DropError(st));
    } else {
      LabelIsStep(w, b, fuel, pc, st);
      PlainVisits(w, b, fuel, pc, st);
    }
  }

  lemma PlainVisits(w: World, b: Bin, fuel: nat, pc: nat, st: State)
    requires pc < |b.ops|
    requires !(st.errors == [] && b.ops[pc].OFuncall?) && !(st.errors != [] && b.ops[pc].OCatch? && b.ops[pc].ty.None?)
    ensures InBlock(w, b, fuel, pc, Chosen(b, pc, st), st) == [] == InOp(w, b, fuel, pc, st)
  {
    hide OpVisits, LabelVisits, FuncallVisits;
  }

  lemma {:induction false} LabelsAlike(w: World, b: Bin, fuel: nat, pc: nat, stop: int, st: State)
    requires Emittable(b) && forall k | 0 <= k < fuel :: Alike(w, b, k)
    ensures Near(st.partings, RunLabels(w, b, fuel, pc, stop, st), RunOps(w, b, fuel, pc, stop, st))
    ensures Quiet(st.partings, RunOps(w, b, fuel, pc, stop, st)) ==>
              LabelVisits(w, b, fuel, pc, stop, st) == OpVisits(w, b, fuel, pc, stop, st)
    decreases fuel, if pc < |b.ops| then |b.ops| - pc else 0, 1
  {
    hide Label, Step, InBlock, InOp;
    if pc < |b.ops| && pc != stop {
      StepAlike(w, b, fuel, pc, st);
      LabelKeeps(w, b, fuel, pc, st);
      StepKeeps(w, b, fuel, pc, st);
      var x := Label(w, b, fuel, pc, st);
      var y := Step(w, b, fuel, pc, st);
      if x.Some? { LabelsKeep(w, b, fuel, x.value.pc, stop, x.value.st); }
      if y.Some? { OpsKeep(w, b, fuel, y.value.pc, stop, y.value.st); }
      if x.Some? && fuel > 0 { LabelsKeep(w, b, fuel - 1, x.value.pc, stop, x.value.st); }
      if y.Some? && fuel > 0 { OpsKeep(w, b, fuel - 1, y.value.pc, stop, y.value.st); }
      if x.Some? && x == y {
        if x.value.pc > pc { LabelsAlike(w, b, fuel, x.value.pc, stop, x.value.st); }
        else if fuel > 0 { LabelsAlike(w, b, fuel - 1, x.value.pc, stop, x.value.st); }
      }
    }
  }

  lemma {:induction false} TargetsAlike(w: World, b: Bin, fuel: nat)
    requires Emittable(b)
    ensures Alike(w, b, fuel)
    decreases fuel
  {
    hide AlikeAt;
    forall k | 0 <= k < fuel ensures Alike(w, b, k) { TargetsAlike(w, b, k); }
    forall t, st: State ensures AlikeAt(w, b, fuel, t, st) { TargetAlike(w, b, fuel, t, st); }
  }

  lemma TargetAlike(w: World, b: Bin, fuel: nat, t: Target, st: State)
    requires Emittable(b) && forall k | 0 <= k < fuel :: Alike(w, b, k)
    ensures AlikeAt(w, b, fuel, t, st)
  {
    hide RunFlat, FlatVisits;
    match t
    case BodyOf(imp) =>
      if imp in b.fimps && b.fimps[imp].nops >= 0 {
        FlatAlike(w, b, fuel, b.fimps[imp].start, b.fimps[imp].start + b.fimps[imp].nops, st);
      }
    case LambdaAt(at) =>
      if at < |b.ops| && b.ops[at].OLambda? {
        FlatAlike(w, b, fuel, b.ops[at].start, b.ops[at].start + b.ops[at].nops, st);
      }
  }

  lemma FlatAlike(w: World, b: Bin, fuel: nat, start: nat, stop: int, st: State)
    requires Emittable(b) && forall k | 0 <= k < fuel :: Alike(w, b, k)
    ensures Near(st.partings, RunFlat(Emitted, w, b, fuel, start, stop, st),
              RunFlat(Interp, w, b, fuel, start, stop, st))
    ensures Quiet(st.partings, RunFlat(Interp, w, b, fuel, start, stop, st)) ==>
              FlatVisits(Emitted, w, b, fuel, start, stop, st) == FlatVisits(Interp, w, b, fuel, start, stop, st)
  {
    hide RunLabels, RunOps, OpVisits, LabelVisits;
    LabelsAlike(w, b, fuel, start, stop, st);
  }

  /** For every start label, stop label, entry state and mode: the emitted program
      and the eval loop meet the same ops in the same modes and end in the same state,
      unless they part, which both count: at a recall whose check fails, or at a call
      site whose last dispatch failed and whose printed implementation applies now. */
  lemma EmittedRunsAsOps(w: World, b: Bin, fuel: nat, pc: nat, stop: int, st: State)
    requires Emittable(b)
    ensures Near(st.partings, RunLabels(w, b, fuel, pc, stop, st), RunOps(w, b, fuel, pc, stop, st))
    ensures Quiet(st.partings, RunOps(w, b, fuel, pc, stop, st)) ==>
              LabelVisits(w, b, fuel, pc, stop, st) == OpVisits(w, b, fuel, pc, stop, st)
  {
    forall k | 0 <= k < fuel ensures Alike(w, b, k) { TargetsAlike(w, b, k); }
    LabelsAlike(w, b, fuel, pc, stop, st);
  }
}
