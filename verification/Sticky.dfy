/** A parting is never forgotten: its count does not go back, whichever engine runs. */
module Sticky {
  import opened Basics
  import opened VmState
  import opened Vm

  ghost predicate Kept(st: State, r: Option<State>) {
    r.Some? ==> st.partings <= r.value.partings
  }

  ghost predicate KeptNext(st: State, r: Option<Next>) {
    r.Some? ==> st.partings <= r.value.st.partings
  }

  ghost predicate KeptFlow(st: State, r: Option<Flow>) {
    r.Some? ==> st.partings <= r.value.st.partings
  }

  lemma {:induction false} ImpKeeps(eng: Engine, w: World, b: Bin, fuel: nat, imp: Imp, scope: nat, st: State)
    ensures Kept(st, CallImp(eng, w, b, fuel, imp, scope, st))
    decreases fuel, 0, 0, 0
  {
    hide RunTarget, RunPrim;
    if fuel > 0 && imp in w.imps {
      var info := w.imps[imp];
      var st2 := PopArgs(st.(calls := st.calls + [Call(imp, scope, [], 0)]), |info.args|);
      match info.prim
      case None => TargetKeeps(eng, w, b, fuel - 1, BodyOf(imp), st2);
      case Some(p) => PrimKeeps(eng, w, b, fuel - 1, p, [if InLib(st2, info.lib) then st2 else PushLib(st2, info.lib)]);
    }
  }

  lemma {:induction false} PrimKeeps(eng: Engine, w: World, b: Bin, fuel: nat, p: Prim, hist: seq<State>)
    requires hist != []
    ensures Kept(hist[|hist| - 1], RunPrim(eng, w, b, fuel, p, hist))
    decreases fuel, 0, 0, 0
  {
    hide CallValue;
    match w.prim(p, hist)
    case Done(st) =>
    case Ask(v, scope, st) =>
      if fuel > 0 {
        ValueKeeps(eng, w, b, fuel - 1, v, scope, Carry(hist, st));
        var r := CallValue(eng, w, b, fuel - 1, v, scope, Carry(hist, st));
        if r.Some? { PrimKeeps(eng, w, b, fuel - 1, p, hist + [r.value]); }
      }
  }

  lemma {:induction false} ValueKeeps(eng: Engine, w: World, b: Bin, fuel: nat, v: Value, scope: nat, st: State)
    ensures Kept(st, CallValue(eng, w, b, fuel, v, scope, st))
    decreases fuel, 2, 0, 0
  {
    hide RunTarget, CallImp;
    match v
    case LambdaV(at, lib, home) =>
      if fuel > 0 { TargetKeeps(eng, w, b, fuel - 1, LambdaAt(at), EnterLambda(lib, home, scope, st)); }
    case FimpV(imp) => ImpKeeps(eng, w, b, fuel, imp, scope, st);
    case FuncV(func) =>
      var imp := w.best(func, Obj(st, scope).stack);
      if imp.Some? { ImpKeeps(eng, w, b, fuel, imp.value, scope, st); }
    case _ =>
  }

  lemma {:induction false} FuncallKeeps(eng: Engine, w: World, b: Bin, fuel: nat, site: nat, func: Func,
                                        imp0: Option<Imp>, st: State)
    ensures Kept(st, Funcall(eng, w, b, fuel, site, func, imp0, st))
    decreases fuel, 2, 0, 0
  {
    hide CallImp;
    var st0 := Met(w, site, imp0, st);
    var (st1, imp) := if eng == Emitted then ResolveEmitted(w, site, func, imp0, st0)
        else Resolve(w, site, func, imp0, st0);
    if imp.Some? { ImpKeeps(eng, w, b, fuel, imp.value, Top(st1), st1); }
  }

  lemma {:induction false} TargetKeeps(eng: Engine, w: World, b: Bin, fuel: nat, t: Target, st: State)
    ensures Kept(st, RunTarget(eng, w, b, fuel, t, st))
    decreases fuel, 6, 0, 0
  {
    hide RunOps, RunLabels, EvalSeq, FnTree, FnRounds;
    match t
    case BodyOf(imp) =>
      if eng == Tree {
        if imp in b.fns && imp in w.imps { FnKeeps(w, b, fuel, imp, st); }
      } else if imp in b.fimps && b.fimps[imp].nops >= 0 {
        FlatKeeps(eng, w, b, fuel, b.fimps[imp].start, b.fimps[imp].start + b.fimps[imp].nops, st);
      }
    case LambdaAt(at) =>
      if eng == Tree {
        if at in b.lams { SeqKeeps(w, b, fuel, b.lams[at], st); }
      } else if at < |b.ops| && b.ops[at].OLambda? {
        FlatKeeps(eng, w, b, fuel, b.ops[at].start, b.ops[at].start + b.ops[at].nops, st);
      }
  }

  lemma {:induction false} FlatKeeps(eng: Engine, w: World, b: Bin, fuel: nat, start: nat, stop: int, st: State)
    ensures Kept(st, RunFlat(eng, w, b, fuel, start, stop, st))
    decreases fuel, 5, 0, 0
  {
    if eng == Emitted { LabelsKeep(w, b, fuel, start, stop, st); } else { OpsKeep(w, b, fuel, start, stop, st); }
  }

  // ---- the direct meaning --------------------------------------------------

  lemma {:induction false} SeqKeeps(w: World, b: Bin, fuel: nat, ns: seq<Node>, st: State)
    ensures Kept(st, EvalSeq(w, b, fuel, ns, st))
    decreases fuel, 3, ns, 0
  {
    if ns != [] {
      NodeKeeps(w, b, fuel, ns[0], st);
      var r := EvalNode(w, b, fuel, ns[0], st);
      if r.Some? { SeqKeeps(w, b, fuel, ns[1..], r.value); }
    }
  }

  lemma {:induction false} NodeKeeps(w: World, b: Bin, fuel: nat, n: Node, st: State)
    ensures Kept(st, EvalNode(w, b, fuel, n, st))
    decreases fuel, 3, n, 0
  {
    hide EvalSeq, EvalCases, Funcall;
    match n
    case NGroup(body) => SeqKeeps(w, b, fuel, body, EnterGroup(st));
    case NStack(body) => SeqKeeps(w, b, fuel, body, EnterGroup(st));
    case NCall(site, func, imp, inl) => FuncallKeeps(Tree, w, b, fuel, site, func, imp, st);
    case NCatch(ty, body) => CatchKeeps(w, b, fuel, ty, body, st);
    case NSwitch(cases) => CasesKeep(w, b, fuel, cases, st);
    case _ =>
  }

  lemma {:induction false} CatchKeeps(w: World, b: Bin, fuel: nat, ty: Option<TypeId>, body: seq<Node>, st: State)
    ensures Kept(st, EvalNode(w, b, fuel, NCatch(ty, body), st))
    decreases fuel, 3, body, 1
  {
    hide EvalSeq;
    if st.errors == [] {
      if ty.None? { SeqKeeps(w, b, fuel, body, st); }
    } else if ty.None? {
      SeqKeeps(w, b, fuel, body, DropError(st));
      var r := EvalSeq(w, b, fuel, body, DropError(st));
      if r.Some? { SeqKeeps(w, b, fuel, body, Rethrow(r.value, st.errors[|st.errors| - 1])); }
    } else if Catches(w, st, ty.value) {
      SeqKeeps(w, b, fuel, body, CatchError(st));
    }
  }

  lemma {:induction false} CasesKeep(w: World, b: Bin, fuel: nat, cs: seq<Case>, st: State)
    ensures Kept(st, EvalCases(w, b, fuel, cs, st))
    decreases fuel, 3, cs, 0
  {
    hide EvalSeq;
    if cs != [] {
      SeqKeeps(w, b, fuel, cs[0].cond, st);
      var r := EvalSeq(w, b, fuel, cs[0].cond, st);
      if r.Some? {
        if r.value.errors != [] {
          SeqKeeps(w, b, fuel, cs[0].body, r.value);
        } else {
          match DoElse(w, r.value)
          case Taken(st1) => SeqKeeps(w, b, fuel, cs[0].body, st1);
          case Skipped(st1) => CasesKeep(w, b, fuel, cs[1..], st1);
        }
      }
    }
  }

  lemma {:induction false} FnKeeps(w: World, b: Bin, fuel: nat, imp: Imp, st: State)
    requires imp in w.imps && imp in b.fns
    ensures Kept(st, FnTree(w, b, fuel, imp, st))
    decreases fuel, 5, 0, 0
  {
    hide FnRounds;
    if st.errors == [] { RoundsKeep(w, b, fuel, imp, EnterFn(w, st, imp)); }
  }

  lemma {:induction false} RoundsKeep(w: World, b: Bin, fuel: nat, imp: Imp, st: State)
    requires imp in w.imps && imp in b.fns
    ensures Kept(st, FnRounds(w, b, fuel, imp, st))
    decreases fuel, 4, 0, 0
  {
    hide EvalSeq, DoReturn;
    var st1 := if st.errors == [] then DoPutArgs(w, st, imp) else st;
    SeqKeeps(w, b, fuel, b.fns[imp], st1);
    var r := EvalSeq(w, b, fuel, b.fns[imp], st1);
    if r.Some? {
      ReturnKeeps(w, r.value, imp);
      if r.value.errors == [] && DoReturn(w, r.value, imp).Again? && fuel > 0 {
        RoundsKeep(w, b, fuel - 1, imp, DoReturn(w, r.value, imp).st);
      }
    }
  }

  lemma ReturnKeeps(w: World, st: State, imp: Imp)
    requires imp in w.imps
    ensures st.partings <= DoReturn(w, st, imp).st.partings <= st.partings + 1
    ensures DoReturn(w, st, imp).Again? ==> DoReturn(w, st, imp).st.partings == st.partings
    ensures TopCall(st).recalls > 0 && RecallFails(w, st, imp) ==>
              DoReturn(w, st, imp).Leave? && DoReturn(w, st, imp).st.partings == st.partings + 1
  {
  }

  // ---- the eval loop -------------------------------------------------------

  lemma {:induction false} OpsKeep(w: World, b: Bin, fuel: nat, pc: nat, stop: int, st: State)
    ensures Kept(st, RunOps(w, b, fuel, pc, stop, st))
    decreases fuel, 4, if pc < |b.ops| then |b.ops| - pc else 0, 2
  {
    hide Step;
    if pc < |b.ops| && pc != stop {
      StepKeeps(w, b, fuel, pc, st);
      var r := Step(w, b, fuel, pc, st);
      if r.Some? {
        if r.value.pc > pc { OpsKeep(w, b, fuel, r.value.pc, stop, r.value.st); }
        else if fuel > 0 { OpsKeep(w, b, fuel - 1, r.value.pc, stop, r.value.st); }
      }
    }
  }

  lemma {:induction false} StepKeeps(w: World, b: Bin, fuel: nat, pc: nat, st: State)
    requires pc < |b.ops|
    ensures KeptNext(st, Step(w, b, fuel, pc, st))
    decreases fuel, 4, |b.ops| - pc, 1
  {
    hide StepError, StepNormal;
    if st.errors == [] { NormalKeeps(w, b, fuel, pc, st); } else { ErrorKeeps(w, b, fuel, pc, st); }
  }

  lemma {:induction false} NormalKeeps(w: World, b: Bin, fuel: nat, pc: nat, st: State)
    requires pc < |b.ops|
    ensures KeptNext(st, StepNormal(w, b, fuel, pc, st))
    decreases fuel, 3, 0, 0
  {
    hide Funcall, DoReturn;
    match b.ops[pc]
    case OFuncall(func, imp0) => FuncallKeeps(Interp, w, b, fuel, pc, func, imp0, st);
    case OReturn(imp, start) => if imp in w.imps { ReturnKeeps(w, st, imp); }
    case _ =>
  }

  lemma {:induction false} ErrorKeeps(w: World, b: Bin, fuel: nat, pc: nat, st: State)
    requires pc < |b.ops| && st.errors != []
    ensures KeptNext(st, StepError(w, b, fuel, pc, st))
    decreases fuel, 4, |b.ops| - pc, 0
  {
    hide RunOps;
    match b.ops[pc]
    case OCatch(ty, nops) => OpsKeep(w, b, fuel, pc + 1, pc + 1 + nops, DropError(st));
    case _ =>
  }

  // ---- the emitted program -------------------------------------------------

  lemma {:induction false} LabelsKeep(w: World, b: Bin, fuel: nat, pc: nat, stop: int, st: State)
    ensures Kept(st, RunLabels(w, b, fuel, pc, stop, st))
    decreases fuel, 4, if pc < |b.ops| then |b.ops| - pc else 0, 3, 0
  {
    hide Label;
    if pc < |b.ops| && pc != stop {
      LabelKeeps(w, b, fuel, pc, st);
      var r := Label(w, b, fuel, pc, st);
      if r.Some? {
        if r.value.pc > pc { LabelsKeep(w, b, fuel, r.value.pc, stop, r.value.st); }
        else if fuel > 0 { LabelsKeep(w, b, fuel - 1, r.value.pc, stop, r.value.st); }
      }
    }
  }

  lemma {:induction false} LabelKeeps(w: World, b: Bin, fuel: nat, pc: nat, st: State)
    requires pc < |b.ops|
    ensures KeptNext(st, Label(w, b, fuel, pc, st))
    decreases fuel, 4, |b.ops| - pc, 2, 0
  {
    hide RunStmts, EmitNormal, EmitError;
    var body := match EmitBlock(b, pc)
      case Always(stmts) => stmts
      case IfErrors(error, normal) => if st.errors != [] then error else normal
      case IfNone(normal) => if st.errors != [] then [] else normal;
    StmtsKeep(w, b, fuel, pc, body, st);
  }

  lemma {:induction false} StmtsKeep(w: World, b: Bin, fuel: nat, pc: nat, body: seq<Stmt>, st: State)
    requires pc < |b.ops|
    ensures KeptFlow(st, RunStmts(w, b, fuel, pc, body, st))
    decreases fuel, 4, |b.ops| - pc, 1, |body|
  {
    hide RunStmt;
    if body != [] {
      StmtKeeps(w, b, fuel, pc, body[0], st);
      var r := RunStmt(w, b, fuel, pc, body[0], st);
      if r.Some? && r.value.Fall? { StmtsKeep(w, b, fuel, pc, body[1..], r.value.st); }
    }
  }

  lemma StatesKeep(w: World, st: State)
    ensures EnterGroup(st).partings == End(st).partings == Stash(st).partings == LeaveFn(st).partings == st.partings
    ensures forall imp :: imp in w.imps ==>
            EnterFn(w, st, imp).partings == DoPutArgs(w, st, imp).partings == st.partings
    ensures forall at: nat :: PushLambda(st, at).partings == st.partings
    ensures st.errors != [] ==> CatchError(st).partings == st.partings
  {
  }

  lemma {:induction false} StmtKeeps(w: World, b: Bin, fuel: nat, pc: nat, s: Stmt, st: State)
    requires pc < |b.ops|
    ensures KeptFlow(st, RunStmt(w, b, fuel, pc, s, st))
    decreases fuel, 4, |b.ops| - pc, 0, 0
  {
    hide RunLabels, Funcall, DoReturn, RecallFails, EnterGroup, EnterFn, End, Stash, PushLambda, DoPutArgs, LeaveFn,
        CatchError;
    StatesKeep(w, st);
    match s
    case SCall(site, func, imp0, failed) => FuncallKeeps(Emitted, w, b, fuel, site, func, imp0, st);
    case SReturn(imp, failed, again) => if imp in w.imps { ReturnKeeps(w, st, imp); }
    case SCleanup(start, stop) =>
      if st.errors != [] && start > pc { LabelsKeep(w, b, fuel, start, stop, DropError(st)); }
    case _ =>
  }
}
