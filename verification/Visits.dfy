/** What the loop and the emitted program pass on their way: the address of every op
    and the mode it is met in, in order, with the ops of called bodies and of clean-up
    clauses in between. */
module Visits {
  import opened Basics
  import opened VmState
  import opened Vm

  datatype Visit = Visit(pc: nat, failed: bool)

  function ImpVisits(eng: Engine, w: World, b: Bin, fuel: nat, imp: Imp, scope: nat, st: State): seq<Visit>
    decreases fuel, 0, 0, 0
  {
    if fuel == 0 || imp !in w.imps || |st.calls| >= MAX_CALLS then []
    else
      var info := w.imps[imp];
      var st1 := st.(calls := st.calls + [Call(imp, scope, [], 0)]);
      if |Obj(st1, scope).stack| < |info.args| then []
      else
        var st2 := PopArgs(st1, |info.args|);
        match info.prim
        case None => TargetVisits(eng, w, b, fuel - 1, BodyOf(imp), st2)
        case Some(p) => PrimVisits(eng, w, b, fuel - 1, p,
                                   [if InLib(st2, info.lib) then st2 else PushLib(st2, info.lib)])
  }

  /** The visits of all calls that the primitive asks for. */
  function PrimVisits(eng: Engine, w: World, b: Bin, fuel: nat, p: Prim, hist: seq<State>): seq<Visit>
    decreases fuel, 0, 0, 0
  {
    match w.prim(p, hist)
    case Done(st) => []
    case Ask(v, scope, st) =>
      if fuel == 0 then []
      else
        var r := CallValue(eng, w, b, fuel - 1, v, scope, Carry(hist, st));
        ValueVisits(eng, w, b, fuel - 1, v, scope, Carry(hist, st))
          + if r.None? then [] else PrimVisits(eng, w, b, fuel - 1, p, hist + [r.value])
  }

  function ValueVisits(eng: Engine, w: World, b: Bin, fuel: nat, v: Value, scope: nat, st: State): seq<Visit>
    decreases fuel, 2, 0, 0
  {
    match v
    case LambdaV(at, lib, home) =>
      if fuel == 0 then [] else TargetVisits(eng, w, b, fuel - 1, LambdaAt(at), EnterLambda(lib, home, scope, st))
    case FimpV(imp) =>
      if Obj(st, scope).safe && !w.matches(imp, Obj(st, scope).stack) then []
      else ImpVisits(eng, w, b, fuel, imp, scope, st)
    case FuncV(func) =>
      var imp := w.best(func, Obj(st, scope).stack);
      if imp.None? then [] else ImpVisits(eng, w, b, fuel, imp.value, scope, st)
    case _ => []
  }

  function FuncallVisits(eng: Engine, w: World, b: Bin, fuel: nat, site: nat, func: Func, imp0: Option<Imp>,
                         st: State): seq<Visit>
    decreases fuel, 2, 0, 0
  {
    var st0 := Met(w, site, imp0, st);
    var (st1, imp) := if eng == Emitted then ResolveEmitted(w, site, func, imp0, st0)
        else Resolve(w, site, func, imp0, st0);
    if imp.None? then [] else ImpVisits(eng, w, b, fuel, imp.value, Top(st1), st1)
  }

  function TargetVisits(eng: Engine, w: World, b: Bin, fuel: nat, t: Target, st: State): seq<Visit>
    decreases fuel, 6, 0, 0
  {
    match t
    case BodyOf(imp) =>
      if imp in b.fimps && b.fimps[imp].nops >= 0
      then FlatVisits(eng, w, b, fuel, b.fimps[imp].start, b.fimps[imp].start + b.fimps[imp].nops, st) else []
    case LambdaAt(at) =>
      if at < |b.ops| && b.ops[at].OLambda?
      then FlatVisits(eng, w, b, fuel, b.ops[at].start, b.ops[at].start + b.ops[at].nops, st) else []
  }

  function FlatVisits(eng: Engine, w: World, b: Bin, fuel: nat, start: nat, stop: int, st: State): seq<Visit>
    decreases fuel, 5, 0, 0
  {
    if eng == Emitted then LabelVisits(w, b, fuel, start, stop, st) else OpVisits(w, b, fuel, start, stop, st)
  }

  // ---- the loop ------------------------------------------------------------

  function OpVisits(w: World, b: Bin, fuel: nat, pc: nat, stop: int, st: State): seq<Visit>
    decreases fuel, 4, if pc < |b.ops| then |b.ops| - pc else 0, 1
  {
    if pc >= |b.ops| || pc == stop then []
    else
      var r := Step(w, b, fuel, pc, st);
      [Visit(pc, st.errors != [])] + InOp(w, b, fuel, pc, st)
        + if r.None? then []
          else if r.value.pc > pc then OpVisits(w, b, fuel, r.value.pc, stop, r.value.st)
          else if fuel == 0 then []
          else OpVisits(w, b, fuel - 1, r.value.pc, stop, r.value.st)
  }

  /** What is passed while one op is at work. */
  function InOp(w: World, b: Bin, fuel: nat, pc: nat, st: State): seq<Visit>
    requires pc < |b.ops|
    decreases fuel, 4, |b.ops| - pc, 0
  {
    match b.ops[pc]
    case OFuncall(func, imp0) => if st.errors != [] then [] else FuncallVisits(Interp, w, b, fuel, pc, func, imp0, st)
    case OCatch(ty, nops) =>
      if st.errors == [] || ty.Some? then [] else OpVisits(w, b, fuel, pc + 1, pc + 1 + nops, DropError(st))
    case _ => []
  }

  // ---- the emitted program -------------------------------------------------

  function LabelVisits(w: World, b: Bin, fuel: nat, pc: nat, stop: int, st: State): seq<Visit>
    decreases fuel, 4, if pc < |b.ops| then |b.ops| - pc else 0, 1
  {
    if pc >= |b.ops| || pc == stop then []
    else
      var r := Label(w, b, fuel, pc, st);
      [Visit(pc, st.errors != [])] + InBlock(w, b, fuel, pc, Chosen(b, pc, st), st)
        + if r.None? then []
          else if r.value.pc > pc then LabelVisits(w, b, fuel, r.value.pc, stop, r.value.st)
          else if fuel == 0 then []
          else LabelVisits(w, b, fuel - 1, r.value.pc, stop, r.value.st)
  }

  /** Calls and clean-up runs stand alone in their block. */
  function InBlock(w: World, b: Bin, fuel: nat, pc: nat, body: seq<Stmt>, st: State): seq<Visit>
    requires pc < |b.ops|
    decreases fuel, 4, |b.ops| - pc, 0
  {
    if body == [] then []
    else
      match body[0]
      case SCall(site, func, imp0, failed) => FuncallVisits(Emitted, w, b, fuel, site, func, imp0, st)
      case SCleanup(start, stop) =>
        if st.errors == [] || start <= pc then [] else LabelVisits(w, b, fuel, start, stop, DropError(st))
      case _ => []
  }

  /** The statements of a label that run in the current mode. */
  function Chosen(b: Bin, pc: nat, st: State): seq<Stmt>
    requires pc < |b.ops|
  {
    match EmitBlock(b, pc)
    case Always(stmts) => stmts
    case IfErrors(error, normal) => if st.errors != [] then error else normal
    case IfNone(normal) => if st.errors != [] then [] else normal
  }
}
