/** Three ways to run a compiled bin: the direct meaning of its annotated tokens,
    the `eval` loop over the flat op array, and the labelled `goto` program that
    `cx_emit` prints.

    All three share the code of primitives, lambda values and function calls and
    differ only in how a body is run.  `fuel` goes down at calls, recalls and
    backward jumps; `None` means that it ran out. */
module Vm {
  import opened Basics
  import opened VmState

  /** A token after compilation.  Addresses only name call sites and lambdas;
      `inl` is the number of inlined ops in front of a call or after a
      definition. */
  datatype Node =
    | NPush(v: Value)
    | NGetVar(id: Sym)
    | NPutVar(id: Sym, ty: Option<TypeId>)
    | NGroup(body: seq<Node>)
    | NStack(body: seq<Node>)
    | NLambda(at: nat, body: seq<Node>)
    | NCall(site: nat, func: Func, imp: Option<Imp>, inl: nat)
    | NFunc(def: Imp, inl: nat)
    | NCatch(ty: Option<TypeId>, body: seq<Node>)
    | NSwitch(cases: seq<Case>)

  datatype Case = Case(cond: seq<Node>, body: seq<Node>)

  datatype Op =
    | OPush(v: Value)
    | OGetVar(id: Sym)
    | OPutVar(id: Sym, ty: Option<TypeId>)
    | OBegin(fimp: Option<Imp>, nops: nat)
    | OEnd
    | OStash
    | OLambda(start: nat, nops: nat)
    | OFimp(imp: Imp)
    | OFuncall(func: Func, imp0: Option<Imp>)
    | OFuncdef(imp: Imp)
    | OPutArgs(imp: Imp)
    | OReturn(imp: Imp, pc: nat)
    | OCatch(ty: Option<TypeId>, nops: nat)
    | OElse(nops: nat)
    | OJump(pc: nat)

  /** Where an inlined function lies; `nops` is -1 until it is complete. */
  datatype Range = Range(start: nat, nops: int)

  /** A bin: its ops, its function ranges, and the annotated bodies they came
      from. */
  datatype Bin = Bin(ops: seq<Op>, fimps: map<Imp, Range>, fns: map<Imp, seq<Node>>, lams: map<nat, seq<Node>>)

  datatype Engine = Tree | Interp | Emitted

  // ---- calls, shared by the three engines ----------------------------------

  /** cx_fimp_call */
  function CallImp(eng: Engine, w: World, b: Bin, fuel: nat, imp: Imp, scope: nat, st: State): Option<State>
    decreases fuel, 0, 0, 0
  {
    if fuel == 0 || imp !in w.imps then None
    else if |st.calls| >= MAX_CALLS then Some(Error(st, "Max calls exceeded"))
    else
      var info := w.imps[imp];
      var st1 := st.(calls := st.calls + [Call(imp, scope, [], 0)]);
      if |Obj(st1, scope).stack| < |info.args| then Some(PopCall(PopArgs(st1, |info.args|)))
      else
        var st2 := PopArgs(st1, |info.args|);
        match info.prim
        case None => RunTarget(eng, w, b, fuel - 1, BodyOf(imp), st2)
        case Some(p) =>
          var same := InLib(st2, info.lib);
          var st3 := if same then st2 else PushLib(st2, info.lib);
          var r := RunPrim(eng, w, b, fuel - 1, p, [st3]);
          if r.None? then None
          else Some(PopCall(if same then r.value else PopLib(r.value)))
  }

  /** No primitive touches the history variables. */
  function Carry(hist: seq<State>, st: State): State {
    if hist == [] then st
    else st.(badReturns := hist[|hist| - 1].badReturns, partings := hist[|hist| - 1].partings)
  }

  /** A primitive runs until it is done, calling values when it asks to. */
  function RunPrim(eng: Engine, w: World, b: Bin, fuel: nat, p: Prim, hist: seq<State>): Option<State>
    decreases fuel, 0, 0, 0
  {
    match w.prim(p, hist)
    case Done(st) => Some(Carry(hist, st))
    case Ask(v, scope, st) =>
      if fuel == 0 then None
      else
        var r := CallValue(eng, w, b, fuel - 1, v, scope, Carry(hist, st));
        if r.None? then None else RunPrim(eng, w, b, fuel - 1, p, hist + [r.value])
  }

  /** cx_call: lambdas and functions run, anything else is pushed. */
  function CallValue(eng: Engine, w: World, b: Bin, fuel: nat, v: Value, scope: nat, st: State): Option<State>
    decreases fuel, 2, 0, 0
  {
    match v
    case LambdaV(at, lib, home) => CallLambda(eng, w, b, fuel, at, lib, home, scope, st)
    case FimpV(imp) =>
      if Obj(st, scope).safe && !w.matches(imp, Obj(st, scope).stack) then Some(Error(st, "Func not applicable"))
      else CallImp(eng, w, b, fuel, imp, scope, st)
    case FuncV(func) =>
      var imp := w.best(func, Obj(st, scope).stack);
      if imp.None? then Some(Error(st, "Func not applicable"))
      else CallImp(eng, w, b, fuel, imp.value, scope, st)
    case _ => Some(PushOn(st, scope, v))
  }

  /** Entering a lambda: its lib and scope go on top, the caller's stack moves in. */
  function EnterLambda(lib: Lib, home: nat, scope: nat, st: State): State {
    var st1 := if InLib(st, lib) then st else PushLib(st, lib);
    if scope == home then st1
    else
      var st2 := PushScope(st1, home);
      var moved := Obj(st2, scope).stack;
      if moved == [] then st2
      else SetStack(SetStack(st2, home, Obj(st2, home).stack + moved), scope, [])
  }

  function LeaveLambda(popLib: bool, popScope: bool, st: State): State {
    var st1 := if popScope then End(st) else st;
    if popLib then PopLib(st1) else st1
  }

  function CallLambda(eng: Engine, w: World, b: Bin, fuel: nat, at: nat, lib: Lib, home: nat, scope: nat,
                      st: State): Option<State>
    decreases fuel, 1, 0, 0
  {
    if fuel == 0 then None
    else
      var r := RunTarget(eng, w, b, fuel - 1, LambdaAt(at), EnterLambda(lib, home, scope, st));
      if r.None? then None else Some(LeaveLambda(!InLib(st, lib), scope != home, r.value))
  }

  /** Which implementation a call site runs (funcall_eval), and the state after
      the site's cache was updated. */
  function Resolve(w: World, site: nat, func: Func, imp0: Option<Imp>, st: State): (State, Option<Imp>) {
    var cached := if site in st.cache then st.cache[site] else imp0;
    if cached.Some? && !(Obj(st, Top(st)).safe && !w.matches(cached.value, TopStack(st))) then (st, cached)
    else
      var found := w.best(func, TopStack(st));
      (st.(cache := st.cache[site := found]), found)
  }

  /** The same decision in emitted code: a site whose last dispatch failed starts
      again from the implementation known when the code was printed. */
  function ResolveEmitted(w: World, site: nat, func: Func, imp0: Option<Imp>, st: State): (State, Option<Imp>) {
    var kept := if site in st.cache && st.cache[site].Some? then st.cache[site] else imp0;
    if kept.Some? && !(Obj(st, Top(st)).safe && !w.matches(kept.value, TopStack(st))) then (st, kept)
    else
      var found := w.best(func, TopStack(st));
      (st.(cache := st.cache[site := found]), found)
  }

  /** The last dispatch at the site failed, and the implementation that it started with
      applies now: the two rules part. */
  predicate Stale(w: World, site: nat, imp0: Option<Imp>, st: State) {
    && site in st.cache && st.cache[site].None?
    && imp0.Some? && !(Obj(st, Top(st)).safe && !w.matches(imp0.value, TopStack(st)))
  }

  function Met(w: World, site: nat, imp0: Option<Imp>, st: State): State {
    if Stale(w, site, imp0, st) then Part(st) else st
  }

  function Funcall(eng: Engine, w: World, b: Bin, fuel: nat, site: nat, func: Func, imp0: Option<Imp>,
                   st: State): Option<State>
    decreases fuel, 2, 0, 0
  {
    var st0 := Met(w, site, imp0, st);
    var (st1, imp) := if eng == Emitted then ResolveEmitted(w, site, func, imp0, st0)
        else Resolve(w, site, func, imp0, st0);
    if imp.None? then Some(Error(st1, "Func not applicable"))
    else CallImp(eng, w, b, fuel, imp.value, Top(st1), st1)
  }

  /** A function that this bin does not hold was compiled into a bin of its own; a lambda
      from there runs there. */
  function RunApart(w: World, t: Target, st: State): Option<State> {
    var r := w.apart(t, st);
    if r.None? then None else Some(Carry([st], r.value))
  }

  function RunTarget(eng: Engine, w: World, b: Bin, fuel: nat, t: Target, st: State): Option<State>
    decreases fuel, 6, 0, 0
  {
    match (eng, t)
    case (Tree, BodyOf(imp)) =>
      if imp in b.fns && imp in w.imps then FnTree(w, b, fuel, imp, st) else RunApart(w, t, st)
    case (Tree, LambdaAt(at)) =>
      if at in b.lams then EvalSeq(w, b, fuel, b.lams[at], st) else RunApart(w, t, st)
    case (_, BodyOf(imp)) =>
      if imp in b.fimps && b.fimps[imp].nops >= 0
      then RunFlat(eng, w, b, fuel, b.fimps[imp].start, b.fimps[imp].start + b.fimps[imp].nops, st)
      else RunApart(w, t, st)
    case (_, LambdaAt(at)) =>
      if at < |b.ops| && b.ops[at].OLambda?
      then RunFlat(eng, w, b, fuel, b.ops[at].start, b.ops[at].start + b.ops[at].nops, st)
      else RunApart(w, t, st)
  }

  /** cx_eval on a flat bin */
  function RunFlat(eng: Engine, w: World, b: Bin, fuel: nat, start: nat, stop: int, st: State): Option<State>
    decreases fuel, 5, 0, 0
  {
    if eng == Emitted then RunLabels(w, b, fuel, start, stop, st) else RunOps(w, b, fuel, start, stop, st)
  }

  // ---- the direct meaning of annotated tokens ------------------------------

  function EvalSeq(w: World, b: Bin, fuel: nat, ns: seq<Node>, st: State): Option<State>
    decreases fuel, 3, ns, 0
  {
    if ns == [] then Some(st)
    else
      var r := EvalNode(w, b, fuel, ns[0], st);
      if r.None? then None else EvalSeq(w, b, fuel, ns[1..], r.value)
  }

  /** While errors are pending a node only runs its catch clauses and the parts
      that restore the stacks. */
  function EvalNode(w: World, b: Bin, fuel: nat, n: Node, st: State): Option<State>
    decreases fuel, 3, n, 0
  {
    var failed := st.errors != [];
    match n
    case NPush(v) => Some(if failed then st else Push(st, v))
    case NGetVar(id) => Some(if failed then st else DoGetVar(st, id))
    case NPutVar(id, ty) => Some(if failed then st else DoPutVar(w, st, id, ty))
    case NGroup(body) =>
      if failed then Some(st)
      else
        var r := EvalSeq(w, b, fuel, body, EnterGroup(st));
        if r.None? then None else Some(End(r.value))
    case NStack(body) =>
      if failed then Some(st)
      else
        var r := EvalSeq(w, b, fuel, body, EnterGroup(st));
        if r.None? then None
        else Some(End(if r.value.errors == [] then Stash(r.value) else r.value))
    case NLambda(at, body) => Some(if failed then st else PushLambda(st, at))
    case NCall(site, func, imp, inl) =>
      if failed then Some(st) else Funcall(Tree, w, b, fuel, site, func, imp, st)
    case NFunc(def, inl) => Some(DoFuncdef(st, def))
    case NCatch(ty, body) =>
      if !failed then (if ty.Some? then Some(st) else EvalSeq(w, b, fuel, body, st))
      else if ty.None? then
        var e := st.errors[|st.errors| - 1];
        var r := EvalSeq(w, b, fuel, body, DropError(st));
        if r.None? then None else EvalSeq(w, b, fuel, body, Rethrow(r.value, e))
      else if Catches(w, st, ty.value) then EvalSeq(w, b, fuel, body, CatchError(st))
      else Some(st)
    case NSwitch(cases) => EvalCases(w, b, fuel, cases, st)
  }

  function EvalCases(w: World, b: Bin, fuel: nat, cs: seq<Case>, st: State): Option<State>
    decreases fuel, 3, cs, 0
  {
    if cs == [] then Some(st)
    else
      var c := cs[0];
      var r := EvalSeq(w, b, fuel, c.cond, st);
      if r.None? then None
      else if r.value.errors != [] then EvalSeq(w, b, fuel, c.body, r.value)
      else
        match DoElse(w, r.value)
        case Taken(st1) => EvalSeq(w, b, fuel, c.body, st1)
        case Skipped(st1) => EvalCases(w, b, fuel, cs[1..], st1)
  }

  /** A function body; nothing of it runs when errors are pending on entry. */
  function FnTree(w: World, b: Bin, fuel: nat, imp: Imp, st: State): Option<State>
    requires imp in w.imps && imp in b.fns
    decreases fuel, 5, 0, 0
  {
    if st.errors != [] then Some(st) else FnRounds(w, b, fuel, imp, EnterFn(w, st, imp))
  }

  /** One round per recall, all in the scope and call record of the first. */
  function FnRounds(w: World, b: Bin, fuel: nat, imp: Imp, st: State): Option<State>
    requires imp in w.imps && imp in b.fns
    decreases fuel, 4, 0, 0
  {
    var r := EvalSeq(w, b, fuel, b.fns[imp], if st.errors == [] then DoPutArgs(w, st, imp) else st);
    if r.None? then None
    else if r.value.errors != [] then Some(LeaveFn(r.value))
    else
      match DoReturn(w, r.value, imp)
      case Leave(st1) => Some(st1)
      case Again(st1) => if fuel == 0 then None else FnRounds(w, b, fuel - 1, imp, st1)
  }

  function PushLambda(st: State, at: nat): State {
    var lib := if st.libs == [] then 0 else st.libs[|st.libs| - 1];
    Push(st.(heap := st.heap
             + [Scope(Some(Top(st)), [], map[], if st.scopes == [] then true else Obj(st, Top(st)).safe)]),
         LambdaV(at, lib, |st.heap|))
  }

  // ---- the eval loop -------------------------------------------------------

  /** The outcome of one op: the next pc and state. */
  datatype Next = Next(pc: nat, st: State)

  function RunOps(w: World, b: Bin, fuel: nat, pc: nat, stop: int, st: State): Option<State>
    decreases fuel, 4, if pc < |b.ops| then |b.ops| - pc else 0, 2
  {
    if pc >= |b.ops| || pc == stop then Some(st)
    else
      var r := Step(w, b, fuel, pc, st);
      if r.None? then None
      else if r.value.pc > pc then RunOps(w, b, fuel, r.value.pc, stop, r.value.st)
      else if fuel == 0 then None
      else RunOps(w, b, fuel - 1, r.value.pc, stop, r.value.st)
  }

  /** One turn of the loop: the handler for the current mode. */
  function Step(w: World, b: Bin, fuel: nat, pc: nat, st: State): Option<Next>
    requires pc < |b.ops|
    decreases fuel, 4, |b.ops| - pc, 1
  {
    if st.errors != [] then StepError(w, b, fuel, pc, st) else StepNormal(w, b, fuel, pc, st)
  }

  function StepNormal(w: World, b: Bin, fuel: nat, pc: nat, st: State): Option<Next>
    requires pc < |b.ops|
    decreases fuel, 3, 0, 0
  {
    match b.ops[pc]
    case OPush(v) => Some(Next(pc + 1, Push(st, v)))
    case OGetVar(id) => Some(Next(pc + 1, DoGetVar(st, id)))
    case OPutVar(id, ty) => Some(Next(pc + 1, DoPutVar(w, st, id, ty)))
    case OBegin(fimp, nops) =>
      if fimp.None? then Some(Next(pc + 1, EnterGroup(st)))
      else if fimp.value in w.imps then Some(Next(pc + 1, EnterFn(w, st, fimp.value)))
      else None
    case OEnd => Some(Next(pc + 1, End(st)))
    case OStash => Some(Next(pc + 1, Stash(st)))
    case OLambda(start, nops) => Some(Next(pc + 1 + nops, PushLambda(st, pc)))
    case OFimp(imp) => SkipFimp(b, imp, pc, st)
    case OFuncall(func, imp0) =>
      var r := Funcall(Interp, w, b, fuel, pc, func, imp0, st);
      if r.None? then None else Some(Next(pc + 1, r.value))
    case OFuncdef(imp) => Some(Next(pc + 1, DoFuncdef(st, imp)))
    case OPutArgs(imp) => if imp in w.imps then Some(Next(pc + 1, DoPutArgs(w, st, imp))) else None
    case OReturn(imp, start) =>
      if imp !in w.imps then None
      else (match DoReturn(w, st, imp)
            case Leave(st1) => Some(Next(pc + 1, st1))
            case Again(st1) => Some(Next(start + 1, st1)))
    case OCatch(ty, nops) => Some(Next(if ty.Some? then pc + 1 + nops else pc + 1, st))
    case OElse(nops) =>
      (match DoElse(w, st)
       case Taken(st1) => Some(Next(pc + 1, st1))
       case Skipped(st1) => Some(Next(pc + 1 + nops, st1)))
    case OJump(target) => Some(Next(target, st))
  }

  /** Error mode: only ops with an error handler do anything. */
  function StepError(w: World, b: Bin, fuel: nat, pc: nat, st: State): Option<Next>
    requires pc < |b.ops| && st.errors != []
    decreases fuel, 4, |b.ops| - pc, 0
  {
    match b.ops[pc]
    case OBegin(fimp, nops) => Some(Next(pc + 1 + nops, st))
    case OEnd => Some(Next(pc + 1, End(st)))
    case OLambda(start, nops) => Some(Next(pc + 1 + nops, st))
    case OFimp(imp) => SkipFimp(b, imp, pc, st)
    case OFuncdef(imp) => Some(Next(pc + 1, DoFuncdef(st, imp)))
    case OReturn(imp, start) => Some(Next(pc + 1, LeaveFn(st)))
    case OCatch(ty, nops) =>
      if ty.None? then
        var e := st.errors[|st.errors| - 1];
        var r := RunOps(w, b, fuel, pc + 1, pc + 1 + nops, DropError(st));
        if r.None? then None else Some(Next(pc + 1, Rethrow(r.value, e)))
      else if Catches(w, st, ty.value) then Some(Next(pc + 1, CatchError(st)))
      else Some(Next(pc + 1 + nops, st))
    case OJump(target) => Some(Next(target, st))
    case _ => Some(Next(pc + 1, st))
  }

  function SkipFimp(b: Bin, imp: Imp, pc: nat, st: State): Option<Next> {
    if imp in b.fimps && b.fimps[imp].nops >= 0 then Some(Next(pc + 1 + b.fimps[imp].nops, st)) else None
  }

  // ---- the emitted program -------------------------------------------------

  /** The statements that op types print.  A statement with a target leaves its
      block through `goto op<target>`. */
  datatype Stmt =
    | SPush(v: Value)
    | SGetVar(id: Sym, missing: nat)
    | SPutVar(id: Sym, ty: Option<TypeId>, failed: nat)
    | SBegin(fimp: Option<Imp>)
    | SEnd
    | SStash
    | SLambda(at: nat)
    | SFuncdef(imp: Imp)
    | SPutArgs(imp: Imp)
    | SCall(site: nat, func: Func, imp0: Option<Imp>, failed: nat)
    | SElse(empty: nat, skip: nat)
    | SMatch(error: TypeId, skip: nat)
    | SCleanup(start: nat, stop: nat)
    | SReturn(imp: Imp, failed: nat, again: nat)
    | SLeave(failed: nat)
    | SGoto(target: nat)

  /** A label's block, as the three cases of the printing loop nest it. */
  datatype Block =
    | Always(body: seq<Stmt>)
    | IfErrors(error: seq<Stmt>, normal: seq<Stmt>)
    | IfNone(normal: seq<Stmt>)

  /** The `emit` handler of an op. */
  function EmitNormal(b: Bin, op: Op, pc: nat): seq<Stmt> {
    match op
    case OPush(v) => [SPush(v)]
    case OGetVar(id) => [SGetVar(id, pc + 1)]
    case OPutVar(id, ty) => [SPutVar(id, ty, pc + 1)]
    case OBegin(fimp, nops) => [SBegin(fimp)]
    case OEnd => [SEnd]
    case OStash => [SStash]
    case OLambda(start, nops) => [SLambda(pc), SGoto(pc + nops + 1)]
    case OFimp(imp) => [SGoto(pc + FimpSize(b, imp) + 1)]
    case OFuncall(func, imp0) => [SCall(pc, func, imp0, pc + 1)]
    case OFuncdef(imp) => [SFuncdef(imp)]
    case OPutArgs(imp) => [SPutArgs(imp)]
    case OReturn(imp, start) => [SReturn(imp, pc + 1, start + 1)]
    case OCatch(ty, nops) => if ty.Some? then [SGoto(pc + nops + 1)] else []
    case OElse(nops) => [SElse(pc + 1, pc + nops + 1)]
    case OJump(target) => [SGoto(target)]
  }

  function FimpSize(b: Bin, imp: Imp): nat {
    if imp in b.fimps && b.fimps[imp].nops >= 0 then b.fimps[imp].nops else 0
  }

  /** The `error_emit` handler, for ops that have one of their own. */
  function EmitError(op: Op, pc: nat): seq<Stmt> {
    match op
    case OBegin(fimp, nops) => [SGoto(pc + 1 + nops)]
    case OLambda(start, nops) => [SGoto(pc + nops + 1)]
    case OReturn(imp, start) => [SLeave(pc + 1)]
    case OCatch(ty, nops) =>
      if ty.Some? then [SMatch(ty.value, pc + nops + 1)] else [SCleanup(pc + 1, pc + 1 + nops)]
    case _ => []
  }

  predicate SharesEmit(op: Op) {
    op.OEnd? || op.OFimp? || op.OFuncdef? || op.OJump?
  }

  predicate HasErrorEmit(op: Op) {
    op.OBegin? || op.OLambda? || op.OReturn? || op.OCatch?
  }

  function EmitBlock(b: Bin, pc: nat): Block
    requires pc < |b.ops|
  {
    var op := b.ops[pc];
    if SharesEmit(op) then Always(EmitNormal(b, op, pc))
    else if HasErrorEmit(op) then IfErrors(EmitError(op, pc), EmitNormal(b, op, pc))
    else IfNone(EmitNormal(b, op, pc))
  }

  /** Control after a statement: on to the next one, or to a label. */
  datatype Flow = Fall(st: State) | Jump(target: nat, st: State)

  function RunLabels(w: World, b: Bin, fuel: nat, pc: nat, stop: int, st: State): Option<State>
    decreases fuel, 4, if pc < |b.ops| then |b.ops| - pc else 0, 3, 0
  {
    if pc >= |b.ops| || pc == stop then Some(st)
    else
      var r := Label(w, b, fuel, pc, st);
      if r.None? then None
      else if r.value.pc > pc then RunLabels(w, b, fuel, r.value.pc, stop, r.value.st)
      else if fuel == 0 then None
      else RunLabels(w, b, fuel - 1, r.value.pc, stop, r.value.st)
  }

  function Label(w: World, b: Bin, fuel: nat, pc: nat, st: State): Option<Next>
    requires pc < |b.ops|
    decreases fuel, 4, |b.ops| - pc, 2, 0
  {
    var body := match EmitBlock(b, pc)
      case Always(stmts) => stmts
      case IfErrors(error, normal) => if st.errors != [] then error else normal
      case IfNone(normal) => if st.errors != [] then [] else normal;
    var r := RunStmts(w, b, fuel, pc, body, st);
    if r.None? then None
    else match r.value
      case Fall(st1) => Some(Next(pc + 1, st1))
      case Jump(target, st1) => Some(Next(target, st1))
  }

  function RunStmts(w: World, b: Bin, fuel: nat, pc: nat, body: seq<Stmt>, st: State): Option<Flow>
    requires pc < |b.ops|
    decreases fuel, 4, |b.ops| - pc, 1, |body|
  {
    if body == [] then Some(Fall(st))
    else
      var r := RunStmt(w, b, fuel, pc, body[0], st);
      if r.None? || r.value.Jump? then r else RunStmts(w, b, fuel, pc, body[1..], r.value.st)
  }

  function RunStmt(w: World, b: Bin, fuel: nat, pc: nat, s: Stmt, st: State): Option<Flow>
    requires pc < |b.ops|
    decreases fuel, 4, |b.ops| - pc, 0, 0
  {
    match s
    case SPush(v) => Some(Fall(Push(st, v)))
    case SGetVar(id, missing) =>
      var v := GetVar(st, Top(st), id);
      Some(if v.None? then Jump(missing, Error(st, "Unknown var")) else Fall(Push(st, v.value)))
    case SPutVar(id, ty, failed) =>
      var s := TopStack(st);
      if s == [] then Some(Jump(failed, Error(st, "Stack is empty")))
      else
        var v := s[|s| - 1];
        var st1 := SetStack(st, Top(st), s[..|s| - 1]);
        Some(if ty.Some? && !w.isA(v, ty.value) then Jump(failed, Error(st1, "Expected type"))
             else Fall(SetVar(st1, Top(st1), id, v)))
    case SBegin(fimp) =>
      if fimp.None? then Some(Fall(EnterGroup(st)))
      else if fimp.value in w.imps then Some(Fall(EnterFn(w, st, fimp.value)))
      else None
    case SEnd => Some(Fall(End(st)))
    case SStash => Some(Fall(Stash(st)))
    case SLambda(at) => Some(Fall(PushLambda(st, at)))
    case SFuncdef(imp) => Some(Fall(DoFuncdef(st, imp)))
    case SPutArgs(imp) => if imp in w.imps then Some(Fall(DoPutArgs(w, st, imp))) else None
    case SCall(site, func, imp0, failed) =>
      var r := Funcall(Emitted, w, b, fuel, site, func, imp0, st);
      if r.None? then None else Some(if r.value.errors != [] then Jump(failed, r.value) else Fall(r.value))
    case SElse(empty, skip) =>
      (match DoElse(w, st)
       case Taken(st1) => Some(if TopStack(st) == [] then Jump(empty, st1) else Fall(st1))
       case Skipped(st1) => Some(Jump(skip, st1)))
    case SMatch(ty, skip) =>
      if st.errors == [] then None
      else Some(if Catches(w, st, ty) then Fall(CatchError(st)) else Jump(skip, st))
    case SCleanup(start, stop) =>
      if st.errors == [] || start <= pc then None
      else
        var e := st.errors[|st.errors| - 1];
        var r := RunLabels(w, b, fuel, start, stop, DropError(st));
        if r.None? then None else Some(Fall(Rethrow(r.value, e)))
    case SReturn(imp, failed, again) =>
      if imp !in w.imps then None
      else if TopCall(st).recalls > 0 && RecallFails(w, st, imp)
      then Some(Jump(failed, Part(Bad(Error(st, "Recall not applicable")))))
      else (match DoReturn(w, st, imp)
            case Leave(st1) => Some(if st1.errors != [] then Jump(failed, st1) else Fall(st1))
            case Again(st1) => Some(Jump(again, st1)))
    case SLeave(failed) => Some(if st.calls == [] then Jump(failed, LeaveFn(st)) else Fall(LeaveFn(st)))
    case SGoto(target) => Some(Jump(target, st))
  }
}
