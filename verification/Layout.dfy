/** What it means for a stretch of ops to be the translation of annotated tokens,
    and the proof that such a stretch runs as the tokens do. */
module Layout {
  import opened Basics
  import opened VmState
  import opened Vm

  function Size(n: Node): nat
    decreases n, 0
  {
    match n
    case NGroup(body) => 2 + SizeSeq(body)
    case NStack(body) => 3 + SizeSeq(body)
    case NLambda(at, body) => 1 + SizeSeq(body)
    case NCall(site, func, imp, inl) => inl + 1
    case NFunc(def, inl) => 1 + inl
    case NCatch(ty, body) => 1 + SizeSeq(body)
    case NSwitch(cases) => SizeCases(cases)
    case _ => 1
  }

  function SizeSeq(ns: seq<Node>): nat
    decreases ns, 0
  {
    if ns == [] then 0 else Size(ns[0]) + SizeSeq(ns[1..])
  }

  function SizeCases(cs: seq<Case>): nat
    decreases cs, 0
  {
    if cs == [] then 0 else SizeSeq(cs[0].cond) + SizeSeq(cs[0].body) + 2 + SizeCases(cs[1..])
  }

  /** An inlined function ends `inl` ops after `a`, at its recorded range. */
  ghost predicate Inlined(b: Bin, a: nat, inl: nat) {
    inl > 0 ==>
      && a + inl <= |b.ops|
      && b.ops[a].OFimp?
      && b.ops[a].imp in b.fimps
      && b.fimps[b.ops[a].imp] == Range(a + 1, inl - 1)
  }

  ghost predicate Coded(b: Bin, n: Node, a: nat)
    decreases n, 0
  {
    a + Size(n) <= |b.ops| &&
    match n
    case NPush(v) => b.ops[a] == OPush(v)
    case NGetVar(id) => b.ops[a] == OGetVar(id)
    case NPutVar(id, ty) => b.ops[a] == OPutVar(id, ty)
    case NGroup(body) =>
      var e := a + 1 + SizeSeq(body);
      b.ops[a] == OBegin(None, e - a) && CodedSeq(b, body, a + 1) && b.ops[e] == OEnd
    case NStack(body) =>
      var e := a + 1 + SizeSeq(body);
      b.ops[a] == OBegin(None, e + 1 - a) && CodedSeq(b, body, a + 1) && b.ops[e] == OStash && b.ops[e + 1] == OEnd
    case NLambda(at, body) => at == a && b.ops[a] == OLambda(a + 1, SizeSeq(body)) && CodedSeq(b, body, a + 1)
    case NCall(site, func, imp, inl) => site == a + inl && Inlined(b, a, inl) && b.ops[site] == OFuncall(func, imp)
    case NFunc(def, inl) => b.ops[a] == OFuncdef(def) && Inlined(b, a + 1, inl)
    case NCatch(ty, body) => b.ops[a] == OCatch(ty, SizeSeq(body)) && CodedSeq(b, body, a + 1)
    case NSwitch(cases) => CodedCases(b, cases, a, a + SizeCases(cases))
  }

  ghost predicate CodedSeq(b: Bin, ns: seq<Node>, a: nat)
    decreases ns, 0
  {
    a + SizeSeq(ns) <= |b.ops| &&
    (ns != [] ==> Coded(b, ns[0], a) && CodedSeq(b, ns[1..], a + Size(ns[0])))
  }

  /** Clauses from `a` on; every taken clause jumps to `end`. */
  ghost predicate CodedCases(b: Bin, cs: seq<Case>, a: nat, end: nat)
    decreases cs, 0
  {
    a + SizeCases(cs) <= |b.ops| &&
    (cs != [] ==>
       var m := a + SizeSeq(cs[0].cond);
       var j := m + 1 + SizeSeq(cs[0].body);
       && CodedSeq(b, cs[0].cond, a)
       && b.ops[m] == OElse(j - m)
       && CodedSeq(b, cs[0].body, m + 1)
       && b.ops[j] == OJump(end)
       && CodedCases(b, cs[1..], j + 1, end))
  }

  /** OBEGIN, the arguments if there are any, the body, ORETURN. */
  ghost predicate CodedFn(w: World, b: Bin, imp: Imp)
    requires imp in b.fimps && imp in b.fns
  {
    var r := b.fimps[imp];
    && imp in w.imps
    && r.nops >= 2
    && r.start + r.nops <= |b.ops|
    && b.ops[r.start] == OBegin(Some(imp), r.nops - 1)
    && b.ops[r.start + r.nops - 1] == OReturn(imp, r.start)
    && var i := BodyStart(w, b, imp);
       && (i > r.start + 1 ==> b.ops[r.start + 1] == OPutArgs(imp))
       && CodedSeq(b, b.fns[imp], i)
       && i + SizeSeq(b.fns[imp]) == r.start + r.nops - 1
  }

  function BodyStart(w: World, b: Bin, imp: Imp): nat
    requires imp in b.fimps && imp in w.imps
  {
    b.fimps[imp].start + if w.imps[imp].args == [] then 1 else 2
  }

  ghost predicate Complete(b: Bin, imp: Imp) {
    imp in b.fimps && b.fimps[imp].nops >= 0
  }

  /** Every function and lambda body the bin knows lies where it says. */
  ghost predicate Linked(w: World, b: Bin) {
    && (forall imp :: Complete(b, imp) ==> imp in b.fns && CodedFn(w, b, imp))
    && (forall imp :: imp in b.fns ==> Complete(b, imp))
    && (forall at :: at in b.lams ==>
          at < |b.ops| && b.ops[at] == OLambda(at + 1, SizeSeq(b.lams[at])) && CodedSeq(b, b.lams[at], at + 1))
    && (forall at :: 0 <= at < |b.ops| && b.ops[at].OLambda? ==> at in b.lams)
  }

  // ---- flat code runs as the tokens do -------------------------------------

  /** The claim for one body called with this much fuel. */
  ghost predicate Agrees(w: World, b: Bin, fuel: nat) {
    forall t, st :: RunTarget(Tree, w, b, fuel, t, st) == RunTarget(Interp, w, b, fuel, t, st)
  }

  lemma {:induction false} PrimAgrees(w: World, b: Bin, fuel: nat, p: Prim, hist: seq<State>)
    requires forall k | 0 <= k < fuel :: Agrees(w, b, k)
    ensures RunPrim(Tree, w, b, fuel, p, hist) == RunPrim(Interp, w, b, fuel, p, hist)
    decreases fuel, 0
  {
    match w.prim(p, hist)
    case Done(st) =>
    case Ask(v, scope, st) =>
      if fuel > 0 {
        ValueAgrees(w, b, fuel - 1, v, scope, Carry(hist, st));
        var r := CallValue(Tree, w, b, fuel - 1, v, scope, Carry(hist, st));
        if r.Some? { PrimAgrees(w, b, fuel - 1, p, hist + [r.value]); }
      }
  }

  lemma {:induction false} ValueAgrees(w: World, b: Bin, fuel: nat, v: Value, scope: nat, st: State)
    requires forall k | 0 <= k < fuel :: Agrees(w, b, k)
    ensures CallValue(Tree, w, b, fuel, v, scope, st) == CallValue(Interp, w, b, fuel, v, scope, st)
    decreases fuel, 2
  {
    match v
    case LambdaV(at, lib, home) =>
      if fuel > 0 {
        assert Agrees(w, b, fuel - 1);
        assert RunTarget(Tree, w, b, fuel - 1, LambdaAt(at), EnterLambda(lib, home, scope, st))
            == RunTarget(Interp, w, b, fuel - 1, LambdaAt(at), EnterLambda(lib, home, scope, st));
      }
    case FimpV(imp) => ImpAgrees(w, b, fuel, imp, scope, st);
    case FuncV(func) =>
      var imp := w.best(func, Obj(st, scope).stack);
      if imp.Some? { ImpAgrees(w, b, fuel, imp.value, scope, st); }
    case _ =>
  }

  lemma {:induction false} ImpAgrees(w: World, b: Bin, fuel: nat, imp: Imp, scope: nat, st: State)
    requires forall k | 0 <= k < fuel :: Agrees(w, b, k)
    ensures CallImp(Tree, w, b, fuel, imp, scope, st) == CallImp(Interp, w, b, fuel, imp, scope, st)
    decreases fuel, 1
  {
    if fuel > 0 && imp in w.imps {
      var info := w.imps[imp];
      var st1 := st.(calls := st.calls + [Call(imp, scope, [], 0)]);
      var st2 := PopArgs(st1, |info.args|);
      assert Agrees(w, b, fuel - 1);
      if info.prim.Some? {
        PrimAgrees(w, b, fuel - 1, info.prim.value, [if InLib(st2, info.lib) then st2 else PushLib(st2, info.lib)]);
      } else {
        assert RunTarget(Tree, w, b, fuel - 1, BodyOf(imp), st2) == RunTarget(Interp, w, b, fuel - 1, BodyOf(imp), st2);
      }
    }
  }

  lemma FuncallAgrees(w: World, b: Bin, fuel: nat, site: nat, func: Func, imp0: Option<Imp>, st: State)
    requires forall k | 0 <= k < fuel :: Agrees(w, b, k)
    ensures Funcall(Tree, w, b, fuel, site, func, imp0, st) == Funcall(Interp, w, b, fuel, site, func, imp0, st)
  {
    var (st1, imp) := Resolve(w, site, func, imp0, Met(w, site, imp0, st));
    if imp.Some? { ImpAgrees(w, b, fuel, imp.value, Top(st1), st1); }
  }

  /** Continue with the rest of the program from a partial result. */
  function Then(w: World, b: Bin, fuel: nat, r: Option<State>, pc: nat, stop: int): Option<State> {
    if r.None? then None else RunOps(w, b, fuel, pc, stop, r.value)
  }

  /** `stop` is not an address inside [a, e). */
  predicate Outside(stop: int, a: nat, e: nat) {
    !(a <= stop < e)
  }

  lemma OneStep(w: World, b: Bin, fuel: nat, pc: nat, stop: int, st: State, next: Next)
    requires pc < |b.ops| && pc != stop && next.pc > pc
    requires Step(w, b, fuel, pc, st) == Some(next)
    ensures RunOps(w, b, fuel, pc, stop, st) == RunOps(w, b, fuel, next.pc, stop, next.st)
  {
  }

  /** What single ops do, in both modes. */
  lemma BeginOp(w: World, b: Bin, fuel: nat, pc: nat, st: State)
    requires pc < |b.ops| && b.ops[pc].OBegin? && b.ops[pc].fimp.None?
    ensures Step(w, b, fuel, pc, st)
            == Some(if st.errors != [] then Next(pc + 1 + b.ops[pc].nops, st) else Next(pc + 1, EnterGroup(st)))
  {
    hide EnterGroup;
  }

  lemma EndOps(w: World, b: Bin, fuel: nat, pc: nat, st: State)
    requires pc < |b.ops|
    ensures b.ops[pc] == OStash ==>
            Step(w, b, fuel, pc, st) == Some(Next(pc + 1, if st.errors == [] then Stash(st) else st))
    ensures b.ops[pc] == OEnd ==> Step(w, b, fuel, pc, st) == Some(Next(pc + 1, End(st)))
  {
    hide End, Stash;
  }

  lemma ElseOp(w: World, b: Bin, fuel: nat, pc: nat, st: State)
    requires pc < |b.ops| && b.ops[pc].OElse?
    ensures Step(w, b, fuel, pc, st) == Some(
              if st.errors != [] then Next(pc + 1, st)
              else Next(if DoElse(w, st).Taken? then pc + 1 else pc + 1 + b.ops[pc].nops, DoElse(w, st).st))
  {
    hide DoElse;
  }

  lemma JumpOp(w: World, b: Bin, fuel: nat, pc: nat, st: State)
    requires pc < |b.ops| && b.ops[pc].OJump?
    ensures Step(w, b, fuel, pc, st) == Some(Next(b.ops[pc].pc, st))
  {
  }

  lemma ReturnOp(w: World, b: Bin, fuel: nat, pc: nat, st: State)
    requires pc < |b.ops| && b.ops[pc].OReturn? && b.ops[pc].imp in w.imps
    ensures Step(w, b, fuel, pc, st) == Some(
              if st.errors != [] then Next(pc + 1, LeaveFn(st))
              else match DoReturn(w, st, b.ops[pc].imp)
                   case Leave(st1) => Next(pc + 1, st1)
                   case Again(st1) => Next(b.ops[pc].pc + 1, st1))
  {
    hide DoReturn, LeaveFn;
  }

  lemma StuckStep(w: World, b: Bin, fuel: nat, pc: nat, stop: int, st: State)
    requires pc < |b.ops| && pc != stop && Step(w, b, fuel, pc, st).None?
    ensures RunOps(w, b, fuel, pc, stop, st).None?
  {
  }

  /** Ops [a, a + SizeSeq(ns)) run from either mode as the tokens do, and control
      then goes on at the end of the range. */
  lemma {:induction false} SeqRuns(w: World, b: Bin, fuel: nat, ns: seq<Node>, a: nat, stop: int, st: State)
    requires forall k | 0 <= k < fuel :: Agrees(w, b, k)
    requires CodedSeq(b, ns, a) && Outside(stop, a, a + SizeSeq(ns))
    ensures RunOps(w, b, fuel, a, stop, st) == Then(w, b, fuel, EvalSeq(w, b, fuel, ns, st), a + SizeSeq(ns), stop)
    decreases ns, 1
  {
    if ns != [] {
      NodeRuns(w, b, fuel, ns[0], a, stop, st);
      var r := EvalNode(w, b, fuel, ns[0], st);
      if r.Some? { SeqRuns(w, b, fuel, ns[1..], a + Size(ns[0]), stop, r.value); }
    }
  }

  lemma {:induction false} NodeRuns(w: World, b: Bin, fuel: nat, n: Node, a: nat, stop: int, st: State)
    requires forall k | 0 <= k < fuel :: Agrees(w, b, k)
    requires Coded(b, n, a) && Outside(stop, a, a + Size(n))
    ensures RunOps(w, b, fuel, a, stop, st) == Then(w, b, fuel, EvalNode(w, b, fuel, n, st), a + Size(n), stop)
    decreases n, 1
  {
    hide CodedSeq, CodedCases, RunOps;
    match n
    case NPush(v) => OneStep(w, b, fuel, a, stop, st, Next(a + 1, if st.errors != [] then st else Push(st, v)));
    case NGetVar(id) => OneStep(w, b, fuel, a, stop, st, Next(a + 1, if st.errors != [] then st else DoGetVar(st, id)));
    case NPutVar(id, ty) => OneStep(w, b, fuel, a, stop, st,
                                    Next(a + 1, if st.errors != [] then st else DoPutVar(w, st, id, ty)));
    case NGroup(body) => GroupRuns(w, b, fuel, n, a, stop, st);
    case NStack(body) => StackRuns(w, b, fuel, n, a, stop, st);
    case NLambda(at, body) =>
      OneStep(w, b, fuel, a, stop, st, Next(a + Size(n), if st.errors != [] then st else PushLambda(st, a)));
    case NCall(site, func, imp, inl) => CallRuns(w, b, fuel, n, a, stop, st);
    case NFunc(def, inl) =>
      var st1 := DoFuncdef(st, def);
      OneStep(w, b, fuel, a, stop, st, Next(a + 1, st1));
      SkipRuns(w, b, fuel, a + 1, inl, stop, st1);
    case NCatch(ty, body) => CatchRuns(w, b, fuel, n, a, stop, st);
    case NSwitch(cases) => CasesRun(w, b, fuel, cases, a, a + SizeCases(cases), stop, st);
  }

  /** OFIMP jumps over the body it stands before, in both modes. */
  lemma SkipRuns(w: World, b: Bin, fuel: nat, a: nat, inl: nat, stop: int, st: State)
    requires Inlined(b, a, inl) && Outside(stop, a, a + inl)
    ensures RunOps(w, b, fuel, a, stop, st) == RunOps(w, b, fuel, a + inl, stop, st)
  {
    if inl > 0 { OneStep(w, b, fuel, a, stop, st, Next(a + inl, st)); }
  }

  lemma CallRuns(w: World, b: Bin, fuel: nat, n: Node, a: nat, stop: int, st: State)
    requires forall k | 0 <= k < fuel :: Agrees(w, b, k)
    requires n.NCall? && Coded(b, n, a) && Outside(stop, a, a + Size(n))
    ensures RunOps(w, b, fuel, a, stop, st) == Then(w, b, fuel, EvalNode(w, b, fuel, n, st), a + Size(n), stop)
  {
    SkipRuns(w, b, fuel, a, n.inl, stop, st);
    if st.errors != [] {
      OneStep(w, b, fuel, n.site, stop, st, Next(n.site + 1, st));
    } else {
      FuncallAgrees(w, b, fuel, n.site, n.func, n.imp, st);
      var r := Funcall(Interp, w, b, fuel, n.site, n.func, n.imp, st);
      if r.Some? {
        OneStep(w, b, fuel, n.site, stop, st, Next(n.site + 1, r.value));
      } else {
        StuckStep(w, b, fuel, n.site, stop, st);
      }
    }
  }

  lemma {:induction false} GroupRuns(w: World, b: Bin, fuel: nat, n: Node, a: nat, stop: int, st: State)
    requires forall k | 0 <= k < fuel :: Agrees(w, b, k)
    requires n.NGroup? && Coded(b, n, a) && Outside(stop, a, a + Size(n))
    ensures RunOps(w, b, fuel, a, stop, st) == Then(w, b, fuel, EvalNode(w, b, fuel, n, st), a + Size(n), stop)
    decreases n, 0
  {
    hide Step, RunOps, EnterGroup, End;
    var e := a + 1 + SizeSeq(n.body);
    BeginOp(w, b, fuel, a, st);
    if st.errors != [] {
      OneStep(w, b, fuel, a, stop, st, Next(a + Size(n), st));
    } else {
      OneStep(w, b, fuel, a, stop, st, Next(a + 1, EnterGroup(st)));
      SeqRuns(w, b, fuel, n.body, a + 1, stop, EnterGroup(st));
      var r := EvalSeq(w, b, fuel, n.body, EnterGroup(st));
      if r.Some? {
        EndOps(w, b, fuel, e, r.value);
        OneStep(w, b, fuel, e, stop, r.value, Next(e + 1, End(r.value)));
      }
    }
  }

  lemma {:induction false} StackRuns(w: World, b: Bin, fuel: nat, n: Node, a: nat, stop: int, st: State)
    requires forall k | 0 <= k < fuel :: Agrees(w, b, k)
    requires n.NStack? && Coded(b, n, a) && Outside(stop, a, a + Size(n))
    ensures RunOps(w, b, fuel, a, stop, st) == Then(w, b, fuel, EvalNode(w, b, fuel, n, st), a + Size(n), stop)
    decreases n, 0
  {
    hide Step, RunOps, EnterGroup, End, Stash;
    var e := a + 1 + SizeSeq(n.body);
    BeginOp(w, b, fuel, a, st);
    if st.errors != [] {
      OneStep(w, b, fuel, a, stop, st, Next(a + Size(n), st));
    } else {
      OneStep(w, b, fuel, a, stop, st, Next(a + 1, EnterGroup(st)));
      SeqRuns(w, b, fuel, n.body, a + 1, stop, EnterGroup(st));
      var r := EvalSeq(w, b, fuel, n.body, EnterGroup(st));
      if r.Some? {
        var st2 := if r.value.errors == [] then Stash(r.value) else r.value;
        EndOps(w, b, fuel, e, r.value);
        EndOps(w, b, fuel, e + 1, st2);
        OneStep(w, b, fuel, e, stop, r.value, Next(e + 1, st2));
        OneStep(w, b, fuel, e + 1, stop, st2, Next(e + 2, End(st2)));
      }
    }
  }

  /** After `catch: _` the body is walked a second time, with the error back. */
  lemma {:induction false} CatchRuns(w: World, b: Bin, fuel: nat, n: Node, a: nat, stop: int, st: State)
    requires forall k | 0 <= k < fuel :: Agrees(w, b, k)
    requires n.NCatch? && Coded(b, n, a) && Outside(stop, a, a + Size(n))
    ensures RunOps(w, b, fuel, a, stop, st) == Then(w, b, fuel, EvalNode(w, b, fuel, n, st), a + Size(n), stop)
    decreases n, 0
  {
    var e := a + Size(n);
    if st.errors == [] {
      OneStep(w, b, fuel, a, stop, st, Next(if n.ty.Some? then e else a + 1, st));
      if n.ty.None? { SeqRuns(w, b, fuel, n.body, a + 1, stop, st); }
    } else if n.ty.None? {
      var st1 := DropError(st);
      SeqRuns(w, b, fuel, n.body, a + 1, e, st1);
      var r := EvalSeq(w, b, fuel, n.body, st1);
      if r.Some? {
        assert RunOps(w, b, fuel, a + 1, e, st1) == r;
        var st2 := Rethrow(r.value, st.errors[|st.errors| - 1]);
        OneStep(w, b, fuel, a, stop, st, Next(a + 1, st2));
        SeqRuns(w, b, fuel, n.body, a + 1, stop, st2);
      } else {
        StuckStep(w, b, fuel, a, stop, st);
      }
    } else if Catches(w, st, n.ty.value) {
      OneStep(w, b, fuel, a, stop, st, Next(a + 1, CatchError(st)));
      SeqRuns(w, b, fuel, n.body, a + 1, stop, CatchError(st));
    } else {
      OneStep(w, b, fuel, a, stop, st, Next(e, st));
    }
  }

  /** A taken clause ends with its jump to the end of the whole switch. */
  lemma {:induction false} CasesRun(w: World, b: Bin, fuel: nat, cs: seq<Case>, a: nat, end: nat, stop: int, st: State)
    requires forall k | 0 <= k < fuel :: Agrees(w, b, k)
    requires CodedCases(b, cs, a, end) && end == a + SizeCases(cs) && Outside(stop, a, end)
    ensures RunOps(w, b, fuel, a, stop, st) == Then(w, b, fuel, EvalCases(w, b, fuel, cs, st), end, stop)
    decreases cs, 1
  {
    hide RunOps, CodedSeq, EvalSeq, EvalNode, Step, DoElse;
    if cs != [] {
      var c := cs[0];
      var m := a + SizeSeq(c.cond);
      SeqRuns(w, b, fuel, c.cond, a, stop, st);
      var r := EvalSeq(w, b, fuel, c.cond, st);
      if r.Some? {
        ElseOp(w, b, fuel, m, r.value);
        if r.value.errors != [] {
          OneStep(w, b, fuel, m, stop, r.value, Next(m + 1, r.value));
          ClauseRuns(w, b, fuel, c, m + 1, end, stop, r.value);
        } else {
          match DoElse(w, r.value)
          case Taken(st1) =>
            OneStep(w, b, fuel, m, stop, r.value, Next(m + 1, st1));
            ClauseRuns(w, b, fuel, c, m + 1, end, stop, st1);
          case Skipped(st1) =>
            var next := m + 2 + SizeSeq(c.body);
            OneStep(w, b, fuel, m, stop, r.value, Next(next, st1));
            CasesRun(w, b, fuel, cs[1..], next, end, stop, st1);
        }
      }
    }
  }

  lemma {:induction false} ClauseRuns(w: World, b: Bin, fuel: nat, c: Case, a: nat, end: nat, stop: int, st: State)
    requires forall k | 0 <= k < fuel :: Agrees(w, b, k)
    requires CodedSeq(b, c.body, a) && a + SizeSeq(c.body) < |b.ops| && b.ops[a + SizeSeq(c.body)] == OJump(end)
    requires a + SizeSeq(c.body) < end && Outside(stop, a, end)
    ensures RunOps(w, b, fuel, a, stop, st) == Then(w, b, fuel, EvalSeq(w, b, fuel, c.body, st), end, stop)
    decreases c, 1
  {
    hide RunOps, Step, EvalSeq, CodedSeq;
    SeqRuns(w, b, fuel, c.body, a, stop, st);
    var r := EvalSeq(w, b, fuel, c.body, st);
    if r.Some? { JumpOp(w, b, fuel, a + SizeSeq(c.body), r.value); OneStep(w, b, fuel, a + SizeSeq(c.body), stop,
        r.value, Next(end, r.value)); }
  }

  /** One round: arguments, body, and the return op with its outcome. */
  lemma {:induction false} RoundRuns(w: World, b: Bin, fuel: nat, imp: Imp, st: State)
    requires Complete(b, imp) && imp in b.fns && CodedFn(w, b, imp)
    requires forall k | 0 <= k < fuel :: Agrees(w, b, k)
    ensures
      var r := b.fimps[imp];
      var st1 := if st.errors == [] then DoPutArgs(w, st, imp) else st;
      var body := EvalSeq(w, b, fuel, b.fns[imp], st1);
      RunOps(w, b, fuel, r.start + 1, r.start + r.nops, st)
          == Then(w, b, fuel, body, r.start + r.nops - 1, r.start + r.nops)
  {
    var r := b.fimps[imp];
    var i := BodyStart(w, b, imp);
    var stop := r.start + r.nops;
    var st1 := if st.errors == [] then DoPutArgs(w, st, imp) else st;
    if i > r.start + 1 {
      OneStep(w, b, fuel, r.start + 1, stop, st, Next(i, st1));
    }
    SeqRuns(w, b, fuel, b.fns[imp], i, stop, st1);
  }

  /** ORETURN at the end of a function, stopping right after it. */
  lemma ReturnRuns(w: World, b: Bin, fuel: nat, imp: Imp, st: State)
    requires Complete(b, imp) && imp in b.fns && CodedFn(w, b, imp)
    ensures var r := b.fimps[imp];
            var stop := r.start + r.nops;
            RunOps(w, b, fuel, stop - 1, stop, st) ==
              if st.errors != [] then Some(LeaveFn(st))
              else match DoReturn(w, st, imp)
                   case Leave(st1) => Some(st1)
                   case Again(st1) => if fuel == 0 then None else RunOps(w, b, fuel - 1, r.start + 1, stop, st1)
  {
    hide Step, CodedSeq, DoReturn, LeaveFn;
    var r := b.fimps[imp];
    var stop := r.start + r.nops;
    ReturnOp(w, b, fuel, stop - 1, st);
    AtStops(w, b, fuel, stop);
    if st.errors != [] {
      OneStep(w, b, fuel, stop - 1, stop, st, Next(stop, LeaveFn(st)));
    } else {
      match DoReturn(w, st, imp)
      case Leave(st1) => OneStep(w, b, fuel, stop - 1, stop, st, Next(stop, st1));
      case Again(st1) => assert Step(w, b, fuel, stop - 1, st) == Some(Next(r.start + 1, st1));
    }
  }

  /** A function body with any number of recalls. */
  lemma {:induction false} RoundsRun(w: World, b: Bin, fuel: nat, imp: Imp, st: State)
    requires Complete(b, imp) && imp in b.fns && CodedFn(w, b, imp)
    requires forall k | 0 <= k < fuel :: Agrees(w, b, k)
    ensures var r := b.fimps[imp];
            RunOps(w, b, fuel, r.start + 1, r.start + r.nops, st) == FnRounds(w, b, fuel, imp, st)
    decreases fuel
  {
    RoundRuns(w, b, fuel, imp, st);
    var st1 := if st.errors == [] then DoPutArgs(w, st, imp) else st;
    var e := EvalSeq(w, b, fuel, b.fns[imp], st1);
    if e.Some? {
      ReturnRuns(w, b, fuel, imp, e.value);
      if e.value.errors == [] {
        match DoReturn(w, e.value, imp)
        case Leave(st2) =>
        case Again(st2) => if fuel > 0 { RoundsRun(w, b, fuel - 1, imp, st2); }
      }
    }
  }

  /** For every call target, entry state and amount of fuel the flat code gives
      what the tokens mean. */
  lemma {:induction false} TargetsAgree(w: World, b: Bin, fuel: nat)
    requires Linked(w, b)
    ensures Agrees(w, b, fuel)
    decreases fuel
  {
    forall k | 0 <= k < fuel ensures Agrees(w, b, k) { TargetsAgree(w, b, k); }
    forall t, st ensures RunTarget(Tree, w, b, fuel, t, st) == RunTarget(Interp, w, b, fuel, t, st) {
      match t
      case BodyOf(imp) => if Complete(b, imp) { FnRuns(w, b, fuel, imp, st); }
      case LambdaAt(at) =>
        if at in b.lams {
          SeqRuns(w, b, fuel, b.lams[at], at + 1, at + 1 + SizeSeq(b.lams[at]), st);
        }
    }
  }

  lemma AtStops(w: World, b: Bin, fuel: nat, stop: nat)
    ensures forall st :: RunOps(w, b, fuel, stop, stop, st) == Some(st)
  {
  }

  lemma AtStop(w: World, b: Bin, fuel: nat, stop: nat, st: State)
    ensures RunOps(w, b, fuel, stop, stop, st) == Some(st)
  {
  }

  /** OBEGIN at the start of a function, in both modes. */
  lemma BeginSteps(w: World, b: Bin, fuel: nat, imp: Imp, st: State)
    requires Complete(b, imp) && imp in b.fns && CodedFn(w, b, imp)
    ensures var r := b.fimps[imp];
            Step(w, b, fuel, r.start, st) ==
              Some(if st.errors != [] then Next(r.start + r.nops, st) else Next(r.start + 1, EnterFn(w, st, imp)))
  {
  }

  lemma BodyTargets(w: World, b: Bin, fuel: nat, imp: Imp, st: State)
    requires Complete(b, imp) && imp in b.fns && imp in w.imps
    ensures RunTarget(Tree, w, b, fuel, BodyOf(imp), st) == FnTree(w, b, fuel, imp, st)
    ensures var r := b.fimps[imp];
            RunTarget(Interp, w, b, fuel, BodyOf(imp), st) == RunOps(w, b, fuel, r.start, r.start + r.nops, st)
  {
  }

  lemma FnRuns(w: World, b: Bin, fuel: nat, imp: Imp, st: State)
    requires Linked(w, b) && Complete(b, imp)
    requires forall k | 0 <= k < fuel :: Agrees(w, b, k)
    ensures RunTarget(Tree, w, b, fuel, BodyOf(imp), st) == RunTarget(Interp, w, b, fuel, BodyOf(imp), st)
  {
    hide CodedSeq, FnRounds, EvalSeq, EvalNode, StepError, StepNormal, Step, RunOps, RunTarget, RunFlat;
    assert CodedFn(w, b, imp);
    BodyTargets(w, b, fuel, imp, st);
    BeginSteps(w, b, fuel, imp, st);
    var r := b.fimps[imp];
    var stop := r.start + r.nops;
    if st.errors != [] {
      OneStep(w, b, fuel, r.start, stop, st, Next(stop, st));
      AtStop(w, b, fuel, stop, st);
    } else {
      OneStep(w, b, fuel, r.start, stop, st, Next(r.start + 1, EnterFn(w, st, imp)));
      RoundsRun(w, b, fuel, imp, EnterFn(w, st, imp));
    }
  }

  /** Any token sequence that is coded in a linked bin, in any mode, with any stop
      address outside its range. */
  lemma CodeRunsAsTokens(w: World, b: Bin, fuel: nat, ns: seq<Node>, a: nat, stop: int, st: State)
    requires Linked(w, b) && CodedSeq(b, ns, a) && Outside(stop, a, a + SizeSeq(ns))
    ensures RunOps(w, b, fuel, a, stop, st) == Then(w, b, fuel, EvalSeq(w, b, fuel, ns, st), a + SizeSeq(ns), stop)
  {
    forall k | 0 <= k < fuel ensures Agrees(w, b, k) { TargetsAgree(w, b, k); }
    SeqRuns(w, b, fuel, ns, a, stop, st);
  }
}
