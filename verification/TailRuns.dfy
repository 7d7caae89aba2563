/** A program runs as its tokens mean, whatever switches stand inside others, as long
    as it takes no jump that was sent away from where it should lead.  If switches stand
    inside others only at the end of a clause, there is no such jump. */
module TailRuns {
  import opened Basics
  import opened VmState
  import opened Vm
  import opened Visits
  import opened Layout
  import opened Compiler
  import opened CompilerProof
  import opened SwitchPatch
  import opened TailSwitch

  /** Two bins that differ in jumps only, with every body where it should be. */
  ghost predicate Joined(x: Bin, y: Bin) {
    && Twins(x, y)
    && (forall at :: 0 <= at < |y.ops| && y.ops[at].OLambda? ==> y.ops[at].start == at + 1)
    && (forall imp :: Complete(y, imp) ==>
          var r := y.fimps[imp];
          r.start < |y.ops| && r.nops >= 1 && y.ops[r.start] == OBegin(Some(imp), r.nops - 1))
  }

  /** The op is the intended one, or a jump to where the intended one leads, over other
      jumps and across the end of no body. */
  ghost predicate Sane(x: Bin, y: Bin, pc: nat)
    decreases |x.ops| - pc
  {
    pc < |x.ops| == |y.ops| ==>
      x.ops[pc] == y.ops[pc] || (Bridge(0, x.ops, y.ops, pc) && Sane(x, y, y.ops[pc].pc))
  }

  /** So are all that are met. */
  ghost predicate AllSane(x: Bin, y: Bin, vs: seq<Visit>) {
    forall k :: 0 <= k < |vs| ==> Sane(x, y, vs[k].pc)
  }

  lemma SaneParts(x: Bin, y: Bin, vs: seq<Visit>, us: seq<Visit>)
    requires AllSane(x, y, vs + us)
    ensures AllSane(x, y, vs) && AllSane(x, y, us)
  {
    forall k | 0 <= k < |vs| ensures Sane(x, y, vs[k].pc) { assert (vs + us)[k] == vs[k]; }
    forall k | 0 <= k < |us| ensures Sane(x, y, us[k].pc) { assert (vs + us)[|vs| + k] == us[k]; }
  }

  /** `stop` is no place that a bridge crosses: no address at all, or a body's end. */
  ghost predicate EndsBody(y: Bin, stop: int) {
    stop < 0 || exists c :: 0 <= c < |y.ops| && Stopping(y.ops[c]) && stop == c + 1 + y.ops[c].nops
  }

  ghost predicate SameTarget(w: World, x: Bin, y: Bin, fuel: nat, t: Target, st: State) {
    AllSane(x, y, TargetVisits(Interp, w, x, fuel, t, st)) ==>
      RunTarget(Interp, w, x, fuel, t, st) == RunTarget(Interp, w, y, fuel, t, st)
  }

  ghost predicate SameTargets(w: World, x: Bin, y: Bin, fuel: nat) {
    forall t, st: State :: SameTarget(w, x, y, fuel, t, st)
  }

  lemma {:induction false} PrimSame(w: World, x: Bin, y: Bin, fuel: nat, p: Prim, hist: seq<State>)
    requires forall k | 0 <= k < fuel :: SameTargets(w, x, y, k)
    requires AllSane(x, y, PrimVisits(Interp, w, x, fuel, p, hist))
    ensures RunPrim(Interp, w, x, fuel, p, hist) == RunPrim(Interp, w, y, fuel, p, hist)
    decreases fuel, 0
  {
    hide CallValue, ValueVisits, AllSane;
    match w.prim(p, hist)
    case Done(st) =>
    case Ask(v, scope, st) =>
      if fuel > 0 {
        var st1 := Carry(hist, st);
        var r := CallValue(Interp, w, x, fuel - 1, v, scope, st1);
        var more := if r.None? then [] else PrimVisits(Interp, w, x, fuel - 1, p, hist + [r.value]);
        SaneParts(x, y, ValueVisits(Interp, w, x, fuel - 1, v, scope, st1), more);
        ValueSame(w, x, y, fuel - 1, v, scope, st1);
        if r.Some? { PrimSame(w, x, y, fuel - 1, p, hist + [r.value]); }
      }
  }

  lemma {:induction false} ValueSame(w: World, x: Bin, y: Bin, fuel: nat, v: Value, scope: nat, st: State)
    requires forall k | 0 <= k < fuel :: SameTargets(w, x, y, k)
    requires AllSane(x, y, ValueVisits(Interp, w, x, fuel, v, scope, st))
    ensures CallValue(Interp, w, x, fuel, v, scope, st) == CallValue(Interp, w, y, fuel, v, scope, st)
    decreases fuel, 2
  {
    hide RunTarget, CallImp, AllSane, TargetVisits, ImpVisits;
    match v
    case LambdaV(at, lib, home) =>
      if fuel > 0 {
        assert SameTargets(w, x, y, fuel - 1);
        assert SameTarget(w, x, y, fuel - 1, LambdaAt(at), EnterLambda(lib, home, scope, st));
      }
    case FimpV(imp) =>
      if !(Obj(st, scope).safe && !w.matches(imp, Obj(st, scope).stack)) { ImpSame(w, x, y, fuel, imp, scope, st); }
    case FuncV(func) =>
      var imp := w.best(func, Obj(st, scope).stack);
      if imp.Some? { ImpSame(w, x, y, fuel, imp.value, scope, st); }
    case _ =>
  }

  lemma {:induction false} ImpSame(w: World, x: Bin, y: Bin, fuel: nat, imp: Imp, scope: nat, st: State)
    requires forall k | 0 <= k < fuel :: SameTargets(w, x, y, k)
    requires AllSane(x, y, ImpVisits(Interp, w, x, fuel, imp, scope, st))
    ensures CallImp(Interp, w, x, fuel, imp, scope, st) == CallImp(Interp, w, y, fuel, imp, scope, st)
    decreases fuel, 1
  {
    hide RunTarget, RunPrim, AllSane, TargetVisits, PrimVisits;
    if fuel > 0 && imp in w.imps && |st.calls| < MAX_CALLS {
      var info := w.imps[imp];
      var st1 := st.(calls := st.calls + [Call(imp, scope, [], 0)]);
      if |Obj(st1, scope).stack| >= |info.args| {
        var st2 := PopArgs(st1, |info.args|);
        match info.prim
        case Some(p) => PrimSame(w, x, y, fuel - 1, p, [if InLib(st2, info.lib) then st2 else PushLib(st2, info.lib)]);
        case None =>
          assert SameTargets(w, x, y, fuel - 1);
          assert SameTarget(w, x, y, fuel - 1, BodyOf(imp), st2);
      }
    }
  }

  lemma FuncallSame(w: World, x: Bin, y: Bin, fuel: nat, site: nat, func: Func, imp0: Option<Imp>, st: State)
    requires forall k | 0 <= k < fuel :: SameTargets(w, x, y, k)
    requires AllSane(x, y, FuncallVisits(Interp, w, x, fuel, site, func, imp0, st))
    ensures Funcall(Interp, w, x, fuel, site, func, imp0, st) == Funcall(Interp, w, y, fuel, site, func, imp0, st)
  {
    hide CallImp, ImpVisits, AllSane;
    var (st1, imp) := Resolve(w, site, func, imp0, Met(w, site, imp0, st));
    if imp.Some? { ImpSame(w, x, y, fuel, imp.value, Top(st1), st1); }
  }

  /** An op that both bins have. */
  lemma {:induction false} StepSame(w: World, x: Bin, y: Bin, fuel: nat, pc: nat, st: State)
    requires Joined(x, y) && pc < |x.ops| && x.ops[pc] == y.ops[pc]
    requires forall k | 0 <= k < fuel :: SameTargets(w, x, y, k)
    requires AllSane(x, y, InOp(w, x, fuel, pc, st))
    ensures Step(w, x, fuel, pc, st) == Step(w, y, fuel, pc, st)
    decreases fuel, |x.ops| - pc, 0
  {
    hide RunOps, Funcall, DoReturn, DoElse, EnterFn, DoPutArgs, AllSane, OpVisits, FuncallVisits;
    if st.errors == [] && x.ops[pc].OFuncall? {
      FuncallSame(w, x, y, fuel, pc, x.ops[pc].func, x.ops[pc].imp0, st);
    } else if st.errors != [] && x.ops[pc].OCatch? && x.ops[pc].ty.None? {
      assert EndsBody(y, pc + 1 + y.ops[pc].nops);
      OpsSame(w, x, y, fuel, pc + 1, pc + 1 + x.ops[pc].nops, DropError(st));
    }
  }

  /** Two bins run alike from every address, in both modes, calls and clean-up clauses
      included, when every op that is met is the intended one or a bridged jump. */
  lemma {:induction false} OpsSame(w: World, x: Bin, y: Bin, fuel: nat, pc: nat, stop: int, st: State)
    requires Joined(x, y) && EndsBody(y, stop)
    requires forall k | 0 <= k < fuel :: SameTargets(w, x, y, k)
    requires AllSane(x, y, OpVisits(w, x, fuel, pc, stop, st))
    ensures RunOps(w, x, fuel, pc, stop, st) == RunOps(w, y, fuel, pc, stop, st)
    decreases fuel, if pc < |x.ops| then |x.ops| - pc else 0, 1
  {
    hide Step, InOp, AllSane, EndsBody;
    if pc < |x.ops| && pc != stop {
      SaneHere(w, x, y, fuel, pc, stop, st);
      if x.ops[pc] == y.ops[pc] {
        StepSame(w, x, y, fuel, pc, st);
        var r := Step(w, x, fuel, pc, st);
        if r.Some? {
          if r.value.pc > pc { OpsSame(w, x, y, fuel, r.value.pc, stop, r.value.st); }
          else if fuel > 0 { OpsSame(w, x, y, fuel - 1, r.value.pc, stop, r.value.st); }
        }
      } else {
        BridgeSame(w, x, y, fuel, pc, stop, st);
      }
    }
  }

  /** What is met from here on is this op, what it calls, and the rest. */
  lemma SaneHere(w: World, x: Bin, y: Bin, fuel: nat, pc: nat, stop: int, st: State)
    requires pc < |x.ops| && pc != stop && AllSane(x, y, OpVisits(w, x, fuel, pc, stop, st))
    ensures Sane(x, y, pc) && AllSane(x, y, InOp(w, x, fuel, pc, st))
    ensures var r := Step(w, x, fuel, pc, st);
            r.Some? ==>
              && (r.value.pc > pc ==> AllSane(x, y, OpVisits(w, x, fuel, r.value.pc, stop, r.value.st)))
              && (r.value.pc <= pc && fuel > 0 ==>
                  AllSane(x, y, OpVisits(w, x, fuel - 1, r.value.pc, stop, r.value.st)))
  {
    hide Step, InOp;
    var here := [Visit(pc, st.errors != [])];
    var (inner, r) := (InOp(w, x, fuel, pc, st), Step(w, x, fuel, pc, st));
    var more := if r.None? then []
      else if r.value.pc > pc then OpVisits(w, x, fuel, r.value.pc, stop, r.value.st)
      else if fuel == 0 then []
      else OpVisits(w, x, fuel - 1, r.value.pc, stop, r.value.st);
    SaneParts(x, y, here + inner, more);
    SaneParts(x, y, here, inner);
    assert here[0].pc == pc;
  }

  /** The intended jump leads to a jump to the place where the other one goes at once. */
  lemma {:induction false} BridgeSame(w: World, x: Bin, y: Bin, fuel: nat, pc: nat, stop: int, st: State)
    requires Joined(x, y) && EndsBody(y, stop) && pc < |x.ops| && pc != stop
    requires x.ops[pc] != y.ops[pc] && Sane(x, y, pc)
    requires forall k | 0 <= k < fuel :: SameTargets(w, x, y, k)
    requires AllSane(x, y, OpVisits(w, x, fuel, pc, stop, st))
    ensures RunOps(w, x, fuel, pc, stop, st) == RunOps(w, y, fuel, pc, stop, st)
    decreases fuel, |x.ops| - pc, 0
  {
    var (via, end) := (y.ops[pc].pc, x.ops[pc].pc);
    assert Bridge(0, x.ops, y.ops, pc) && Sane(x, y, via);
    CrossesNone(x, y, pc, stop);
    hide AllSane, RunOps, OpVisits, Sane;
    Jumps(w, x, fuel, pc, stop, st);
    Jumps(w, y, fuel, pc, stop, st);
    Jumps(w, x, fuel, via, stop, st);
    JumpVisits(w, x, fuel, pc, stop, st);
    JumpVisits(w, x, fuel, via, stop, st);
    SaneParts(x, y, [Visit(pc, st.errors != [])], OpVisits(w, x, fuel, end, stop, st));
    SaneOne(x, y, Visit(via, st.errors != []), OpVisits(w, x, fuel, end, stop, st));
    OpsSame(w, x, y, fuel, via, stop, st);
  }

  lemma SaneOne(x: Bin, y: Bin, v: Visit, vs: seq<Visit>)
    requires Sane(x, y, v.pc) && AllSane(x, y, vs)
    ensures AllSane(x, y, [v] + vs)
  {
    hide Sane;
    forall k | 0 <= k < |[v] + vs| ensures Sane(x, y, ([v] + vs)[k].pc) {
      if k > 0 { assert ([v] + vs)[k] == vs[k - 1]; }
    }
  }

  lemma JumpVisits(w: World, b: Bin, fuel: nat, pc: nat, stop: int, st: State)
    requires pc < |b.ops| && b.ops[pc].OJump? && pc < b.ops[pc].pc && pc != stop
    ensures OpVisits(w, b, fuel, pc, stop, st)
         == [Visit(pc, st.errors != [])] + OpVisits(w, b, fuel, b.ops[pc].pc, stop, st)
  {
    var here := [Visit(pc, st.errors != [])];
    assert InOp(w, b, fuel, pc, st) == [] && here + [] == here;
    assert Step(w, b, fuel, pc, st) == Some(Next(b.ops[pc].pc, st));
  }

  lemma CrossesNone(x: Bin, y: Bin, pc: nat, stop: int)
    requires EndsBody(y, stop) && pc < |x.ops| == |y.ops| && Bridge(0, x.ops, y.ops, pc)
    ensures y.ops[pc].pc != stop
  {
  }

  /** A jump forward, in either mode. */
  lemma Jumps(w: World, b: Bin, fuel: nat, pc: nat, stop: int, st: State)
    requires pc < |b.ops| && b.ops[pc].OJump? && pc < b.ops[pc].pc && pc != stop
    ensures RunOps(w, b, fuel, pc, stop, st) == RunOps(w, b, fuel, b.ops[pc].pc, stop, st)
  {
    OneStep(w, b, fuel, pc, stop, st, Next(b.ops[pc].pc, st));
  }

  lemma {:induction false} TargetsSame(w: World, x: Bin, y: Bin, fuel: nat)
    requires Joined(x, y)
    ensures SameTargets(w, x, y, fuel)
    decreases fuel
  {
    hide SameTarget;
    forall k | 0 <= k < fuel ensures SameTargets(w, x, y, k) { TargetsSame(w, x, y, k); }
    forall t, st: State ensures SameTarget(w, x, y, fuel, t, st) { TargetSame(w, x, y, fuel, t, st); }
  }

  lemma TargetSame(w: World, x: Bin, y: Bin, fuel: nat, t: Target, st: State)
    requires Joined(x, y) && forall k | 0 <= k < fuel :: SameTargets(w, x, y, k)
    ensures SameTarget(w, x, y, fuel, t, st)
  {
    hide RunOps, OpVisits, AllSane;
    if AllSane(x, y, TargetVisits(Interp, w, x, fuel, t, st)) {
      match t
      case BodyOf(imp) =>
        if Complete(y, imp) {
          var r := y.fimps[imp];
          assert Stopping(y.ops[r.start]) && EndsBody(y, r.start + r.nops);
          FlatSame(w, x, y, fuel, r.start, r.start + r.nops, st);
        }
      case LambdaAt(at) =>
        if at < |y.ops| && y.ops[at].OLambda? {
          assert Stopping(y.ops[at]) && EndsBody(y, at + 1 + y.ops[at].nops);
          FlatSame(w, x, y, fuel, at + 1, at + 1 + y.ops[at].nops, st);
        }
    }
  }

  lemma FlatSame(w: World, x: Bin, y: Bin, fuel: nat, start: nat, stop: int, st: State)
    requires Joined(x, y) && EndsBody(y, stop) && forall k | 0 <= k < fuel :: SameTargets(w, x, y, k)
    requires AllSane(x, y, FlatVisits(Interp, w, x, fuel, start, stop, st))
    ensures RunFlat(Interp, w, x, fuel, start, stop, st) == RunFlat(Interp, w, y, fuel, start, stop, st)
  {
    OpsSame(w, x, y, fuel, start, stop, st);
  }

  // ---- results -------------------------------------------------------------

  /** The two compilers' bins, for every program. */
  lemma CompiledJoins(w: World, toks: seq<Tok>)
    ensures Joined(Compile(w, PatchAll, toks).0, Compile(w, PatchOwn, toks).0)
    ensures Compile(w, PatchAll, toks).1 == Compile(w, PatchOwn, toks).1
  {
    hide Paired, Linked, CodedSeq, CompileSeq;
    var (x, y) := (Compile(w, PatchAll, toks).0, Compile(w, PatchOwn, toks).0);
    assert EMPTY_BIN.fimps.Keys == {};
    SeqPaired(w, toks, EMPTY_BIN, EMPTY_BIN);
    PairedTwins(EMPTY_BIN, EMPTY_BIN, x, y, SeenSeq(w, toks, {}),
                FlatSeq(w, toks, {}, false), FlatSeq(w, toks, {}, true));
    CompiledIsLinked(w, toks);
    LinkedStarts(w, y);
  }

  lemma LinkedStarts(w: World, b: Bin)
    requires Linked(w, b)
    ensures forall at :: 0 <= at < |b.ops| && b.ops[at].OLambda? ==> b.ops[at].start == at + 1
    ensures forall imp :: Complete(b, imp) ==>
              var r := b.fimps[imp];
              r.start < |b.ops| && r.nops >= 1 && b.ops[r.start] == OBegin(Some(imp), r.nops - 1)
  {
    hide CodedSeq;
    forall imp | Complete(b, imp)
      ensures var r := b.fimps[imp];
              r.start < |b.ops| && r.nops >= 1 && b.ops[r.start] == OBegin(Some(imp), r.nops - 1)
    { assert CodedFn(w, b, imp); }
  }

  /** Any program, with switches wherever they stand: if all ops that its run meets, in
      calls and clean-up clauses too, are the intended ones or jumps that lead to the
      intended place, then the run is what its tokens mean. */
  lemma SaneRunsAsTokens(w: World, toks: seq<Tok>, fuel: nat, st: State)
    requires var (x, y) := (Compile(w, PatchAll, toks).0, Compile(w, PatchOwn, toks).0);
             AllSane(x, y, OpVisits(w, x, fuel, 0, -1, st))
    ensures var (b, ns) := Compile(w, PatchOwn, toks);
            RunOps(w, Compile(w, PatchAll, toks).0, fuel, 0, -1, st) == EvalSeq(w, b, fuel, ns, st)
  {
    hide Compile, RunOps, EvalSeq, OpVisits, AllSane;
    CompiledJoins(w, toks);
    var (x, y) := (Compile(w, PatchAll, toks).0, Compile(w, PatchOwn, toks).0);
    forall k | 0 <= k < fuel ensures SameTargets(w, x, y, k) { TargetsSame(w, x, y, k); }
    OpsSame(w, x, y, fuel, 0, -1, st);
    CompilerCorrect(w, toks, fuel, st);
  }

  lemma {:induction false} BridgedIsSane(x: Bin, y: Bin, pc: nat)
    requires Bridged(0, x.ops, y.ops)
    ensures Sane(x, y, pc)
    decreases |x.ops| - pc
  {
    if pc < |x.ops| && x.ops[pc] != y.ops[pc] {
      assert Bridge(0, x.ops, y.ops, pc);
      BridgedIsSane(x, y, y.ops[pc].pc);
    }
  }

  /** The compiler as it is, on every program whose switches stand inside others only at
      the end of a clause: running it is the meaning of its tokens, for every entry
      state, mode and amount of fuel. */
  lemma TailProgramsRunAsTokens(w: World, toks: seq<Tok>, fuel: nat, st: State)
    requires TailSeq(w, toks, {}, false)
    ensures var (b, ns) := Compile(w, PatchOwn, toks);
            RunOps(w, Compile(w, PatchAll, toks).0, fuel, 0, -1, st) == EvalSeq(w, b, fuel, ns, st)
  {
    hide CompileSeq, RunOps, EvalSeq, OpVisits, Sane;
    var (x, y) := (Compile(w, PatchAll, toks).0, Compile(w, PatchOwn, toks).0);
    assert EMPTY_BIN.fimps.Keys == {};
    SeqEnds(w, toks, EMPTY_BIN, EMPTY_BIN);
    assert Bridged(0, x.ops, y.ops);
    forall pc: nat ensures Sane(x, y, pc) { BridgedIsSane(x, y, pc); }
    SaneRunsAsTokens(w, toks, fuel, st);
  }
}
