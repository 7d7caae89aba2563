/** The virtual machine as it runs: a context whose stacks, error vector and program
    counter the op handlers change in place, and the `eval` loop over them.  Each
    method leaves exactly the state that `VmState` and `Vm` give as its meaning;
    `done` is false when the fuel of that meaning runs out. */
module Context {
  import opened Basics
  import opened VmState
  import opened Vm
  import opened BinBuilder

  class Cx {
    var heap: seq<Scope>
    var scopes: seq<nat>
    var libs: seq<Lib>
    var calls: seq<Call>
    var errors: seq<Value>
    var cache: map<nat, Option<Imp>>
    var home: map<Imp, nat>
    var badReturns: nat
    var partings: nat
    var pc: nat

    constructor (st: State)
      ensures Now() == st && pc == 0
    {
      heap, scopes, libs, calls, errors := st.heap, st.scopes, st.libs, st.calls, st.errors;
      cache, home, badReturns, partings, pc := st.cache, st.home, st.badReturns, st.partings, 0;
    }

    function Now(): State
      reads this
    {
      State(heap, scopes, libs, calls, errors, cache, home, badReturns, partings)
    }

    method Load(st: State)
      modifies this
      ensures Now() == st && pc == old(pc)
    {
      heap, scopes, libs, calls, errors := st.heap, st.scopes, st.libs, st.calls, st.errors;
      cache, home, badReturns, partings := st.cache, st.home, st.badReturns, st.partings;
    }

    // ---- scope, lib and call stacks ----------------------------------------

    method Throw(msg: string)
      modifies this`errors
      ensures Now() == Error(old(Now()), msg)
    {
      errors := errors + [Text(msg)];
    }

    method Store(id: nat, s: seq<Value>)
      modifies this`heap
      ensures Now() == SetStack(old(Now()), id, s)
    {
      if id < |heap| { heap := heap[id := heap[id].(stack := s)]; }
    }

    method PushValue(v: Value)
      modifies this`heap
      ensures Now() == Push(old(Now()), v)
    {
      Store(Top(Now()), TopStack(Now()) + [v]);
    }

    /** cx_begin */
    method BeginScope(parent: Option<nat>)
      modifies this`heap, this`scopes
      ensures Now() == Begin(old(Now()), parent)
    {
      var safe := scopes == [] || Obj(Now(), Top(Now())).safe;
      scopes := scopes + [|heap|];
      heap := heap + [Scope(parent, [], map[], safe)];
    }

    /** cx_pop_scope: the popped scope's stack moves down. */
    method EndScope()
      modifies this
      ensures Now() == End(old(Now())) && pc == old(pc)
    {
      if |scopes| <= 1 {
        Throw("No open scopes");
      } else {
        var s := scopes[|scopes| - 1];
        var moved := Obj(Now(), s).stack;
        scopes := scopes[..|scopes| - 1];
        if moved != [] {
          Store(Top(Now()), TopStack(Now()) + moved);
          Store(s, []);
        }
      }
    }

    method PushLibrary(lib: Lib)
      modifies this`libs
      ensures Now() == PushLib(old(Now()), lib)
    {
      libs := libs + [lib];
    }

    method PopLibrary()
      modifies this`libs
      ensures Now() == PopLib(old(Now()))
    {
      if |libs| > 1 { libs := libs[..|libs| - 1]; }
    }

    method DropCall()
      modifies this`calls, this`errors
      ensures Now() == PopCall(old(Now()))
    {
      if calls == [] { Throw("Failed popping call"); } else { calls := calls[..|calls| - 1]; }
    }

    method SetCall(c: Call)
      modifies this`calls
      ensures Now() == SetTopCall(old(Now()), c)
    {
      if calls != [] { calls := calls[|calls| - 1 := c]; }
    }

    /** cx_call_pop_args */
    method TakeArgs(nargs: nat)
      modifies this
      ensures Now() == PopArgs(old(Now()), nargs) && pc == old(pc)
    {
      if nargs > 0 {
        var c := TopCall(Now());
        var s := Obj(Now(), c.scope).stack;
        if |s| < nargs {
          Throw("Not enough args to call");
        } else {
          Store(c.scope, s[..|s| - nargs]);
          SetCall(c.(args := s[|s| - nargs..]));
        }
      }
    }

    // ---- handlers that only change the state -------------------------------

    method GetVarEval(id: Sym)
      modifies this
      ensures Now() == DoGetVar(old(Now()), id) && pc == old(pc)
    {
      var v := GetVar(Now(), Top(Now()), id);
      if v.None? { Throw("Unknown var"); } else { PushValue(v.value); }
    }

    method PutVarEval(w: World, id: Sym, ty: Option<TypeId>)
      modifies this
      ensures Now() == DoPutVar(w, old(Now()), id, ty) && pc == old(pc)
    {
      var s := TopStack(Now());
      if s == [] {
        Throw("Stack is empty");
      } else {
        var v := s[|s| - 1];
        Store(Top(Now()), s[..|s| - 1]);
        if ty.Some? && !w.isA(v, ty.value) { Throw("Expected type"); }
            else { heap := SetVar(Now(), Top(Now()), id, v).heap; }
      }
    }

    method BeginEval(w: World, imp: Imp)
      requires imp in w.imps
      modifies this
      ensures Now() == EnterFn(w, old(Now()), imp) && pc == old(pc)
    {
      BeginScope(if imp in home then Some(home[imp]) else None);
      PushLibrary(w.imps[imp].lib);
      SetCall(TopCall(Now()).(scope := Top(Now())));
    }

    /** One argument at a time, to a variable or to the stack. */
    method PutArgsEval(w: World, imp: Imp)
      requires imp in w.imps
      modifies this
      ensures Now() == DoPutArgs(w, old(Now()), imp) && pc == old(pc)
    {
      var args, vals := w.imps[imp].args, TopCall(Now()).args;
      ghost var st0 := Now();
      var i := 0;
      while i < |args| && i < |vals|
        invariant i <= |args| && i <= |vals| && pc == old(pc)
        invariant PutArgs(Now(), args[i..], vals[i..]) == PutArgs(st0, args, vals)
        decreases |args| - i
      {
        assert args[i..][0] == args[i] && vals[i..][0] == vals[i];
        assert args[i..][1..] == args[i + 1..] && vals[i..][1..] == vals[i + 1..];
        match args[i] {
          case ConstArg =>
          case NamedArg(id) => heap := SetVar(Now(), Top(Now()), id, vals[i]).heap;
          case PosArg => PushValue(vals[i]);
        }
        i := i + 1;
      }
    }

    /** recall_imp: the nearest call of a function with a body will run once more. */
    method Recall(w: World)
      modifies this`calls, this`errors
      ensures Now() == Recalled(w, old(Now()))
    {
      var i := |calls|;
      while i > 0
        invariant 0 <= i <= |calls| && NearestBody(w, calls, |calls|) == NearestBody(w, calls, i)
      {
        i := i - 1;
        if HasBody(w, calls[i]) {
          calls := calls[i := calls[i].(recalls := calls[i].recalls + 1)];
          return;
        }
      }
      Throw("Nothing to recall");
    }

    /** return_error_eval */
    method Leave()
      modifies this
      ensures Now() == LeaveFn(old(Now())) && pc == old(pc)
    {
      EndScope();
      PopLibrary();
      DropCall();
    }

    /** The return values, copied one by one; `ok` is false at a failed check. */
    method CopyRets(w: World, imp: Imp) returns (si: nat, ok: bool)
      requires imp in w.imps
      modifies this
      ensures Collected(Now(), si, ok) == CollectRets(w, imp, w.imps[imp].rets, 0, 0, old(Now())) && pc == old(pc)
    {
      var rets, ri := w.imps[imp].rets, 0;
      si, ok := 0, true;
      while ri < |rets| && ok
        invariant ri <= |rets| && pc == old(pc)
        invariant CollectRets(w, imp, rets, 0, 0, old(Now()))
               == if ok then CollectRets(w, imp, rets, ri, si, Now()) else Collected(Now(), si, false)
        decreases |rets| - ri
      {
        var ss := TopStack(Now());
        match rets[ri] {
          case ConstRet(v) => Store(Under(Now()), Obj(Now(), Under(Now())).stack + [v]);
          case NamedRet(id) =>
            var v := GetVar(Now(), Top(Now()), id);
            if v.None? {
              Throw("Unknown var");
              ok := false;
            } else {
              ok := CopyRet(w, imp, ri, v.value);
            }
          case PosRet =>
            if si >= |ss| {
              Throw("Not enough return values on stack");
              ok := false;
            } else {
              si := si + 1;
              ok := CopyRet(w, imp, ri, ss[si - 1]);
            }
        }
        ri := ri + 1;
      }
    }

    method CopyRet(w: World, imp: Imp, ri: nat, v: Value) returns (ok: bool)
      requires imp in w.imps && ri < |w.imps[imp].rets|
      modifies this
      ensures pc == old(pc)
      ensures forall si: nat :: CheckRet(w, imp, w.imps[imp].rets, ri, si, old(Now()), v)
                == if ok then CollectRets(w, imp, w.imps[imp].rets, ri + 1, si, Now()) else Collected(Now(), si, false)
    {
      if Obj(Now(), Top(Now())).safe && !w.retIs(imp, ri, TopCall(Now()).args, v) {
        Throw("Invalid return type");
        ok := false;
      } else {
        Store(Under(Now()), Obj(Now(), Under(Now())).stack + [v]);
        ok := true;
      }
    }

    /** return_eval */
    method ReturnEval(w: World, imp: Imp, start: nat)
      requires imp in w.imps
      modifies this
      ensures Now() == DoReturn(w, old(Now()), imp).st
      ensures pc == if DoReturn(w, old(Now()), imp).Again? then start + 1 else old(pc)
    {
      var c := TopCall(Now());
      if c.recalls > 0 {
        var fails := RecallFails(w, Now(), imp);
        SetCall(c.(recalls := c.recalls - 1));
        if fails {
          Throw("Recall not applicable");
          badReturns, partings := badReturns + 1, partings + 1;
        } else {
          TakeArgs(|w.imps[imp].args|);
          pc := start + 1;
        }
      } else {
        var si, ok := CopyRets(w, imp);
        if ok && si < |TopStack(Now())| {
          Throw("Stack not empty on return");
          ok := false;
        }
        if ok {
          Store(Top(Now()), []);
          Leave();
        } else {
          badReturns := badReturns + 1;
        }
      }
    }

    method ElseEval(w: World, nops: nat)
      modifies this
      ensures Now() == DoElse(w, old(Now())).st
      ensures pc == if DoElse(w, old(Now())).Skipped? then old(pc) + nops else old(pc)
    {
      var s := TopStack(Now());
      if s == [] {
        Throw("Stack is empty");
      } else {
        Store(Top(Now()), s[..|s| - 1]);
        if !w.isTrue(s[|s| - 1]) { pc := pc + nops; }
      }
    }

    method LambdaEval(at: nat)
      modifies this
      ensures Now() == PushLambda(old(Now()), at) && pc == old(pc)
    {
      var lib := if libs == [] then 0 else libs[|libs| - 1];
      var safe := scopes == [] || Obj(Now(), Top(Now())).safe;
      var scope := |heap|;
      heap := heap + [Scope(Some(Top(Now())), [], map[], safe)];
      PushValue(LambdaV(at, lib, scope));
    }

    // ---- calls -------------------------------------------------------------

    /** cx_fimp_call */
    method FimpCall(w: World, bin: Builder, fuel: nat, imp: Imp, scope: nat) returns (done: bool)
      modifies this
      ensures CallImp(Interp, w, bin.Contents(), fuel, imp, scope, old(Now())) == if done then Some(Now()) else None
      ensures pc == old(pc)
      decreases fuel, 0, 0, 0
    {
      if fuel == 0 || imp !in w.imps { return false; }
      if |calls| >= MAX_CALLS {
        Throw("Max calls exceeded");
        return true;
      }
      calls := calls + [Call(imp, scope, [], 0)];
      var info := w.imps[imp];
      if |Obj(Now(), scope).stack| < |info.args| {
        TakeArgs(|info.args|);
        DropCall();
        return true;
      }
      TakeArgs(|info.args|);
      match info.prim
      case None => done := EvalTarget(w, bin, fuel - 1, BodyOf(imp));
      case Some(p) =>
        var same := InLib(Now(), info.lib);
        if !same { PushLibrary(info.lib); }
        done := PrimCall(w, bin, fuel - 1, p);
        if done {
          if !same { PopLibrary(); }
          DropCall();
        }
    }

    /** A primitive, with the calls it asks for. */
    method PrimCall(w: World, bin: Builder, fuel: nat, p: Prim) returns (done: bool)
      modifies this
      ensures RunPrim(Interp, w, bin.Contents(), fuel, p, [old(Now())]) == if done then Some(Now()) else None
      ensures pc == old(pc)
      decreases fuel, 0, 0, 0
    {
      var hist := [Now()];
      var left: nat := fuel;
      while true
        invariant hist != [] && pc == old(pc) && left <= fuel
        invariant RunPrim(Interp, w, bin.Contents(), fuel, p, [old(Now())])
                  == RunPrim(Interp, w, bin.Contents(), left, p, hist)
        decreases left
      {
        match w.prim(p, hist)
        case Done(st) =>
          Load(Carry(hist, st));
          return true;
        case Ask(v, scope, st) =>
          if left == 0 { return false; }
          Load(Carry(hist, st));
          done := ValueCall(w, bin, left - 1, v, scope);
          if !done { return false; }
          hist, left := hist + [Now()], left - 1;
      }
    }

    /** cx_call */
    method ValueCall(w: World, bin: Builder, fuel: nat, v: Value, scope: nat) returns (done: bool)
      modifies this
      ensures CallValue(Interp, w, bin.Contents(), fuel, v, scope, old(Now())) == if done then Some(Now()) else None
      ensures pc == old(pc)
      decreases fuel, 2, 0, 0
    {
      done := true;
      match v
      case LambdaV(at, lib, owner) => done := LambdaCall(w, bin, fuel, at, lib, owner, scope);
      case FimpV(imp) =>
        if Obj(Now(), scope).safe && !w.matches(imp, Obj(Now(), scope).stack) { Throw("Func not applicable"); }
        else { done := FimpCall(w, bin, fuel, imp, scope); }
      case FuncV(func) =>
        var imp := w.best(func, Obj(Now(), scope).stack);
        if imp.None? { Throw("Func not applicable"); } else { done := FimpCall(w, bin, fuel, imp.value, scope); }
      case _ => Store(scope, Obj(Now(), scope).stack + [v]);
    }

    /** call_imp of lambdas: the caller's stack moves to the lambda's scope. */
    method LambdaCall(w: World, bin: Builder, fuel: nat, at: nat, lib: Lib, owner: nat, scope: nat) returns (done: bool)
      modifies this
      ensures CallLambda(Interp, w, bin.Contents(), fuel, at, lib, owner, scope, old(Now())) ==
                if done then Some(Now()) else None
      ensures pc == old(pc)
      decreases fuel, 1, 0, 0
    {
      if fuel == 0 { return false; }
      var popLib, popScope := !InLib(Now(), lib), scope != owner;
      if popLib { PushLibrary(lib); }
      if popScope {
        scopes := scopes + [owner];
        var moved := Obj(Now(), scope).stack;
        if moved != [] {
          Store(owner, Obj(Now(), owner).stack + moved);
          Store(scope, []);
        }
      }
      done := EvalTarget(w, bin, fuel - 1, LambdaAt(at));
      if done {
        if popScope { EndScope(); }
        if popLib { PopLibrary(); }
      }
    }

    /** funcall_eval: the site keeps the implementation it found last. */
    method FuncallEval(w: World, bin: Builder, fuel: nat, site: nat, func: Func, imp0: Option<Imp>) returns (done: bool)
      modifies this
      ensures Funcall(Interp, w, bin.Contents(), fuel, site, func, imp0, old(Now())) ==
                if done then Some(Now()) else None
      ensures pc == old(pc)
      decreases fuel, 2, 0, 0
    {
      hide Met, Resolve, CallImp;
      Meet(w, site, imp0);
      var imp := ResolveEval(w, site, func, imp0);
      if imp.None? {
        Throw("Func not applicable");
        return true;
      }
      done := FimpCall(w, bin, fuel, imp.value, Top(Now()));
    }

    /** Only the history variable changes. */
    method Meet(w: World, site: nat, imp0: Option<Imp>)
      modifies this`partings
      ensures Now() == Met(w, site, imp0, old(Now()))
    {
      if Stale(w, site, imp0, Now()) { partings := partings + 1; }
    }

    method ResolveEval(w: World, site: nat, func: Func, imp0: Option<Imp>) returns (imp: Option<Imp>)
      modifies this`cache
      ensures (Now(), imp) == Resolve(w, site, func, imp0, old(Now()))
    {
      imp := if site in cache then cache[site] else imp0;
      if imp.Some? && Obj(Now(), Top(Now())).safe && !w.matches(imp.value, TopStack(Now())) { imp := None; }
      if imp.None? {
        imp := w.best(func, TopStack(Now()));
        cache := cache[site := imp];
      }
    }

    /** A body in another bin. */
    method Apart(w: World, t: Target) returns (done: bool)
      modifies this
      ensures RunApart(w, t, old(Now())) == if done then Some(Now()) else None
      ensures pc == old(pc)
    {
      var r := w.apart(t, Now());
      if r.Some? { Load(Carry([Now()], r.value)); }
      return r.Some?;
    }

    method EvalTarget(w: World, bin: Builder, fuel: nat, t: Target) returns (done: bool)
      modifies this
      ensures RunTarget(Interp, w, bin.Contents(), fuel, t, old(Now())) == if done then Some(Now()) else None
      ensures pc == old(pc)
      decreases fuel, 6, 0, 0
    {
      match t
      case BodyOf(imp) =>
        if imp !in bin.fimps || bin.fimps[imp].nops < 0 {
          done := Apart(w, t);
          return;
        }
        done := Eval(w, bin, fuel, bin.fimps[imp].start, bin.fimps[imp].start + bin.fimps[imp].nops);
      case LambdaAt(at) =>
        if at >= |bin.ops| || !bin.ops[at].OLambda? {
          done := Apart(w, t);
          return;
        }
        done := Eval(w, bin, fuel, bin.ops[at].start, bin.ops[at].start + bin.ops[at].nops);
    }

    // ---- the loop ----------------------------------------------------------

    /** cx_eval: pc is saved and restored around the loop. */
    method Eval(w: World, bin: Builder, fuel: nat, start: nat, stop: int) returns (done: bool)
      modifies this
      ensures RunOps(w, bin.Contents(), fuel, start, stop, old(Now())) == if done then Some(Now()) else None
      ensures pc == old(pc)
      decreases fuel, 4, if start < |bin.ops| then |bin.ops| - start else 0, 3
    {
      var saved := pc;
      pc := start;
      done := Loop(w, bin, fuel, stop);
      pc := saved;
    }

    /** One op per turn; the mode decides which of its handlers runs. */
    method Loop(w: World, bin: Builder, fuel: nat, stop: int) returns (done: bool)
      modifies this
      ensures RunOps(w, bin.Contents(), fuel, old(pc), stop, old(Now())) == if done then Some(Now()) else None
      decreases fuel, 4, if pc < |bin.ops| then |bin.ops| - pc else 0, 2
    {
      var left: nat := fuel;
      while pc < |bin.ops| && pc != stop
        invariant left <= fuel && (left == fuel ==> pc >= old(pc))
        invariant RunOps(w, bin.Contents(), fuel, old(pc), stop, old(Now()))
                  == RunOps(w, bin.Contents(), left, pc, stop, Now())
        decreases left, |bin.ops| - pc
      {
        var at := pc;
        done := Turn(w, bin, left);
        if !done { return false; }
        if pc <= at {
          if left == 0 { return false; }
          left := left - 1;
        }
      }
      return true;
    }

    method Turn(w: World, bin: Builder, fuel: nat) returns (done: bool)
      requires pc < |bin.ops|
      modifies this
      ensures Step(w, bin.Contents(), fuel, old(pc), old(Now())) == if done then Some(Next(pc, Now())) else None
      decreases fuel, 4, |bin.ops| - pc, 1
    {
      if errors != [] { done := TurnError(w, bin, fuel); } else { done := TurnNormal(w, bin, fuel); }
    }

    /** `eval` handlers */
    method TurnNormal(w: World, bin: Builder, fuel: nat) returns (done: bool)
      requires pc < |bin.ops| && errors == []
      modifies this
      ensures StepNormal(w, bin.Contents(), fuel, old(pc), old(Now())) == if done then Some(Next(pc, Now())) else None
      decreases fuel, 3, 0, 0
    {
      hide DoGetVar, DoPutVar, EnterFn, DoPutArgs, DoReturn, DoElse, PushLambda, DoFuncdef, End, Funcall, Push, Begin;
      var at := pc;
      pc := pc + 1;
      done := true;
      match bin.ops[at]
      case OPush(v) => PushValue(v);
      case OGetVar(id) => GetVarEval(id);
      case OPutVar(id, ty) => PutVarEval(w, id, ty);
      case OBegin(fimp, nops) =>
        if fimp.None? { BeginScope(Some(Top(Now()))); }
        else if fimp.value in w.imps { BeginEval(w, fimp.value); }
        else { done := false; }
      case OEnd => EndScope();
      case OStash => Store(Top(Now()), [StackV(TopStack(Now()))]);
      case OLambda(start, nops) =>
        LambdaEval(at);
        pc := pc + nops;
      case OFimp(imp) => done := FimpEval(bin, imp);
      case OFuncall(func, imp0) => done := FuncallEval(w, bin, fuel, at, func, imp0);
      case OFuncdef(imp) => FuncdefEval(imp);
      case OPutArgs(imp) => if imp in w.imps { PutArgsEval(w, imp); } else { done := false; }
      case OReturn(imp, start) => if imp in w.imps { ReturnEval(w, imp, start); } else { done := false; }
      case OCatch(ty, nops) => if ty.Some? { pc := pc + nops; }
      case OElse(nops) => ElseEval(w, nops);
      case OJump(target) => pc := target;
    }

    /** `error_eval` handlers */
    method TurnError(w: World, bin: Builder, fuel: nat) returns (done: bool)
      requires pc < |bin.ops| && errors != []
      modifies this
      ensures StepError(w, bin.Contents(), fuel, old(pc), old(Now())) == if done then Some(Next(pc, Now())) else None
      decreases fuel, 4, |bin.ops| - pc, 0
    {
      hide LeaveFn, DoFuncdef, End, Push, RunOps;
      var at := pc;
      pc := pc + 1;
      done := true;
      match bin.ops[at]
      case OBegin(fimp, nops) => pc := pc + nops;
      case OEnd => EndScope();
      case OLambda(start, nops) => pc := pc + nops;
      case OFimp(imp) => done := FimpEval(bin, imp);
      case OFuncdef(imp) => FuncdefEval(imp);
      case OReturn(imp, start) => Leave();
      case OCatch(ty, nops) =>
        var e := errors[|errors| - 1];
        if ty.None? {
          errors := errors[..|errors| - 1];
          done := Eval(w, bin, fuel, pc, pc + nops);
          errors := errors + [e];
        } else if w.isA(e, ty.value) {
          errors := errors[..|errors| - 1];
          PushValue(ErrorV(e));
        } else {
          pc := pc + nops;
        }
      case OJump(target) => pc := target;
      case _ =>
    }

    method FimpEval(bin: Builder, imp: Imp) returns (done: bool)
      modifies this`pc
      ensures done <==> imp in bin.fimps && bin.fimps[imp].nops >= 0
      ensures done ==> pc == old(pc) + bin.fimps[imp].nops
    {
      done := imp in bin.fimps && bin.fimps[imp].nops >= 0;
      if done { pc := pc + bin.fimps[imp].nops; }
    }

    method FuncdefEval(imp: Imp)
      modifies this`home
      ensures Now() == DoFuncdef(old(Now()), imp)
    {
      if imp !in home { home := home[imp := Top(Now())]; }
    }
  }
}
