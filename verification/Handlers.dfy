/** What calls, clauses and bindings do, seen from outside: which code runs, from which
    state, and what it finds. */
module Handlers {
  import opened Basics
  import opened VmState
  import opened Vm
  import opened Compiler
  import opened Values

  // ---- errors --------------------------------------------------------------

  /** Code without clauses and definitions. */
  predicate Quiet(ns: seq<Node>) {
    forall n :: n in ns ==> !n.NCatch? && !n.NSwitch? && !n.NFunc?
  }

  /** While errors are pending such code does nothing. */
  lemma {:induction false} ErrorsSkip(w: World, b: Bin, fuel: nat, ns: seq<Node>, st: State)
    requires st.errors != [] && Quiet(ns)
    ensures EvalSeq(w, b, fuel, ns, st) == Some(st)
    decreases |ns|
  {
    if ns != [] {
      assert ns[0] in ns && forall n :: n in ns[1..] ==> n in ns;
      ErrorsSkip(w, b, fuel, ns[1..], st);
    }
  }

  /** A typed clause: if the last error has its type, that is taken off and the body starts
      with it on the stack, behind what is there, and nothing else changed; without errors,
      or with a last one of another type, the clause is passed by. */
  lemma TypedClause(w: World, b: Bin, fuel: nat, ty: TypeId, body: seq<Node>, st: State)
    requires Top(st) < |st.heap|
    ensures var (n, s) := (|st.errors| - 1, Top(st));
            EvalNode(w, b, fuel, NCatch(Some(ty), body), st) ==
            if n >= 0 && w.isA(st.errors[n], ty) then
              var heap := st.heap[s := st.heap[s].(stack := st.heap[s].stack + [ErrorV(st.errors[n])])];
              EvalSeq(w, b, fuel, body, st.(errors := st.errors[..n], heap := heap))
            else Some(st)
  {
    hide EvalSeq;
  }

  /** A clause without type runs its body whether or not there are errors.  With errors
      the last one is away meanwhile and then the last one again. */
  lemma CleanupRuns(w: World, b: Bin, fuel: nat, body: seq<Node>, st: State)
    requires Quiet(body)
    ensures st.errors == [] ==> EvalNode(w, b, fuel, NCatch(None, body), st) == EvalSeq(w, b, fuel, body, st)
    ensures st.errors != [] ==>
              var n := |st.errors| - 1;
              var x := EvalSeq(w, b, fuel, body, st.(errors := st.errors[..n]));
              EvalNode(w, b, fuel, NCatch(None, body), st) ==
              if x.None? then None else Some(x.value.(errors := x.value.errors + [st.errors[n]]))
  {
    if st.errors != [] {
      var x := EvalSeq(w, b, fuel, body, DropError(st));
      if x.Some? { ErrorsSkip(w, b, fuel, body, Rethrow(x.value, st.errors[|st.errors| - 1])); }
    }
    hide EvalSeq;
  }

  // ---- switch --------------------------------------------------------------

  /** Without a value there is nothing to test or to bind, and an error is thrown. */
  lemma NothingThere(w: World, st: State, id: Sym, ty: Option<TypeId>)
    requires TopStack(st) == []
    ensures DoElse(w, st) == Taken(st.(errors := st.errors + [Text("Stack is empty")]))
    ensures DoPutVar(w, st, id, ty) == st.(errors := st.errors + [Text("Stack is empty")])
  {
  }

  /** The condition of clause `k` runs from `ss[k]` and leaves `ss[k + 1]` and a value
      that is true, or not, on top of it. */
  ghost predicate Tests(w: World, b: Bin, fuel: nat, cs: seq<Case>, ss: seq<State>, k: nat, truth: bool)
    requires k < |cs| && k + 1 < |ss|
  {
    var x := EvalSeq(w, b, fuel, cs[k].cond, ss[k]);
    && x.Some? && x.value.errors == [] && TopStack(x.value) != []
    && var s := TopStack(x.value);
    && w.isTrue(s[|s| - 1]) == truth && ss[k + 1] == SetStack(x.value, Top(x.value), s[..|s| - 1])
  }

  /** The first clause whose condition is true has its body run, from what its condition
      left below the value tested; no other body runs, nor any later condition.  If no
      condition is true nothing but the conditions runs. */
  lemma {:induction false} FirstTrueRuns(w: World, b: Bin, fuel: nat, cs: seq<Case>, ss: seq<State>, n: nat)
    requires n <= |cs| && |ss| == (if n < |cs| then n + 2 else n + 1)
    requires forall k :: 0 <= k < n ==> Tests(w, b, fuel, cs, ss, k, false)
    requires n < |cs| ==> Tests(w, b, fuel, cs, ss, n, true)
    ensures EvalNode(w, b, fuel, NSwitch(cs), ss[0])
         == if n < |cs| then EvalSeq(w, b, fuel, cs[n].body, ss[n + 1]) else Some(ss[n])
  {
    CasesRunFirst(w, b, fuel, cs, ss, n);
    hide EvalCases, EvalSeq;
  }

  lemma {:induction false} CasesRunFirst(w: World, b: Bin, fuel: nat, cs: seq<Case>, ss: seq<State>, n: nat)
    requires n <= |cs| && |ss| == (if n < |cs| then n + 2 else n + 1)
    requires forall k :: 0 <= k < n ==> Tests(w, b, fuel, cs, ss, k, false)
    requires n < |cs| ==> Tests(w, b, fuel, cs, ss, n, true)
    ensures EvalCases(w, b, fuel, cs, ss[0])
         == if n < |cs| then EvalSeq(w, b, fuel, cs[n].body, ss[n + 1]) else Some(ss[n])
    decreases n
  {
    hide EvalSeq;
    if n > 0 {
      assert Tests(w, b, fuel, cs, ss, 0, false);
      var (cs1, ss1) := (cs[1..], ss[1..]);
      forall k | 0 <= k < n - 1 ensures Tests(w, b, fuel, cs1, ss1, k, false) {
        assert Tests(w, b, fuel, cs, ss, k + 1, false);
      }
      CasesRunFirst(w, b, fuel, cs1, ss1, n - 1);
    }
  }

  /** If the condition of clause `n` throws, is entered with errors, or leaves no value to
      test, its body is walked with errors pending, and no other clause. */
  lemma {:induction false} FailedCondition(w: World, b: Bin, fuel: nat, cs: seq<Case>, ss: seq<State>, n: nat, r: State)
    requires n < |cs| && |ss| == n + 1
    requires forall k :: 0 <= k < n ==> Tests(w, b, fuel, cs, ss, k, false)
    requires EvalSeq(w, b, fuel, cs[n].cond, ss[n]) == Some(r) && (r.errors != [] || TopStack(r) == [])
    ensures var r1 := if r.errors != [] then r else r.(errors := [Text("Stack is empty")]);
            EvalNode(w, b, fuel, NSwitch(cs), ss[0]) == EvalSeq(w, b, fuel, cs[n].body, r1)
    decreases n
  {
    hide EvalSeq;
    assert [] + [Text("Stack is empty")] == [Text("Stack is empty")];
    if n > 0 {
      assert Tests(w, b, fuel, cs, ss, 0, false);
      var (cs1, ss1) := (cs[1..], ss[1..]);
      forall k | 0 <= k < n - 1 ensures Tests(w, b, fuel, cs1, ss1, k, false) {
        assert Tests(w, b, fuel, cs, ss, k + 1, false);
      }
      FailedCondition(w, b, fuel, cs1, ss1, n - 1, r);
    }
  }

  // ---- let -----------------------------------------------------------------

  /** A name list takes as many values off the stack as there are names and binds each
      name to its value, the last one to the top; of equal names the first counts.
      Nothing else changes. */
  lemma {:induction false} LetBinds(w: World, b: Bin, fuel: nat, ids: seq<Binding>, b0: Bin, st: State)
    requires st.errors == [] && Top(st) < |st.heap| && |ids| <= |TopStack(st)|
    requires Typed(w, ids, TopStack(st))
    ensures var (x, s, t) := (EvalSeq(w, b, fuel, CompilePuts(ids, b0).1, st), TopStack(st), Top(st));
            && x.Some? && PutInto(st, x.value, t) && x.value.heap[t].stack == s[..|s| - |ids|]
            && Bound(ids, s, st.heap[t].vars, x.value.heap[t].vars)
    decreases |ids|
  {
    hide CompilePuts, Bound, Typed, DoPutVar, EvalSeq;
    var (s, t) := (TopStack(st), Top(st));
    if ids == [] {
      NoNames(w, b, fuel, b0, st);
    } else {
      var last := ids[|ids| - 1];
      var (rest, st1) := (ids[..|ids| - 1], DoPutVar(w, st, last.id, last.ty));
      TypedRest(w, ids, s);
      PutsOne(w, st, last);
      PutsFirst(w, b, fuel, ids, b0, st);
      assert |st1.heap| == |st.heap|;
      hide PutInto, Obj;
      assert s[..|s| - 1][..|s| - |ids|] == s[..|s| - |ids|];
      LetBinds(w, b, fuel, rest, Emit(b0, OPutVar(last.id, last.ty)), st1);
      var x := EvalSeq(w, b, fuel, CompilePuts(ids, b0).1, st).value;
      PutIntoTwice(st, st1, x, t);
      BoundMore(ids, s, st.heap[t].vars, x.heap[t].vars);
    }
  }

  lemma NoNames(w: World, b: Bin, fuel: nat, b0: Bin, st: State)
    requires Top(st) < |st.heap|
    ensures var s := TopStack(st);
            && EvalSeq(w, b, fuel, CompilePuts([], b0).1, st) == Some(st) && PutInto(st, st, Top(st))
            && s[..|s| - 0] == s && Bound([], s, st.heap[Top(st)].vars, st.heap[Top(st)].vars)
  {
    assert st.heap[Top(st) := st.heap[Top(st)]] == st.heap;
  }

  lemma PutIntoTwice(st: State, m: State, r: State, t: nat)
    requires t < |st.heap| && PutInto(st, m, t) && PutInto(m, r, t)
    ensures PutInto(st, r, t)
  {
  }

  /** Each value has the type its name asks for. */
  predicate Typed(w: World, ids: seq<Binding>, s: seq<Value>)
    requires |ids| <= |s|
  {
    forall k :: 0 <= k < |ids| && ids[k].ty.Some? ==> w.isA(s[|s| - |ids| + k], ids[k].ty.value)
  }

  lemma TypedRest(w: World, ids: seq<Binding>, s: seq<Value>)
    requires 0 < |ids| <= |s| && Typed(w, ids, s)
    ensures Typed(w, ids[..|ids| - 1], s[..|s| - 1])
    ensures var last := ids[|ids| - 1]; last.ty.Some? ==> w.isA(s[|s| - 1], last.ty.value)
  {
  }

  predicate FirstOf(ids: seq<Binding>, k: nat)
    requires k < |ids|
  {
    forall j :: 0 <= j < k ==> ids[j].id != ids[k].id
  }

  predicate Unnamed(ids: seq<Binding>, id: Sym) {
    forall k :: 0 <= k < |ids| ==> ids[k].id != id
  }

  /** The names have their values, of equal names the first; all others are as they were. */
  ghost predicate Bound(ids: seq<Binding>, s: seq<Value>, was: map<Sym, Value>, now: map<Sym, Value>)
    requires |ids| <= |s|
  {
    && (forall k :: 0 <= k < |ids| && FirstOf(ids, k) ==>
          ids[k].id in now && now[ids[k].id] == s[|s| - |ids| + k])
    && (forall id: Sym :: Unnamed(ids, id) ==> (id in now <==> id in was) && (id in was ==> now[id] == was[id]))
  }

  lemma BoundMore(ids: seq<Binding>, s: seq<Value>, was: map<Sym, Value>, now: map<Sym, Value>)
    requires 0 < |ids| <= |s|
    requires Bound(ids[..|ids| - 1], s[..|s| - 1], was[ids[|ids| - 1].id := s[|s| - 1]], now)
    ensures Bound(ids, s, was, now)
  {
    hide Bound;
    forall k | 0 <= k < |ids| && FirstOf(ids, k) ensures ids[k].id in now && now[ids[k].id] == s[|s| - |ids| + k] {
      BoundName(ids, s, was, now, k);
    }
    forall id: Sym | Unnamed(ids, id) ensures (id in now <==> id in was) && (id in was ==> now[id] == was[id]) {
      BoundOther(ids, s, was, now, id);
    }
    hide FirstOf, Unnamed;
    BoundIs(ids, s, was, now);
  }

  lemma BoundIs(ids: seq<Binding>, s: seq<Value>, was: map<Sym, Value>, now: map<Sym, Value>)
    requires |ids| <= |s|
    requires forall k :: 0 <= k < |ids| && FirstOf(ids, k) ==>
               ids[k].id in now && now[ids[k].id] == s[|s| - |ids| + k]
    requires forall id: Sym :: Unnamed(ids, id) ==> (id in now <==> id in was) && (id in was ==> now[id] == was[id])
    ensures Bound(ids, s, was, now)
  {
    hide FirstOf, Unnamed;
  }

  lemma BoundName(ids: seq<Binding>, s: seq<Value>, was: map<Sym, Value>, now: map<Sym, Value>, k: nat)
    requires k < |ids| <= |s| && FirstOf(ids, k)
    requires Bound(ids[..|ids| - 1], s[..|s| - 1], was[ids[|ids| - 1].id := s[|s| - 1]], now)
    ensures ids[k].id in now && now[ids[k].id] == s[|s| - |ids| + k]
  {
    FirstAbove(ids, k);
    hide FirstOf, Unnamed;
    if k < |ids| - 1 { assert ids[..|ids| - 1][k] == ids[k]; }
  }

  lemma BoundOther(ids: seq<Binding>, s: seq<Value>, was: map<Sym, Value>, now: map<Sym, Value>, id: Sym)
    requires 0 < |ids| <= |s| && Unnamed(ids, id)
    requires Bound(ids[..|ids| - 1], s[..|s| - 1], was[ids[|ids| - 1].id := s[|s| - 1]], now)
    ensures (id in now <==> id in was) && (id in was ==> now[id] == was[id])
  {
    UnnamedAbove(ids, id);
    hide FirstOf, Unnamed;
  }

  lemma FirstAbove(ids: seq<Binding>, k: nat)
    requires k < |ids| && FirstOf(ids, k)
    ensures if k < |ids| - 1 then FirstOf(ids[..|ids| - 1], k) else Unnamed(ids[..|ids| - 1], ids[k].id)
  {
  }

  lemma UnnamedAbove(ids: seq<Binding>, id: Sym)
    requires ids != [] && Unnamed(ids, id)
    ensures Unnamed(ids[..|ids| - 1], id) && ids[|ids| - 1].id != id
  {
  }

  lemma PutsFirst(w: World, b: Bin, fuel: nat, ids: seq<Binding>, b0: Bin, st: State)
    requires ids != [] && st.errors == []
    ensures var last := ids[|ids| - 1];
            EvalSeq(w, b, fuel, CompilePuts(ids, b0).1, st) ==
            EvalSeq(w, b, fuel, CompilePuts(ids[..|ids| - 1], Emit(b0, OPutVar(last.id, last.ty))).1,
                    DoPutVar(w, st, last.id, last.ty))
  {
    var last := ids[|ids| - 1];
    var more := CompilePuts(ids[..|ids| - 1], Emit(b0, OPutVar(last.id, last.ty))).1;
    var ns := [NPutVar(last.id, last.ty)] + more;
    assert CompilePuts(ids, b0).1 == ns;
    hide CompilePuts, DoPutVar;
    assert ns[1..] == more;
  }

  lemma PutsOne(w: World, st: State, x: Binding)
    requires Top(st) < |st.heap| && TopStack(st) != []
    requires var s := TopStack(st); x.ty.Some? ==> w.isA(s[|s| - 1], x.ty.value)
    ensures var (r, s, t) := (DoPutVar(w, st, x.id, x.ty), TopStack(st), Top(st));
            && PutInto(st, r, t) && r.heap[t].stack == s[..|s| - 1] == TopStack(r) && Top(r) == t
            && r.errors == st.errors
            && r.heap[t].vars == st.heap[t].vars[x.id := s[|s| - 1]]
  {
  }

  // ---- calls ---------------------------------------------------------------

  /** What a call site runs, on the values of the top scope: the implementation it knows, if
      the scope is unchecked or the values match it; otherwise the best there is, which the
      site then knows; and if there is none, the call fails and the site knows none. */
  lemma SiteRuns(eng: Engine, w: World, b: Bin, fuel: nat, site: nat, func: Func, imp0: Option<Imp>, st: State)
    requires eng != Emitted && !Stale(w, site, imp0, st)
    ensures var known := if site in st.cache then st.cache[site] else imp0;
            var best := w.best(func, TopStack(st));
            var r := st.(cache := st.cache[site := best]);
            Funcall(eng, w, b, fuel, site, func, imp0, st) ==
            if known.Some? && (!Obj(st, Top(st)).safe || w.matches(known.value, TopStack(st))) then
              CallImp(eng, w, b, fuel, known.value, Top(st), st)
            else if best.Some? then CallImp(eng, w, b, fuel, best.value, Top(st), r)
            else Some(r.(errors := st.errors + [Text("Func not applicable")]))
  {
    hide CallImp;
  }

  /** A site that found an implementation runs it again, without a search, on any values
      that match it. */
  lemma SiteRemembers(w: World, site: nat, func: Func, imp0: Option<Imp>, st: State, later: State)
    requires var (r, imp) := Resolve(w, site, func, imp0, st);
             imp.Some? && later.cache == r.cache && w.matches(imp.value, TopStack(later))
    ensures Resolve(w, site, func, imp0, later) == (later, Resolve(w, site, func, imp0, st).1)
  {
  }

  /** With 64 calls open, or too few values for the arguments, a call is an error and
      nothing else: nothing is taken and no call stays open. */
  lemma CallRefused(eng: Engine, w: World, b: Bin, fuel: nat, imp: Imp, scope: nat, st: State)
    requires fuel > 0 && imp in w.imps && (|st.calls| >= 64 || |Obj(st, scope).stack| < |w.imps[imp].args|)
    ensures var msg := if |st.calls| >= 64 then "Max calls exceeded" else "Not enough args to call";
            CallImp(eng, w, b, fuel, imp, scope, st) == Some(st.(errors := st.errors + [Text(msg)]))
  {
  }

  /** The last values of that scope become the arguments of a new call record. */
  function WithCall(st: State, imp: Imp, scope: nat, n: nat): State
    requires scope < |st.heap| && n <= |st.heap[scope].stack|
  {
    var s := st.heap[scope].stack;
    st.(heap := st.heap[scope := st.heap[scope].(stack := s[..|s| - n])],
        calls := st.calls + [Call(imp, scope, s[|s| - n..], 0)])
  }

  lemma CallReady(st: State, imp: Imp, scope: nat, n: nat)
    requires scope < |st.heap| && n <= |st.heap[scope].stack|
    ensures PopArgs(st.(calls := st.calls + [Call(imp, scope, [], 0)]), n) == WithCall(st, imp, scope, n)
  {
    var s := st.heap[scope].stack;
    assert s[..|s| - 0] == s && s[|s| - 0..] == [] && st.heap[scope := st.heap[scope]] == st.heap;
    var calls := st.calls + [Call(imp, scope, [], 0)];
    assert calls[|st.calls| := Call(imp, scope, s[|s| - n..], 0)] == st.calls + [Call(imp, scope, s[|s| - n..], 0)];
  }

  /** A primitive starts with its arguments in a call record of its own, off the stack, and
      with its lib on top.  Behind it the record is gone, and the lib if it was put there. */
  lemma PrimCalled(eng: Engine, w: World, b: Bin, fuel: nat, imp: Imp, scope: nat, st: State)
    requires fuel > 0 && imp in w.imps && |st.calls| < 64 && w.imps[imp].prim.Some? && st.libs != []
    requires scope < |st.heap| && |w.imps[imp].args| <= |st.heap[scope].stack|
    ensures var (lib, y) := (w.imps[imp].lib, CallImp(eng, w, b, fuel, imp, scope, st));
            var libs := if st.libs[|st.libs| - 1] == lib then st.libs else st.libs + [lib];
            var r := WithCall(st, imp, scope, |w.imps[imp].args|).(libs := libs);
            var x := RunPrim(eng, w, b, fuel - 1, w.imps[imp].prim.value, [r]);
            && (x.None? <==> y.None?)
            && (x.Some? && x.value.calls == r.calls && x.value.libs == r.libs ==>
                  y.value == x.value.(calls := st.calls, libs := st.libs))
  {
    var (n, lib) := (|w.imps[imp].args|, w.imps[imp].lib);
    var st1 := st.(calls := st.calls + [Call(imp, scope, [], 0)]);
    CallReady(st, imp, scope, n);
    assert |Obj(st1, scope).stack| >= n;
    hide PopArgs, Obj, RunPrim;
    assert WithCall(st, imp, scope, n).libs == st.libs;
    assert (st.libs + [lib])[..|st.libs|] == st.libs;
    var calls := WithCall(st, imp, scope, n).calls;
    assert |calls| == |st.calls| + 1 && calls[..|calls| - 1] == st.calls;
    hide WithCall;
  }

  /** A function with a body runs it with its arguments in such a record; the body takes
      the record away. */
  lemma BodyCalled(eng: Engine, w: World, b: Bin, fuel: nat, imp: Imp, scope: nat, st: State)
    requires fuel > 0 && imp in w.imps && |st.calls| < 64 && w.imps[imp].prim.None?
    requires scope < |st.heap| && |w.imps[imp].args| <= |st.heap[scope].stack|
    ensures CallImp(eng, w, b, fuel, imp, scope, st) ==
            RunTarget(eng, w, b, fuel - 1, BodyOf(imp), WithCall(st, imp, scope, |w.imps[imp].args|))
  {
    CallReady(st, imp, scope, |w.imps[imp].args|);
    hide PopArgs, RunTarget;
  }

  /** `hist` is how far a primitive has got: each state after the first is what calling the
      value it asked for has come to, with `fuel - 2k` left at the k-th. */
  ghost predicate Asked(eng: Engine, w: World, b: Bin, fuel: nat, p: Prim, hist: seq<State>, k: nat)
    requires k + 1 < |hist|
  {
    && w.prim(p, hist[..k + 1]).Ask? && fuel > k
    && var ask := w.prim(p, hist[..k + 1]);
    && CallValue(eng, w, b, fuel - k - 1, ask.v, ask.scope, Carry(hist[..k + 1], ask.st)) == Some(hist[k + 1])
  }

  /** A primitive goes on from what the calls it asked for have come to, in turn, until it
      is done; the state it leaves is the result. */
  lemma {:induction false} PrimGoesOn(eng: Engine, w: World, b: Bin, fuel: nat, p: Prim, hist: seq<State>, k: nat)
    requires k < |hist| <= fuel + 1 && w.prim(p, hist).Done?
    requires forall j :: k <= j < |hist| - 1 ==> Asked(eng, w, b, fuel, p, hist, j)
    ensures RunPrim(eng, w, b, fuel - k, p, hist[..k + 1]) == Some(Carry(hist, w.prim(p, hist).st))
    decreases |hist| - k
  {
    hide CallValue, Carry;
    if k == |hist| - 1 {
      assert hist[..k + 1] == hist;
    } else {
      assert Asked(eng, w, b, fuel, p, hist, k);
      PrimGoesOn(eng, w, b, fuel, p, hist, k + 1);
      assert hist[..k + 1] + [hist[k + 1]] == hist[..k + 2];
    }
  }

  /** Calling a value: an implementation is checked first where the scope is, a function
      has its best one called, and a value that is neither a function nor a lambda is
      pushed where the call was asked for. */
  lemma ValueCalls(eng: Engine, w: World, b: Bin, fuel: nat, v: Value, scope: nat, st: State)
    requires scope < |st.heap|
    ensures var (r, s) := (CallValue(eng, w, b, fuel, v, scope, st), st.heap[scope]);
            var refused := Some(st.(errors := st.errors + [Text("Func not applicable")]));
            && (v.FimpV? && s.safe && !w.matches(v.imp, s.stack) ==> r == refused)
            && (v.FimpV? && (!s.safe || w.matches(v.imp, s.stack)) ==>
                  r == CallImp(eng, w, b, fuel, v.imp, scope, st))
            && (v.FuncV? && w.best(v.func, s.stack).None? ==> r == refused)
            && (v.FuncV? && w.best(v.func, s.stack).Some? ==>
                  r == CallImp(eng, w, b, fuel, w.best(v.func, s.stack).value, scope, st))
            && (v.Atom? || v.Text? || v.StackV? || v.ErrorV? ==>
                  r == Some(st.(heap := st.heap[scope := s.(stack := s.stack + [v])])))
  {
    hide CallImp, CallLambda;
  }

  /** A lambda runs with its lib on top, and afterwards the libs are as they were. */
  lemma LambdaLib(lib: Lib, home: nat, scope: nat, st: State, x: State)
    requires st.libs != [] && x.libs == EnterLambda(lib, home, scope, st).libs
    ensures var r := EnterLambda(lib, home, scope, st);
            && r.libs == (if st.libs[|st.libs| - 1] == lib then st.libs else st.libs + [lib])
            && r.libs[|r.libs| - 1] == lib && r.calls == st.calls && r.errors == st.errors
    ensures LeaveLambda(!InLib(st, lib), scope != home, x).libs == st.libs
  {
    hide SetStack;
    assert (st.libs + [lib])[..|st.libs|] == st.libs;
    assert End(x).libs == x.libs;
    hide End;
  }

  /** The root scope is never left; what it holds stays, and there is an error.  Nor is the
      root lib. */
  lemma RootStays(st: State)
    ensures |st.scopes| == 1 ==> End(st) == st.(errors := st.errors + [Text("No open scopes")])
    ensures |st.libs| == 1 ==> PopLib(st) == st
    ensures st.calls == [] ==> PopCall(st) == st.(errors := st.errors + [Text("Failed popping call")])
  {
  }
}
