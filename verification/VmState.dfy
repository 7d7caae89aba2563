/** The data the virtual machine works on: values, scopes, call records and the
    machine state itself, with the small state changes that the op handlers are
    built from.

    Every change is a total function.  Where the C code would abort the process
    (`cx_test`), the function picks a fixed result. */
module VmState {
  import opened Basics

  type Sym = string
  type Lib = nat
  type TypeId = nat
  type Imp = nat
  type Func = nat
  type Prim = nat

  /** A boxed value.  A lambda is named by the address of the op that made it;
      `lib` and `scope` are what it captured. */
  datatype Value =
    | Atom(ty: TypeId, bits: int)
    | Text(s: string)
    | StackV(items: seq<Value>)
    | LambdaV(at: nat, lib: Lib, scope: nat)
    | FimpV(imp: Imp)
    | FuncV(func: Func)
    | ErrorV(thrown: Value)

  datatype Arg = ConstArg | NamedArg(id: Sym) | PosArg
  datatype Ret = ConstRet(v: Value) | NamedRet(id: Sym) | PosRet

  /** A function implementation: a primitive or a body of tokens. */
  datatype Fimp = Fimp(lib: Lib, args: seq<Arg>, rets: seq<Ret>, prim: Option<Prim>, toks: seq<Tok>)

  datatype CatchClause = CatchClause(ty: Option<TypeId>, body: seq<Tok>)

  /** A `switch:` clause: its first token and the rest. */
  datatype SwitchClause = SwitchClause(head: Tok, rest: seq<Tok>)

  /** Parsed tokens, with identifiers already resolved. */
  datatype Tok =
    | TLiteral(v: Value)
    | TVar(id: Sym)
    | TGroup(body: seq<Tok>)
    | TStack(body: seq<Tok>)
    | TLambda(body: seq<Tok>)
    | TCall(func: Func, imp: Option<Imp>)
    | TFunc(def: Imp)
    | TLet(body: seq<Tok>, ids: seq<Binding>)   // names as written
    | TCatch(clauses: seq<CatchClause>)
    | TSwitch(cases: seq<SwitchClause>)

  datatype Binding = Binding(id: Sym, ty: Option<TypeId>)

  datatype Scope = Scope(parent: Option<nat>, stack: seq<Value>, vars: map<Sym, Value>, safe: bool)

  datatype Call = Call(imp: Imp, scope: nat, args: seq<Value>, recalls: nat)

  /** `heap` holds every scope object, `scopes` the scope stack by address,
      `cache` the implementation each call site resolved last, `home` the scope a
      function was defined in.  Two history variables count what no handler reads:
      `badReturns`, how often a function's own return checks have failed, and
      `partings`, how often something happened that emitted code does otherwise. */
  datatype State = State(
    heap: seq<Scope>,
    scopes: seq<nat>,
    libs: seq<Lib>,
    calls: seq<Call>,
    errors: seq<Value>,
    cache: map<nat, Option<Imp>>,
    home: map<Imp, nat>,
    badReturns: nat,
    partings: nat)

  /** What a primitive does next: finish, or ask for a value to be called. */
  datatype Action = Done(st: State) | Ask(v: Value, scope: nat, st: State)

  /** What a call runs: a function's body, or a lambda's. */
  datatype Target = BodyOf(imp: Imp) | LambdaAt(at: nat)

  /** Everything the compiler and the VM take from outside: the registered
      implementations, and the behaviour of primitives, dispatch and types.
      A primitive is given the states it was entered and resumed in so far; `apart` is
      what a body does that lies in another bin than the current one. */
  datatype World = World(
    imps: map<Imp, Fimp>,
    sole: map<Func, Imp>,
    prim: (Prim, seq<State>) -> Action,
    apart: (Target, State) -> Option<State>,
    matches: (Imp, seq<Value>) -> bool,
    best: (Func, seq<Value>) -> Option<Imp>,
    isA: (Value, TypeId) -> bool,
    retIs: (Imp, nat, seq<Value>, Value) -> bool,
    isTrue: Value -> bool)

  // ---- scope objects -------------------------------------------------------

  function Obj(st: State, id: nat): Scope {
    if id < |st.heap| then st.heap[id] else Scope(None, [], map[], true)
  }

  function SetStack(st: State, id: nat, s: seq<Value>): (r: State)
    ensures r == st.(heap := r.heap) && |r.heap| == |st.heap|
  {
    if id < |st.heap| then st.(heap := st.heap[id := st.heap[id].(stack := s)]) else st
  }

  function SetVar(st: State, id: nat, name: Sym, v: Value): (r: State)
    ensures r == st.(heap := r.heap) && |r.heap| == |st.heap|
  {
    if id < |st.heap| then st.(heap := st.heap[id := st.heap[id].(vars := st.heap[id].vars[name := v])]) else st
  }

  function Top(st: State): nat {
    if st.scopes == [] then 0 else st.scopes[|st.scopes| - 1]
  }

  function TopStack(st: State): seq<Value> {
    Obj(st, Top(st)).stack
  }

  function PushOn(st: State, id: nat, v: Value): State {
    SetStack(st, id, Obj(st, id).stack + [v])
  }

  function Push(st: State, v: Value): State {
    PushOn(st, Top(st), v)
  }

  function Error(st: State, msg: string): State {
    st.(errors := st.errors + [Text(msg)])
  }

  /** Variable lookup through the parent chain; `n` bounds its length. */
  function Lookup(st: State, id: nat, name: Sym, n: nat): Option<Value>
    decreases n
  {
    var s := Obj(st, id);
    if name in s.vars then Some(s.vars[name])
    else if s.parent.Some? && n > 0 then Lookup(st, s.parent.value, name, n - 1)
    else None
  }

  function GetVar(st: State, id: nat, name: Sym): Option<Value> {
    Lookup(st, id, name, |st.heap|)
  }

  // ---- scope, lib and call stacks ------------------------------------------

  function PushScope(st: State, id: nat): State {
    st.(scopes := st.scopes + [id])
  }

  /** cx_begin: a new scope on top, inheriting `safe`. */
  function Begin(st: State, parent: Option<nat>): State {
    var safe := if st.scopes == [] then true else Obj(st, Top(st)).safe;
    st.(heap := st.heap + [Scope(parent, [], map[], safe)], scopes := st.scopes + [|st.heap|])
  }

  /** cx_pop_scope: what is left on the popped scope moves to the next one. */
  function End(st: State): State {
    if |st.scopes| <= 1 then Error(st, "No open scopes")
    else
      var s := Top(st);
      var moved := Obj(st, s).stack;
      var st1 := st.(scopes := st.scopes[..|st.scopes| - 1]);
      if moved == [] then st1
      else SetStack(SetStack(st1, Top(st1), Obj(st1, Top(st1)).stack + moved), s, [])
  }

  /** cx_stash: the whole stack becomes one stack value. */
  function Stash(st: State): State {
    SetStack(st, Top(st), [StackV(TopStack(st))])
  }

  function PushLib(st: State, lib: Lib): State {
    st.(libs := st.libs + [lib])
  }

  function PopLib(st: State): State {
    if |st.libs| <= 1 then st else st.(libs := st.libs[..|st.libs| - 1])
  }

  function InLib(st: State, lib: Lib): bool {
    st.libs != [] && st.libs[|st.libs| - 1] == lib
  }

  function PopCall(st: State): State {
    if st.calls == [] then Error(st, "Failed popping call")
    else st.(calls := st.calls[..|st.calls| - 1])
  }

  function TopCall(st: State): Call {
    if st.calls == [] then Call(0, 0, [], 0) else st.calls[|st.calls| - 1]
  }

  function SetTopCall(st: State, c: Call): State {
    if st.calls == [] then st else st.(calls := st.calls[|st.calls| - 1 := c])
  }

  /** cx_call_pop_args on the top call record. */
  function PopArgs(st: State, nargs: nat): State {
    var c := TopCall(st);
    var s := Obj(st, c.scope).stack;
    if nargs == 0 then st
    else if |s| < nargs then Error(st, "Not enough args to call")
    else SetTopCall(SetStack(st, c.scope, s[..|s| - nargs]), c.(args := s[|s| - nargs..]))
  }

  // ---- op handlers in normal mode ------------------------------------------

  function DoGetVar(st: State, name: Sym): State {
    var v := GetVar(st, Top(st), name);
    if v.None? then Error(st, "Unknown var") else Push(st, v.value)
  }

  function DoPutVar(w: World, st: State, name: Sym, ty: Option<TypeId>): State {
    var s := TopStack(st);
    if s == [] then Error(st, "Stack is empty")
    else
      var v := s[|s| - 1];
      var st1 := SetStack(st, Top(st), s[..|s| - 1]);
      if ty.Some? && !w.isA(v, ty.value) then Error(st1, "Expected type")
      else SetVar(st1, Top(st1), name, v)
  }

  function DoFuncdef(st: State, imp: Imp): State {
    if imp in st.home then st else st.(home := st.home[imp := Top(st)])
  }

  /** begin_eval for a group or a stack literal */
  function EnterGroup(st: State): State {
    Begin(st, Some(Top(st)))
  }

  /** begin_eval for a function body */
  function EnterFn(w: World, st: State, imp: Imp): State
    requires imp in w.imps
  {
    var st1 := PushLib(Begin(st, if imp in st.home then Some(st.home[imp]) else None), w.imps[imp].lib);
    SetTopCall(st1, TopCall(st1).(scope := Top(st1)))
  }

  /** putargs_eval: arguments go to variables or to the stack. */
  function PutArgs(st: State, args: seq<Arg>, vals: seq<Value>): (r: State)
    ensures r == st.(heap := r.heap) && |r.heap| == |st.heap|
    decreases |args|
  {
    if args == [] || vals == [] then st
    else
      var st1 := match args[0]
        case ConstArg => st
        case NamedArg(id) => SetVar(st, Top(st), id, vals[0])
        case PosArg => Push(st, vals[0]);
      PutArgs(st1, args[1..], vals[1..])
  }

  function DoPutArgs(w: World, st: State, imp: Imp): State
    requires imp in w.imps
  {
    PutArgs(st, w.imps[imp].args, TopCall(st).args)
  }

  /** return_error_eval, and the last step of return_eval */
  function LeaveFn(st: State): State {
    PopCall(PopLib(End(st)))
  }

  function Under(st: State): nat {
    if |st.scopes| < 2 then 0 else st.scopes[|st.scopes| - 2]
  }

  /** The result of collecting return values: the state, how many positional
      values were used, and whether every check passed. */
  datatype Collected = Collected(st: State, used: nat, ok: bool)

  function CollectRets(w: World, imp: Imp, rets: seq<Ret>, ri: nat, used: nat, st: State): (r: Collected)
    requires ri <= |rets|
    ensures r.st == st.(heap := r.st.heap, errors := r.st.errors) && |r.st.heap| == |st.heap|
    ensures if r.ok then r.st.errors == st.errors else |r.st.errors| == |st.errors| + 1
    decreases |rets| - ri
  {
    if ri == |rets| then Collected(st, used, true)
    else
      var ss := TopStack(st);
      match rets[ri]
      case ConstRet(v) => CollectRets(w, imp, rets, ri + 1, used, PushOn(st, Under(st), v))
      case NamedRet(id) =>
        var v := GetVar(st, Top(st), id);
        if v.None? then Collected(Error(st, "Unknown var"), used, false)
        else CheckRet(w, imp, rets, ri, used, st, v.value)
      case PosRet =>
        if used >= |ss| then Collected(Error(st, "Not enough return values on stack"), used, false)
        else CheckRet(w, imp, rets, ri, used + 1, st, ss[used])
  }

  function CheckRet(w: World, imp: Imp, rets: seq<Ret>, ri: nat, used: nat, st: State, v: Value): (r: Collected)
    requires ri < |rets|
    ensures r.st == st.(heap := r.st.heap, errors := r.st.errors) && |r.st.heap| == |st.heap|
    ensures if r.ok then r.st.errors == st.errors else |r.st.errors| == |st.errors| + 1
    decreases |rets| - ri, 0
  {
    if Obj(st, Top(st)).safe && !w.retIs(imp, ri, TopCall(st).args, v)
    then Collected(Error(st, "Invalid return type"), used, false)
    else CollectRets(w, imp, rets, ri + 1, used, PushOn(st, Under(st), v))
  }

  function Bad(st: State): State {
    st.(badReturns := st.badReturns + 1)
  }

  function Part(st: State): State {
    st.(partings := st.partings + 1)
  }

  /** What return_eval does: leave the function, or run its body again. */
  datatype Returned = Leave(st: State) | Again(st: State)

  predicate HasBody(w: World, c: Call) {
    c.imp in w.imps && w.imps[c.imp].prim.None?
  }

  /** The last of the first `n` calls whose function has a body, or -1. */
  function NearestBody(w: World, calls: seq<Call>, n: nat): (k: int)
    requires n <= |calls|
    ensures -1 <= k < n && (k >= 0 ==> HasBody(w, calls[k]))
    ensures forall i :: k < i < n ==> !HasBody(w, calls[i])
  {
    if n == 0 then -1 else if HasBody(w, calls[n - 1]) then n - 1 else NearestBody(w, calls, n - 1)
  }

  /** recall_imp */
  function Recalled(w: World, st: State): State {
    var k := NearestBody(w, st.calls, |st.calls|);
    if k < 0 then Error(st, "Nothing to recall")
    else st.(calls := st.calls[k := st.calls[k].(recalls := st.calls[k].recalls + 1)])
  }

  predicate RecallFails(w: World, st: State, imp: Imp) {
    Obj(st, Top(st)).safe && !w.matches(imp, TopStack(st))
  }

  function DoReturn(w: World, st: State, imp: Imp): Returned
    requires imp in w.imps
  {
    var c := TopCall(st);
    if c.recalls > 0 then
      var st1 := SetTopCall(st, c.(recalls := c.recalls - 1));
      if RecallFails(w, st, imp) then Leave(Part(Bad(Error(st1, "Recall not applicable"))))
      else Again(PopArgs(st1, |w.imps[imp].args|))
    else
      var r := CollectRets(w, imp, w.imps[imp].rets, 0, 0, st);
      if !r.ok then Leave(Bad(r.st))
      else if r.used < |TopStack(r.st)| then Leave(Bad(Error(r.st, "Stack not empty on return")))
      else Leave(LeaveFn(SetStack(r.st, Top(r.st), [])))
  }

  /** catch_error_eval, typed clause that matches: the error moves to the stack. */
  function CatchError(st: State): State
    requires st.errors != []
  {
    var e := st.errors[|st.errors| - 1];
    Push(st.(errors := st.errors[..|st.errors| - 1]), ErrorV(e))
  }

  predicate Catches(w: World, st: State, ty: TypeId)
    requires st.errors != []
  {
    w.isA(st.errors[|st.errors| - 1], ty)
  }

  function DropError(st: State): State
    requires st.errors != []
  {
    st.(errors := st.errors[..|st.errors| - 1])
  }

  function Rethrow(st: State, e: Value): State {
    st.(errors := st.errors + [e])
  }

  /** else_eval: what the condition left decides where to go. */
  datatype Tested = Taken(st: State) | Skipped(st: State)

  function DoElse(w: World, st: State): Tested {
    var s := TopStack(st);
    if s == [] then Taken(Error(st, "Stack is empty"))
    else
      var st1 := SetStack(st, Top(st), s[..|s| - 1]);
      if w.isTrue(s[|s| - 1]) then Taken(st1) else Skipped(st1)
  }
}
