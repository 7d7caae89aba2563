/** The flat compiler: tokens to ops with relative skips, inlining each function
    the first time it is needed, and the jump patching of `switch:`. */
module Compiler {
  import opened Basics
  import opened VmState
  import opened Vm
  import opened Layout

  /** `PatchAll` is what switch_eval does: every OJUMP in its op range gets the
      switch's end as target.  `PatchOwn` retargets only the switch's own jumps. */
  datatype Patching = PatchAll | PatchOwn

  function Emit(b: Bin, op: Op): Bin {
    b.(ops := b.ops + [op])
  }

  /** Back-patching of an op that was emitted before its size was known. */
  function Fill(b: Bin, a: nat, op: Op): Bin
    requires a < |b.ops|
  {
    b.(ops := b.ops[a := op])
  }

  /** Every OJUMP from `start` on. */
  function RetargetAll(ops: seq<Op>, start: nat, end: nat): seq<Op> {
    seq(|ops|, i requires 0 <= i < |ops| => if i >= start && ops[i].OJump? then OJump(end) else ops[i])
  }

  /** The jumps at the given addresses. */
  function RetargetOwn(ops: seq<Op>, own: seq<nat>, end: nat): seq<Op> {
    seq(|ops|, i requires 0 <= i < |ops| => if i in own then OJump(end) else ops[i])
  }

  /** OFIMP, OBEGIN and OPUTARGS, with the size still open. */
  function BeginInline(w: World, imp: Imp, b: Bin): Bin
    requires imp in w.imps
  {
    var b1 := Emit(Emit(b.(fimps := b.fimps[imp := Range(|b.ops| + 1, -1)]), OFimp(imp)), OBegin(Some(imp), 0));
    if w.imps[imp].args == [] then b1 else Emit(b1, OPutArgs(imp))
  }

  function EndInline(imp: Imp, start: nat, b: Bin, ns: seq<Node>): Bin
    requires start < |b.ops|
  {
    var b1 := Emit(b, OReturn(imp, start));
    Fill(b1, start, OBegin(Some(imp), |b1.ops| - start - 1))
      .(fimps := b.fimps[imp := Range(start, |b1.ops| - start)], fns := b.fns[imp := ns])
  }

  function EndLambda(b: Bin, a: nat, ns: seq<Node>): Bin
    requires a < |b.ops|
  {
    Fill(b, a, OLambda(a + 1, |b.ops| - (a + 1))).(lams := b.lams[a := ns])
  }

  /** The implementation a call inlines: the one it names, or the only one. */
  function ToInline(w: World, func: Func, imp: Option<Imp>): Option<Imp> {
    var one := if imp.Some? then imp else if func in w.sole then Some(w.sole[func]) else None;
    if one.Some? && one.value in w.imps && w.imps[one.value].prim.None? then one else None
  }

  // ---- compilation ---------------------------------------------------------

  /** Functions of the world that are not in the bin yet. */
  function Left(w: World, b: Bin): set<Imp> {
    w.imps.Keys - b.fimps.Keys
  }

  lemma LeftShrinks(w: World, imp: Imp, b: Bin)
    requires imp in w.imps && imp !in b.fimps
    ensures Left(w, BeginInline(w, imp, b)) < Left(w, b)
  {
    assert imp in Left(w, b) && imp !in Left(w, BeginInline(w, imp, b));
  }

  function CompileSeq(w: World, p: Patching, toks: seq<Tok>, b: Bin): (r: (Bin, seq<Node>))
    ensures b.fimps.Keys <= r.0.fimps.Keys && |b.ops| <= |r.0.ops|
    decreases Left(w, b), 1, toks, 0
  {
    if toks == [] then (b, [])
    else
      var (b1, ns1) := CompileTok(w, p, toks[0], b);
      var (b2, ns2) := CompileSeq(w, p, toks[1..], b1);
      (b2, ns1 + ns2)
  }

  function CompileTok(w: World, p: Patching, tok: Tok, b: Bin): (r: (Bin, seq<Node>))
    ensures b.fimps.Keys <= r.0.fimps.Keys && |b.ops| <= |r.0.ops|
    decreases Left(w, b), 1, tok, 0
  {
    var a := |b.ops|;
    match tok
    case TLiteral(v) => (Emit(b, OPush(v)), [NPush(v)])
    case TVar(id) => (Emit(b, OGetVar(id)), [NGetVar(id)])
    case TGroup(body) =>
      if body == [] then (b, [])
      else
        var (b1, ns) := CompileSeq(w, p, body, Emit(b, OBegin(None, 0)));
        var b2 := Emit(b1, OEnd);
        (Fill(b2, a, OBegin(None, |b2.ops| - a - 1)), [NGroup(ns)])
    case TStack(body) =>
      if body == [] then (Emit(b, OPush(StackV([]))), [NPush(StackV([]))])
      else
        var (b1, ns) := CompileSeq(w, p, body, Emit(b, OBegin(None, 0)));
        var b2 := Emit(Emit(b1, OStash), OEnd);
        (Fill(b2, a, OBegin(None, |b2.ops| - a - 1)), [NStack(ns)])
    case TLambda(body) =>
      var (b1, ns) := CompileSeq(w, p, body, Emit(b, OLambda(a + 1, 0)));
      (EndLambda(b1, a, ns), [NLambda(a, ns)])
    case TCall(func, imp) =>
      var one := ToInline(w, func, imp);
      var b1 := if one.Some? then Inline(w, p, one.value, b) else b;
      (Emit(b1, OFuncall(func, imp)), [NCall(|b1.ops|, func, imp, |b1.ops| - a)])
    case TFunc(def) =>
      var b1 := Inline(w, p, def, Emit(b, OFuncdef(def)));
      (b1, [NFunc(def, |b1.ops| - (a + 1))])
    case TLet(body, ids) =>
      var (b1, ns) := CompileSeq(w, p, body, b);
      var (b2, puts) := CompilePuts(ids, b1);
      (b2, ns + puts)
    case TCatch(clauses) => CompileCatches(w, p, clauses, b)
    case TSwitch(cases) =>
      var (b1, ns, own) := CompileCases(w, p, cases, b);
      var end := |b1.ops|;
      (b1.(ops := if p == PatchAll then RetargetAll(b1.ops, a, end) else RetargetOwn(b1.ops, own, end)), [NSwitch(ns)])
  }

  /** The last name takes the value on top. */
  function CompilePuts(ids: seq<Binding>, b: Bin): (r: (Bin, seq<Node>))
    ensures r.0 == b.(ops := r.0.ops) && |b.ops| <= |r.0.ops|
    decreases |ids|
  {
    if ids == [] then (b, [])
    else
      var last := ids[|ids| - 1];
      var (b1, ns) := CompilePuts(ids[..|ids| - 1], Emit(b, OPutVar(last.id, last.ty)));
      (b1, [NPutVar(last.id, last.ty)] + ns)
  }

  function CompileCatches(w: World, p: Patching, cs: seq<CatchClause>, b: Bin): (r: (Bin, seq<Node>))
    ensures b.fimps.Keys <= r.0.fimps.Keys && |b.ops| <= |r.0.ops|
    decreases Left(w, b), 1, cs, 0
  {
    if cs == [] then (b, [])
    else
      var a := |b.ops|;
      var (b1, ns) := CompileSeq(w, p, cs[0].body, Emit(b, OCatch(cs[0].ty, 0)));
      var b2 := Fill(b1, a, OCatch(cs[0].ty, |b1.ops| - a - 1));
      var (b3, rest) := CompileCatches(w, p, cs[1..], b2);
      (b3, [NCatch(cs[0].ty, ns)] + rest)
  }

  /** All clauses; the third result lists where their jumps are. */
  function CompileCases(w: World, p: Patching, cs: seq<SwitchClause>, b: Bin): (r: (Bin, seq<Case>, seq<nat>))
    ensures b.fimps.Keys <= r.0.fimps.Keys && |b.ops| <= |r.0.ops|
    ensures forall i :: 0 <= i < |r.2| ==> r.2[i] < |r.0.ops|
    decreases Left(w, b), 1, cs, 0
  {
    if cs == [] then (b, [], [])
    else
      var (b1, cond) := if cs[0].head.TGroup? then CompileSeq(w, p, cs[0].head.body, b)
          else CompileTok(w, p, cs[0].head, b);
      var ei := |b1.ops|;
      var (b2, body) := CompileSeq(w, p, cs[0].rest, Emit(b1, OElse(0)));
      var b3 := Emit(b2, OJump(0));
      var b4 := Fill(b3, ei, OElse(|b3.ops| - ei - 1));
      var (b5, rest, own) := CompileCases(w, p, cs[1..], b4);
      (b5, [Case(cond, body)] + rest, [|b2.ops|] + own)
  }

  /** cx_fimp_inline: the entry is recorded before the body is compiled, so a
      recursive mention does not compile it again. */
  function Inline(w: World, p: Patching, imp: Imp, b: Bin): (r: Bin)
    ensures b.fimps.Keys <= r.fimps.Keys && |b.ops| <= |r.ops|
    decreases Left(w, b), 0
  {
    if imp in b.fimps || imp !in w.imps then b
    else
      LeftShrinks(w, imp, b);
      var (b1, ns) := CompileSeq(w, p, w.imps[imp].toks, BeginInline(w, imp, b));
      EndInline(imp, |b.ops| + 1, b1, ns)
  }

  const EMPTY_BIN := Bin([], map[], map[], map[])

  function Compile(w: World, p: Patching, toks: seq<Tok>): (Bin, seq<Node>) {
    CompileSeq(w, p, toks, EMPTY_BIN)
  }
}
