/** When the jump patching of `switch:` is right.  switch_eval retargets every
    OJUMP in its op range, also those of a switch inside one of its clauses, a
    lambda there, or a function inlined there.  The result is the intended code
    exactly when no clause holds another switch with clauses. */
module SwitchPatch {
  import opened Basics
  import opened VmState
  import opened Vm
  import opened Layout
  import opened Compiler
  import opened CompilerProof

  // ---- the condition, read off the tokens ----------------------------------

  /** The functions inlined after these tokens, when `seen` were before. */
  function SeenSeq(w: World, toks: seq<Tok>, seen: set<Imp>): (r: set<Imp>)
    ensures seen <= r
    decreases w.imps.Keys - seen, 1, toks, 0
  {
    if toks == [] then seen
    else SeenSeq(w, toks[1..], SeenTok(w, toks[0], seen))
  }

  function SeenTok(w: World, tok: Tok, seen: set<Imp>): (r: set<Imp>)
    ensures seen <= r
    decreases w.imps.Keys - seen, 1, tok, 0
  {
    match tok
    case TGroup(body) => SeenSeq(w, body, seen)
    case TStack(body) => SeenSeq(w, body, seen)
    case TLambda(body) => SeenSeq(w, body, seen)
    case TLet(body, ids) => SeenSeq(w, body, seen)
    case TCall(func, imp) =>
      var one := ToInline(w, func, imp);
      if one.Some? then SeenImp(w, one.value, seen) else seen
    case TFunc(def) => SeenImp(w, def, seen)
    case TCatch(clauses) => SeenCatches(w, clauses, seen)
    case TSwitch(cases) => SeenCases(w, cases, seen)
    case _ => seen
  }

  function SeenCatches(w: World, cs: seq<CatchClause>, seen: set<Imp>): (r: set<Imp>)
    ensures seen <= r
    decreases w.imps.Keys - seen, 1, cs, 0
  {
    if cs == [] then seen
    else SeenCatches(w, cs[1..], SeenSeq(w, cs[0].body, seen))
  }

  function SeenCond(w: World, head: Tok, seen: set<Imp>): (r: set<Imp>)
    ensures seen <= r
    decreases w.imps.Keys - seen, 1, head, 1
  {
    if head.TGroup? then SeenSeq(w, head.body, seen) else SeenTok(w, head, seen)
  }

  function SeenCases(w: World, cs: seq<SwitchClause>, seen: set<Imp>): (r: set<Imp>)
    ensures seen <= r
    decreases w.imps.Keys - seen, 1, cs, 0
  {
    if cs == [] then seen
    else SeenCases(w, cs[1..], SeenSeq(w, cs[0].rest, SeenCond(w, cs[0].head, seen)))
  }

  function SeenImp(w: World, imp: Imp, seen: set<Imp>): (r: set<Imp>)
    ensures seen <= r
    decreases w.imps.Keys - seen, 0
  {
    if imp in seen || imp !in w.imps then seen
    else
      assert imp in w.imps.Keys - seen && imp !in w.imps.Keys - (seen + {imp});
      SeenSeq(w, w.imps[imp].toks, seen + {imp})
  }

  /** No switch inside a switch; `inside` says that a clause is open already. */
  predicate FlatSeq(w: World, toks: seq<Tok>, seen: set<Imp>, inside: bool)
    decreases w.imps.Keys - seen, 1, toks, 0
  {
    toks != [] ==>
      && FlatTok(w, toks[0], seen, inside)
      && FlatSeq(w, toks[1..], SeenTok(w, toks[0], seen), inside)
  }

  predicate FlatTok(w: World, tok: Tok, seen: set<Imp>, inside: bool)
    decreases w.imps.Keys - seen, 1, tok, 0
  {
    match tok
    case TGroup(body) => FlatSeq(w, body, seen, inside)
    case TStack(body) => FlatSeq(w, body, seen, inside)
    case TLambda(body) => FlatSeq(w, body, seen, inside)
    case TLet(body, ids) => FlatSeq(w, body, seen, inside)
    case TCall(func, imp) =>
      var one := ToInline(w, func, imp);
      one.Some? ==> FlatImp(w, one.value, seen, inside)
    case TFunc(def) => FlatImp(w, def, seen, inside)
    case TCatch(clauses) => FlatCatches(w, clauses, seen, inside)
    case TSwitch(cases) => cases == [] || (!inside && FlatCases(w, cases, seen))
    case _ => true
  }

  predicate FlatCatches(w: World, cs: seq<CatchClause>, seen: set<Imp>, inside: bool)
    decreases w.imps.Keys - seen, 1, cs, 0
  {
    cs != [] ==>
      && FlatSeq(w, cs[0].body, seen, inside)
      && FlatCatches(w, cs[1..], SeenSeq(w, cs[0].body, seen), inside)
  }

  predicate FlatCond(w: World, head: Tok, seen: set<Imp>)
    decreases w.imps.Keys - seen, 1, head, 1
  {
    if head.TGroup? then FlatSeq(w, head.body, seen, true) else FlatTok(w, head, seen, true)
  }

  predicate FlatCases(w: World, cs: seq<SwitchClause>, seen: set<Imp>)
    decreases w.imps.Keys - seen, 1, cs, 0
  {
    cs != [] ==>
      var seen1 := SeenCond(w, cs[0].head, seen);
      && FlatCond(w, cs[0].head, seen)
      && FlatSeq(w, cs[0].rest, seen1, true)
      && FlatCases(w, cs[1..], SeenSeq(w, cs[0].rest, seen1))
  }

  predicate FlatImp(w: World, imp: Imp, seen: set<Imp>, inside: bool)
    decreases w.imps.Keys - seen, 0
  {
    imp !in seen && imp in w.imps ==>
      assert imp in w.imps.Keys - seen && imp !in w.imps.Keys - (seen + {imp});
      FlatSeq(w, w.imps[imp].toks, seen + {imp}, inside)
  }

  // ---- both ways of patching, side by side ---------------------------------

  /** The same bin up to jump targets. */
  ghost predicate Twins(x: Bin, y: Bin) {
    && x.fimps == y.fimps && x.fns == y.fns && x.lams == y.lams
    && |x.ops| == |y.ops|
    && (forall i :: 0 <= i < |x.ops| ==> x.ops[i] == y.ops[i] || (x.ops[i].OJump? && y.ops[i].OJump?))
  }

  ghost predicate SameFrom(x: Bin, y: Bin, lo: nat) {
    |x.ops| == |y.ops| && forall i :: lo <= i < |x.ops| ==> x.ops[i] == y.ops[i]
  }

  ghost predicate NoJumps(y: Bin, lo: nat) {
    forall i :: lo <= i < |y.ops| ==> !y.ops[i].OJump?
  }

  ghost predicate Low(y: Bin, lo: nat) {
    forall i :: lo <= i < |y.ops| && y.ops[i].OJump? ==> y.ops[i].pc <= |y.ops|
  }

  /** `z` only adds ops to `b`. */
  ghost predicate Appends(b: Bin, z: Bin) {
    |b.ops| <= |z.ops| && forall i :: 0 <= i < |b.ops| ==> z.ops[i] == b.ops[i]
  }

  /** Compiling from twins x0, y0 gave x and y: they are twins again, the new code
      is equal iff `flat`, and free of jumps iff `flatInside`. */
  ghost predicate Paired(x0: Bin, y0: Bin, x: Bin, y: Bin, seen: set<Imp>, flat: bool, flatInside: bool) {
    && Twins(x, y) && Appends(x0, x) && Appends(y0, y)
    && y.fimps.Keys == seen
    && (flat <==> SameFrom(x, y, |x0.ops|))
    && (flatInside <==> NoJumps(y, |y0.ops|))
    && Low(y, |y0.ops|)
  }

  lemma PairedNil(x: Bin, y: Bin)
    requires Twins(x, y)
    ensures Paired(x, y, x, y, y.fimps.Keys, true, true)
  {
  }

  lemma PairedOp(x: Bin, y: Bin, op: Op)
    requires Twins(x, y) && !op.OJump?
    ensures Twins(Emit(x, op), Emit(y, op))
    ensures Paired(x, y, Emit(x, op), Emit(y, op), y.fimps.Keys, true, true)
  {
  }

  lemma PairedTrans(x0: Bin, y0: Bin, x: Bin, y: Bin, z: Bin, u: Bin,
                    s1: set<Imp>, f1: bool, i1: bool, s2: set<Imp>, f2: bool, i2: bool)
    requires Twins(x0, y0) && Paired(x0, y0, x, y, s1, f1, i1) && Paired(x, y, z, u, s2, f2, i2)
    ensures Paired(x0, y0, z, u, s2, f1 && f2, i1 && i2)
  {
    if SameFrom(z, u, |x0.ops|) {
      forall i | |x0.ops| <= i < |x.ops| ensures x.ops[i] == y.ops[i] { assert z.ops[i] == u.ops[i]; }
    }
    if NoJumps(u, |y0.ops|) {
      forall i | |y0.ops| <= i < |y.ops| ensures !y.ops[i].OJump? { assert !u.ops[i].OJump?; }
    }
  }

  /** A placeholder before the new code that is filled in with the same op. */
  lemma PairedFill(x0: Bin, y0: Bin, op0: Op, op: Op, x: Bin, y: Bin, seen: set<Imp>, f: bool, i: bool)
    requires Twins(x0, y0) && !op.OJump?
    requires Paired(Emit(x0, op0), Emit(y0, op0), x, y, seen, f, i)
    ensures Paired(x0, y0, Fill(x, |x0.ops|, op), Fill(y, |y0.ops|, op), seen, f, i)
  {
    var (a, z, u) := (|x0.ops|, Fill(x, |x0.ops|, op), Fill(y, |y0.ops|, op));
    if SameFrom(z, u, a) {
      forall k | a + 1 <= k < |x.ops| ensures x.ops[k] == y.ops[k] { assert z.ops[k] == u.ops[k]; }
    }
    if NoJumps(u, a) {
      forall k | a + 1 <= k < |y.ops| ensures !y.ops[k].OJump? { assert !u.ops[k].OJump?; }
    }
  }

  lemma {:induction false} SeqPaired(w: World, toks: seq<Tok>, x: Bin, y: Bin)
    requires Twins(x, y)
    ensures var (x1, n) := CompileSeq(w, PatchAll, toks, x);
            var (y1, m) := CompileSeq(w, PatchOwn, toks, y);
            var seen := y.fimps.Keys;
            n == m && Paired(x, y, x1, y1, SeenSeq(w, toks, seen), FlatSeq(w, toks, seen, false),
                             FlatSeq(w, toks, seen, true))
    decreases Left(w, y), 1, toks, 2
  {
    hide Paired;
    if toks == [] {
      PairedNil(x, y);
    } else {
      var seen := y.fimps.Keys;
      var (x1, n1) := CompileTok(w, PatchAll, toks[0], x);
      var (y1, m1) := CompileTok(w, PatchOwn, toks[0], y);
      TokPaired(w, toks[0], x, y);
      var seen1 := SeenTok(w, toks[0], seen);
      PairedTwins(x, y, x1, y1, seen1, FlatTok(w, toks[0], seen, false), FlatTok(w, toks[0], seen, true));
      var (x2, n2) := CompileSeq(w, PatchAll, toks[1..], x1);
      var (y2, m2) := CompileSeq(w, PatchOwn, toks[1..], y1);
      SeqPaired(w, toks[1..], x1, y1);
      PairedTrans(x, y, x1, y1, x2, y2,
                  seen1, FlatTok(w, toks[0], seen, false), FlatTok(w, toks[0], seen, true),
                  SeenSeq(w, toks[1..], seen1), FlatSeq(w, toks[1..], seen1, false),
                      FlatSeq(w, toks[1..], seen1, true));
    }
  }

  lemma PairedTwins(x0: Bin, y0: Bin, x: Bin, y: Bin, seen: set<Imp>, f: bool, i: bool)
    requires Paired(x0, y0, x, y, seen, f, i)
    ensures Twins(x, y) && y.fimps.Keys == seen
  {
  }

  ghost predicate TokClaim(w: World, tok: Tok, x: Bin, y: Bin) {
    var (x1, n) := CompileTok(w, PatchAll, tok, x);
    var (y1, m) := CompileTok(w, PatchOwn, tok, y);
    var seen := y.fimps.Keys;
    n == m && Paired(x, y, x1, y1, SeenTok(w, tok, seen), FlatTok(w, tok, seen, false), FlatTok(w, tok, seen, true))
  }

  lemma {:induction false} TokPaired(w: World, tok: Tok, x: Bin, y: Bin)
    requires Twins(x, y)
    ensures TokClaim(w, tok, x, y)
    decreases Left(w, y), 1, tok, 2
  {
    hide Paired;
    match tok
    case TLiteral(v) => PairedOp(x, y, OPush(v));
    case TVar(id) => PairedOp(x, y, OGetVar(id));
    case TGroup(body) => GroupPaired(w, tok, x, y);
    case TStack(body) => StackPaired(w, tok, x, y);
    case TLambda(body) => LambdaPaired(w, tok, x, y);
    case TCall(func, imp) => CallPaired(w, tok, x, y);
    case TFunc(def) => FuncPaired(w, tok, x, y);
    case TLet(body, ids) => LetPaired(w, tok, x, y);
    case TCatch(clauses) => CatchesPaired(w, clauses, x, y);
    case TSwitch(cases) => SwitchPaired(w, tok, x, y);
  }

  lemma SizesEqual(x0: Bin, y0: Bin, x: Bin, y: Bin, seen: set<Imp>, f: bool, i: bool)
    requires Paired(x0, y0, x, y, seen, f, i)
    ensures |x.ops| == |y.ops| && x.fimps == y.fimps && x.fns == y.fns && x.lams == y.lams
  {
  }

  /** Code behind a placeholder op, closed by the same ops on both sides. */
  lemma WrapEnd(x: Bin, y: Bin, op0: Op, x1: Bin, y1: Bin, tail: seq<Op>, op: Op, seen: set<Imp>, f: bool, i: bool)
    requires Twins(x, y) && !op0.OJump? && !op.OJump? && forall k :: 0 <= k < |tail| ==> !tail[k].OJump?
    requires Paired(Emit(x, op0), Emit(y, op0), x1, y1, seen, f, i)
    ensures |x.ops| == |y.ops| < |x1.ops| == |y1.ops|
    ensures Paired(x, y, Fill(x1.(ops := x1.ops + tail), |x.ops|, op), Fill(y1.(ops := y1.ops + tail), |y.ops|, op),
              seen, f, i)
  {
    var (x2, y2) := (x1.(ops := x1.ops + tail), y1.(ops := y1.ops + tail));
    Tails(x1, y1, tail);
    PairedTrans(Emit(x, op0), Emit(y, op0), x1, y1, x2, y2, seen, f, i, seen, true, true);
    PairedFill(x, y, op0, op, x2, y2, seen, f, i);
  }

  lemma Tails(x: Bin, y: Bin, tail: seq<Op>)
    requires Twins(x, y) && forall k :: 0 <= k < |tail| ==> !tail[k].OJump?
    ensures Paired(x, y, x.(ops := x.ops + tail), y.(ops := y.ops + tail), y.fimps.Keys, true, true)
  {
  }

  lemma {:induction false} GroupPaired(w: World, tok: Tok, x: Bin, y: Bin)
    requires Twins(x, y) && tok.TGroup?
    ensures TokClaim(w, tok, x, y)
    decreases Left(w, y), 1, tok, 1
  {
    hide Paired;
    if tok.body == [] {
      var seen := y.fimps.Keys;
      assert SeenTok(w, tok, seen) == SeenSeq(w, tok.body, seen) == seen;
      assert FlatSeq(w, tok.body, seen, false) && FlatSeq(w, tok.body, seen, true);
      assert FlatTok(w, tok, seen, false) && FlatTok(w, tok, seen, true);
      PairedNil(x, y);
    } else {
      hide CompileSeq, SeenSeq, FlatSeq;
      var (op0, seen) := (OBegin(None, 0), y.fimps.Keys);
      PairedOp(x, y, op0);
      SeqPaired(w, tok.body, Emit(x, op0), Emit(y, op0));
      var (x1, y1) := (CompileSeq(w, PatchAll, tok.body, Emit(x, op0)).0,
                       CompileSeq(w, PatchOwn, tok.body, Emit(y, op0)).0);
      WrapEnd(x, y, op0, x1, y1, [OEnd], OBegin(None, |x1.ops| + 1 - |x.ops| - 1),
              SeenSeq(w, tok.body, seen), FlatSeq(w, tok.body, seen, false), FlatSeq(w, tok.body, seen, true));
    }
  }

  lemma {:induction false} StackPaired(w: World, tok: Tok, x: Bin, y: Bin)
    requires Twins(x, y) && tok.TStack?
    ensures TokClaim(w, tok, x, y)
    decreases Left(w, y), 1, tok, 1
  {
    hide Paired;
    if tok.body == [] {
      var seen := y.fimps.Keys;
      assert SeenTok(w, tok, seen) == SeenSeq(w, tok.body, seen) == seen;
      assert FlatSeq(w, tok.body, seen, false) && FlatSeq(w, tok.body, seen, true);
      assert FlatTok(w, tok, seen, false) && FlatTok(w, tok, seen, true);
      PairedOp(x, y, OPush(StackV([])));
    } else {
      hide CompileSeq, SeenSeq, FlatSeq;
      var (op0, seen) := (OBegin(None, 0), y.fimps.Keys);
      PairedOp(x, y, op0);
      SeqPaired(w, tok.body, Emit(x, op0), Emit(y, op0));
      var (x1, y1) := (CompileSeq(w, PatchAll, tok.body, Emit(x, op0)).0,
                       CompileSeq(w, PatchOwn, tok.body, Emit(y, op0)).0);
      WrapEnd(x, y, op0, x1, y1, [OStash, OEnd], OBegin(None, |x1.ops| + 2 - |x.ops| - 1),
              SeenSeq(w, tok.body, seen), FlatSeq(w, tok.body, seen, false), FlatSeq(w, tok.body, seen, true));
      assert x1.ops + [OStash] + [OEnd] == x1.ops + [OStash, OEnd];
      assert y1.ops + [OStash] + [OEnd] == y1.ops + [OStash, OEnd];
    }
  }

  lemma {:induction false} LambdaPaired(w: World, tok: Tok, x: Bin, y: Bin)
    requires Twins(x, y) && tok.TLambda?
    ensures TokClaim(w, tok, x, y)
    decreases Left(w, y), 1, tok, 1
  {
    hide Paired, CompileSeq, SeenSeq, FlatSeq;
    var (a, seen) := (|x.ops|, y.fimps.Keys);
    var op0 := OLambda(a + 1, 0);
    PairedOp(x, y, op0);
    SeqPaired(w, tok.body, Emit(x, op0), Emit(y, op0));
    var (x1, ns) := CompileSeq(w, PatchAll, tok.body, Emit(x, op0));
    var y1 := CompileSeq(w, PatchOwn, tok.body, Emit(y, op0)).0;
    LambdaEnd(x, y, x1, y1, ns, SeenSeq(w, tok.body, seen), FlatSeq(w, tok.body, seen, false),
              FlatSeq(w, tok.body, seen, true));
  }

  lemma LambdaEnd(x: Bin, y: Bin, x1: Bin, y1: Bin, ns: seq<Node>, seen: set<Imp>, f: bool, i: bool)
    requires Twins(x, y)
    requires Paired(Emit(x, OLambda(|x.ops| + 1, 0)), Emit(y, OLambda(|y.ops| + 1, 0)), x1, y1, seen, f, i)
    ensures |x.ops| == |y.ops| < |x1.ops| == |y1.ops|
    ensures Paired(x, y, EndLambda(x1, |x.ops|, ns), EndLambda(y1, |y.ops|, ns), seen, f, i)
  {
    var op := OLambda(|x.ops| + 1, |x1.ops| - (|x.ops| + 1));
    PairedFill(x, y, OLambda(|x.ops| + 1, 0), op, x1, y1, seen, f, i);
    SizesEqual(Emit(x, OLambda(|x.ops| + 1, 0)), Emit(y, OLambda(|y.ops| + 1, 0)), x1, y1, seen, f, i);
    PairedTables(x, y, Fill(x1, |x.ops|, op), Fill(y1, |y.ops|, op),
                 EndLambda(x1, |x.ops|, ns), EndLambda(y1, |y.ops|, ns), seen, f, i);
  }

  /** The tables may change, as long as they do so on both sides. */
  lemma PairedTables(x0: Bin, y0: Bin, x: Bin, y: Bin, z: Bin, u: Bin, seen: set<Imp>, f: bool, i: bool)
    requires Paired(x0, y0, x, y, seen, f, i)
    requires z.ops == x.ops && u.ops == y.ops
    requires z.fimps == u.fimps && z.fns == u.fns && z.lams == u.lams && u.fimps.Keys == y.fimps.Keys
    ensures Paired(x0, y0, z, u, seen, f, i)
  {
  }

  lemma {:induction false} FuncPaired(w: World, tok: Tok, x: Bin, y: Bin)
    requires Twins(x, y) && tok.TFunc?
    ensures TokClaim(w, tok, x, y)
    decreases Left(w, y), 1, tok, 1
  {
    hide Paired, Inline, SeenImp, FlatImp;
    var (op, seen) := (OFuncdef(tok.def), y.fimps.Keys);
    PairedOp(x, y, op);
    ImpPaired(w, tok.def, Emit(x, op), Emit(y, op));
    var (x1, y1) := (Inline(w, PatchAll, tok.def, Emit(x, op)), Inline(w, PatchOwn, tok.def, Emit(y, op)));
    var (s, f, i) := (SeenImp(w, tok.def, seen), FlatImp(w, tok.def, seen, false), FlatImp(w, tok.def, seen, true));
    PairedTrans(x, y, Emit(x, op), Emit(y, op), x1, y1, seen, true, true, s, f, i);
    SizesEqual(x, y, x1, y1, s, f, i);
  }

  lemma PairedSnoc(x0: Bin, y0: Bin, x: Bin, y: Bin, op: Op, seen: set<Imp>, f: bool, i: bool)
    requires Twins(x0, y0) && Paired(x0, y0, x, y, seen, f, i) && !op.OJump?
    ensures Paired(x0, y0, Emit(x, op), Emit(y, op), seen, f, i)
  {
    PairedOp(x, y, op);
    PairedTrans(x0, y0, x, y, Emit(x, op), Emit(y, op), seen, f, i, seen, true, true);
  }

  lemma {:induction false} CallPaired(w: World, tok: Tok, x: Bin, y: Bin)
    requires Twins(x, y) && tok.TCall?
    ensures TokClaim(w, tok, x, y)
    decreases Left(w, y), 1, tok, 1
  {
    hide Paired;
    var seen := y.fimps.Keys;
    var op := OFuncall(tok.func, tok.imp);
    var one := ToInline(w, tok.func, tok.imp);
    if one.Some? {
      var (x1, y1) := (Inline(w, PatchAll, one.value, x), Inline(w, PatchOwn, one.value, y));
      var (s, f, i) := (SeenImp(w, one.value, seen), FlatImp(w, one.value, seen, false),
                        FlatImp(w, one.value, seen, true));
      ImpPaired(w, one.value, x, y);
      SizesEqual(x, y, x1, y1, s, f, i);
      PairedSnoc(x, y, x1, y1, op, s, f, i);
    } else {
      PairedOp(x, y, op);
    }
  }

  lemma {:induction false} LetPaired(w: World, tok: Tok, x: Bin, y: Bin)
    requires Twins(x, y) && tok.TLet?
    ensures TokClaim(w, tok, x, y)
    decreases Left(w, y), 1, tok, 1
  {
    hide Paired;
    var seen := y.fimps.Keys;
    var (s, f, i) := (SeenSeq(w, tok.body, seen), FlatSeq(w, tok.body, seen, false), FlatSeq(w, tok.body, seen, true));
    var (x1, n) := CompileSeq(w, PatchAll, tok.body, x);
    var (y1, m) := CompileSeq(w, PatchOwn, tok.body, y);
    SeqPaired(w, tok.body, x, y);
    PairedTwins(x, y, x1, y1, s, f, i);
    PutsPaired(tok.ids, x1, y1);
    PairedTrans(x, y, x1, y1, CompilePuts(tok.ids, x1).0, CompilePuts(tok.ids, y1).0, s, f, i, s, true, true);
  }

  lemma {:induction false} PutsPaired(ids: seq<Binding>, x: Bin, y: Bin)
    requires Twins(x, y)
    ensures var (x1, n) := CompilePuts(ids, x);
            var (y1, m) := CompilePuts(ids, y);
            n == m && Paired(x, y, x1, y1, y.fimps.Keys, true, true)
    decreases |ids|
  {
    hide Paired;
    if ids == [] {
      PairedNil(x, y);
    } else {
      var op := OPutVar(ids[|ids| - 1].id, ids[|ids| - 1].ty);
      PairedOp(x, y, op);
      PutsPaired(ids[..|ids| - 1], Emit(x, op), Emit(y, op));
      PairedTrans(x, y, Emit(x, op), Emit(y, op), CompilePuts(ids, x).0, CompilePuts(ids, y).0,
                  y.fimps.Keys, true, true, y.fimps.Keys, true, true);
    }
  }

  ghost predicate CatchesClaim(w: World, cs: seq<CatchClause>, x: Bin, y: Bin) {
    var (x1, n) := CompileCatches(w, PatchAll, cs, x);
    var (y1, m) := CompileCatches(w, PatchOwn, cs, y);
    var seen := y.fimps.Keys;
    n == m && Paired(x, y, x1, y1, SeenCatches(w, cs, seen), FlatCatches(w, cs, seen, false),
                     FlatCatches(w, cs, seen, true))
  }

  lemma {:induction false} CatchesPaired(w: World, cs: seq<CatchClause>, x: Bin, y: Bin)
    requires Twins(x, y)
    ensures CatchesClaim(w, cs, x, y)
    decreases Left(w, y), 1, cs, 1
  {
    hide Paired;
    if cs == [] {
      PairedNil(x, y);
    } else {
      hide CompileSeq, SeenSeq, FlatSeq, Fill, Emit, Twins, CatchesClaim;
      var x2, y2 := CatchPaired(w, cs, x, y);
      CatchesPaired(w, cs[1..], x2, y2);
      CatchesOf(w, PatchAll, cs, x);
      CatchesOf(w, PatchOwn, cs, y);
      CatchesStep(w, cs, x, y, x2, y2,
                  NCatch(cs[0].ty, CompileSeq(w, PatchAll, cs[0].body, Emit(x, OCatch(cs[0].ty, 0))).1));
    }
  }

  lemma CatchesStep(w: World, cs: seq<CatchClause>, x: Bin, y: Bin, x2: Bin, y2: Bin, n: Node)
    requires Twins(x, y) && cs != [] && CatchesClaim(w, cs[1..], x2, y2)
    requires var (x3, ns) := CompileCatches(w, PatchAll, cs[1..], x2);
             CompileCatches(w, PatchAll, cs, x) == (x3, [n] + ns)
    requires var (y3, ms) := CompileCatches(w, PatchOwn, cs[1..], y2);
             CompileCatches(w, PatchOwn, cs, y) == (y3, [n] + ms)
    requires var (body, seen) := (cs[0].body, y.fimps.Keys);
             && y2.fimps.Keys == SeenSeq(w, body, seen)
             && Paired(x, y, x2, y2, SeenSeq(w, body, seen), FlatSeq(w, body, seen, false),
                       FlatSeq(w, body, seen, true))
    ensures CatchesClaim(w, cs, x, y)
  {
    hide Paired, CompileCatches, FlatSeq, SeenSeq;
    var (body, seen) := (cs[0].body, y.fimps.Keys);
    var s := SeenSeq(w, body, seen);
    PairedTrans(x, y, x2, y2, CompileCatches(w, PatchAll, cs[1..], x2).0, CompileCatches(w, PatchOwn, cs[1..], y2).0,
                s, FlatSeq(w, body, seen, false), FlatSeq(w, body, seen, true),
                SeenCatches(w, cs[1..], s), FlatCatches(w, cs[1..], s, false), FlatCatches(w, cs[1..], s, true));
  }

  lemma CatchesOf(w: World, p: Patching, cs: seq<CatchClause>, b: Bin)
    requires cs != []
    ensures var (b1, ns) := CompileSeq(w, p, cs[0].body, Emit(b, OCatch(cs[0].ty, 0)));
            && |b.ops| < |b1.ops|
            && var (b3, rest) := CompileCatches(w, p, cs[1..],
                                                Fill(b1, |b.ops|, OCatch(cs[0].ty, |b1.ops| - |b.ops| - 1)));
               CompileCatches(w, p, cs, b) == (b3, [NCatch(cs[0].ty, ns)] + rest)
  {
    hide CompileSeq;
  }

  lemma {:induction false} CatchPaired(w: World, cs: seq<CatchClause>, x: Bin, y: Bin) returns (x2: Bin, y2: Bin)
    requires Twins(x, y) && cs != []
    ensures var (body, op0, seen) := (cs[0].body, OCatch(cs[0].ty, 0), y.fimps.Keys);
            var (x1, n) := CompileSeq(w, PatchAll, body, Emit(x, op0));
            var (y1, m) := CompileSeq(w, PatchOwn, body, Emit(y, op0));
            && n == m && |x.ops| < |x1.ops| && |y.ops| < |y1.ops|
            && x2 == Fill(x1, |x.ops|, OCatch(cs[0].ty, |x1.ops| - |x.ops| - 1))
            && y2 == Fill(y1, |y.ops|, OCatch(cs[0].ty, |y1.ops| - |y.ops| - 1))
            && Paired(x, y, x2, y2, SeenSeq(w, body, seen), FlatSeq(w, body, seen, false), FlatSeq(w, body, seen, true))
    ensures Twins(x2, y2) && y2.fimps.Keys == SeenSeq(w, cs[0].body, y.fimps.Keys) && Left(w, y2) <= Left(w, y)
    decreases Left(w, y), 1, cs, 0
  {
    hide Paired, CompileSeq, SeenSeq, FlatSeq;
    var (body, seen, op0) := (cs[0].body, y.fimps.Keys, OCatch(cs[0].ty, 0));
    var (s, f, i) := (SeenSeq(w, body, seen), FlatSeq(w, body, seen, false), FlatSeq(w, body, seen, true));
    var (x1, y1) := (CompileSeq(w, PatchAll, body, Emit(x, op0)).0, CompileSeq(w, PatchOwn, body, Emit(y, op0)).0);
    PairedOp(x, y, op0);
    SeqPaired(w, body, Emit(x, op0), Emit(y, op0));
    var op := OCatch(cs[0].ty, |x1.ops| - |x.ops| - 1);
    x2, y2 := Fill(x1, |x.ops|, op), Fill(y1, |y.ops|, op);
    WrapEnd(x, y, op0, x1, y1, [], op, s, f, i);
    assert x1.(ops := x1.ops + []) == x1 && y1.(ops := y1.ops + []) == y1;
    PairedTwins(x, y, x2, y2, s, f, i);
  }

  // ---- clauses -------------------------------------------------------------

  /** Clauses compiled from twins: the jumps at `own` are open, every other jump
      points into the code, and there is none iff `flat`. */
  ghost predicate PairedCases(x0: Bin, y0: Bin, x: Bin, y: Bin, seen: set<Imp>, flat: bool, own: seq<nat>) {
    && Twins(x, y) && Appends(x0, x) && Appends(y0, y)
    && y.fimps.Keys == seen
    && (forall i :: i in own ==> |x0.ops| <= i < |x.ops| && x.ops[i].OJump?)
    && (flat <==> forall i :: |y0.ops| <= i < |y.ops| && y.ops[i].OJump? ==> i in own)
    && (forall i :: |y0.ops| <= i < |y.ops| && y.ops[i].OJump? && i !in own ==> y.ops[i].pc < |y.ops|)
  }

  function CompileCond(w: World, p: Patching, head: Tok, b: Bin): (Bin, seq<Node>) {
    if head.TGroup? then CompileSeq(w, p, head.body, b) else CompileTok(w, p, head, b)
  }

  lemma {:induction false} CondPaired(w: World, head: Tok, x: Bin, y: Bin) returns (f: bool)
    requires Twins(x, y)
    ensures var (x1, n) := CompileCond(w, PatchAll, head, x);
            var (y1, m) := CompileCond(w, PatchOwn, head, y);
            n == m && Paired(x, y, x1, y1, SeenCond(w, head, y.fimps.Keys), f, FlatCond(w, head, y.fimps.Keys))
    decreases Left(w, y), 1, head, 3
  {
    hide Paired;
    var seen := y.fimps.Keys;
    if head.TGroup? {
      SeqPaired(w, head.body, x, y);
      f := FlatSeq(w, head.body, seen, false);
    } else {
      TokPaired(w, head, x, y);
      f := FlatTok(w, head, seen, false);
    }
  }

  lemma ClausePaired(x: Bin, y: Bin, x1: Bin, y1: Bin, x2: Bin, y2: Bin, s1: set<Imp>, f1: bool, i1: bool,
                     s2: set<Imp>, f2: bool, i2: bool)
    requires Twins(x, y) && Paired(x, y, x1, y1, s1, f1, i1)
             && Paired(Emit(x1, OElse(0)), Emit(y1, OElse(0)), x2, y2, s2, f2, i2)
    ensures var op := OElse(|x2.ops| - |x1.ops|);
            |x1.ops| == |y1.ops| && |x2.ops| == |y2.ops| &&
            PairedCases(x, y, Fill(Emit(x2, OJump(0)), |x1.ops|, op), Fill(Emit(y2, OJump(0)), |y1.ops|, op), s2, i1
                        && i2, [|x2.ops|])
  {
    var op := OElse(|x2.ops| - |x1.ops|);
    var (z, u) := (Fill(Emit(x2, OJump(0)), |x1.ops|, op), Fill(Emit(y2, OJump(0)), |y1.ops|, op));
    assert Twins(z, u) && Appends(x, z) && Appends(y, u);
    ClauseJumps(y, y1, y2, u, op, i1, i2);
  }

  lemma ClauseJumps(y: Bin, y1: Bin, y2: Bin, u: Bin, op: Op, i1: bool, i2: bool)
    requires Appends(y, y1) && Appends(Emit(y1, OElse(0)), y2) && !op.OJump?
    requires u == Fill(Emit(y2, OJump(0)), |y1.ops|, op)
    requires Low(y1, |y.ops|) && Low(y2, |y1.ops| + 1)
    requires (i1 <==> NoJumps(y1, |y.ops|)) && (i2 <==> NoJumps(y2, |y1.ops| + 1))
    ensures (i1 && i2) <==> forall i :: |y.ops| <= i < |u.ops| && u.ops[i].OJump? ==> i in [|y2.ops|]
    ensures forall i :: |y.ops| <= i < |u.ops| && u.ops[i].OJump? && i !in [|y2.ops|] ==> u.ops[i].pc < |u.ops|
  {
    if forall i :: |y.ops| <= i < |u.ops| && u.ops[i].OJump? ==> i in [|y2.ops|] {
      forall i | |y.ops| <= i < |y1.ops| ensures !y1.ops[i].OJump? { assert u.ops[i] == y1.ops[i]; }
      forall i | |y1.ops| + 1 <= i < |y2.ops| ensures !y2.ops[i].OJump? { assert u.ops[i] == y2.ops[i]; }
    }
    forall i | |y.ops| <= i < |u.ops| && u.ops[i].OJump? && i !in [|y2.ops|] ensures u.ops[i].pc < |u.ops| {
      if i < |y1.ops| { assert u.ops[i] == y1.ops[i]; } else { assert u.ops[i] == y2.ops[i]; }
    }
  }

  lemma CasesPairedTrans(x0: Bin, y0: Bin, x: Bin, y: Bin, z: Bin, u: Bin,
                         s1: set<Imp>, f1: bool, j: nat, s2: set<Imp>, f2: bool, own: seq<nat>)
    requires PairedCases(x0, y0, x, y, s1, f1, [j]) && PairedCases(x, y, z, u, s2, f2, own)
    ensures PairedCases(x0, y0, z, u, s2, f1 && f2, [j] + own)
  {
    assert j in [j];
    var all := [j] + own;
    forall i | i in all ensures |x0.ops| <= i < |z.ops| && z.ops[i].OJump? {
      if i != j { assert i in own; }
    }
    if f1 && f2 {
      forall i | |y0.ops| <= i < |u.ops| && u.ops[i].OJump? ensures i in all {
        if i < |y.ops| { assert y.ops[i].OJump?; assert i in [j]; } else { assert i in own; }
      }
    }
    if forall i :: |y0.ops| <= i < |u.ops| && u.ops[i].OJump? ==> i in all {
      forall i | |y0.ops| <= i < |y.ops| && y.ops[i].OJump? ensures i in [j] {
        assert u.ops[i].OJump?;
      }
      forall i | |y.ops| <= i < |u.ops| && u.ops[i].OJump? ensures i in own {
        assert i in all;
      }
    }
    forall i | |y0.ops| <= i < |u.ops| && u.ops[i].OJump? && i !in all ensures u.ops[i].pc < |u.ops| {
      if i < |y.ops| { assert u.ops[i] == y.ops[i] && i !in [j]; }
    }
  }

  lemma PairedCasesTwins(x0: Bin, y0: Bin, x: Bin, y: Bin, seen: set<Imp>, flat: bool, own: seq<nat>)
    requires PairedCases(x0, y0, x, y, seen, flat, own)
    ensures Twins(x, y) && y.fimps.Keys == seen
  {
  }

  lemma PairedCasesNil(x: Bin, y: Bin)
    requires Twins(x, y)
    ensures PairedCases(x, y, x, y, y.fimps.Keys, true, [])
  {
  }

  lemma {:induction false} CasesPaired(w: World, cs: seq<SwitchClause>, x: Bin, y: Bin)
    requires Twins(x, y)
    ensures var (x1, n, own) := CompileCases(w, PatchAll, cs, x);
            var (y1, m, own') := CompileCases(w, PatchOwn, cs, y);
            var seen := y.fimps.Keys;
            n == m && own == own' && PairedCases(x, y, x1, y1, SeenCases(w, cs, seen), FlatCases(w, cs, seen), own)
    decreases Left(w, y), 1, cs, 1
  {
    hide Paired, PairedCases, CompileTok, CompileSeq;
    if cs == [] {
      PairedCasesNil(x, y);
    } else {
      hide SeenSeq, FlatSeq, SeenCond, FlatCond, Fill, Emit, Twins;
      var x4, y4, j, s, f := FirstPaired(w, cs, x, y);
      CasesPaired(w, cs[1..], x4, y4);
      CasesPairedTrans(x, y, x4, y4,
                       CompileCases(w, PatchAll, cs[1..], x4).0, CompileCases(w, PatchOwn, cs[1..], y4).0,
                       s, f, j, SeenCases(w, cs[1..], s), FlatCases(w, cs[1..], s),
                           CompileCases(w, PatchOwn, cs[1..], y4).2);
      CasesOf(w, PatchAll, cs, x);
      CasesOf(w, PatchOwn, cs, y);
    }
  }

  /** The first clause, its parts and what is left. */
  function FirstOf(w: World, p: Patching, c: SwitchClause, b: Bin): (Bin, Case, nat) {
    var (b1, cond) := CompileCond(w, p, c.head, b);
    var (b2, body) := CompileSeq(w, p, c.rest, Emit(b1, OElse(0)));
    (Fill(Emit(b2, OJump(0)), |b1.ops|, OElse(|b2.ops| - |b1.ops|)), Case(cond, body), |b2.ops|)
  }

  lemma CasesOf(w: World, p: Patching, cs: seq<SwitchClause>, b: Bin)
    requires cs != []
    ensures var (b4, x, j) := FirstOf(w, p, cs[0], b);
            var (b5, rest, own) := CompileCases(w, p, cs[1..], b4);
            CompileCases(w, p, cs, b) == (b5, [x] + rest, [j] + own)
  {
    hide CompileSeq, CompileTok;
  }

  lemma NoCases(w: World, b: Bin)
    ensures CompileCases(w, PatchAll, [], b) == (b, [], [])
  {
  }

  lemma {:induction false} FirstPaired(w: World, cs: seq<SwitchClause>, x: Bin, y: Bin)
    returns (x4: Bin, y4: Bin, j: nat, s: set<Imp>, f: bool)
    requires Twins(x, y) && cs != []
    ensures var seen1 := SeenCond(w, cs[0].head, y.fimps.Keys);
            && s == SeenSeq(w, cs[0].rest, seen1)
            && f == (FlatCond(w, cs[0].head, y.fimps.Keys) && FlatSeq(w, cs[0].rest, seen1, true))
    ensures x4 == FirstOf(w, PatchAll, cs[0], x).0 && y4 == FirstOf(w, PatchOwn, cs[0], y).0
    ensures FirstOf(w, PatchAll, cs[0], x).1 == FirstOf(w, PatchOwn, cs[0], y).1
    ensures FirstOf(w, PatchAll, cs[0], x).2 == FirstOf(w, PatchOwn, cs[0], y).2 == j
    ensures PairedCases(x, y, x4, y4, s, f, [j])
    ensures Twins(x4, y4) && y4.fimps.Keys == s && Left(w, y4) <= Left(w, y)
    decreases Left(w, y), 1, cs, 0
  {
    hide Paired, PairedCases, CompileTok, CompileSeq, CompileCond, SeenSeq, FlatSeq, SeenCond, FlatCond;
    var (c, seen) := (cs[0], y.fimps.Keys);
    var (s1, i1) := (SeenCond(w, c.head, seen), FlatCond(w, c.head, seen));
    var (x1, y1) := (CompileCond(w, PatchAll, c.head, x).0, CompileCond(w, PatchOwn, c.head, y).0);
    var f1 := CondPaired(w, c.head, x, y);
    PairedTwins(x, y, x1, y1, s1, f1, i1);
    SizesEqual(x, y, x1, y1, s1, f1, i1);
    PairedOp(x1, y1, OElse(0));
    var (x2, y2) := (CompileSeq(w, PatchAll, c.rest, Emit(x1, OElse(0))).0,
                     CompileSeq(w, PatchOwn, c.rest, Emit(y1, OElse(0))).0);
    SeqPaired(w, c.rest, Emit(x1, OElse(0)), Emit(y1, OElse(0)));
    var i2 := FlatSeq(w, c.rest, s1, true);
    s, f, j := SeenSeq(w, c.rest, s1), i1 && i2, |x2.ops|;
    var op := OElse(|x2.ops| - |x1.ops|);
    x4, y4 := Fill(Emit(x2, OJump(0)), |x1.ops|, op), Fill(Emit(y2, OJump(0)), |y1.ops|, op);
    ClausePaired(x, y, x1, y1, x2, y2, s1, f1, i1, s, FlatSeq(w, c.rest, s1, false), i2);
    PairedCasesTwins(x, y, x4, y4, s, f, [j]);
  }

  /** Patching: equal code iff every jump in the range is the switch's own. */
  lemma SwitchEndPaired(x: Bin, y: Bin, x1: Bin, y1: Bin, seen: set<Imp>, flat: bool, own: seq<nat>)
    requires Twins(x, y) && PairedCases(x, y, x1, y1, seen, flat, own)
    requires forall i :: 0 <= i < |own| ==> own[i] < |y1.ops|
    ensures var end := |x1.ops|;
            Paired(x, y, x1.(ops := RetargetAll(x1.ops, |x.ops|, end)), y1.(ops := RetargetOwn(y1.ops, own, end)),
                   seen, flat, own == [] && flat)
  {
    var end := |x1.ops|;
    var z := x1.(ops := RetargetAll(x1.ops, |x.ops|, end));
    var u := y1.(ops := RetargetOwn(y1.ops, own, end));
    hide Paired, Appends, NoJumps, Low, SameFrom;
    assert |x1.ops| == |y1.ops|;
    hide Twins, PairedCases;
    SwitchEnd(x, y, x1, y1, z, u, seen, flat, own);
  }

  lemma SwitchEnd(x: Bin, y: Bin, x1: Bin, y1: Bin, z: Bin, u: Bin, seen: set<Imp>, flat: bool, own: seq<nat>)
    requires Twins(x, y) && PairedCases(x, y, x1, y1, seen, flat, own)
    requires |z.ops| == |u.ops| == |x1.ops| && z == x1.(ops := z.ops) && u == y1.(ops := u.ops)
    requires forall i :: 0 <= i < |z.ops| ==>
               z.ops[i] == if i >= |x.ops| && x1.ops[i].OJump? then OJump(|z.ops|) else x1.ops[i]
    requires forall i :: 0 <= i < |u.ops| ==> u.ops[i] == if i in own then OJump(|u.ops|) else y1.ops[i]
    ensures Paired(x, y, z, u, seen, flat, own == [] && flat)
  {
    PatchedSame(x, y, x1, y1, z.ops, u.ops, own);
    PatchedJumps(x, y, x1, y1, u.ops, own);
    PatchedTwins(x, x1, y1, z, u, own);
    assert Appends(x, z);
    assert Appends(y, u);
    assert Low(u, |y.ops|);
  }

  lemma PatchedTwins(x: Bin, x1: Bin, y1: Bin, z: Bin, u: Bin, own: seq<nat>)
    requires Twins(x1, y1) && |z.ops| == |u.ops| == |x1.ops| && z == x1.(ops := z.ops) && u == y1.(ops := u.ops)
    requires forall i :: 0 <= i < |z.ops| ==>
               z.ops[i] == if i >= |x.ops| && x1.ops[i].OJump? then OJump(|z.ops|) else x1.ops[i]
    requires forall i :: 0 <= i < |u.ops| ==> u.ops[i] == if i in own then OJump(|u.ops|) else y1.ops[i]
    requires forall i :: i in own ==> |x.ops| <= i < |x1.ops| && x1.ops[i].OJump?
    ensures Twins(z, u)
  {
  }

  lemma PatchedSame(x: Bin, y: Bin, x1: Bin, y1: Bin, z: seq<Op>, u: seq<Op>, own: seq<nat>)
    requires Twins(x, y) && Twins(x1, y1) && |x.ops| <= |x1.ops| && |z| == |u| == |x1.ops|
    requires forall i :: 0 <= i < |z| ==> z[i] == if i >= |x.ops| && x1.ops[i].OJump? then OJump(|z|) else x1.ops[i]
    requires forall i :: 0 <= i < |u| ==> u[i] == if i in own then OJump(|u|) else y1.ops[i]
    requires forall i :: i in own ==> |x.ops| <= i < |x1.ops| && x1.ops[i].OJump?
    requires forall i :: |y.ops| <= i < |y1.ops| && y1.ops[i].OJump? && i !in own ==> y1.ops[i].pc < |y1.ops|
    ensures (forall i :: |x.ops| <= i < |z| ==> z[i] == u[i]) <==>
            (forall i :: |y.ops| <= i < |y1.ops| && y1.ops[i].OJump? ==> i in own)
  {
    if forall i :: |x.ops| <= i < |z| ==> z[i] == u[i] {
      forall i | |y.ops| <= i < |y1.ops| && y1.ops[i].OJump? ensures i in own { assert z[i] == u[i]; }
    }
  }

  lemma PatchedJumps(x: Bin, y: Bin, x1: Bin, y1: Bin, u: seq<Op>, own: seq<nat>)
    requires Twins(x1, y1) && |u| == |y1.ops| && |x.ops| == |y.ops|
    requires forall i :: 0 <= i < |u| ==> u[i] == if i in own then OJump(|u|) else y1.ops[i]
    requires forall i :: i in own ==> |x.ops| <= i < |x1.ops| && x1.ops[i].OJump?
    ensures (forall i :: |y.ops| <= i < |u| ==> !u[i].OJump?) <==>
            own == [] && (forall i :: |y.ops| <= i < |y1.ops| && y1.ops[i].OJump? ==> i in own)
  {
    if own != [] {
      assert own[0] in own && u[own[0]].OJump?;
    } else if i :| |y.ops| <= i < |y1.ops| && y1.ops[i].OJump? {
      assert u[i].OJump?;
    }
  }

  lemma {:induction false} SwitchPaired(w: World, tok: Tok, x: Bin, y: Bin)
    requires Twins(x, y) && tok.TSwitch?
    ensures TokClaim(w, tok, x, y)
    decreases Left(w, y), 1, tok, 1
  {
    hide Paired, PairedCases;
    var seen := y.fimps.Keys;
    var (x1, n, own) := CompileCases(w, PatchAll, tok.cases, x);
    var (y1, m, own') := CompileCases(w, PatchOwn, tok.cases, y);
    CasesPaired(w, tok.cases, x, y);
    SwitchEndPaired(x, y, x1, y1, SeenCases(w, tok.cases, seen), FlatCases(w, tok.cases, seen), own);
    PairedCasesTwins(x, y, x1, y1, SeenCases(w, tok.cases, seen), FlatCases(w, tok.cases, seen), own);
    assert own == [] <==> tok.cases == [];
  }

  // ---- inlining ------------------------------------------------------------

  lemma {:induction false} ImpPaired(w: World, imp: Imp, x: Bin, y: Bin)
    requires Twins(x, y)
    ensures var seen := y.fimps.Keys;
            Paired(x, y, Inline(w, PatchAll, imp, x), Inline(w, PatchOwn, imp, y),
                   SeenImp(w, imp, seen), FlatImp(w, imp, seen, false), FlatImp(w, imp, seen, true))
    decreases Left(w, y), 0
  {
    hide Paired;
    if imp in y.fimps || imp !in w.imps {
      PairedNil(x, y);
    } else {
      LeftShrinks(w, imp, y);
      var (x0, y0) := (BeginInline(w, imp, x), BeginInline(w, imp, y));
      BeginTwins(w, imp, x, y);
      var (x1, n) := CompileSeq(w, PatchAll, w.imps[imp].toks, x0);
      var (y1, m) := CompileSeq(w, PatchOwn, w.imps[imp].toks, y0);
      SeqPaired(w, w.imps[imp].toks, x0, y0);
      hide CompileSeq, SeenSeq, FlatSeq, Twins;
      var seen1 := y0.fimps.Keys;
      assert seen1 == y.fimps.Keys + {imp};
      InlineEndPaired(w, imp, x, y, x1, y1, n, SeenSeq(w, w.imps[imp].toks, seen1),
                      FlatSeq(w, w.imps[imp].toks, seen1, false), FlatSeq(w, w.imps[imp].toks, seen1, true));
    }
  }

  lemma BeginTwins(w: World, imp: Imp, x: Bin, y: Bin)
    requires Twins(x, y) && imp in w.imps
    ensures Twins(BeginInline(w, imp, x), BeginInline(w, imp, y))
  {
  }

  /** What EndInline does to the ops is closing code behind two or three
      placeholders; the first of them, OFIMP, stays as it is. */
  lemma InlineEndPaired(w: World, imp: Imp, x: Bin, y: Bin, x1: Bin, y1: Bin, ns: seq<Node>, seen: set<Imp>, f: bool,
                        i: bool)
    requires Twins(x, y) && imp in w.imps
    requires Paired(BeginInline(w, imp, x), BeginInline(w, imp, y), x1, y1, seen, f, i) && imp in seen
    ensures Paired(x, y, EndInline(imp, |x.ops| + 1, x1, ns), EndInline(imp, |y.ops| + 1, y1, ns), seen, f, i)
  {
    var range := Range(|x.ops| + 1, -1);
    var (xf, yf) := (Emit(x.(fimps := x.fimps[imp := range]), OFimp(imp)),
                     Emit(y.(fimps := y.fimps[imp := range]), OFimp(imp)));
    var (x0, y0) := (BeginInline(w, imp, x), BeginInline(w, imp, y));
    var begin := OBegin(Some(imp), 0);
    var (xb, yb) := (Emit(xf, begin), Emit(yf, begin));
    BeginPaired(w, imp, x, y, xb, yb);
    hide Paired, BeginInline, EndInline;
    PairedTrans(xb, yb, x0, y0, x1, y1, y0.fimps.Keys, true, true, seen, f, i);
    WrapEnd(xf, yf, begin, x1, y1, [OReturn(imp, |xf.ops|)], OBegin(Some(imp), |x1.ops| + 1 - |xf.ops| - 1), seen, f,
            i);
    InlineTables(imp, x, y, xf, yf, x1, y1, ns, seen, f, i);
  }

  /** OPUTARGS, if it is there. */
  lemma BeginPaired(w: World, imp: Imp, x: Bin, y: Bin, xb: Bin, yb: Bin)
    requires Twins(x, y) && imp in w.imps
    requires var range := Range(|x.ops| + 1, -1);
             && xb == Emit(Emit(x.(fimps := x.fimps[imp := range]), OFimp(imp)), OBegin(Some(imp), 0))
             && yb == Emit(Emit(y.(fimps := y.fimps[imp := range]), OFimp(imp)), OBegin(Some(imp), 0))
    ensures var y0 := BeginInline(w, imp, y);
            Twins(xb, yb) && Paired(xb, yb, BeginInline(w, imp, x), y0, y0.fimps.Keys, true, true)
  {
  }

  lemma InlineTables(imp: Imp, x: Bin, y: Bin, xf: Bin, yf: Bin, x1: Bin, y1: Bin, ns: seq<Node>, seen: set<Imp>,
                     f: bool, i: bool)
    requires Twins(x, y) && imp in seen && |xf.ops| < |x1.ops| && |yf.ops| < |y1.ops|
    requires xf.ops == x.ops + [OFimp(imp)] && yf.ops == y.ops + [OFimp(imp)]
    requires var (tail, op) := ([OReturn(imp, |xf.ops|)], OBegin(Some(imp), |x1.ops| + 1 - |xf.ops| - 1));
             Paired(xf, yf, Fill(x1.(ops := x1.ops + tail), |xf.ops|, op),
                    Fill(y1.(ops := y1.ops + tail), |yf.ops|, op), seen, f, i)
    ensures Paired(x, y, EndInline(imp, |x.ops| + 1, x1, ns), EndInline(imp, |y.ops| + 1, y1, ns), seen, f, i)
  {
    var z := EndInline(imp, |x.ops| + 1, x1, ns);
    var u := EndInline(imp, |y.ops| + 1, y1, ns);
    assert u.fimps.Keys == seen;
    PairedTables(xf, yf, Fill(x1.(ops := x1.ops + [OReturn(imp, |xf.ops|)]), |xf.ops|,
                              OBegin(Some(imp), |x1.ops| + 1 - |xf.ops| - 1)),
                 Fill(y1.(ops := y1.ops + [OReturn(imp, |xf.ops|)]), |yf.ops|,
                      OBegin(Some(imp), |x1.ops| + 1 - |xf.ops| - 1)), z, u, seen, f, i);
    PairedUnder(x, y, xf, yf, OFimp(imp), z, u, seen, f, i);
  }

  /** One equal op more in front. */
  lemma PairedUnder(x: Bin, y: Bin, xf: Bin, yf: Bin, op: Op, z: Bin, u: Bin, seen: set<Imp>, f: bool, i: bool)
    requires |x.ops| == |y.ops| && !op.OJump? && xf.ops == x.ops + [op] && yf.ops == y.ops + [op]
    requires Paired(xf, yf, z, u, seen, f, i)
    ensures Paired(x, y, z, u, seen, f, i)
  {
    assert forall k :: 0 <= k < |x.ops| ==> xf.ops[k] == x.ops[k] && yf.ops[k] == y.ops[k];
    assert z.ops[|x.ops|] == op == u.ops[|x.ops|];
    if SameFrom(z, u, |x.ops|) { assert SameFrom(z, u, |xf.ops|); }
    if NoJumps(u, |y.ops|) { assert NoJumps(u, |yf.ops|); }
  }

  // ---- results -------------------------------------------------------------

  /** Patching every jump gives the intended code iff no switch holds another. */
  lemma PatchingIsRightIffFlat(w: World, toks: seq<Tok>)
    ensures Compile(w, PatchAll, toks) == Compile(w, PatchOwn, toks) <==> FlatSeq(w, toks, {}, false)
  {
    SeqPaired(w, toks, EMPTY_BIN, EMPTY_BIN);
    var (x, n) := Compile(w, PatchAll, toks);
    var (y, m) := Compile(w, PatchOwn, toks);
    assert EMPTY_BIN.fimps.Keys == {};
    if FlatSeq(w, toks, {}, false) { assert x.ops == y.ops; }
  }
}
