/** Which nested switches work all the same.  A switch may stand at the very end of a
    clause: its jumps, sent to the end of the outer switch, only skip a jump that leads
    there.  Anywhere else inside a clause it must not stand. */
module TailSwitch {
  import opened Basics
  import opened VmState
  import opened Vm
  import opened Layout
  import opened Compiler
  import opened CompilerProof
  import opened SwitchPatch

  // ---- the condition, read off the tokens ----------------------------------

  /** Switches stand inside others only at the end of a clause; `last` says that these
      tokens are the end of one. */
  predicate TailSeq(w: World, toks: seq<Tok>, seen: set<Imp>, last: bool)
    decreases w.imps.Keys - seen, 1, toks, 0
  {
    toks != [] ==>
      && (if last && |toks| > 1 then FlatTok(w, toks[0], seen, true) else TailTok(w, toks[0], seen, last))
      && TailSeq(w, toks[1..], SeenTok(w, toks[0], seen), last)
  }

  /** A body with an op of its own behind it is not the end of the clause it is in. */
  predicate ClosedSeq(w: World, toks: seq<Tok>, seen: set<Imp>, last: bool)
    decreases w.imps.Keys - seen, 1, toks, 1
  {
    if last then FlatSeq(w, toks, seen, true) else TailSeq(w, toks, seen, false)
  }

  predicate TailTok(w: World, tok: Tok, seen: set<Imp>, last: bool)
    decreases w.imps.Keys - seen, 1, tok, 0
  {
    match tok
    case TGroup(body) => ClosedSeq(w, body, seen, last)
    case TStack(body) => ClosedSeq(w, body, seen, last)
    case TLambda(body) => ClosedSeq(w, body, seen, last)
    case TLet(body, ids) => if ids == [] then TailSeq(w, body, seen, last) else ClosedSeq(w, body, seen, last)
    case TCall(func, imp) =>
      var one := ToInline(w, func, imp);
      one.Some? ==> TailImp(w, one.value, seen, last)
    case TFunc(def) => TailImp(w, def, seen, last)
    case TCatch(clauses) => TailCatches(w, clauses, seen, last)
    case TSwitch(cases) => TailCases(w, cases, seen)
    case _ => true
  }

  /** Only a typed clause is walked once and with nothing behind it. */
  predicate TailCatches(w: World, cs: seq<CatchClause>, seen: set<Imp>, last: bool)
    decreases w.imps.Keys - seen, 1, cs, 0
  {
    cs != [] ==>
      && (if |cs| == 1 && cs[0].ty.Some? then TailSeq(w, cs[0].body, seen, last)
          else ClosedSeq(w, cs[0].body, seen, last))
      && TailCatches(w, cs[1..], SeenSeq(w, cs[0].body, seen), last)
  }

  predicate TailCases(w: World, cs: seq<SwitchClause>, seen: set<Imp>)
    decreases w.imps.Keys - seen, 1, cs, 0
  {
    cs != [] ==>
      var seen1 := SeenCond(w, cs[0].head, seen);
      && FlatCond(w, cs[0].head, seen)
      && TailSeq(w, cs[0].rest, seen1, true)
      && TailCases(w, cs[1..], SeenSeq(w, cs[0].rest, seen1))
  }

  predicate TailImp(w: World, imp: Imp, seen: set<Imp>, last: bool)
    decreases w.imps.Keys - seen, 0
  {
    imp !in seen && imp in w.imps ==>
      assert imp in w.imps.Keys - seen && imp !in w.imps.Keys - (seen + {imp});
      ClosedSeq(w, w.imps[imp].toks, seen + {imp}, last)
  }

  // ---- the condition, read off the ops -------------------------------------

  /** Bodies that are run by themselves, up to the address behind them. */
  predicate Stopping(op: Op) {
    op.OLambda? || (op.OCatch? && op.ty.None?) || (op.OBegin? && op.fimp.Some?)
  }

  ghost predicate Closed(lo: nat, us: seq<Op>) {
    forall c :: lo <= c < |us| && Stopping(us[c]) ==> c + 1 + us[c].nops <= |us|
  }

  /** No body from `lo` on ends at `pc`. */
  ghost predicate NoStop(lo: nat, us: seq<Op>, pc: nat) {
    forall c :: lo <= c < |us| && Stopping(us[c]) ==> c + 1 + us[c].nops != pc
  }

  /** Where `zs` jumps elsewhere than `us` does, `us` jumps to a jump, which `zs` sends
      to the same place; and no body ends in between. */
  ghost predicate Bridged(lo: nat, zs: seq<Op>, us: seq<Op>) {
    |zs| == |us| && forall i :: lo <= i < |zs| && zs[i] != us[i] ==> Bridge(lo, zs, us, i)
  }

  ghost predicate Bridge(lo: nat, zs: seq<Op>, us: seq<Op>, i: nat)
    requires i < |zs| == |us|
  {
    && zs[i].OJump? && us[i].OJump?
    && i < us[i].pc < zs[i].pc <= |zs|
    && zs[us[i].pc] == OJump(zs[i].pc)
    && NoStop(lo, us, us[i].pc)
  }

  /** Every jump leads to the end of this code, or to another jump. */
  ghost predicate Leading(lo: nat, us: seq<Op>) {
    forall i :: lo <= i < |us| && us[i].OJump? ==> Leads(lo, us, i)
  }

  ghost predicate Leads(lo: nat, us: seq<Op>, i: nat)
    requires i < |us| && us[i].OJump?
  {
    && i < us[i].pc <= |us|
    && (us[i].pc < |us| ==> us[us[i].pc].OJump?)
    && NoStop(lo, us, us[i].pc)
  }

  ghost predicate Ends(lo: nat, zs: seq<Op>, us: seq<Op>, tail: bool, last: bool) {
    && Closed(lo, us)
    && (tail ==> Bridged(lo, zs, us))
    && (last ==> Leading(lo, us))
  }

  ghost predicate Jumpless(lo: nat, us: seq<Op>) {
    forall i :: lo <= i < |us| ==> !us[i].OJump?
  }

  /** Equal but for the targets of jumps. */
  ghost predicate Alike(xs: seq<Op>, ys: seq<Op>) {
    |xs| == |ys| && forall i :: 0 <= i < |xs| ==> xs[i] == ys[i] || (xs[i].OJump? && ys[i].OJump?)
  }

  lemma EndsNil(xs: seq<Op>, ys: seq<Op>)
    requires |xs| == |ys|
    ensures Ends(|xs|, xs, ys, true, true)
  {
  }

  lemma EndsOp(xs: seq<Op>, ys: seq<Op>, op: Op)
    requires |xs| == |ys| && !op.OJump? && (Stopping(op) ==> op.nops == 0)
    ensures Ends(|xs|, xs + [op], ys + [op], true, true)
  {
  }

  lemma NoStopTrans(lo: nat, us: seq<Op>, vs: seq<Op>, pc: nat)
    requires lo <= |us| && us <= vs && Closed(lo, us) && Closed(|us|, vs)
    ensures pc <= |us| && NoStop(lo, us, pc) ==> NoStop(lo, vs, pc)
    ensures pc > |us| && NoStop(|us|, vs, pc) ==> NoStop(lo, vs, pc)
  {
  }

  lemma EndsTrans(lo: nat, xs: seq<Op>, ys: seq<Op>, zs: seq<Op>, us: seq<Op>, t1: bool, l1: bool, t2: bool, l2: bool)
    requires lo <= |xs| == |ys| && |zs| == |us| && xs <= zs && ys <= us
    requires Ends(lo, xs, ys, t1, l1) && Ends(|xs|, zs, us, t2, l2)
    ensures Ends(lo, zs, us, t1 && t2, Jumpless(lo, ys) && l2)
  {
    if t1 && t2 {
      forall i | lo <= i < |zs| && zs[i] != us[i] ensures Bridge(lo, zs, us, i) {
        NoStopTrans(lo, ys, us, us[i].pc);
        if i < |xs| { assert Bridge(lo, xs, ys, i); } else { assert Bridge(|xs|, zs, us, i); }
      }
    }
    if Jumpless(lo, ys) && l2 {
      forall i | lo <= i < |us| && us[i].OJump? ensures Leads(lo, us, i) {
        assert i >= |ys| && Leads(|ys|, us, i);
        NoStopTrans(lo, ys, us, us[i].pc);
      }
    }
  }

  /** Code behind a placeholder that is filled in, with plain ops behind it. */
  lemma EndsWrap(a: nat, xs: seq<Op>, ys: seq<Op>, tail: seq<Op>, op: Op, t: bool, l: bool)
    requires a < |xs| == |ys| && Ends(a + 1, xs, ys, t, l) && !op.OJump?
    requires forall k :: 0 <= k < |tail| ==> !tail[k].OJump? && !Stopping(tail[k])
    requires Stopping(op) ==> a + 1 + op.nops == |ys| + |tail|
    ensures Ends(a, (xs + tail)[a := op], (ys + tail)[a := op], t,
                 Jumpless(a + 1, ys) || (l && tail == [] && !Stopping(op)))
  {
    var (zs, us) := ((xs + tail)[a := op], (ys + tail)[a := op]);
    assert Closed(a, us);
    if t {
      forall i | a <= i < |zs| && zs[i] != us[i] ensures Bridge(a, zs, us, i) {
        assert Bridge(a + 1, xs, ys, i);
      }
    }
    if Jumpless(a + 1, ys) {
      assert Leading(a, us);
    } else if l && tail == [] && !Stopping(op) {
      forall i | a <= i < |us| && us[i].OJump? ensures Leads(a, us, i) { assert Leads(a + 1, ys, i); }
    }
  }

  // ---- the induction over tokens -------------------------------------------

  /** What the earlier comparison of the two compilers says about their ops. */
  lemma PairedOps(x0: Bin, y0: Bin, x: Bin, y: Bin, seen: set<Imp>, f: bool, i: bool)
    requires Twins(x0, y0) && Paired(x0, y0, x, y, seen, f, i)
    ensures |x0.ops| == |y0.ops| <= |x.ops| == |y.ops| && x0.ops <= x.ops && y0.ops <= y.ops
    ensures i <==> Jumpless(|y0.ops|, y.ops)
    ensures Twins(x, y) && y.fimps.Keys == seen
  {
  }

  ghost predicate SeqEndsAt(w: World, toks: seq<Tok>, x: Bin, y: Bin) {
    var seen := y.fimps.Keys;
    Ends(|y.ops|, CompileSeq(w, PatchAll, toks, x).0.ops, CompileSeq(w, PatchOwn, toks, y).0.ops,
         TailSeq(w, toks, seen, false), TailSeq(w, toks, seen, true))
  }

  ghost predicate TokEndsAt(w: World, tok: Tok, x: Bin, y: Bin) {
    var seen := y.fimps.Keys;
    Ends(|y.ops|, CompileTok(w, PatchAll, tok, x).0.ops, CompileTok(w, PatchOwn, tok, y).0.ops,
         TailTok(w, tok, seen, false), TailTok(w, tok, seen, true))
  }

  lemma {:induction false} SeqEnds(w: World, toks: seq<Tok>, x: Bin, y: Bin)
    requires Twins(x, y)
    ensures SeqEndsAt(w, toks, x, y)
    decreases Left(w, y), 1, toks, 2
  {
    hide Ends, Paired;
    if toks == [] {
      EndsNil(x.ops, y.ops);
    } else {
      var (seen, tok) := (y.fimps.Keys, toks[0]);
      var (x1, y1) := (CompileTok(w, PatchAll, tok, x).0, CompileTok(w, PatchOwn, tok, y).0);
      var (x2, y2) := (CompileSeq(w, PatchAll, toks[1..], x1).0, CompileSeq(w, PatchOwn, toks[1..], y1).0);
      var seen1 := SeenTok(w, tok, seen);
      TokPaired(w, tok, x, y);
      PairedOps(x, y, x1, y1, seen1, FlatTok(w, tok, seen, false), FlatTok(w, tok, seen, true));
      SeqPaired(w, toks[1..], x1, y1);
      PairedOps(x1, y1, x2, y2, SeenSeq(w, toks[1..], seen1), FlatSeq(w, toks[1..], seen1, false),
                FlatSeq(w, toks[1..], seen1, true));
      TokEnds(w, tok, x, y);
      SeqEnds(w, toks[1..], x1, y1);
      hide CompileTok, TailTok, Jumpless;
      if |toks| > 1 {
        EndsTrans(|y.ops|, x1.ops, y1.ops, x2.ops, y2.ops, TailTok(w, tok, seen, false), TailTok(w, tok, seen, true),
                  TailSeq(w, toks[1..], seen1, false), TailSeq(w, toks[1..], seen1, true));
        EndsLess(|y.ops|, x2.ops, y2.ops, TailTok(w, tok, seen, false) && TailSeq(w, toks[1..], seen1, false),
                 FlatTok(w, tok, seen, true)
                     && TailSeq(w, toks[1..], seen1, true), TailSeq(w, toks, seen, false),
                         TailSeq(w, toks, seen, true));
      } else {
        assert toks[1..] == [];
        assert x2 == x1 && y2 == y1;
      }
    }
  }

  lemma EndsLess(lo: nat, zs: seq<Op>, us: seq<Op>, t: bool, l: bool, t1: bool, l1: bool)
    requires Ends(lo, zs, us, t, l) && (t1 ==> t) && (l1 ==> l)
    ensures Ends(lo, zs, us, t1, l1)
  {
  }

  lemma {:induction false} TokEnds(w: World, tok: Tok, x: Bin, y: Bin)
    requires Twins(x, y)
    ensures TokEndsAt(w, tok, x, y)
    decreases Left(w, y), 1, tok, 2
  {
    hide Ends;
    match tok
    case TLiteral(v) => EndsOp(x.ops, y.ops, OPush(v));
    case TVar(id) => EndsOp(x.ops, y.ops, OGetVar(id));
    case TGroup(body) => BodyEnds(w, tok, x, y);
    case TStack(body) => BodyEnds(w, tok, x, y);
    case TLambda(body) => BodyEnds(w, tok, x, y);
    case TCall(func, imp) => CallEnds(w, tok, x, y);
    case TFunc(def) => FuncEnds(w, tok, x, y);
    case TLet(body, ids) => LetEnds(w, tok, x, y);
    case TCatch(clauses) => CatchesEnd(w, clauses, x, y);
    case TSwitch(cases) => SwitchEnds(w, tok, x, y);
  }

  /** Bodies behind a placeholder, closed by ops of their own. */
  lemma {:induction false} BodyEnds(w: World, tok: Tok, x: Bin, y: Bin)
    requires Twins(x, y) && (tok.TGroup? || tok.TStack? || tok.TLambda?)
    ensures TokEndsAt(w, tok, x, y)
    decreases Left(w, y), 1, tok, 1
  {
    hide Ends, CompileSeq;
    var (a, body) := (|y.ops|, tok.body);
    if body == [] && !tok.TLambda? {
      var seen := y.fimps.Keys;
      assert TailSeq(w, body, seen, false) && FlatSeq(w, body, seen, true);
      assert ClosedSeq(w, body, seen, false) && ClosedSeq(w, body, seen, true);
      assert TailTok(w, tok, seen, false) && TailTok(w, tok, seen, true);
      EndsNil(x.ops, y.ops);
      EndsOp(x.ops, y.ops, OPush(StackV([])));
    } else {
      var op0 := if tok.TLambda? then OLambda(a + 1, 0) else OBegin(None, 0);
      var tail := if tok.TLambda? then [] else if tok.TStack? then [OStash, OEnd] else [OEnd];
      var (x1, y1) := (CompileSeq(w, PatchAll, body, Emit(x, op0)).0, CompileSeq(w, PatchOwn, body, Emit(y, op0)).0);
      var op := if tok.TLambda? then OLambda(a + 1, |y1.ops| - (a + 1)) else OBegin(None, |y1.ops| + |tail| - a - 1);
      WrappedEnds(w, body, op0, tail, op, x, y);
      hide ClosedSeq;
      if tok.TStack? {
        assert x1.ops + [OStash] + [OEnd] == x1.ops + tail && y1.ops + [OStash] + [OEnd] == y1.ops + tail;
      } else if tok.TLambda? {
        assert x1.ops + tail == x1.ops && y1.ops + tail == y1.ops;
        assert CompileTok(w, PatchAll, tok, x).0.ops == x1.ops[a := op];
        assert CompileTok(w, PatchOwn, tok, y).0.ops == y1.ops[a := op];
      }
    }
  }

  lemma {:induction false} WrappedEnds(w: World, body: seq<Tok>, op0: Op, tail: seq<Op>, op: Op, x: Bin, y: Bin)
    requires Twins(x, y) && !op0.OJump? && (Stopping(op0) ==> op0.nops == 0) && !op.OJump?
    requires forall k :: 0 <= k < |tail| ==> !tail[k].OJump? && !Stopping(tail[k])
    requires Stopping(op) ==> |y.ops| + 1 + op.nops == |CompileSeq(w, PatchOwn, body, Emit(y, op0)).0.ops| + |tail|
    ensures var (x1, y1) :=
              (CompileSeq(w, PatchAll, body, Emit(x, op0)).0, CompileSeq(w, PatchOwn, body, Emit(y, op0)).0);
            var (seen, a) := (y.fimps.Keys, |y.ops|);
            && a < |x1.ops| == |y1.ops|
            && Ends(a, (x1.ops + tail)[a := op], (y1.ops + tail)[a := op], ClosedSeq(w, body, seen, false),
                    ClosedSeq(w, body, seen, true))
            && (tail == [] && !Stopping(op) ==>
                Ends(a, x1.ops[a := op], y1.ops[a := op], TailSeq(w, body, seen, false), TailSeq(w, body, seen, true)))
    decreases Left(w, y), 1, body, 3
  {
    hide Ends, Paired, CompileSeq, Jumpless, Stopping;
    var (x0, y0, seen, a) := (Emit(x, op0), Emit(y, op0), y.fimps.Keys, |y.ops|);
    var (x1, y1) := (CompileSeq(w, PatchAll, body, x0).0, CompileSeq(w, PatchOwn, body, y0).0);
    SeqPaired(w, body, x0, y0);
    PairedOps(x0, y0, x1, y1, SeenSeq(w, body, seen), FlatSeq(w, body, seen, false), FlatSeq(w, body, seen, true));
    SeqEnds(w, body, x0, y0);
    var (t, l) := (TailSeq(w, body, seen, false), TailSeq(w, body, seen, true));
    EndsWrap(a, x1.ops, y1.ops, tail, op, t, l);
    var more := Jumpless(a + 1, y1.ops) || (l && tail == [] && !Stopping(op));
    EndsLess(a, (x1.ops + tail)[a := op], (y1.ops + tail)[a := op], t, more, ClosedSeq(w, body, seen, false),
             ClosedSeq(w, body, seen, true));
    if tail == [] && !Stopping(op) {
      assert x1.ops + tail == x1.ops && y1.ops + tail == y1.ops;
      EndsLess(a, x1.ops[a := op], y1.ops[a := op], t, more, t, l);
    }
  }

  lemma {:induction false} LetEnds(w: World, tok: Tok, x: Bin, y: Bin)
    requires Twins(x, y) && tok.TLet?
    ensures TokEndsAt(w, tok, x, y)
    decreases Left(w, y), 1, tok, 1
  {
    hide Ends, Paired, Jumpless;
    var (seen, body) := (y.fimps.Keys, tok.body);
    var (x1, y1) := (CompileSeq(w, PatchAll, body, x).0, CompileSeq(w, PatchOwn, body, y).0);
    var (x2, y2) := (CompilePuts(tok.ids, x1).0, CompilePuts(tok.ids, y1).0);
    SeqPaired(w, body, x, y);
    PairedOps(x, y, x1, y1, SeenSeq(w, body, seen), FlatSeq(w, body, seen, false), FlatSeq(w, body, seen, true));
    SeqEnds(w, body, x, y);
    var (t, l) := (TailSeq(w, body, seen, false), TailSeq(w, body, seen, true));
    if tok.ids != [] {
      PutsPaired(tok.ids, x1, y1);
      PairedOps(x1, y1, x2, y2, y1.fimps.Keys, true, true);
      PutsEnd(tok.ids, x1, y1);
      hide CompilePuts, CompileSeq;
      EndsTrans(|y.ops|, x1.ops, y1.ops, x2.ops, y2.ops, t, l, true, true);
      EndsLess(|y.ops|, x2.ops, y2.ops, t && true, Jumpless(|y.ops|, y1.ops)
               && true, ClosedSeq(w, body, seen, false), ClosedSeq(w, body, seen, true));
    }
  }

  lemma {:induction false} PutsEnd(ids: seq<Binding>, x: Bin, y: Bin)
    requires |x.ops| == |y.ops|
    ensures Ends(|y.ops|, CompilePuts(ids, x).0.ops, CompilePuts(ids, y).0.ops, true, true)
    ensures x.ops <= CompilePuts(ids, x).0.ops && y.ops <= CompilePuts(ids, y).0.ops
    ensures |CompilePuts(ids, x).0.ops| == |CompilePuts(ids, y).0.ops| && Jumpless(|y.ops|, CompilePuts(ids, y).0.ops)
    decreases |ids|
  {
    if ids == [] {
      EndsNil(x.ops, y.ops);
    } else {
      hide Ends;
      var op := OPutVar(ids[|ids| - 1].id, ids[|ids| - 1].ty);
      EndsOp(x.ops, y.ops, op);
      PutsEnd(ids[..|ids| - 1], Emit(x, op), Emit(y, op));
      EndsTrans(|y.ops|, x.ops + [op], y.ops + [op], CompilePuts(ids, x).0.ops, CompilePuts(ids, y).0.ops, true, true,
                true, true);
    }
  }

  /** A call behind the function it inlines, if any. */
  lemma {:induction false} CallEnds(w: World, tok: Tok, x: Bin, y: Bin)
    requires Twins(x, y) && tok.TCall?
    ensures TokEndsAt(w, tok, x, y)
    decreases Left(w, y), 1, tok, 1
  {
    hide Ends, Paired, Jumpless, TailImp;
    var (seen, op, one) := (y.fimps.Keys, OFuncall(tok.func, tok.imp), ToInline(w, tok.func, tok.imp));
    if one.Some? {
      var (x1, y1) := (Inline(w, PatchAll, one.value, x), Inline(w, PatchOwn, one.value, y));
      ImpPaired(w, one.value, x, y);
      PairedOps(x, y, x1, y1, SeenImp(w, one.value, seen), FlatImp(w, one.value, seen, false),
                FlatImp(w, one.value, seen, true));
      ImpEnds(w, one.value, x, y);
      EndsOp(x1.ops, y1.ops, op);
      EndsTrans(|y.ops|, x1.ops, y1.ops, x1.ops + [op], y1.ops + [op],
                TailImp(w, one.value, seen, false), TailImp(w, one.value, seen, true), true, true);
      InlineJumpless(w, one.value, seen);
      EndsLess(|y.ops|, x1.ops + [op], y1.ops + [op], TailImp(w, one.value, seen, false)
               && true, Jumpless(|y.ops|, y1.ops) && true,
               TailImp(w, one.value, seen, false), TailImp(w, one.value, seen, true));
    } else {
      EndsOp(x.ops, y.ops, op);
    }
  }

  /** Inside a clause an inlined function must not hold any switch. */
  lemma InlineJumpless(w: World, imp: Imp, seen: set<Imp>)
    ensures TailImp(w, imp, seen, true) <==> FlatImp(w, imp, seen, true)
  {
  }

  lemma JumplessOp(ys: seq<Op>, op: Op)
    requires !op.OJump?
    ensures Jumpless(|ys|, ys + [op])
  {
  }

  lemma {:induction false} FuncEnds(w: World, tok: Tok, x: Bin, y: Bin)
    requires Twins(x, y) && tok.TFunc?
    ensures TokEndsAt(w, tok, x, y)
    decreases Left(w, y), 1, tok, 1
  {
    hide Ends, Paired, Jumpless, TailImp, Inline;
    var (seen, op) := (y.fimps.Keys, OFuncdef(tok.def));
    var (x0, y0) := (Emit(x, op), Emit(y, op));
    var (x1, y1) := (Inline(w, PatchAll, tok.def, x0), Inline(w, PatchOwn, tok.def, y0));
    ImpPaired(w, tok.def, x0, y0);
    PairedOps(x0, y0, x1, y1, SeenImp(w, tok.def, seen), FlatImp(w, tok.def, seen, false),
              FlatImp(w, tok.def, seen, true));
    ImpEnds(w, tok.def, x0, y0);
    EndsOp(x.ops, y.ops, op);
    EndsTrans(|y.ops|, x0.ops, y0.ops, x1.ops, y1.ops, true, true, TailImp(w, tok.def, seen, false),
              TailImp(w, tok.def, seen, true));
    JumplessOp(y.ops, op);
    EndsLess(|y.ops|, x1.ops, y1.ops, true && TailImp(w, tok.def, seen, false), Jumpless(|y.ops|, y0.ops)
             && TailImp(w, tok.def, seen, true),
             TailImp(w, tok.def, seen, false), TailImp(w, tok.def, seen, true));
  }

  lemma {:induction false} CatchesEnd(w: World, cs: seq<CatchClause>, x: Bin, y: Bin)
    requires Twins(x, y)
    ensures var seen := y.fimps.Keys;
            Ends(|y.ops|, CompileCatches(w, PatchAll, cs, x).0.ops, CompileCatches(w, PatchOwn, cs, y).0.ops,
                 TailCatches(w, cs, seen, false), TailCatches(w, cs, seen, true))
    decreases Left(w, y), 1, cs, 4
  {
    hide Ends, Paired, Jumpless, CompileSeq, TailSeq, FlatSeq, SeenSeq;
    if cs == [] {
      EndsNil(x.ops, y.ops);
    } else {
      var (seen, body) := (y.fimps.Keys, cs[0].body);
      var s := SeenSeq(w, body, seen);
      var x2, y2 := CatchEnds(w, cs, x, y);
      var (x3, y3) := (CompileCatches(w, PatchAll, cs[1..], x2).0, CompileCatches(w, PatchOwn, cs[1..], y2).0);
      if |cs| == 1 {
        assert cs[1..] == [];
        assert x3 == x2 && y3 == y2;
        hide ClosedSeq;
      } else {
        CatchesPaired(w, cs[1..], x2, y2);
        PairedOps(x2, y2, x3, y3, SeenCatches(w, cs[1..], s), FlatCatches(w, cs[1..], s, false),
                  FlatCatches(w, cs[1..], s, true));
        CatchesEnd(w, cs[1..], x2, y2);
        hide CompileCatches, FlatCatches, SeenCatches, Twins;
        var (t2, l2) := (TailCatches(w, cs[1..], s, false), TailCatches(w, cs[1..], s, true));
        EndsTrans(|y.ops|, x2.ops, y2.ops, x3.ops, y3.ops, ClosedSeq(w, body, seen, false),
                  ClosedSeq(w, body, seen, true), t2, l2);
        EndsLess(|y.ops|, x3.ops, y3.ops, ClosedSeq(w, body, seen, false) && t2, Jumpless(|y.ops|, y2.ops) && l2,
                 TailCatches(w, cs, seen, false), TailCatches(w, cs, seen, true));
      }
    }
  }

  /** The first clause. */
  lemma {:induction false} CatchEnds(w: World, cs: seq<CatchClause>, x: Bin, y: Bin) returns (x2: Bin, y2: Bin)
    requires Twins(x, y) && cs != []
    ensures CompileCatches(w, PatchAll, cs, x).0 == CompileCatches(w, PatchAll, cs[1..], x2).0
    ensures CompileCatches(w, PatchOwn, cs, y).0 == CompileCatches(w, PatchOwn, cs[1..], y2).0
    ensures |y.ops| <= |x2.ops| == |y2.ops| && x.ops <= x2.ops && y.ops <= y2.ops && Twins(x2, y2)
    ensures y2.fimps.Keys == SeenSeq(w, cs[0].body, y.fimps.Keys) && Left(w, y2) <= Left(w, y)
    ensures FlatSeq(w, cs[0].body, y.fimps.Keys, true) <==> Jumpless(|y.ops|, y2.ops)
    ensures var (body, seen) := (cs[0].body, y.fimps.Keys);
            && Ends(|y.ops|, x2.ops, y2.ops, ClosedSeq(w, body, seen, false), ClosedSeq(w, body, seen, true))
            && (cs[0].ty.Some? ==>
                Ends(|y.ops|, x2.ops, y2.ops, TailSeq(w, body, seen, false), TailSeq(w, body, seen, true)))
    decreases Left(w, y), 1, cs, 3
  {
    hide Ends, Paired, Jumpless, CompileSeq, TailSeq, FlatSeq, SeenSeq;
    var (seen, body) := (y.fimps.Keys, cs[0].body);
    x2, y2 := CatchPaired(w, cs, x, y);
    PairedOps(x, y, x2, y2, SeenSeq(w, body, seen), FlatSeq(w, body, seen, false), FlatSeq(w, body, seen, true));
    WrappedEnds(w, body, OCatch(cs[0].ty, 0), [], OCatch(cs[0].ty, |y2.ops| - |y.ops| - 1), x, y);
    NoTail(w, cs[0], x, y);
  }

  lemma NoTail(w: World, c: CatchClause, x: Bin, y: Bin)
    ensures var (x1, y1) :=
              (CompileSeq(w, PatchAll, c.body, Emit(x, OCatch(c.ty, 0))).0,
               CompileSeq(w, PatchOwn, c.body, Emit(y, OCatch(c.ty, 0))).0);
            x1.ops + [] == x1.ops && y1.ops + [] == y1.ops
  {
  }

  // ---- switches ------------------------------------------------------------

  /** Clauses whose own jumps have no target yet; if `tail`, every other jump leads to
      one of them. */
  ghost predicate OpenEnds(lo: nat, us: seq<Op>, own: seq<nat>, tail: bool) {
    && (forall c :: lo <= c < |us| && Stopping(us[c]) ==> c + 1 + us[c].nops < |us|)
    && (tail ==> forall i :: lo <= i < |us| && us[i].OJump? && i !in own ==> us[i].pc < |us| && Leads(lo, us, i))
  }

  lemma ClauseEnds(lo: nat, ys: seq<Op>, vs: seq<Op>, us: seq<Op>, op: Op, t: bool)
    requires lo <= |ys| < |vs| && Closed(lo, ys) && ys + [OElse(0)] <= vs && op.OElse?
    requires Closed(|ys| + 1, vs) && (t ==> Leading(|ys| + 1, vs))
    requires us == (vs + [OJump(0)])[|ys| := op]
    ensures OpenEnds(lo, us, [|vs|], Jumpless(lo, ys) && t)
  {
    assert forall i :: 0 <= i < |ys| ==> us[i] == vs[i] == ys[i];
    assert forall i :: |ys| < i < |vs| ==> us[i] == vs[i];
    if Jumpless(lo, ys) && t {
      forall i | lo <= i < |us| && us[i].OJump? && i !in [|vs|] ensures us[i].pc < |us| && Leads(lo, us, i) {
        assert i > |ys| && Leads(|ys| + 1, vs, i);
        forall c | lo <= c < |us| && Stopping(us[c]) ensures c + 1 + us[c].nops != us[i].pc {
          if c < |ys| { assert Stopping(ys[c]); } else { assert Stopping(vs[c]); }
        }
      }
    }
  }

  lemma OpenTrans(lo: nat, ys: seq<Op>, us: seq<Op>, j: nat, own: seq<nat>, t1: bool, t2: bool)
    requires lo <= |ys| && ys <= us && OpenEnds(lo, ys, [j], t1) && OpenEnds(|ys|, us, own, t2)
    ensures OpenEnds(lo, us, [j] + own, t1 && t2)
  {
    assert Closed(lo, ys) && Closed(|ys|, us);
    if t1 && t2 {
      forall i | lo <= i < |us| && us[i].OJump? && i !in [j] + own ensures us[i].pc < |us| && Leads(lo, us, i) {
        NoStopTrans(lo, ys, us, us[i].pc);
        if i < |ys| {
          assert ys[i].OJump? && i !in [j];
          assert Leads(lo, ys, i);
        } else {
          assert Leads(|ys|, us, i);
        }
      }
    }
  }

  lemma {:induction false} CondEnds(w: World, head: Tok, y: Bin)
    ensures var y1 := CompileCond(w, PatchOwn, head, y).0;
            && Closed(|y.ops|, y1.ops) && y.ops <= y1.ops && y1.fimps.Keys == SeenCond(w, head, y.fimps.Keys)
            && (FlatCond(w, head, y.fimps.Keys) ==> Jumpless(|y.ops|, y1.ops))
    decreases Left(w, y), 1, head, 3
  {
    hide Paired, Jumpless;
    var f := CondPaired(w, head, y, y);
    PairedOps(y, y, CompileCond(w, PatchAll, head, y).0, CompileCond(w, PatchOwn, head, y).0,
              SeenCond(w, head, y.fimps.Keys), f, FlatCond(w, head, y.fimps.Keys));
    if head.TGroup? { SeqEnds(w, head.body, y, y); } else { TokEnds(w, head, y, y); }
  }

  lemma {:induction false} FirstEnds(w: World, cs: seq<SwitchClause>, y: Bin)
    requires cs != []
    ensures var (y4, c, j) := FirstOf(w, PatchOwn, cs[0], y);
            var seen1 := SeenCond(w, cs[0].head, y.fimps.Keys);
            && y.ops <= y4.ops && y4.fimps.Keys == SeenSeq(w, cs[0].rest, seen1)
            && OpenEnds(|y.ops|, y4.ops, [j], FlatCond(w, cs[0].head, y.fimps.Keys)
                        && TailSeq(w, cs[0].rest, seen1, true))
    decreases Left(w, y), 1, cs, 0
  {
    hide Paired, Jumpless, CompileSeq, CompileTok, CompileCond, FlatCond, TailSeq, FlatSeq, SeenSeq, SeenCond;
    var c := cs[0];
    var y1 := CompileCond(w, PatchOwn, c.head, y).0;
    CondEnds(w, c.head, y);
    var (y0, s1) := (Emit(y1, OElse(0)), y1.fimps.Keys);
    var y2 := CompileSeq(w, PatchOwn, c.rest, y0).0;
    SeqPaired(w, c.rest, y0, y0);
    PairedOps(y0, y0, CompileSeq(w, PatchAll, c.rest, y0).0, y2, SeenSeq(w, c.rest, s1),
              FlatSeq(w, c.rest, s1, false), FlatSeq(w, c.rest, s1, true));
    SeqEnds(w, c.rest, y0, y0);
    var y4 := FirstOf(w, PatchOwn, c, y).0;
    ClauseEnds(|y.ops|, y1.ops, y2.ops, y4.ops, OElse(|y2.ops| - |y1.ops|), TailSeq(w, c.rest, s1, true));
    OpenLess(|y.ops|, y4.ops, [|y2.ops|], Jumpless(|y.ops|, y1.ops) && TailSeq(w, c.rest, s1, true),
             FlatCond(w, c.head, y.fimps.Keys) && TailSeq(w, c.rest, s1, true));
  }

  lemma OpenLess(lo: nat, us: seq<Op>, own: seq<nat>, t: bool, t1: bool)
    requires OpenEnds(lo, us, own, t) && (t1 ==> t)
    ensures OpenEnds(lo, us, own, t1)
  {
  }

  lemma {:induction false} CasesEnd(w: World, cs: seq<SwitchClause>, y: Bin)
    ensures var (y1, n, own) := CompileCases(w, PatchOwn, cs, y);
            y.ops <= y1.ops && OpenEnds(|y.ops|, y1.ops, own, TailCases(w, cs, y.fimps.Keys))
    decreases Left(w, y), 1, cs, 1
  {
    hide OpenEnds, FirstOf, FlatCond, TailSeq, SeenSeq, SeenCond, CompileCond, CompileSeq, CompileTok;
    if cs == [] {
      OpenNil(y.ops);
    } else {
      var (y4, c, j) := FirstOf(w, PatchOwn, cs[0], y);
      FirstEnds(w, cs, y);
      CasesOf(w, PatchOwn, cs, y);
      CasesEnd(w, cs[1..], y4);
      var (y5, rest, own) := CompileCases(w, PatchOwn, cs[1..], y4);
      var seen1 := SeenCond(w, cs[0].head, y.fimps.Keys);
      OpenTrans(|y.ops|, y4.ops, y5.ops, j, own, FlatCond(w, cs[0].head, y.fimps.Keys)
                && TailSeq(w, cs[0].rest, seen1, true),
                TailCases(w, cs[1..], y4.fimps.Keys));
    }
  }

  lemma OpenNil(us: seq<Op>)
    ensures OpenEnds(|us|, us, [], true)
  {
  }

  /** Giving the switch's own jumps, or all of them, the end as target. */
  lemma SwitchCloses(lo: nat, xs: seq<Op>, ys: seq<Op>, zs: seq<Op>, us: seq<Op>, own: seq<nat>, t: bool)
    requires Alike(xs, ys) && lo <= |xs| == |zs| == |us| && OpenEnds(lo, ys, own, t)
    requires forall i :: i in own ==> lo <= i < |ys| && ys[i].OJump?
    requires forall i :: 0 <= i < |zs| ==> zs[i] == if i >= lo && xs[i].OJump? then OJump(|zs|) else xs[i]
    requires forall i :: 0 <= i < |us| ==> us[i] == if i in own then OJump(|us|) else ys[i]
    ensures Ends(lo, zs, us, t, t)
  {
    assert forall c :: lo <= c < |us| && Stopping(us[c]) ==> us[c] == ys[c];
    if t {
      forall i | lo <= i < |us| && us[i].OJump? ensures Leads(lo, us, i) {
        if i !in own { assert Leads(lo, ys, i); }
      }
      forall i | lo <= i < |zs| && zs[i] != us[i] ensures Bridge(lo, zs, us, i) {
        assert i !in own && Leads(lo, ys, i) && Leads(lo, us, i);
        assert zs[i] == OJump(|zs|) && ys[us[i].pc].OJump?;
      }
    }
  }

  lemma {:induction false} SwitchEnds(w: World, tok: Tok, x: Bin, y: Bin)
    requires Twins(x, y) && tok.TSwitch?
    ensures TokEndsAt(w, tok, x, y)
    decreases Left(w, y), 1, tok, 1
  {
    hide Ends, OpenEnds, CompileCases, SeenCases, FlatCases, TailCases;
    var (seen, cases) := (y.fimps.Keys, tok.cases);
    var (x1, n, own) := CompileCases(w, PatchAll, cases, x);
    var (y1, m, own') := CompileCases(w, PatchOwn, cases, y);
    CasesPaired(w, cases, x, y);
    CasesEnd(w, cases, y);
    CasesOps(x, y, x1, y1, SeenCases(w, cases, seen), FlatCases(w, cases, seen), own);
    var (zs, us) := (RetargetAll(x1.ops, |x.ops|, |x1.ops|), RetargetOwn(y1.ops, own, |y1.ops|));
    SwitchCloses(|y.ops|, x1.ops, y1.ops, zs, us, own, TailCases(w, cases, seen));
  }

  lemma CasesOps(x0: Bin, y0: Bin, x: Bin, y: Bin, seen: set<Imp>, f: bool, own: seq<nat>)
    requires Twins(x0, y0) && PairedCases(x0, y0, x, y, seen, f, own)
    ensures |x0.ops| == |y0.ops| <= |x.ops| == |y.ops| && Alike(x.ops, y.ops)
    ensures forall i :: i in own ==> |y0.ops| <= i < |y.ops| && y.ops[i].OJump?
  {
  }

  // ---- inlining ------------------------------------------------------------

  lemma {:induction false} ImpEnds(w: World, imp: Imp, x: Bin, y: Bin)
    requires Twins(x, y)
    ensures var seen := y.fimps.Keys;
            Ends(|y.ops|, Inline(w, PatchAll, imp, x).ops, Inline(w, PatchOwn, imp, y).ops,
                 TailImp(w, imp, seen, false), TailImp(w, imp, seen, true))
    decreases Left(w, y), 0
  {
    hide Ends, Jumpless, CompileSeq, TailSeq, FlatSeq;
    if imp in y.fimps || imp !in w.imps {
      EndsNil(x.ops, y.ops);
    } else {
      var (x0, y0, toks) := (BeginInline(w, imp, x), BeginInline(w, imp, y), w.imps[imp].toks);
      LeftShrinks(w, imp, y);
      BeginTwins(w, imp, x, y);
      var seen := y.fimps.Keys + {imp};
      assert y0.fimps.Keys == seen;
      var r := ImpBody(w, toks, x0, y0);
      var (x1, y1) := r;
      var (t, l) := (TailSeq(w, toks, seen, false), TailSeq(w, toks, seen, true));
      InlineEnds(w, imp, x, y, x1.ops, y1.ops, t, l);
      ImpTail(w, imp, y.fimps.Keys);
      hide TailImp, BeginInline;
      var (zs, us) := (Inline(w, PatchAll, imp, x).ops, Inline(w, PatchOwn, imp, y).ops);
      EndsLess(|y.ops|, zs, us, t, Jumpless(|y0.ops|, y1.ops), TailImp(w, imp, y.fimps.Keys, false),
               TailImp(w, imp, y.fimps.Keys, true));
    }
  }

  lemma {:induction false} ImpBody(w: World, toks: seq<Tok>, x0: Bin, y0: Bin) returns (r: (Bin, Bin))
    requires Twins(x0, y0)
    ensures r == (CompileSeq(w, PatchAll, toks, x0).0, CompileSeq(w, PatchOwn, toks, y0).0)
    ensures |r.0.ops| == |r.1.ops| && x0.ops <= r.0.ops && y0.ops <= r.1.ops
    ensures FlatSeq(w, toks, y0.fimps.Keys, true) <==> Jumpless(|y0.ops|, r.1.ops)
    ensures var seen := y0.fimps.Keys;
            Ends(|y0.ops|, r.0.ops, r.1.ops, TailSeq(w, toks, seen, false), TailSeq(w, toks, seen, true))
    decreases Left(w, y0), 1, toks, 3
  {
    hide Ends, Paired, Jumpless;
    var seen := y0.fimps.Keys;
    SeqPaired(w, toks, x0, y0);
    SeqEnds(w, toks, x0, y0);
    r := (CompileSeq(w, PatchAll, toks, x0).0, CompileSeq(w, PatchOwn, toks, y0).0);
    PairedOps(x0, y0, r.0, r.1, SeenSeq(w, toks, seen), FlatSeq(w, toks, seen, false), FlatSeq(w, toks, seen, true));
  }

  lemma ImpTail(w: World, imp: Imp, seen: set<Imp>)
    requires imp !in seen && imp in w.imps
    ensures TailImp(w, imp, seen, false) <==> TailSeq(w, w.imps[imp].toks, seen + {imp}, false)
    ensures TailImp(w, imp, seen, true) <==> FlatSeq(w, w.imps[imp].toks, seen + {imp}, true)
  {
    hide TailSeq, FlatSeq;
  }

  /** OFIMP, OBEGIN and the arguments in front of a body, ORETURN behind it. */
  lemma InlineEnds(w: World, imp: Imp, x: Bin, y: Bin, xs: seq<Op>, ys: seq<Op>, t: bool, l: bool)
    requires |x.ops| == |y.ops| && imp in w.imps && |xs| == |ys|
    requires BeginInline(w, imp, x).ops <= xs && BeginInline(w, imp, y).ops <= ys
    requires Ends(|BeginInline(w, imp, y).ops|, xs, ys, t, l)
    ensures var (a, op) := (|y.ops| + 1, OBegin(Some(imp), |ys| - |y.ops| - 1));
            Ends(|y.ops|, (xs + [OReturn(imp, a)])[a := op], (ys + [OReturn(imp, a)])[a := op], t,
                 Jumpless(|BeginInline(w, imp, y).ops|, ys))
  {
    hide Ends, Jumpless;
    var (a, op, tail) := (|y.ops| + 1, OBegin(Some(imp), |ys| - |y.ops| - 1), [OReturn(imp, |y.ops| + 1)]);
    var (xf, yf) := (x.ops + [OFimp(imp)], y.ops + [OFimp(imp)]);
    var (xb, yb) := (xf + [OBegin(Some(imp), 0)], yf + [OBegin(Some(imp), 0)]);
    var (x0, y0) := (BeginInline(w, imp, x).ops, BeginInline(w, imp, y).ops);
    var j := Jumpless(|y0|, ys);
    JumplessOp(yb, OPutArgs(imp));
    JumplessOp(y.ops, OFimp(imp));
    JumplessNil(yb);
    if w.imps[imp].args != [] { EndsOp(xb, yb, OPutArgs(imp)); } else { EndsNil(xb, yb); }
    EndsTrans(a + 1, x0, y0, xs, ys, true, true, t, l);
    JumplessTrans(a + 1, y0, ys);
    EndsWrap(a, xs, ys, tail, op, t, Jumpless(a + 1, y0) && l);
    var (zs, us) := ((xs + tail)[a := op], (ys + tail)[a := op]);
    EndsOp(x.ops, y.ops, OFimp(imp));
    EndsLess(a, zs, us, true && t, Jumpless(a + 1, ys), t, j);
    EndsTrans(|y.ops|, xf, yf, zs, us, true, true, t, j);
    EndsLess(|y.ops|, zs, us, true && t, Jumpless(|y.ops|, yf) && j, t, j);
  }

  lemma JumplessNil(ys: seq<Op>)
    ensures Jumpless(|ys|, ys)
  {
  }

  lemma JumplessTrans(lo: nat, ys: seq<Op>, us: seq<Op>)
    requires lo <= |ys| && ys <= us
    ensures Jumpless(lo, us) <==> Jumpless(lo, ys) && Jumpless(|ys|, us)
  {
    if Jumpless(lo, us) {
      forall i | lo <= i < |ys| ensures !ys[i].OJump? { assert !us[i].OJump?; }
    }
  }

  // ---- the condition is weaker than having no nested switch ----------------

  lemma {:induction false} FlatIsTail(w: World, toks: seq<Tok>, seen: set<Imp>, inside: bool)
    requires FlatSeq(w, toks, seen, inside)
    ensures TailSeq(w, toks, seen, false) && (inside ==> TailSeq(w, toks, seen, true))
    decreases w.imps.Keys - seen, 1, toks, 0
  {
    if toks != [] {
      FlatTokIsTail(w, toks[0], seen, inside);
      FlatIsTail(w, toks[1..], SeenTok(w, toks[0], seen), inside);
    }
  }

  lemma {:induction false} FlatTokIsTail(w: World, tok: Tok, seen: set<Imp>, inside: bool)
    requires FlatTok(w, tok, seen, inside)
    ensures TailTok(w, tok, seen, false) && (inside ==> TailTok(w, tok, seen, true))
    decreases w.imps.Keys - seen, 1, tok, 0
  {
    match tok
    case TGroup(body) => FlatIsTail(w, body, seen, inside);
    case TStack(body) => FlatIsTail(w, body, seen, inside);
    case TLambda(body) => FlatIsTail(w, body, seen, inside);
    case TLet(body, ids) => FlatIsTail(w, body, seen, inside);
    case TCall(func, imp) =>
      var one := ToInline(w, func, imp);
      if one.Some? { FlatImpIsTail(w, one.value, seen, inside); }
    case TFunc(def) => FlatImpIsTail(w, def, seen, inside);
    case TCatch(clauses) => FlatCatchesAreTail(w, clauses, seen, inside);
    case TSwitch(cases) => if cases != [] { FlatCasesAreTail(w, cases, seen); }
    case _ =>
  }

  lemma {:induction false} FlatCatchesAreTail(w: World, cs: seq<CatchClause>, seen: set<Imp>, inside: bool)
    requires FlatCatches(w, cs, seen, inside)
    ensures TailCatches(w, cs, seen, false) && (inside ==> TailCatches(w, cs, seen, true))
    decreases w.imps.Keys - seen, 1, cs, 0
  {
    if cs != [] {
      FlatIsTail(w, cs[0].body, seen, inside);
      FlatCatchesAreTail(w, cs[1..], SeenSeq(w, cs[0].body, seen), inside);
    }
  }

  lemma {:induction false} FlatCasesAreTail(w: World, cs: seq<SwitchClause>, seen: set<Imp>)
    requires FlatCases(w, cs, seen)
    ensures TailCases(w, cs, seen)
    decreases w.imps.Keys - seen, 1, cs, 0
  {
    if cs != [] {
      var seen1 := SeenCond(w, cs[0].head, seen);
      FlatIsTail(w, cs[0].rest, seen1, true);
      FlatCasesAreTail(w, cs[1..], SeenSeq(w, cs[0].rest, seen1));
    }
  }

  lemma {:induction false} FlatImpIsTail(w: World, imp: Imp, seen: set<Imp>, inside: bool)
    requires FlatImp(w, imp, seen, inside)
    ensures TailImp(w, imp, seen, false) && (inside ==> TailImp(w, imp, seen, true))
    decreases w.imps.Keys - seen, 0
  {
    if imp !in seen && imp in w.imps {
      assert imp in w.imps.Keys - seen && imp !in w.imps.Keys - (seen + {imp});
      FlatIsTail(w, w.imps[imp].toks, seen + {imp}, inside);
    }
  }
}
