/** Functions inlined into a bin: each one once, its range closed in itself, any
    two ranges nested or apart.  This holds for both ways of patching jumps. */
module Inlining {
  import opened Basics
  import opened VmState
  import opened Vm
  import opened Compiler

  function RangeEnd(b: Bin, imp: Imp): int
    requires imp in b.fimps
  {
    b.fimps[imp].start + b.fimps[imp].nops
  }

  /** OFIMP, then OBEGIN at the start and ORETURN at the end. */
  ghost predicate Bounded(b: Bin, imp: Imp)
    requires imp in b.fimps
  {
    var r := b.fimps[imp];
    && 1 <= r.start <= |b.ops| && b.ops[r.start - 1] == OFimp(imp)
    && (r.nops >= 0 ==>
          && r.nops >= 2 && r.start + r.nops <= |b.ops|
          && b.ops[r.start].OBegin? && b.ops[r.start].fimp == Some(imp)
          && b.ops[r.start + r.nops - 1] == OReturn(imp, r.start))
  }

  /** If `j` is complete, its range lies apart from that of `i`, inside it, or
      around it; `i` may still be open at its end. */
  ghost predicate Laminar(b: Bin, i: Imp, j: Imp)
    requires i in b.fimps && j in b.fimps
  {
    var (r, s) := (b.fimps[i], b.fimps[j]);
    s.nops >= 0 ==>
      || RangeEnd(b, j) < r.start
      || (r.start < s.start && (r.nops < 0 || RangeEnd(b, j) <= RangeEnd(b, i) || RangeEnd(b, i) < s.start))
      || (s.start < r.start && r.nops >= 0 && RangeEnd(b, i) <= RangeEnd(b, j))
  }

  ghost predicate Tidy(b: Bin) {
    && (forall i :: 0 <= i < |b.ops| && b.ops[i].OFimp? ==>
        b.ops[i].imp in b.fimps && b.fimps[b.ops[i].imp].start == i + 1)
    && (forall imp :: imp in b.fimps ==> Bounded(b, imp))
    && (forall i, j :: i in b.fimps && j in b.fimps && i != j ==> Laminar(b, i, j))
  }

  /** The same op up to sizes and jump targets. */
  ghost predicate Like(x: Op, y: Op) {
    && (x.OFimp? || x.OReturn? || y.OFimp? || y.OReturn? ==> x == y)
    && (x.OBegin? || y.OBegin? ==> x.OBegin? && y.OBegin? && x.fimp == y.fimp)
  }

  /** Compiling from `b` gave `c`. */
  ghost predicate Tidied(b: Bin, c: Bin) {
    && Tidy(c) && |b.ops| <= |c.ops|
    && (forall i :: 0 <= i < |b.ops| ==> Like(b.ops[i], c.ops[i]))
    && (forall imp :: imp in b.fimps ==> imp in c.fimps && c.fimps[imp] == b.fimps[imp])
    && (forall imp :: imp in c.fimps && imp !in b.fimps ==> c.fimps[imp].nops >= 0 && c.fimps[imp].start > |b.ops|)
  }

  lemma TidiedNil(b: Bin)
    requires Tidy(b)
    ensures Tidied(b, b)
  {
  }

  lemma TidiedTrans(b: Bin, c: Bin, d: Bin)
    requires Tidied(b, c) && Tidied(c, d)
    ensures Tidied(b, d)
  {
    forall imp | imp in d.fimps && imp !in b.fimps ensures d.fimps[imp].nops >= 0 && d.fimps[imp].start > |b.ops| {
      if imp in c.fimps { assert d.fimps[imp] == c.fimps[imp]; }
    }
  }

  lemma SameBounds(b: Bin, c: Bin, imp: Imp)
    requires imp in b.fimps && imp in c.fimps && b.fimps[imp] == c.fimps[imp] && Bounded(b, imp)
    requires |b.ops| <= |c.ops| && forall i :: 0 <= i < |b.ops| ==> Like(b.ops[i], c.ops[i])
    ensures Bounded(c, imp)
  {
  }

  lemma SameLaminar(b: Bin, c: Bin, i: Imp, j: Imp)
    requires i in b.fimps && j in b.fimps && i in c.fimps && j in c.fimps && Laminar(b, i, j)
    requires b.fimps[i] == c.fimps[i] && b.fimps[j] == c.fimps[j]
    ensures Laminar(c, i, j)
  {
  }

  /** Ops changed to ones like them, others added at the end. */
  lemma TidiedOps(b: Bin, c: Bin, d: Bin)
    requires Tidied(b, c) && d.fimps == c.fimps && |c.ops| <= |d.ops|
    requires forall i :: 0 <= i < |c.ops| ==> Like(c.ops[i], d.ops[i])
    requires forall i :: |c.ops| <= i < |d.ops| ==> !d.ops[i].OFimp?
    ensures Tidied(b, d)
  {
    hide Bounded, Laminar;
    TidyOps(c, d);
    forall i | 0 <= i < |b.ops| ensures Like(b.ops[i], d.ops[i]) { assert Like(b.ops[i], c.ops[i]); }
  }

  lemma TidyOps(c: Bin, d: Bin)
    requires Tidy(c) && d.fimps == c.fimps && |c.ops| <= |d.ops|
    requires forall i :: 0 <= i < |c.ops| ==> Like(c.ops[i], d.ops[i])
    requires forall i :: |c.ops| <= i < |d.ops| ==> !d.ops[i].OFimp?
    ensures Tidy(d)
  {
    hide Bounded, Laminar;
    forall i | 0 <= i < |d.ops| && d.ops[i].OFimp?
      ensures d.ops[i].imp in d.fimps && d.fimps[d.ops[i].imp].start == i + 1 {
      assert i < |c.ops|;
    }
    forall imp | imp in d.fimps ensures Bounded(d, imp) { SameBounds(c, d, imp); }
    forall i, j | i in d.fimps && j in d.fimps && i != j ensures Laminar(d, i, j) { SameLaminar(c, d, i, j); }
  }

  ghost predicate Neutral(op: Op) {
    !op.OFimp? && !op.OReturn? && !op.OBegin?
  }

  /** An op before the new code and ops behind it, the first one filled in. */
  lemma TidiedWrap(b: Bin, op0: Op, c: Bin, d: Bin, op: Op)
    requires Tidy(b) && Tidied(Emit(b, op0), c) && d.fimps == c.fimps && |c.ops| <= |d.ops|
    requires d.ops[|b.ops|] == op && Like(op0, op) && !op0.OFimp? && !op0.OReturn?
    requires forall i :: 0 <= i < |c.ops| && i != |b.ops| ==> d.ops[i] == c.ops[i]
    requires forall i :: |c.ops| <= i < |d.ops| ==> !d.ops[i].OFimp?
    ensures Tidied(b, d)
  {
    TidiedEmit(b, op0);
    TidiedTrans(b, Emit(b, op0), c);
    assert Like(Emit(b, op0).ops[|b.ops|], c.ops[|b.ops|]);
    TidiedOps(b, c, d);
  }

  lemma TidiedEmit(b: Bin, op: Op)
    requires Tidy(b) && !op.OFimp?
    ensures Tidied(b, Emit(b, op)) && Tidy(Emit(b, op))
  {
    TidiedNil(b);
    TidiedOps(b, b, Emit(b, op));
  }

  lemma TidiedTidy(b: Bin, c: Bin)
    requires Tidied(b, c)
    ensures Tidy(c) && b.fimps.Keys <= c.fimps.Keys
  {
  }

  // ---- the induction over tokens -------------------------------------------

  lemma {:induction false} SeqTidies(w: World, p: Patching, toks: seq<Tok>, b: Bin)
    requires Tidy(b)
    ensures Tidied(b, CompileSeq(w, p, toks, b).0)
    decreases Left(w, b), 1, toks, 2
  {
    hide Tidied, Tidy;
    if toks == [] {
      TidiedNil(b);
    } else {
      var b1 := CompileTok(w, p, toks[0], b).0;
      TokTidies(w, p, toks[0], b);
      TidiedTidy(b, b1);
      SeqTidies(w, p, toks[1..], b1);
      TidiedTrans(b, b1, CompileSeq(w, p, toks[1..], b1).0);
    }
  }

  lemma {:induction false} TokTidies(w: World, p: Patching, tok: Tok, b: Bin)
    requires Tidy(b)
    ensures Tidied(b, CompileTok(w, p, tok, b).0)
    decreases Left(w, b), 1, tok, 2
  {
    hide Tidied, Tidy, CompileSeq, CompilePuts, CompileCatches, Inline;
    match tok
    case TLiteral(v) => TidiedEmit(b, OPush(v));
    case TVar(id) => TidiedEmit(b, OGetVar(id));
    case TGroup(body) => if body == [] { TidiedNil(b); } else { BodyTidies(w, p, body, OBegin(None, 0), tok, b); }
    case TStack(body) =>
      if body == [] { TidiedEmit(b, OPush(StackV([]))); } else { BodyTidies(w, p, body, OBegin(None, 0), tok, b); }
    case TLambda(body) => BodyTidies(w, p, body, OLambda(|b.ops| + 1, 0), tok, b);
    case TCall(func, imp) =>
      var one := ToInline(w, func, imp);
      var b1 := if one.Some? then Inline(w, p, one.value, b) else b;
      if one.Some? { ImpTidies(w, p, one.value, b); } else { TidiedNil(b); }
      TidiedTidy(b, b1);
      TidiedEmit(b1, OFuncall(func, imp));
      TidiedTrans(b, b1, Emit(b1, OFuncall(func, imp)));
    case TFunc(def) =>
      var b1 := Emit(b, OFuncdef(def));
      TidiedEmit(b, OFuncdef(def));
      ImpTidies(w, p, def, b1);
      TidiedTrans(b, b1, Inline(w, p, def, b1));
    case TLet(body, ids) =>
      var b1 := CompileSeq(w, p, body, b).0;
      SeqTidies(w, p, body, b);
      TidiedTidy(b, b1);
      PutsTidy(ids, b1);
      TidiedTrans(b, b1, CompilePuts(ids, b1).0);
    case TCatch(clauses) => CatchesTidy(w, p, clauses, b);
    case TSwitch(cases) => SwitchTidies(w, p, cases, b);
  }

  lemma {:induction false} BodyTidies(w: World, p: Patching, body: seq<Tok>, op0: Op, tok: Tok, b: Bin)
    requires Tidy(b)
    requires || (tok == TLambda(body) && op0 == OLambda(|b.ops| + 1, 0))
             || ((tok == TGroup(body) || tok == TStack(body)) && body != [] && op0 == OBegin(None, 0))
    ensures Tidied(b, CompileTok(w, p, tok, b).0)
    decreases Left(w, b), 1, tok, 1
  {
    hide Tidied, Tidy, CompileSeq;
    TidiedEmit(b, op0);
    SeqTidies(w, p, body, Emit(b, op0));
    var d := CompileTok(w, p, tok, b).0;
    TidiedWrap(b, op0, CompileSeq(w, p, body, Emit(b, op0)).0, d, d.ops[|b.ops|]);
  }

  lemma {:induction false} PutsTidy(ids: seq<Binding>, b: Bin)
    requires Tidy(b)
    ensures Tidied(b, CompilePuts(ids, b).0)
    decreases |ids|
  {
    hide Tidied, Tidy;
    if ids == [] {
      TidiedNil(b);
    } else {
      var b1 := Emit(b, OPutVar(ids[|ids| - 1].id, ids[|ids| - 1].ty));
      TidiedEmit(b, OPutVar(ids[|ids| - 1].id, ids[|ids| - 1].ty));
      PutsTidy(ids[..|ids| - 1], b1);
      TidiedTrans(b, b1, CompilePuts(ids[..|ids| - 1], b1).0);
    }
  }

  lemma {:induction false} CatchesTidy(w: World, p: Patching, cs: seq<CatchClause>, b: Bin)
    requires Tidy(b)
    ensures Tidied(b, CompileCatches(w, p, cs, b).0)
    decreases Left(w, b), 1, cs, 1
  {
    hide Tidied, Tidy;
    if cs == [] {
      TidiedNil(b);
    } else {
      hide CompileSeq;
      var op0 := OCatch(cs[0].ty, 0);
      TidiedEmit(b, op0);
      SeqTidies(w, p, cs[0].body, Emit(b, op0));
      var b1 := CompileSeq(w, p, cs[0].body, Emit(b, op0)).0;
      var op := OCatch(cs[0].ty, |b1.ops| - |b.ops| - 1);
      TidiedWrap(b, op0, b1, Fill(b1, |b.ops|, op), op);
      TidiedTidy(b, Fill(b1, |b.ops|, op));
      CatchesTidy(w, p, cs[1..], Fill(b1, |b.ops|, op));
      TidiedTrans(b, Fill(b1, |b.ops|, op), CompileCatches(w, p, cs[1..], Fill(b1, |b.ops|, op)).0);
    }
  }

  /** Clauses, and where their open jumps are. */
  ghost predicate Jumps(b: Bin, own: seq<nat>) {
    forall i :: i in own ==> i < |b.ops| && Neutral(b.ops[i])
  }

  lemma JumpsStay(b: Bin, c: Bin, own: seq<nat>)
    requires Tidied(b, c) && Jumps(b, own)
    ensures Jumps(c, own)
  {
    forall i | i in own ensures i < |c.ops| && Neutral(c.ops[i]) { assert Like(b.ops[i], c.ops[i]); }
  }

  lemma {:induction false} CasesTidy(w: World, p: Patching, cs: seq<SwitchClause>, b: Bin)
    requires Tidy(b)
    ensures var (c, ns, own) := CompileCases(w, p, cs, b); Tidied(b, c) && Jumps(c, own)
    decreases Left(w, b), 1, cs, 1
  {
    hide Tidied, Tidy, Jumps;
    if cs == [] {
      TidiedNil(b);
      NoJumps(b);
    } else {
      hide CompileSeq, CompileTok, Fill, Emit;
      var b4, j := FirstTidies(w, p, cs, b);
      CasesTidy(w, p, cs[1..], b4);
      var (b5, rest, own) := CompileCases(w, p, cs[1..], b4);
      TidiedTrans(b, b4, b5);
      OneJump(b4, j);
      JumpsStay(b4, b5, [j]);
      JumpsConcat(b5, [j], own);
    }
  }

  /** The first clause alone. */
  lemma {:induction false} FirstTidies(w: World, p: Patching, cs: seq<SwitchClause>, b: Bin) returns (b4: Bin, j: nat)
    requires Tidy(b) && cs != []
    ensures var head := cs[0].head;
            var b1 := (if head.TGroup? then CompileSeq(w, p, head.body, b) else CompileTok(w, p, head, b)).0;
            var b2 := CompileSeq(w, p, cs[0].rest, Emit(b1, OElse(0))).0;
            var b3 := Emit(b2, OJump(0));
            b4 == Fill(b3, |b1.ops|, OElse(|b3.ops| - |b1.ops| - 1)) && j == |b2.ops|
    ensures Tidied(b, b4) && Tidy(b4) && Left(w, b4) <= Left(w, b) && j < |b4.ops| && b4.ops[j].OJump?
    decreases Left(w, b), 1, cs, 0
  {
    hide Tidied, Tidy, CompileSeq, CompileTok;
    var head := cs[0].head;
    var b1 := (if head.TGroup? then CompileSeq(w, p, head.body, b) else CompileTok(w, p, head, b)).0;
    if head.TGroup? { SeqTidies(w, p, head.body, b); } else { TokTidies(w, p, head, b); }
    TidiedTidy(b, b1);
    TidiedEmit(b1, OElse(0));
    SeqTidies(w, p, cs[0].rest, Emit(b1, OElse(0)));
    var b2 := CompileSeq(w, p, cs[0].rest, Emit(b1, OElse(0))).0;
    var op := OElse(|b2.ops| - |b1.ops|);
    b4, j := Fill(Emit(b2, OJump(0)), |b1.ops|, op), |b2.ops|;
    TidiedWrap(b1, OElse(0), b2, b4, op);
    TidiedTrans(b, b1, b4);
    TidiedTidy(b1, b4);
  }

  lemma NoJumps(b: Bin)
    ensures Jumps(b, [])
  {
  }

  lemma OneJump(b: Bin, i: nat)
    requires i < |b.ops| && b.ops[i].OJump?
    ensures Jumps(b, [i])
  {
  }

  lemma JumpsConcat(b: Bin, x: seq<nat>, y: seq<nat>)
    requires Jumps(b, x) && Jumps(b, y)
    ensures Jumps(b, x + y)
  {
  }

  lemma {:induction false} SwitchTidies(w: World, p: Patching, cs: seq<SwitchClause>, b: Bin)
    requires Tidy(b)
    ensures Tidied(b, CompileTok(w, p, TSwitch(cs), b).0)
    decreases Left(w, b), 1, TSwitch(cs), 1
  {
    hide Tidied, Tidy, CompileCases;
    CasesTidy(w, p, cs, b);
    var (b1, ns, own) := CompileCases(w, p, cs, b);
    var d := CompileTok(w, p, TSwitch(cs), b).0;
    forall i | 0 <= i < |b1.ops| ensures Like(b1.ops[i], d.ops[i]) {
    }
    TidiedOps(b, b1, d);
  }

  // ---- inlining ------------------------------------------------------------

  lemma {:induction false} ImpTidies(w: World, p: Patching, imp: Imp, b: Bin)
    requires Tidy(b)
    ensures Tidied(b, Inline(w, p, imp, b))
    decreases Left(w, b), 0
  {
    hide Tidied, Tidy;
    if imp in b.fimps || imp !in w.imps {
      TidiedNil(b);
    } else {
      hide CompileSeq;
      LeftShrinks(w, imp, b);
      var b0 := BeginInline(w, imp, b);
      BeginTidy(w, imp, b);
      SeqTidies(w, p, w.imps[imp].toks, b0);
      var (b1, ns) := CompileSeq(w, p, w.imps[imp].toks, b0);
      EndTidy(w, imp, b, b1, ns);
    }
  }

  lemma BeginTidy(w: World, imp: Imp, b: Bin)
    requires Tidy(b) && imp in w.imps && imp !in b.fimps
    ensures Tidy(BeginInline(w, imp, b))
  {
    hide Bounded, Laminar, Tidy;
    var c := Emit(b.(fimps := b.fimps[imp := Range(|b.ops| + 1, -1)]), OFimp(imp));
    OpenTidy(imp, b, c);
    TidiedEmit(c, OBegin(Some(imp), 0));
    TidiedEmit(Emit(c, OBegin(Some(imp), 0)), OPutArgs(imp));
  }

  lemma OpenTidy(imp: Imp, b: Bin, c: Bin)
    requires Tidy(b) && imp !in b.fimps
    requires c == Emit(b.(fimps := b.fimps[imp := Range(|b.ops| + 1, -1)]), OFimp(imp))
    ensures Tidy(c)
  {
    hide Laminar, Bounded;
    forall i | 0 <= i < |c.ops| && c.ops[i].OFimp?
      ensures c.ops[i].imp in c.fimps && c.fimps[c.ops[i].imp].start == i + 1 {
      if i < |b.ops| { assert b.ops[i].OFimp?; }
    }
    forall other | other in c.fimps ensures Bounded(c, other) {
      if other != imp { SameBounds(b, c, other); } else { OpenBounded(c, imp); }
    }
    forall i, j | i in c.fimps && j in c.fimps && i != j ensures Laminar(c, i, j) {
      if i != imp && j != imp { SameLaminar(b, c, i, j); } else { OpenLaminar(c, imp, i, j); }
    }
  }

  lemma OpenBounded(c: Bin, imp: Imp)
    requires imp in c.fimps && c.fimps[imp] == Range(|c.ops|, -1) && c.ops != [] && c.ops[|c.ops| - 1] == OFimp(imp)
    ensures Bounded(c, imp)
  {
  }

  lemma OpenLaminar(c: Bin, imp: Imp, i: Imp, j: Imp)
    requires i in c.fimps && j in c.fimps && i != j && (i == imp || j == imp) && c.ops != []
    requires c.fimps[imp] == Range(|c.ops|, -1) && Bounded(c, i) && Bounded(c, j)
    requires c.ops[|c.ops| - 1] == OFimp(imp)
    ensures Laminar(c, i, j)
  {
    if i == imp {
      var s := c.fimps[j];
      if s.nops >= 0 { assert c.ops[s.start + s.nops - 1].OReturn?; }
    }
  }

  lemma EndTidy(w: World, imp: Imp, b: Bin, b1: Bin, ns: seq<Node>)
    requires Tidy(b) && imp in w.imps && imp !in b.fimps && Tidied(BeginInline(w, imp, b), b1)
    ensures |b.ops| + 1 < |b1.ops| && Tidied(b, EndInline(imp, |b.ops| + 1, b1, ns))
  {
    hide Bounded, Laminar, Like, EndInline, BeginInline;
    EndSize(w, imp, b, b1);
    var c := EndInline(imp, |b.ops| + 1, b1, ns);
    EndOps(w, imp, b, b1, c, ns);
    EndOpens(w, imp, b, b1, c);
    forall other | other in c.fimps ensures Bounded(c, other) {
      if other != imp { SameBounds(b1, c, other); } else { EndBounded(w, imp, b, b1, ns); }
    }
    forall i, j | i in c.fimps && j in c.fimps && i != j ensures Laminar(c, i, j) {
      if i != imp && j != imp { SameLaminar(b1, c, i, j); } else { EndLaminar(w, imp, b, b1, c, i, j); }
    }
    EndRanges(w, imp, b, b1, c);
  }

  lemma EndSize(w: World, imp: Imp, b: Bin, b1: Bin)
    requires imp in w.imps && Tidied(BeginInline(w, imp, b), b1)
    ensures |b.ops| + 1 < |b1.ops|
  {
  }

  lemma EndOpens(w: World, imp: Imp, b: Bin, b1: Bin, c: Bin)
    requires imp in w.imps && imp !in b.fimps && Tidied(BeginInline(w, imp, b), b1) && |b1.ops| < |c.ops|
    requires c.fimps == b1.fimps[imp := Range(|b.ops| + 1, |b1.ops| - |b.ops|)]
    requires forall i :: 0 <= i < |b1.ops| ==> Like(b1.ops[i], c.ops[i])
    requires |c.ops| == |b1.ops| + 1 && c.ops[|b1.ops|].OReturn?
    ensures forall i :: 0 <= i < |c.ops| && c.ops[i].OFimp? ==>
            c.ops[i].imp in c.fimps && c.fimps[c.ops[i].imp].start == i + 1
  {
    hide Bounded, Laminar;
    assert BeginInline(w, imp, b).fimps[imp].start == |b.ops| + 1;
    forall i | 0 <= i < |c.ops| && c.ops[i].OFimp?
      ensures c.ops[i].imp in c.fimps && c.fimps[c.ops[i].imp].start == i + 1 {
      assert i < |b1.ops| && Like(b1.ops[i], c.ops[i]);
    }
  }

  lemma EndRanges(w: World, imp: Imp, b: Bin, b1: Bin, c: Bin)
    requires imp in w.imps && imp !in b.fimps && Tidied(BeginInline(w, imp, b), b1)
    requires c.fimps == b1.fimps[imp := Range(|b.ops| + 1, |b1.ops| - |b.ops|)] && |b.ops| + 1 < |b1.ops|
    ensures forall other :: other in b.fimps ==> other in c.fimps && c.fimps[other] == b.fimps[other]
    ensures forall other :: other in c.fimps && other !in b.fimps ==>
            c.fimps[other].nops >= 0 && c.fimps[other].start > |b.ops|
  {
    hide Bounded, Laminar, Tidy, Like;
    var b0 := BeginInline(w, imp, b);
    forall other | other in b.fimps ensures other in c.fimps && c.fimps[other] == b.fimps[other] {
      assert b0.fimps[other] == b.fimps[other];
    }
    forall other | other in c.fimps && other !in b.fimps
      ensures c.fimps[other].nops >= 0 && c.fimps[other].start > |b.ops| {
      if other != imp { assert other !in b0.fimps; }
    }
  }

  lemma EndBounded(w: World, imp: Imp, b: Bin, b1: Bin, ns: seq<Node>)
    requires imp in w.imps && imp !in b.fimps && Tidied(BeginInline(w, imp, b), b1) && |b.ops| + 1 < |b1.ops|
    ensures var c := EndInline(imp, |b.ops| + 1, b1, ns); imp in c.fimps && Bounded(c, imp)
  {
    var b0 := BeginInline(w, imp, b);
    assert Like(b0.ops[|b.ops|], b1.ops[|b.ops|]);
  }

  /** The ops of a closed function: only its OBEGIN was filled in. */
  lemma EndOps(w: World, imp: Imp, b: Bin, b1: Bin, c: Bin, ns: seq<Node>)
    requires imp in w.imps && imp !in b.fimps && Tidied(BeginInline(w, imp, b), b1) && |b.ops| + 1 < |b1.ops|
    requires c == EndInline(imp, |b.ops| + 1, b1, ns)
    ensures |c.ops| == |b1.ops| + 1 && c.ops[|b1.ops|].OReturn?
    ensures c.fimps == b1.fimps[imp := Range(|b.ops| + 1, |b1.ops| - |b.ops|)]
    ensures forall i :: 0 <= i < |b1.ops| ==> Like(b1.ops[i], c.ops[i])
    ensures forall i :: 0 <= i < |b.ops| ==> Like(b.ops[i], c.ops[i])
  {
    hide Tidy;
    var b0 := BeginInline(w, imp, b);
    assert Like(b0.ops[|b.ops| + 1], b1.ops[|b.ops| + 1]);
    forall i | 0 <= i < |b.ops| ensures Like(b.ops[i], c.ops[i]) { assert Like(b0.ops[i], b1.ops[i]); }
  }

  lemma EndLaminar(w: World, imp: Imp, b: Bin, b1: Bin, c: Bin, i: Imp, j: Imp)
    requires Tidy(b) && imp in w.imps && imp !in b.fimps && Tidied(BeginInline(w, imp, b), b1) && |b.ops| + 1 < |b1.ops|
    requires c.fimps == b1.fimps[imp := Range(|b.ops| + 1, |b1.ops| - |b.ops|)]
    requires i in c.fimps && j in c.fimps && i != j && (i == imp || j == imp)
    ensures Laminar(c, i, j)
  {
    var k := if i == imp then j else i;
    EndOther(w, imp, b, b1, k);
    hide Tidy, Tidied, BeginInline;
  }

  /** Another function was closed before this one began, is open around it, or was
      inlined inside it. */
  lemma EndOther(w: World, imp: Imp, b: Bin, b1: Bin, k: Imp)
    requires Tidy(b) && imp in w.imps && imp !in b.fimps && Tidied(BeginInline(w, imp, b), b1)
    requires k in b1.fimps && k != imp
    ensures b1.fimps[k].nops >= 0 ==>
            RangeEnd(b1, k) <= |b.ops| || (|b.ops| + 1 < b1.fimps[k].start && RangeEnd(b1, k) <= |b1.ops|)
    ensures b1.fimps[k].nops < 0 ==> b1.fimps[k].start <= |b.ops|
  {
    hide Laminar, Like;
    assert Bounded(b1, k);
    var b0 := BeginInline(w, imp, b);
    if k in b.fimps { assert Bounded(b, k) && b1.fimps[k] == b0.fimps[k] == b.fimps[k]; }
    else { assert k !in b0.fimps; }
  }

  // ---- the result ----------------------------------------------------------

  /** OFIMP goes on right after the function. */
  ghost predicate SkipsRange(b: Bin, imp: Imp)
    requires imp in b.fimps && b.fimps[imp].start >= 1 && b.fimps[imp].nops >= 0
  {
    forall st :: SkipFimp(b, imp, b.fimps[imp].start - 1, st) == Some(Next(RangeEnd(b, imp), st))
  }

  ghost predicate NestedOrApart(b: Bin, i: Imp, j: Imp)
    requires i in b.fimps && j in b.fimps
  {
    || RangeEnd(b, i) < b.fimps[j].start || RangeEnd(b, j) < b.fimps[i].start
    || (b.fimps[i].start < b.fimps[j].start && RangeEnd(b, j) <= RangeEnd(b, i))
    || (b.fimps[j].start < b.fimps[i].start && RangeEnd(b, i) <= RangeEnd(b, j))
  }

  /** In a compiled bin every function appears at most once, behind one OFIMP that
      skips exactly its range; any two ranges are nested or apart. */
  lemma InlinedOnce(w: World, p: Patching, toks: seq<Tok>)
    ensures var b := Compile(w, p, toks).0;
            && (forall i, j :: 0 <= i < |b.ops| && 0 <= j < |b.ops| && b.ops[i].OFimp? && b.ops[j] == b.ops[i] ==>
                i == j)
            && (forall imp :: imp in b.fimps ==> b.fimps[imp].nops >= 2 && Bounded(b, imp) && SkipsRange(b, imp))
            && (forall i, j :: i in b.fimps && j in b.fimps && i != j ==> NestedOrApart(b, i, j))
  {
    hide CompileSeq, Laminar, Bounded, SkipsRange, NestedOrApart, Like;
    var b := Compile(w, p, toks).0;
    SeqTidies(w, p, toks, EMPTY_BIN);
    forall i, j | 0 <= i < |b.ops| && 0 <= j < |b.ops| && b.ops[i].OFimp? && b.ops[j] == b.ops[i] ensures i == j {
      assert b.fimps[b.ops[i].imp].start == i + 1;
    }
    forall imp | imp in b.fimps ensures b.fimps[imp].nops >= 2 && Bounded(b, imp) && SkipsRange(b, imp) {
      assert b.fimps[imp].nops >= 0;
      ClosedRange(b, imp);
    }
    forall i, j | i in b.fimps && j in b.fimps && i != j ensures NestedOrApart(b, i, j) { ClosedPair(b, i, j); }
  }

  lemma ClosedRange(b: Bin, imp: Imp)
    requires imp in b.fimps && Bounded(b, imp) && b.fimps[imp].nops >= 0
    ensures b.fimps[imp].nops >= 2 && b.fimps[imp].start >= 1 && SkipsRange(b, imp)
  {
  }

  lemma ClosedPair(b: Bin, i: Imp, j: Imp)
    requires i in b.fimps && j in b.fimps && b.fimps[i].nops >= 0 && b.fimps[j].nops >= 0 && Laminar(b, i, j)
    ensures NestedOrApart(b, i, j)
  {
  }
}
