/** Which functions a bin holds: those its program can come to by calling implementations
    it names or that are the only ones, and by definitions. */
module Reached {
  import opened Basics
  import opened VmState
  import opened Vm
  import opened Compiler

  /** Somewhere in the tokens stands a call of this implementation, by name or as the only
      one of its function, and it has a body; or its definition. */
  predicate Names(w: World, toks: seq<Tok>, imp: Imp)
    decreases toks, 0
  {
    toks != [] && (NamesTok(w, toks[0], imp) || Names(w, toks[1..], imp))
  }

  predicate NamesTok(w: World, tok: Tok, imp: Imp)
    decreases tok, 0
  {
    imp in w.imps &&
    match tok
    case TCall(func, Some(named)) => named == imp && w.imps[imp].prim.None?
    case TCall(func, None) => func in w.sole && w.sole[func] == imp && w.imps[imp].prim.None?
    case TFunc(def) => def == imp
    case TGroup(body) => Names(w, body, imp)
    case TStack(body) => Names(w, body, imp)
    case TLambda(body) => Names(w, body, imp)
    case TLet(body, _) => Names(w, body, imp)
    case TCatch(clauses) => NamesClause(w, clauses, imp)
    case TSwitch(cases) => NamesCase(w, cases, imp)
    case TLiteral(_) => false
    case TVar(_) => false
  }

  predicate NamesClause(w: World, cs: seq<CatchClause>, imp: Imp)
    decreases cs, 0
  {
    cs != [] && (Names(w, cs[0].body, imp) || NamesClause(w, cs[1..], imp))
  }

  predicate NamesCase(w: World, cs: seq<SwitchClause>, imp: Imp)
    decreases cs, 0
  {
    cs != [] && (NamesTok(w, cs[0].head, imp) || Names(w, cs[0].rest, imp) || NamesCase(w, cs[1..], imp))
  }

  /** Each is named in the body of the one before, the first in `toks`. */
  ghost predicate Path(w: World, toks: seq<Tok>, q: seq<Imp>) {
    && q != [] && (forall k :: 0 <= k < |q| ==> q[k] in w.imps) && Names(w, toks, q[0])
    && forall k :: 0 <= k < |q| - 1 ==> Names(w, w.imps[q[k]].toks, q[k + 1])
  }

  ghost predicate Reaches(w: World, toks: seq<Tok>, f: Imp) {
    exists q :: Path(w, toks, q) && q[|q| - 1] == f
  }

  lemma ReachesNow(w: World, toks: seq<Tok>, f: Imp)
    requires f in w.imps && Names(w, toks, f)
    ensures Reaches(w, toks, f)
  {
    assert Path(w, toks, [f]);
  }

  lemma ReachesThrough(w: World, toks: seq<Tok>, imp: Imp, f: Imp)
    requires imp in w.imps && Names(w, toks, imp) && Reaches(w, w.imps[imp].toks, f)
    ensures Reaches(w, toks, f)
  {
    var q :| Path(w, w.imps[imp].toks, q) && q[|q| - 1] == f;
    var r := [imp] + q;
    forall k | 0 <= k < |r| - 1 ensures Names(w, w.imps[r[k]].toks, r[k + 1]) {
      if k > 0 { assert r[k] == q[k - 1] && r[k + 1] == q[k]; }
    }
    assert Path(w, toks, r);
  }

  lemma ReachesAs(w: World, xs: seq<Tok>, zs: seq<Tok>, f: Imp)
    requires Reaches(w, xs, f) && forall i :: Names(w, xs, i) ==> Names(w, zs, i)
    ensures Reaches(w, zs, f)
  {
    var q :| Path(w, xs, q) && q[|q| - 1] == f;
    assert Path(w, zs, q);
  }

  /** Compiling these tokens makes a bin with the functions `had` one with `has`: all that
      they name are there, with all that the new ones name, and nothing else is new. */
  ghost predicate Fills(w: World, toks: seq<Tok>, had: set<Imp>, has: set<Imp>) {
    && had <= has
    && (forall i :: Names(w, toks, i) ==> i in has)
    && (forall f, i :: f in has - had && f in w.imps && Names(w, w.imps[f].toks, i) ==> i in has)
    && (forall f :: f in has - had ==> f in w.imps && Reaches(w, toks, f))
  }

  lemma Both(w: World, xs: seq<Tok>, ys: seq<Tok>, zs: seq<Tok>, a: set<Imp>, b: set<Imp>, c: set<Imp>)
    requires Fills(w, xs, a, b) && Fills(w, ys, b, c)
    requires forall i :: Names(w, zs, i) <==> Names(w, xs, i) || Names(w, ys, i)
    ensures Fills(w, zs, a, c)
  {
    hide Names, Reaches;
    forall f | f in c - a ensures f in w.imps && Reaches(w, zs, f) {
      if f in b { ReachesAs(w, xs, zs, f); } else { ReachesAs(w, ys, zs, f); }
    }
  }

  lemma Same(w: World, xs: seq<Tok>, zs: seq<Tok>, a: set<Imp>, b: set<Imp>)
    requires Fills(w, xs, a, b) && forall i :: Names(w, zs, i) <==> Names(w, xs, i)
    ensures Fills(w, zs, a, b)
  {
    hide Names, Reaches;
    forall f | f in b - a ensures f in w.imps && Reaches(w, zs, f) { ReachesAs(w, xs, zs, f); }
  }

  lemma Nothing(w: World, toks: seq<Tok>, a: set<Imp>)
    requires forall i :: !Names(w, toks, i)
    ensures Fills(w, toks, a, a)
  {
  }

  lemma OneTok(w: World, t: Tok, i: Imp)
    ensures Names(w, [t], i) <==> NamesTok(w, t, i)
  {
    assert [t][1..] == [];
  }

  lemma FirstTok(w: World, toks: seq<Tok>, i: Imp)
    requires toks != []
    ensures Names(w, toks, i) <==> Names(w, [toks[0]], i) || Names(w, toks[1..], i)
  {
    OneTok(w, toks[0], i);
  }

  // ---- compiling -----------------------------------------------------------

  lemma {:induction false} SeqFills(w: World, p: Patching, toks: seq<Tok>, b: Bin)
    ensures Fills(w, toks, b.fimps.Keys, CompileSeq(w, p, toks, b).0.fimps.Keys)
    decreases Left(w, b), 1, toks, 0
  {
    hide CompileTok, Fills, Names;
    if toks == [] {
      NoToks(w, b.fimps.Keys);
    } else {
      var b1 := CompileTok(w, p, toks[0], b).0;
      TokFills(w, p, toks[0], b);
      LeftLess(w, b, b1);
      SeqFills(w, p, toks[1..], b1);
      forall i ensures Names(w, toks, i) <==> Names(w, [toks[0]], i) || Names(w, toks[1..], i) {
        FirstTok(w, toks, i);
      }
      Both(w, [toks[0]], toks[1..], toks, b.fimps.Keys, b1.fimps.Keys, CompileSeq(w, p, toks, b).0.fimps.Keys);
    }
  }

  lemma NoToks(w: World, a: set<Imp>)
    ensures Fills(w, [], a, a)
  {
  }

  lemma LeftLess(w: World, b: Bin, c: Bin)
    requires b.fimps.Keys <= c.fimps.Keys
    ensures Left(w, c) <= Left(w, b)
  {
  }

  /** A token around a body. */
  lemma {:induction false} BodyFills(w: World, p: Patching, body: seq<Tok>, tok: Tok, b: Bin, b0: Bin)
    requires b0.fimps == b.fimps && forall i :: NamesTok(w, tok, i) <==> Names(w, body, i)
    ensures Fills(w, [tok], b.fimps.Keys, CompileSeq(w, p, body, b0).0.fimps.Keys)
    decreases Left(w, b), 1, body, 1
  {
    hide Fills, Names, NamesTok, CompileSeq;
    SeqFills(w, p, body, b0);
    forall i ensures Names(w, [tok], i) <==> Names(w, body, i) { OneTok(w, tok, i); }
    Same(w, body, [tok], b.fimps.Keys, CompileSeq(w, p, body, b0).0.fimps.Keys);
  }

  lemma {:induction false} TokFills(w: World, p: Patching, tok: Tok, b: Bin)
    ensures Fills(w, [tok], b.fimps.Keys, CompileTok(w, p, tok, b).0.fimps.Keys)
    decreases Left(w, b), 1, tok, 0
  {
    hide Fills, Names, CompileSeq, CompileCatches, CompileCases, Inline;
    var a := |b.ops|;
    match tok
    case TGroup(body) =>
      if body == [] { LeafFills(w, tok, b.fimps.Keys); }
      else { BodyNames(w, tok, body); BodyFills(w, p, body, tok, b, Emit(b, OBegin(None, 0))); }
    case TStack(body) =>
      if body == [] { LeafFills(w, tok, b.fimps.Keys); }
      else { BodyNames(w, tok, body); BodyFills(w, p, body, tok, b, Emit(b, OBegin(None, 0))); }
    case TLambda(body) => BodyNames(w, tok, body); BodyFills(w, p, body, tok, b, Emit(b, OLambda(a + 1, 0)));
    case TLet(body, ids) => BodyNames(w, tok, body); BodyFills(w, p, body, tok, b, b);
    case TCall(func, imp) => CallFills(w, p, func, imp, b);
    case TFunc(def) => ImpFills(w, p, def, tok, Emit(b, OFuncdef(def)));
    case TCatch(clauses) => CatchesFill(w, p, clauses, b);
    case TSwitch(cases) => CasesFill(w, p, cases, b);
    case _ => LeafFills(w, tok, b.fimps.Keys);
  }

  lemma BodyNames(w: World, tok: Tok, body: seq<Tok>)
    requires tok == TGroup(body) || tok == TStack(body) || tok == TLambda(body) || (tok.TLet? && tok.body == body)
    ensures forall i :: NamesTok(w, tok, i) <==> Names(w, body, i)
  {
    forall i ensures Names(w, body, i) ==> i in w.imps { NamesKnown(w, body, i); }
  }

  lemma {:induction false} NamesKnown(w: World, toks: seq<Tok>, i: Imp)
    ensures Names(w, toks, i) ==> i in w.imps
    decreases |toks|
  {
    hide NamesTok;
    if toks != [] {
      TokKnown(w, toks[0], i);
      NamesKnown(w, toks[1..], i);
    }
  }

  lemma TokKnown(w: World, tok: Tok, i: Imp)
    ensures NamesTok(w, tok, i) ==> i in w.imps
  {
  }

  lemma LeafFills(w: World, tok: Tok, a: set<Imp>)
    requires tok.TLiteral? || tok.TVar? || tok == TGroup([]) || tok == TStack([])
    ensures Fills(w, [tok], a, a)
  {
    forall i ensures !Names(w, [tok], i) { OneTok(w, tok, i); }
    hide Names;
    Nothing(w, [tok], a);
  }

  lemma {:induction false} CallFills(w: World, p: Patching, func: Func, imp: Option<Imp>, b: Bin)
    ensures Fills(w, [TCall(func, imp)], b.fimps.Keys, CompileTok(w, p, TCall(func, imp), b).0.fimps.Keys)
    decreases Left(w, b), 0, 2
  {
    var one := ToInline(w, func, imp);
    assert one.Some? ==> one.value in w.imps;
    forall i: Imp
      ensures NamesTok(w, TCall(func, imp), i) <==> one == Some(i)
      ensures Names(w, [TCall(func, imp)], i) <==> one == Some(i) {
      OneTok(w, TCall(func, imp), i);
    }
    hide Names, NamesTok, Inline, ToInline, Fills;
    if one.Some? {
      ImpFills(w, p, one.value, TCall(func, imp), b);
    } else {
      Nothing(w, [TCall(func, imp)], b.fimps.Keys);
    }
  }

  /** A token that names one implementation at most. */
  lemma {:induction false} ImpFills(w: World, p: Patching, imp: Imp, tok: Tok, b: Bin)
    requires forall i :: NamesTok(w, tok, i) <==> i == imp && imp in w.imps
    ensures Fills(w, [tok], b.fimps.Keys, Inline(w, p, imp, b).fimps.Keys)
    decreases Left(w, b), 0, 1
  {
    hide Fills, Names, NamesTok, CompileSeq, Reaches;
    forall i ensures Names(w, [tok], i) <==> i == imp && imp in w.imps { OneTok(w, tok, i); }
    var a := b.fimps.Keys;
    if imp in b.fimps || imp !in w.imps {
      Known(w, [tok], imp, a);
    } else {
      LeftShrinks(w, imp, b);
      var b1 := BeginInline(w, imp, b);
      var c := CompileSeq(w, p, w.imps[imp].toks, b1).0;
      SeqFills(w, p, w.imps[imp].toks, b1);
      assert b1.fimps.Keys == a + {imp};
      BodyAdds(w, [tok], imp, a, c.fimps.Keys);
      assert Inline(w, p, imp, b).fimps.Keys == c.fimps.Keys;
    }
  }

  lemma Known(w: World, toks: seq<Tok>, imp: Imp, a: set<Imp>)
    requires (imp in a || imp !in w.imps) && forall i :: Names(w, toks, i) <==> i == imp && imp in w.imps
    ensures Fills(w, toks, a, a)
  {
  }

  lemma BodyAdds(w: World, toks: seq<Tok>, imp: Imp, a: set<Imp>, c: set<Imp>)
    requires imp in w.imps && imp !in a && Names(w, toks, imp) && forall i :: Names(w, toks, i) ==> i == imp
    requires Fills(w, w.imps[imp].toks, a + {imp}, c)
    ensures Fills(w, toks, a, c)
  {
    hide Names, Reaches;
    forall f | f in c - a ensures f in w.imps && Reaches(w, toks, f) {
      if f == imp { ReachesNow(w, toks, imp); } else { ReachesThrough(w, toks, imp, f); }
    }
  }

  lemma {:induction false} CatchesFill(w: World, p: Patching, cs: seq<CatchClause>, b: Bin)
    ensures Fills(w, [TCatch(cs)], b.fimps.Keys, CompileCatches(w, p, cs, b).0.fimps.Keys)
    decreases Left(w, b), 1, cs, 0
  {
    forall i ensures cs == [] ==> !Names(w, [TCatch(cs)], i) { OneTok(w, TCatch(cs), i); }
    hide Fills, Names, CompileSeq;
    if cs == [] {
      Nothing(w, [TCatch(cs)], b.fimps.Keys);
    } else {
      var a := |b.ops|;
      var b0 := Emit(b, OCatch(cs[0].ty, 0));
      var b1 := CompileSeq(w, p, cs[0].body, b0).0;
      var b2 := Fill(b1, a, OCatch(cs[0].ty, |b1.ops| - a - 1));
      SeqFills(w, p, cs[0].body, b0);
      LeftLess(w, b, b2);
      CatchesFill(w, p, cs[1..], b2);
      forall i ensures Names(w, [TCatch(cs)], i) <==> Names(w, cs[0].body, i) || Names(w, [TCatch(cs[1..])], i) {
        ClauseNames(w, cs, i);
      }
      Both(w, cs[0].body, [TCatch(cs[1..])], [TCatch(cs)], b.fimps.Keys, b2.fimps.Keys,
           CompileCatches(w, p, cs, b).0.fimps.Keys);
    }
  }

  lemma ClauseNames(w: World, cs: seq<CatchClause>, i: Imp)
    requires cs != []
    ensures Names(w, [TCatch(cs)], i) <==> Names(w, cs[0].body, i) || Names(w, [TCatch(cs[1..])], i)
  {
    OneTok(w, TCatch(cs), i);
    OneTok(w, TCatch(cs[1..]), i);
    NamesKnown(w, cs[0].body, i);
    hide Names;
  }

  lemma {:induction false} CasesFill(w: World, p: Patching, cs: seq<SwitchClause>, b: Bin)
    ensures Fills(w, [TSwitch(cs)], b.fimps.Keys, CompileCases(w, p, cs, b).0.fimps.Keys)
    decreases Left(w, b), 1, cs, 0
  {
    forall i ensures cs == [] ==> !Names(w, [TSwitch(cs)], i) { OneTok(w, TSwitch(cs), i); }
    hide Fills, Names, CompileSeq, CompileTok;
    if cs == [] {
      Nothing(w, [TSwitch(cs)], b.fimps.Keys);
    } else {
      var toks := [cs[0].head] + cs[0].rest;
      var b4 := FirstFills(w, p, cs, b);
      LeftLess(w, b, b4);
      CasesFill(w, p, cs[1..], b4);
      hide CompileCases;
      forall i ensures Names(w, [TSwitch(cs)], i) <==> Names(w, toks, i) || Names(w, [TSwitch(cs[1..])], i) {
        CaseNames(w, cs, i);
      }
      Both(w, toks, [TSwitch(cs[1..])], [TSwitch(cs)], b.fimps.Keys, b4.fimps.Keys,
           CompileCases(w, p, cs, b).0.fimps.Keys);
    }
  }

  lemma {:induction false} FirstFills(w: World, p: Patching, cs: seq<SwitchClause>, b: Bin) returns (b4: Bin)
    requires cs != []
    ensures Fills(w, [cs[0].head] + cs[0].rest, b.fimps.Keys, b4.fimps.Keys)
    ensures b.fimps.Keys <= b4.fimps.Keys && CompileCases(w, p, cs, b).0 == CompileCases(w, p, cs[1..], b4).0
    decreases Left(w, b), 1, cs[0], 0
  {
    hide Fills, Names, CompileSeq, CompileTok;
    var (head, rest) := (cs[0].head, cs[0].rest);
    var b1 := (if head.TGroup? then CompileSeq(w, p, head.body, b) else CompileTok(w, p, head, b)).0;
    HeadFills(w, p, head, b);
    var b2 := CompileSeq(w, p, rest, Emit(b1, OElse(0))).0;
    LeftLess(w, b, Emit(b1, OElse(0)));
    SeqFills(w, p, rest, Emit(b1, OElse(0)));
    var b3 := Emit(b2, OJump(0));
    b4 := Fill(b3, |b1.ops|, OElse(|b3.ops| - |b1.ops| - 1));
    assert CompileCases(w, p, cs, b).0 == CompileCases(w, p, cs[1..], b4).0;
    hide CompileCases;
    forall i ensures Names(w, [head] + rest, i) <==> Names(w, [head], i) || Names(w, rest, i) {
      assert ([head] + rest)[1..] == rest;
      FirstTok(w, [head] + rest, i);
    }
    Both(w, [head], rest, [head] + rest, b.fimps.Keys, b1.fimps.Keys, b2.fimps.Keys);
  }

  lemma {:induction false} HeadFills(w: World, p: Patching, head: Tok, b: Bin)
    ensures var b1 := (if head.TGroup? then CompileSeq(w, p, head.body, b) else CompileTok(w, p, head, b)).0;
            Fills(w, [head], b.fimps.Keys, b1.fimps.Keys)
    decreases Left(w, b), 1, head, 1
  {
    hide Fills, Names, CompileSeq, CompileTok;
    if head.TGroup? {
      BodyNames(w, head, head.body);
      BodyFills(w, p, head.body, head, b, b);
    } else {
      TokFills(w, p, head, b);
    }
  }

  lemma CaseNames(w: World, cs: seq<SwitchClause>, i: Imp)
    requires cs != []
    ensures var toks := [cs[0].head] + cs[0].rest;
            Names(w, [TSwitch(cs)], i) <==> Names(w, toks, i) || Names(w, [TSwitch(cs[1..])], i)
  {
    OneTok(w, TSwitch(cs), i);
    OneTok(w, TSwitch(cs[1..]), i);
    NamesKnown(w, cs[0].rest, i);
    TokKnown(w, cs[0].head, i);
    var toks := [cs[0].head] + cs[0].rest;
    assert toks[1..] == cs[0].rest;
  }

  /** The bin of a program holds the body of a function exactly if the program can come to
      it: by a chain of calls and definitions, each in the body of the one before. */
  lemma HeldIffReached(w: World, p: Patching, toks: seq<Tok>, f: Imp)
    ensures f in Compile(w, p, toks).0.fimps <==> Reaches(w, toks, f)
  {
    SeqFills(w, p, toks, EMPTY_BIN);
    var has := Compile(w, p, toks).0.fimps.Keys;
    if Reaches(w, toks, f) {
      var q :| Path(w, toks, q) && q[|q| - 1] == f;
      PathHeld(w, toks, q, has, |q| - 1);
    }
  }

  lemma {:induction false} PathHeld(w: World, toks: seq<Tok>, q: seq<Imp>, has: set<Imp>, k: nat)
    requires Fills(w, toks, {}, has) && Path(w, toks, q) && k < |q|
    ensures q[k] in has
  {
    hide Names, Reaches;
    if k > 0 {
      PathHeld(w, toks, q, has, k - 1);
      assert Names(w, w.imps[q[k - 1]].toks, q[k - 1 + 1]);
    }
  }
}
