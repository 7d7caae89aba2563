/** The bin as the compiler builds it: ops are appended, sizes and jump targets
    filled in afterwards.  Every method leaves exactly the bin that the functions of
    `Compiler` describe, patching jumps the way switch_eval does. */
module BinBuilder {
  import opened Basics
  import opened VmState
  import opened Vm
  import opened Compiler
  import opened SwitchPatch

  // ---- compiling one token more --------------------------------------------

  lemma {:induction false} SeqSnoc(w: World, p: Patching, toks: seq<Tok>, tok: Tok, b: Bin)
    ensures var (b1, ns) := CompileSeq(w, p, toks, b);
            var (b2, n) := CompileTok(w, p, tok, b1);
            CompileSeq(w, p, toks + [tok], b) == (b2, ns + n)
    decreases |toks|
  {
    hide CompileTok;
    if toks == [] {
      assert [tok][1..] == [] && [] + [tok] == [tok];
      var (b2, n) := CompileTok(w, p, tok, b);
      assert CompileSeq(w, p, [], b2) == (b2, []);
      assert n + [] == n && [] + n == n;
    } else {
      assert (toks + [tok])[1..] == toks[1..] + [tok];
      var (b1, n1) := CompileTok(w, p, toks[0], b);
      SeqSnoc(w, p, toks[1..], tok, b1);
      var (b2, n2) := CompileSeq(w, p, toks[1..], b1);
      var (b3, n3) := CompileTok(w, p, tok, b2);
      assert n1 + (n2 + n3) == (n1 + n2) + n3;
    }
  }

  /** One catch clause. */
  function CatchOf(w: World, p: Patching, c: CatchClause, b: Bin): (Bin, Node) {
    var (b1, body) := CompileSeq(w, p, c.body, Emit(b, OCatch(c.ty, 0)));
    (Fill(b1, |b.ops|, OCatch(c.ty, |b1.ops| - |b.ops| - 1)), NCatch(c.ty, body))
  }

  lemma CatchesOf(w: World, p: Patching, cs: seq<CatchClause>, b: Bin)
    requires cs != []
    ensures var (b1, n) := CatchOf(w, p, cs[0], b);
            var (b2, ns) := CompileCatches(w, p, cs[1..], b1);
            CompileCatches(w, p, cs, b) == (b2, [n] + ns)
  {
    hide CompileSeq;
  }

  lemma {:induction false} CatchesSnoc(w: World, p: Patching, cs: seq<CatchClause>, c: CatchClause, b: Bin)
    ensures var (b1, ns) := CompileCatches(w, p, cs, b);
            var (b2, n) := CatchOf(w, p, c, b1);
            CompileCatches(w, p, cs + [c], b) == (b2, ns + [n])
    decreases |cs|
  {
    hide CatchOf, CompileCatches;
    CatchesOf(w, p, cs + [c], b);
    NoCatches(w, p, b);
    if cs == [] {
      assert [c][1..] == [] && [] + [c] == [c];
      var (b2, n) := CatchOf(w, p, c, b);
      NoCatches(w, p, b2);
      assert [n] + [] == [n] == [] + [n];
    } else {
      assert (cs + [c])[1..] == cs[1..] + [c] && (cs + [c])[0] == cs[0];
      CatchesOf(w, p, cs, b);
      var (b1, n0) := CatchOf(w, p, cs[0], b);
      CatchesSnoc(w, p, cs[1..], c, b1);
      var (b2, ns) := CompileCatches(w, p, cs[1..], b1);
      var n := CatchOf(w, p, c, b2).1;
      assert [n0] + (ns + [n]) == ([n0] + ns) + [n];
    }
  }

  lemma NoCatches(w: World, p: Patching, b: Bin)
    ensures CompileCatches(w, p, [], b) == (b, [])
  {
  }

  lemma {:induction false} CasesSnoc(w: World, cs: seq<SwitchClause>, c: SwitchClause, b: Bin)
    ensures var (b1, ns, own) := CompileCases(w, PatchAll, cs, b);
            var (b2, x, j) := FirstOf(w, PatchAll, c, b1);
            CompileCases(w, PatchAll, cs + [c], b) == (b2, ns + [x], own + [j])
    decreases |cs|
  {
    hide FirstOf, CompileCases;
    CasesOf(w, PatchAll, cs + [c], b);
    if cs == [] {
      assert [c][1..] == [] && [] + [c] == [c];
      var (b2, x, j) := FirstOf(w, PatchAll, c, b);
      NoCases(w, b2);
      NoCases(w, b);
      assert [x] + [] == [x] == [] + [x] && [j] + [] == [j] == [] + [j];
    } else {
      assert (cs + [c])[1..] == cs[1..] + [c] && (cs + [c])[0] == cs[0];
      CasesOf(w, PatchAll, cs, b);
      var (b1, x0, j0) := FirstOf(w, PatchAll, cs[0], b);
      CasesSnoc(w, cs[1..], c, b1);
      var (b2, ns, own) := CompileCases(w, PatchAll, cs[1..], b1);
      var (b3, x, j) := FirstOf(w, PatchAll, c, b2);
      assert [x0] + (ns + [x]) == ([x0] + ns) + [x] && [j0] + (own + [j]) == ([j0] + own) + [j];
    }
  }

  lemma PutsGroup(ns: seq<Node>, n: Node, more: seq<Node>)
    ensures ns + ([n] + more) == ns + [n] + more
  {
  }

  // ---- the bin -------------------------------------------------------------

  /** `fns` and `lams` record the annotated bodies for the proofs. */
  class Builder {
    var ops: seq<Op>
    var fimps: map<Imp, Range>
    ghost var fns: map<Imp, seq<Node>>
    ghost var lams: map<nat, seq<Node>>

    constructor ()
      ensures Contents() == EMPTY_BIN
    {
      ops, fimps, fns, lams := [], map[], map[], map[];
    }

    ghost function Contents(): Bin
      reads this
    {
      Bin(ops, fimps, fns, lams)
    }

    /** cx_op_new */
    method New(op: Op)
      modifies this
      ensures Contents() == Emit(old(Contents()), op)
    {
      ops := ops + [op];
    }

    method Set(a: nat, op: Op)
      requires a < |ops|
      modifies this
      ensures Contents() == Fill(old(Contents()), a, op)
    {
      ops := ops[a := op];
    }

    /** cx_compile */
    method CompileToks(w: World, toks: seq<Tok>) returns (ghost ns: seq<Node>)
      modifies this
      ensures (Contents(), ns) == CompileSeq(w, PatchAll, toks, old(Contents()))
      decreases Left(w, Contents()), 1, toks, 2
    {
      ghost var b0 := Contents();
      ns := [];
      var i := 0;
      assert toks[..0] == [];
      while i < |toks|
        invariant i <= |toks|
        invariant (Contents(), ns) == CompileSeq(w, PatchAll, toks[..i], b0)
      {
        ghost var n := CompileOne(w, toks[i]);
        SeqSnoc(w, PatchAll, toks[..i], toks[i], b0);
        assert toks[..i + 1] == toks[..i] + [toks[i]];
        ns := ns + n;
        i := i + 1;
      }
      assert toks[..i] == toks;
    }

    /** The `compile` handler of a token type. */
    method CompileOne(w: World, tok: Tok) returns (ghost ns: seq<Node>)
      modifies this
      ensures (Contents(), ns) == CompileTok(w, PatchAll, tok, old(Contents()))
      decreases Left(w, Contents()), 1, tok, 2
    {
      match tok
      case TLiteral(v) =>
        New(OPush(v));
        ns := [NPush(v)];
      case TVar(id) =>
        New(OGetVar(id));
        ns := [NGetVar(id)];
      case TGroup(body) => ns := GroupCompile(w, tok);
      case TStack(body) => ns := StackCompile(w, tok);
      case TLambda(body) => ns := LambdaCompile(w, tok);
      case TCall(func, imp) => ns := CallCompile(w, tok);
      case TFunc(def) =>
        ghost var a := |ops|;
        New(OFuncdef(def));
        FimpInline(w, def);
        ns := [NFunc(def, |ops| - (a + 1))];
      case TLet(body, ids) =>
        ghost var n := CompileToks(w, body);
        ghost var puts := PutVars(ids);
        ns := n + puts;
      case TCatch(clauses) => ns := CatchEval(w, clauses);
      case TSwitch(cases) => ns := SwitchEval(w, cases);
    }

    method GroupCompile(w: World, tok: Tok) returns (ghost ns: seq<Node>)
      requires tok.TGroup?
      modifies this
      ensures (Contents(), ns) == CompileTok(w, PatchAll, tok, old(Contents()))
      decreases Left(w, Contents()), 1, tok, 1
    {
      ns := [];
      if tok.body != [] {
        var i := |ops|;
        New(OBegin(None, 0));
        ghost var n := CompileToks(w, tok.body);
        New(OEnd);
        Set(i, OBegin(None, |ops| - i - 1));
        ns := [NGroup(n)];
      }
    }

    method StackCompile(w: World, tok: Tok) returns (ghost ns: seq<Node>)
      requires tok.TStack?
      modifies this
      ensures (Contents(), ns) == CompileTok(w, PatchAll, tok, old(Contents()))
      decreases Left(w, Contents()), 1, tok, 1
    {
      if tok.body != [] {
        var i := |ops|;
        New(OBegin(None, 0));
        ghost var n := CompileToks(w, tok.body);
        New(OStash);
        New(OEnd);
        Set(i, OBegin(None, |ops| - i - 1));
        ns := [NStack(n)];
      } else {
        New(OPush(StackV([])));
        ns := [NPush(StackV([]))];
      }
    }

    method LambdaCompile(w: World, tok: Tok) returns (ghost ns: seq<Node>)
      requires tok.TLambda?
      modifies this
      ensures (Contents(), ns) == CompileTok(w, PatchAll, tok, old(Contents()))
      decreases Left(w, Contents()), 1, tok, 1
    {
      var i := |ops|;
      New(OLambda(i + 1, 0));
      ghost var n := CompileToks(w, tok.body);
      Set(i, OLambda(i + 1, |ops| - (i + 1)));
      lams := lams[i := n];
      ns := [NLambda(i, n)];
    }

    /** id_compile, for an identifier that names a function */
    method CallCompile(w: World, tok: Tok) returns (ghost ns: seq<Node>)
      requires tok.TCall?
      modifies this
      ensures (Contents(), ns) == CompileTok(w, PatchAll, tok, old(Contents()))
      decreases Left(w, Contents()), 1, tok, 1
    {
      ghost var a := |ops|;
      var one := ToInline(w, tok.func, tok.imp);
      if one.Some? { FimpInline(w, one.value); }
      ns := [NCall(|ops|, tok.func, tok.imp, |ops| - a)];
      New(OFuncall(tok.func, tok.imp));
    }

    method PutVars(ids: seq<Binding>) returns (ghost ns: seq<Node>)
      modifies this
      ensures (Contents(), ns) == CompilePuts(ids, old(Contents()))
    {
      ghost var b0 := Contents();
      ns := [];
      var i := |ids|;
      assert ids[..i] == ids && ns + CompilePuts(ids, b0).1 == CompilePuts(ids, b0).1;
      while i > 0
        invariant 0 <= i <= |ids|
        invariant var (b1, more) := CompilePuts(ids[..i], Contents()); CompilePuts(ids, b0) == (b1, ns + more)
      {
        i := i - 1;
        ghost var n := NPutVar(ids[i].id, ids[i].ty);
        assert ids[..i + 1][..i] == ids[..i];
        New(OPutVar(ids[i].id, ids[i].ty));
        PutsGroup(ns, n, CompilePuts(ids[..i], Contents()).1);
        ns := ns + [n];
      }
      assert ns + [] == ns;
    }

    /** catch_eval */
    method CatchEval(w: World, cs: seq<CatchClause>) returns (ghost ns: seq<Node>)
      modifies this
      ensures (Contents(), ns) == CompileCatches(w, PatchAll, cs, old(Contents()))
      decreases Left(w, Contents()), 1, cs, 1
    {
      ghost var b0 := Contents();
      ns := [];
      var k := 0;
      assert cs[..0] == [];
      while k < |cs|
        invariant k <= |cs|
        invariant (Contents(), ns) == CompileCatches(w, PatchAll, cs[..k], b0)
      {
        CatchesSnoc(w, PatchAll, cs[..k], cs[k], b0);
        assert cs[..k + 1] == cs[..k] + [cs[k]];
        var i := |ops|;
        New(OCatch(cs[k].ty, 0));
        ghost var n := CompileToks(w, cs[k].body);
        Set(i, OCatch(cs[k].ty, |ops| - i - 1));
        ns := ns + [NCatch(cs[k].ty, n)];
        k := k + 1;
      }
      assert cs[..k] == cs;
    }

    /** switch_eval: the clauses, then one pass over all ops since the start. */
    method SwitchEval(w: World, cs: seq<SwitchClause>) returns (ghost ns: seq<Node>)
      modifies this
      ensures (Contents(), ns) == CompileTok(w, PatchAll, TSwitch(cs), old(Contents()))
      decreases Left(w, Contents()), 1, cs, 2
    {
      var start := |ops|;
      ghost var xs := Clauses(w, cs);
      ghost var b1 := Contents();
      var end := |ops|;
      var i := start;
      while i < |ops|
        invariant start <= i <= |ops| == |b1.ops| == end && Contents() == b1.(ops := ops)
        invariant forall k :: 0 <= k < |ops| ==>
                    ops[k] == if start <= k < i && b1.ops[k].OJump? then OJump(end) else b1.ops[k]
      {
        if ops[i].OJump? { ops := ops[i := OJump(end)]; }
        i := i + 1;
      }
      assert ops == RetargetAll(b1.ops, start, end);
      ns := [NSwitch(xs)];
    }

    method Clauses(w: World, cs: seq<SwitchClause>) returns (ghost xs: seq<Case>)
      modifies this
      ensures Contents() == CompileCases(w, PatchAll, cs, old(Contents())).0
      ensures xs == CompileCases(w, PatchAll, cs, old(Contents())).1
      decreases Left(w, Contents()), 1, cs, 1
    {
      hide CompileCases, FirstOf;
      ghost var b0 := Contents();
      NoCases(w, b0);
      xs := [];
      var k := 0;
      assert cs[..0] == [];
      while k < |cs|
        invariant k <= |cs|
        invariant Contents() == CompileCases(w, PatchAll, cs[..k], b0).0
        invariant xs == CompileCases(w, PatchAll, cs[..k], b0).1
      {
        CasesSnoc(w, cs[..k], cs[k], b0);
        assert cs[..k + 1] == cs[..k] + [cs[k]];
        ghost var x := Clause(w, cs[k], cs);
        xs := xs + [x];
        k := k + 1;
      }
      assert cs[..k] == cs;
    }

    /** One clause: condition, OELSE over the body, body, OJUMP. */
    method Clause(w: World, c: SwitchClause, ghost cs: seq<SwitchClause>) returns (ghost x: Case)
      requires c in cs
      modifies this
      ensures Contents() == FirstOf(w, PatchAll, c, old(Contents())).0
      ensures x == FirstOf(w, PatchAll, c, old(Contents())).1
      decreases Left(w, Contents()), 1, cs, 0
    {
      ghost var cond: seq<Node>;
      if c.head.TGroup? { cond := CompileToks(w, c.head.body); } else { cond := CompileOne(w, c.head); }
      var ei := |ops|;
      New(OElse(0));
      ghost var body := CompileToks(w, c.rest);
      New(OJump(0));
      Set(ei, OElse(|ops| - ei - 1));
      x := Case(cond, body);
    }

    /** cx_fimp_inline */
    method FimpInline(w: World, imp: Imp)
      modifies this
      ensures Contents() == Inline(w, PatchAll, imp, old(Contents()))
      decreases Left(w, Contents()), 0
    {
      if imp !in fimps && imp in w.imps {
        hide CompileSeq;
        LeftShrinks(w, imp, Contents());
        ghost var b0 := BeginInline(w, imp, Contents());
        var start := |ops| + 1;
        fimps := fimps[imp := Range(start, -1)];
        New(OFimp(imp));
        New(OBegin(Some(imp), 0));
        if w.imps[imp].args != [] { New(OPutArgs(imp)); }
        assert Contents() == b0;
        ghost var n := CompileToks(w, w.imps[imp].toks);
        hide BeginInline;
        CloseInline(imp, start, n);
      }
    }

    /** ORETURN, and what was open at the start. */
    method CloseInline(imp: Imp, start: nat, ghost n: seq<Node>)
      requires start < |ops|
      modifies this
      ensures Contents() == EndInline(imp, start, old(Contents()), n)
    {
      New(OReturn(imp, start));
      Set(start, OBegin(Some(imp), |ops| - start - 1));
      fimps := fimps[imp := Range(start, |ops| - start)];
      fns := fns[imp := n];
    }
  }
}
