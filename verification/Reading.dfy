/** The annotated tokens that compilation returns are the source tokens: leaving
    out addresses and inlined sizes, what is run is what was written. */
module Reading {
  import opened Basics
  import opened VmState
  import opened Vm
  import opened Compiler
  import opened CompilerProof

  // ---- tokens read directly, without compiling -----------------------------

  /** What each token stands for, with no addresses. */
  function Plain(toks: seq<Tok>): seq<Node>
    decreases toks, 0
  {
    if toks == [] then [] else PlainTok(toks[0]) + Plain(toks[1..])
  }

  function PlainTok(tok: Tok): seq<Node>
    decreases tok, 0
  {
    match tok
    case TLiteral(v) => [NPush(v)]
    case TVar(id) => [NGetVar(id)]
    case TGroup(body) => if body == [] then [] else [NGroup(Plain(body))]
    case TStack(body) => if body == [] then [NPush(StackV([]))] else [NStack(Plain(body))]
    case TLambda(body) => [NLambda(0, Plain(body))]
    case TCall(func, imp) => [NCall(0, func, imp, 0)]
    case TFunc(def) => [NFunc(def, 0)]
    case TLet(body, ids) => Plain(body)
        + seq(|ids|, i requires 0 <= i < |ids| => NPutVar(ids[|ids| - 1 - i].id, ids[|ids| - 1 - i].ty))
    case TCatch(clauses) => PlainCatches(clauses)
    case TSwitch(cases) => [NSwitch(PlainCases(cases))]
  }

  function PlainCatches(cs: seq<CatchClause>): seq<Node>
    decreases cs, 0
  {
    if cs == [] then [] else [NCatch(cs[0].ty, Plain(cs[0].body))] + PlainCatches(cs[1..])
  }

  function PlainCases(cs: seq<SwitchClause>): seq<Case>
    decreases cs, 0
  {
    if cs == [] then []
    else
      var cond := if cs[0].head.TGroup? then Plain(cs[0].head.body) else PlainTok(cs[0].head);
      [Case(cond, Plain(cs[0].rest))] + PlainCases(cs[1..])
  }

  // ---- annotated tokens without their addresses ----------------------------

  function Strip(ns: seq<Node>): seq<Node>
    decreases ns, 0
  {
    if ns == [] then [] else [StripNode(ns[0])] + Strip(ns[1..])
  }

  function StripNode(n: Node): Node
    decreases n, 0
  {
    match n
    case NGroup(body) => NGroup(Strip(body))
    case NStack(body) => NStack(Strip(body))
    case NLambda(at, body) => NLambda(0, Strip(body))
    case NCall(site, func, imp, inl) => NCall(0, func, imp, 0)
    case NFunc(def, inl) => NFunc(def, 0)
    case NCatch(ty, body) => NCatch(ty, Strip(body))
    case NSwitch(cases) => NSwitch(StripCases(cases))
    case _ => n
  }

  function StripCases(cs: seq<Case>): seq<Case>
    decreases cs, 0
  {
    if cs == [] then [] else [Case(Strip(cs[0].cond), Strip(cs[0].body))] + StripCases(cs[1..])
  }

  lemma {:induction false} StripConcat(x: seq<Node>, y: seq<Node>)
    ensures Strip(x + y) == Strip(x) + Strip(y)
    decreases |x|
  {
    if x == [] {
      assert x + y == y;
    } else {
      assert (x + y)[1..] == x[1..] + y;
      StripConcat(x[1..], y);
    }
  }

  /** The body a lambda node shows is the one its address stands for. */
  ghost predicate Named(b: Bin, ns: seq<Node>)
    decreases ns, 0
  {
    ns != [] ==> NamedNode(b, ns[0]) && Named(b, ns[1..])
  }

  ghost predicate NamedNode(b: Bin, n: Node)
    decreases n, 0
  {
    match n
    case NGroup(body) => Named(b, body)
    case NStack(body) => Named(b, body)
    case NLambda(at, body) => at in b.lams && b.lams[at] == body && Named(b, body)
    case NCatch(ty, body) => Named(b, body)
    case NSwitch(cases) => NamedCases(b, cases)
    case _ => true
  }

  ghost predicate NamedCases(b: Bin, cs: seq<Case>)
    decreases cs, 0
  {
    cs != [] ==> Named(b, cs[0].cond) && Named(b, cs[0].body) && NamedCases(b, cs[1..])
  }

  ghost predicate KeepsLams(b: Bin, c: Bin) {
    forall at :: at in b.lams ==> at in c.lams && c.lams[at] == b.lams[at]
  }

  lemma {:induction false} NamedGrows(b: Bin, c: Bin, ns: seq<Node>)
    requires Named(b, ns) && KeepsLams(b, c)
    ensures Named(c, ns)
    decreases ns, 0
  {
    if ns != [] {
      match ns[0]
      case NSwitch(cases) => NamedCasesGrow(b, c, cases);
      case NGroup(body) => NamedGrows(b, c, body);
      case NStack(body) => NamedGrows(b, c, body);
      case NLambda(at, body) => NamedGrows(b, c, body);
      case NCatch(ty, body) => NamedGrows(b, c, body);
      case _ =>
    }
    if ns != [] { NamedGrows(b, c, ns[1..]); }
  }

  lemma {:induction false} NamedCasesGrow(b: Bin, c: Bin, cs: seq<Case>)
    requires NamedCases(b, cs) && KeepsLams(b, c)
    ensures NamedCases(c, cs)
    decreases cs, 0
  {
    if cs != [] {
      NamedGrows(b, c, cs[0].cond);
      NamedGrows(b, c, cs[0].body);
      NamedCasesGrow(b, c, cs[1..]);
    }
  }

  lemma {:induction false} NamedConcat(b: Bin, x: seq<Node>, y: seq<Node>)
    requires Named(b, x) && Named(b, y)
    ensures Named(b, x + y)
    decreases |x|
  {
    if x == [] {
      assert x + y == y;
    } else {
      assert (x + y)[1..] == x[1..] + y;
      NamedConcat(b, x[1..], y);
    }
  }

  // ---- the induction over tokens -------------------------------------------

  /** Every function and lambda body in the bin reads as it was written. */
  ghost predicate Faithful(w: World, b: Bin) {
    && (forall imp :: imp in b.fns ==>
        imp in w.imps && Strip(b.fns[imp]) == Plain(w.imps[imp].toks) && Named(b, b.fns[imp]))
    && (forall at :: at in b.lams ==> Named(b, b.lams[at]))
  }

  ghost predicate Reads(w: World, b: Bin, c: Bin, ns: seq<Node>, plain: seq<Node>) {
    Grow(b, c) && Fits(c) && Faithful(w, c) && Named(c, ns) && Strip(ns) == plain
  }

  lemma ReadsTrans(w: World, b: Bin, c: Bin, d: Bin, x: seq<Node>, y: seq<Node>, px: seq<Node>, py: seq<Node>)
    requires Reads(w, b, c, x, px) && Reads(w, c, d, y, py)
    ensures Reads(w, b, d, x + y, px + py)
  {
    GrowTrans(b, c, d);
    NamedGrows(c, d, x);
    NamedConcat(d, x, y);
    StripConcat(x, y);
  }

  lemma FaithfulOps(w: World, b: Bin, d: Bin)
    requires Faithful(w, b) && d.fns == b.fns && d.lams == b.lams
    ensures Faithful(w, d)
  {
    forall imp | imp in d.fns ensures Named(d, d.fns[imp]) { NamedGrows(b, d, d.fns[imp]); }
    forall at | at in d.lams ensures Named(d, d.lams[at]) { NamedGrows(b, d, d.lams[at]); }
  }

  lemma ReadsOne(w: World, b: Bin, op: Op, n: Node)
    requires Fits(b) && Faithful(w, b) && !n.NGroup? && !n.NStack? && !n.NLambda? && !n.NCatch? && !n.NSwitch?
    ensures Reads(w, b, Emit(b, op), [n], [StripNode(n)])
  {
    FaithfulOps(w, b, Emit(b, op));
    assert [n][1..] == [];
  }

  lemma ReadsBin(w: World, b: Bin, c: Bin, ns: seq<Node>, plain: seq<Node>)
    requires Reads(w, b, c, ns, plain)
    ensures Fits(c) && Faithful(w, c)
  {
  }

  lemma {:induction false} SeqReads(w: World, toks: seq<Tok>, b: Bin)
    requires Fits(b) && Faithful(w, b)
    ensures var (c, ns) := CompileSeq(w, PatchOwn, toks, b); Reads(w, b, c, ns, Plain(toks))
    decreases Left(w, b), 1, toks, 2
  {
    hide Reads, Faithful, Fits;
    if toks == [] {
      ReadsNil(w, b);
    } else {
      var (b1, ns1) := CompileTok(w, PatchOwn, toks[0], b);
      var (b2, ns2) := CompileSeq(w, PatchOwn, toks[1..], b1);
      TokReads(w, toks[0], b);
      ReadsBin(w, b, b1, ns1, PlainTok(toks[0]));
      SeqReads(w, toks[1..], b1);
      ReadsTrans(w, b, b1, b2, ns1, ns2, PlainTok(toks[0]), Plain(toks[1..]));
    }
  }

  lemma ReadsNil(w: World, b: Bin)
    requires Fits(b) && Faithful(w, b)
    ensures Reads(w, b, b, [], [])
  {
  }

  ghost predicate TokOk(w: World, tok: Tok, b: Bin) {
    var (c, ns) := CompileTok(w, PatchOwn, tok, b);
    Reads(w, b, c, ns, PlainTok(tok))
  }

  lemma {:induction false} TokReads(w: World, tok: Tok, b: Bin)
    requires Fits(b) && Faithful(w, b)
    ensures TokOk(w, tok, b)
    decreases Left(w, b), 1, tok, 2
  {
    hide Reads, Faithful, Fits;
    match tok
    case TLiteral(v) => ReadsOne(w, b, OPush(v), NPush(v));
    case TVar(id) => ReadsOne(w, b, OGetVar(id), NGetVar(id));
    case TGroup(body) => if body == [] { ReadsNil(w, b); } else { BodyReads(w, tok, body, OBegin(None, 0), b); }
    case TStack(body) =>
      if body == [] { ReadsOne(w, b, OPush(StackV([])), NPush(StackV([]))); }
      else { BodyReads(w, tok, body, OBegin(None, 0), b); }
    case TLambda(body) => LambdaReads(w, tok, b);
    case TCall(func, imp) => CallReads(w, tok, b);
    case TFunc(def) => FuncReads(w, tok, b);
    case TLet(body, ids) => LetReads(w, tok, b);
    case TCatch(clauses) => CatchesRead(w, clauses, b);
    case TSwitch(cases) => SwitchReads(w, tok, b);
  }

  /** Code behind a placeholder that is filled in later. */
  lemma ReadsWrap(w: World, b: Bin, op0: Op, c: Bin, ns: seq<Node>, plain: seq<Node>, n: Node, d: Bin)
    requires Fits(b) && Reads(w, Emit(b, op0), c, ns, plain)
    requires d == c.(ops := d.ops) && |c.ops| <= |d.ops| && forall i :: 0 <= i < |b.ops| ==> d.ops[i] == c.ops[i]
    requires n == NGroup(ns) || n == NStack(ns) || (n.NCatch? && n == NCatch(n.ty, ns))
    ensures Reads(w, b, d, [n],
              [match n case NGroup(_) => NGroup(plain) case NStack(_) => NStack(plain) case _ => NCatch(n.ty, plain)])
  {
    FaithfulOps(w, c, d);
    NamedGrows(c, d, ns);
    assert [n][1..] == [];
    assert forall i :: 0 <= i < |b.ops| ==> Emit(b, op0).ops[i] == b.ops[i];
    assert Grow(b, d);
  }

  lemma {:induction false} BodyReads(w: World, tok: Tok, body: seq<Tok>, op0: Op, b: Bin)
    requires Fits(b) && Faithful(w, b) && op0 == OBegin(None, 0)
    requires (tok == TGroup(body) || tok == TStack(body)) && body != []
    ensures TokOk(w, tok, b)
    decreases Left(w, b), 1, tok, 1
  {
    hide Reads, Faithful, Fits, CompileSeq, Plain;
    EmitFits(w, b, op0);
    SeqReads(w, body, Emit(b, op0));
    var (c, ns) := CompileSeq(w, PatchOwn, body, Emit(b, op0));
    ReadsWrap(w, b, op0, c, ns, Plain(body), if tok.TGroup? then NGroup(ns) else NStack(ns),
              CompileTok(w, PatchOwn, tok, b).0);
  }

  lemma EmitFits(w: World, b: Bin, op: Op)
    requires Fits(b) && Faithful(w, b)
    ensures Fits(Emit(b, op)) && Faithful(w, Emit(b, op))
  {
    FaithfulOps(w, b, Emit(b, op));
  }

  lemma {:induction false} LambdaReads(w: World, tok: Tok, b: Bin)
    requires Fits(b) && Faithful(w, b) && tok.TLambda?
    ensures TokOk(w, tok, b)
    decreases Left(w, b), 1, tok, 1
  {
    hide Reads, Faithful, Fits, CompileSeq, Plain;
    var op0 := OLambda(|b.ops| + 1, 0);
    EmitFits(w, b, op0);
    SeqReads(w, tok.body, Emit(b, op0));
    var (c, ns) := CompileSeq(w, PatchOwn, tok.body, Emit(b, op0));
    LambdaRead(w, b, op0, c, ns, Plain(tok.body));
  }

  lemma LambdaRead(w: World, b: Bin, op0: Op, c: Bin, ns: seq<Node>, plain: seq<Node>)
    requires Fits(b) && Reads(w, Emit(b, op0), c, ns, plain)
    ensures Reads(w, b, EndLambda(c, |b.ops|, ns), [NLambda(|b.ops|, ns)], [NLambda(0, plain)])
  {
    var (a, d) := (|b.ops|, EndLambda(c, |b.ops|, ns));
    assert a !in c.lams;
    NamedGrows(c, d, ns);
    forall imp | imp in d.fns ensures Named(d, d.fns[imp]) { NamedGrows(c, d, d.fns[imp]); }
    forall at | at in d.lams ensures Named(d, d.lams[at]) { if at != a { NamedGrows(c, d, d.lams[at]); } }
    assert [NLambda(a, ns)][1..] == [];
    assert forall i :: 0 <= i < |b.ops| ==> Emit(b, op0).ops[i] == b.ops[i];
    assert Grow(b, d);
  }

  lemma {:induction false} CallReads(w: World, tok: Tok, b: Bin)
    requires Fits(b) && Faithful(w, b) && tok.TCall?
    ensures TokOk(w, tok, b)
    decreases Left(w, b), 1, tok, 1
  {
    hide Reads, Faithful, Fits, Inline;
    var one := ToInline(w, tok.func, tok.imp);
    var b1 := if one.Some? then Inline(w, PatchOwn, one.value, b) else b;
    if one.Some? { ImpReads(w, one.value, b); } else { ReadsNil(w, b); }
    ReadsBin(w, b, b1, [], []);
    var n := NCall(|b1.ops|, tok.func, tok.imp, |b1.ops| - |b.ops|);
    ReadsOne(w, b1, OFuncall(tok.func, tok.imp), n);
    ReadsTrans(w, b, b1, Emit(b1, OFuncall(tok.func, tok.imp)), [], [n], [], [StripNode(n)]);
    assert [] + [n] == [n] && [] + [StripNode(n)] == [StripNode(n)];
  }

  lemma {:induction false} FuncReads(w: World, tok: Tok, b: Bin)
    requires Fits(b) && Faithful(w, b) && tok.TFunc?
    ensures TokOk(w, tok, b)
    decreases Left(w, b), 1, tok, 1
  {
    hide Reads, Faithful, Fits, Inline;
    var op := OFuncdef(tok.def);
    var b1 := Inline(w, PatchOwn, tok.def, Emit(b, op));
    var n := NFunc(tok.def, |b1.ops| - (|b.ops| + 1));
    EmitFits(w, b, op);
    ReadsOne(w, b, op, n);
    ImpReads(w, tok.def, Emit(b, op));
    ReadsTrans(w, b, Emit(b, op), b1, [n], [], [StripNode(n)], []);
    assert [n] + [] == [n] && [StripNode(n)] + [] == [StripNode(n)];
  }

  lemma {:induction false} LetReads(w: World, tok: Tok, b: Bin)
    requires Fits(b) && Faithful(w, b) && tok.TLet?
    ensures TokOk(w, tok, b)
    decreases Left(w, b), 1, tok, 1
  {
    hide Reads, Faithful, Fits, CompileSeq, Plain;
    var (b1, ns) := CompileSeq(w, PatchOwn, tok.body, b);
    SeqReads(w, tok.body, b);
    ReadsBin(w, b, b1, ns, Plain(tok.body));
    PutsRead(w, tok.ids, b1);
    var (b2, puts) := CompilePuts(tok.ids, b1);
    ReadsTrans(w, b, b1, b2, ns, puts, Plain(tok.body), PlainPuts(tok.ids));
  }

  function PlainPuts(ids: seq<Binding>): seq<Node> {
    seq(|ids|, i requires 0 <= i < |ids| => NPutVar(ids[|ids| - 1 - i].id, ids[|ids| - 1 - i].ty))
  }

  lemma {:induction false} PutsRead(w: World, ids: seq<Binding>, b: Bin)
    requires Fits(b) && Faithful(w, b)
    ensures var (c, ns) := CompilePuts(ids, b); Reads(w, b, c, ns, PlainPuts(ids))
    decreases |ids|
  {
    hide Reads, Faithful, Fits;
    if ids == [] {
      ReadsNil(w, b);
    } else {
      var (op, n) := (OPutVar(ids[|ids| - 1].id, ids[|ids| - 1].ty), NPutVar(ids[|ids| - 1].id, ids[|ids| - 1].ty));
      EmitFits(w, b, op);
      ReadsOne(w, b, op, n);
      PutsRead(w, ids[..|ids| - 1], Emit(b, op));
      var (c, ns) := CompilePuts(ids[..|ids| - 1], Emit(b, op));
      ReadsTrans(w, b, Emit(b, op), c, [n], ns, [n], PlainPuts(ids[..|ids| - 1]));
      assert PlainPuts(ids) == [n] + PlainPuts(ids[..|ids| - 1]);
    }
  }

  lemma {:induction false} CatchesRead(w: World, cs: seq<CatchClause>, b: Bin)
    requires Fits(b) && Faithful(w, b)
    ensures var (c, ns) := CompileCatches(w, PatchOwn, cs, b); Reads(w, b, c, ns, PlainCatches(cs))
    decreases Left(w, b), 1, cs, 1
  {
    hide Reads, Faithful, Fits;
    if cs == [] {
      ReadsNil(w, b);
    } else {
      hide CompileSeq, Plain;
      var op0 := OCatch(cs[0].ty, 0);
      EmitFits(w, b, op0);
      SeqReads(w, cs[0].body, Emit(b, op0));
      var (b1, ns) := CompileSeq(w, PatchOwn, cs[0].body, Emit(b, op0));
      var b2 := Fill(b1, |b.ops|, OCatch(cs[0].ty, |b1.ops| - |b.ops| - 1));
      var n := NCatch(cs[0].ty, ns);
      ReadsWrap(w, b, op0, b1, ns, Plain(cs[0].body), n, b2);
      ReadsBin(w, b, b2, [n], [NCatch(cs[0].ty, Plain(cs[0].body))]);
      CatchesRead(w, cs[1..], b2);
      var (b3, rest) := CompileCatches(w, PatchOwn, cs[1..], b2);
      ReadsTrans(w, b, b2, b3, [n], rest, [NCatch(cs[0].ty, Plain(cs[0].body))], PlainCatches(cs[1..]));
    }
  }

  // ---- clauses -------------------------------------------------------------

  ghost predicate ReadsCases(w: World, b: Bin, c: Bin, cs: seq<Case>, plain: seq<Case>) {
    Grow(b, c) && Fits(c) && Faithful(w, c) && NamedCases(c, cs) && StripCases(cs) == plain
  }

  lemma ReadsClause(w: World, b: Bin, b1: Bin, b2: Bin, d: Bin, x: Case, px: seq<Node>, py: seq<Node>)
    requires Reads(w, b, b1, x.cond, px) && Reads(w, Emit(b1, OElse(0)), b2, x.body, py)
    requires d == b2.(ops := d.ops) && |b2.ops| <= |d.ops| && forall i :: 0 <= i < |b1.ops| ==> d.ops[i] == b2.ops[i]
    ensures ReadsCases(w, b, d, [x], [Case(px, py)])
  {
    assert Grow(b1, Emit(b1, OElse(0)));
    assert Grow(b1, d);
    GrowTrans(b, b1, d);
    FaithfulOps(w, b2, d);
    NamedGrows(b1, d, x.cond);
    NamedGrows(b2, d, x.body);
    assert [x][1..] == [];
    assert StripCases([x]) == [Case(Strip(x.cond), Strip(x.body))] + StripCases([]);
  }

  lemma ReadsCasesTrans(w: World, b: Bin, c: Bin, d: Bin, x: Case, px: Case, xs: seq<Case>, pxs: seq<Case>)
    requires ReadsCases(w, b, c, [x], [px]) && ReadsCases(w, c, d, xs, pxs)
    ensures ReadsCases(w, b, d, [x] + xs, [px] + pxs)
  {
    GrowTrans(b, c, d);
    NamedGrows(c, d, x.cond);
    NamedGrows(c, d, x.body);
    assert ([x] + xs)[1..] == xs && [x][1..] == [];
    assert StripCases([x]) == [Case(Strip(x.cond), Strip(x.body))] + StripCases([]);
  }

  lemma ReadsCasesNil(w: World, b: Bin)
    requires Fits(b) && Faithful(w, b)
    ensures ReadsCases(w, b, b, [], [])
  {
  }

  lemma ReadsCasesBin(w: World, b: Bin, c: Bin, cs: seq<Case>, plain: seq<Case>)
    requires ReadsCases(w, b, c, cs, plain)
    ensures Fits(c) && Faithful(w, c)
  {
  }

  lemma {:induction false} CasesRead(w: World, cs: seq<SwitchClause>, b: Bin)
    requires Fits(b) && Faithful(w, b)
    ensures var (c, ns, own) := CompileCases(w, PatchOwn, cs, b); ReadsCases(w, b, c, ns, PlainCases(cs))
    decreases Left(w, b), 1, cs, 1
  {
    hide Reads, ReadsCases, Faithful, Fits;
    if cs == [] {
      ReadsCasesNil(w, b);
    } else {
      hide CompileSeq, CompileTok, Plain, PlainTok, Fill, Emit;
      var b4, x, p := FirstReads(w, cs, b);
      CasesRead(w, cs[1..], b4);
      var (b5, rest, own) := CompileCases(w, PatchOwn, cs[1..], b4);
      ReadsCasesTrans(w, b, b4, b5, x, p, rest, PlainCases(cs[1..]));
    }
  }

  /** The first clause alone. */
  lemma {:induction false} FirstReads(w: World, cs: seq<SwitchClause>, b: Bin) returns (b4: Bin, x: Case, p: Case)
    requires Fits(b) && Faithful(w, b) && cs != []
    ensures var head := cs[0].head;
            var (b1, cond) := if head.TGroup? then CompileSeq(w, PatchOwn, head.body, b)
                else CompileTok(w, PatchOwn, head, b);
            var (b2, body) := CompileSeq(w, PatchOwn, cs[0].rest, Emit(b1, OElse(0)));
            var b3 := Emit(b2, OJump(0));
            b4 == Fill(b3, |b1.ops|, OElse(|b3.ops| - |b1.ops| - 1)) && x == Case(cond, body)
    ensures p == Case(if cs[0].head.TGroup? then Plain(cs[0].head.body) else PlainTok(cs[0].head), Plain(cs[0].rest))
    ensures ReadsCases(w, b, b4, [x], [p]) && Fits(b4) && Faithful(w, b4) && Left(w, b4) <= Left(w, b)
    decreases Left(w, b), 1, cs, 0
  {
    hide Reads, ReadsCases, Faithful, Fits, CompileSeq, CompileTok, Plain, PlainTok;
    var head := cs[0].head;
    var (b1, cond) := if head.TGroup? then CompileSeq(w, PatchOwn, head.body, b) else CompileTok(w, PatchOwn, head, b);
    var px := if head.TGroup? then Plain(head.body) else PlainTok(head);
    if head.TGroup? { SeqReads(w, head.body, b); } else { TokReads(w, head, b); }
    ReadsBin(w, b, b1, cond, px);
    EmitFits(w, b1, OElse(0));
    SeqReads(w, cs[0].rest, Emit(b1, OElse(0)));
    var (b2, body) := CompileSeq(w, PatchOwn, cs[0].rest, Emit(b1, OElse(0)));
    b4 := Fill(Emit(b2, OJump(0)), |b1.ops|, OElse(|b2.ops| - |b1.ops|));
    x, p := Case(cond, body), Case(px, Plain(cs[0].rest));
    ReadsClause(w, b, b1, b2, b4, x, px, Plain(cs[0].rest));
    ReadsCasesBin(w, b, b4, [x], [p]);
  }

  lemma {:induction false} SwitchReads(w: World, tok: Tok, b: Bin)
    requires Fits(b) && Faithful(w, b) && tok.TSwitch?
    ensures TokOk(w, tok, b)
    decreases Left(w, b), 1, tok, 1
  {
    hide Reads, Faithful, Fits, CompileCases, ReadsCases;
    CasesRead(w, tok.cases, b);
    var (b1, ns, own) := CompileCases(w, PatchOwn, tok.cases, b);
    CompileCasesDone(w, tok.cases, b);
    OwnAfter(w, b, b1, ns, own);
    SwitchRead(w, b, b1, ns, PlainCases(tok.cases), own);
  }

  lemma OwnAfter(w: World, b: Bin, c: Bin, ns: seq<Case>, own: seq<nat>)
    requires CasesDone(w, b, c, ns, own)
    ensures forall i :: i in own ==> i > |b.ops|
  {
    OwnBounds(c, ns, |b.ops|, own);
  }

  lemma SwitchRead(w: World, b: Bin, b1: Bin, ns: seq<Case>, plain: seq<Case>, own: seq<nat>)
    requires ReadsCases(w, b, b1, ns, plain) && forall i :: i in own ==> i > |b.ops|
    requires forall i :: 0 <= i < |own| ==> own[i] < |b1.ops|
    ensures Reads(w, b, b1.(ops := RetargetOwn(b1.ops, own, |b1.ops|)), [NSwitch(ns)], [NSwitch(plain)])
  {
    var d := b1.(ops := RetargetOwn(b1.ops, own, |b1.ops|));
    assert |d.ops| == |b1.ops|;
    assert forall i :: 0 <= i < |b1.ops| && i !in own ==> d.ops[i] == b1.ops[i];
    SwitchPatched(w, b, b1, d, ns, plain);
  }

  lemma SwitchPatched(w: World, b: Bin, b1: Bin, d: Bin, ns: seq<Case>, plain: seq<Case>)
    requires ReadsCases(w, b, b1, ns, plain) && d == b1.(ops := d.ops) && |d.ops| == |b1.ops|
    requires forall i :: 0 <= i < |b.ops| && i < |b1.ops| ==> d.ops[i] == b1.ops[i]
    ensures Reads(w, b, d, [NSwitch(ns)], [NSwitch(plain)])
  {
    FaithfulOps(w, b1, d);
    NamedCasesGrow(b1, d, ns);
    assert [NSwitch(ns)][1..] == [];
    assert Grow(b, d);
  }

  // ---- inlining ------------------------------------------------------------

  lemma {:induction false} ImpReads(w: World, imp: Imp, b: Bin)
    requires Fits(b) && Faithful(w, b)
    ensures Reads(w, b, Inline(w, PatchOwn, imp, b), [], [])
    decreases Left(w, b), 0
  {
    hide Reads, Faithful, Fits;
    if imp in b.fimps || imp !in w.imps {
      ReadsNil(w, b);
    } else {
      LeftShrinks(w, imp, b);
      var b0 := BeginInline(w, imp, b);
      BeginFits(w, imp, b);
      SeqReads(w, w.imps[imp].toks, b0);
      var (b1, ns) := CompileSeq(w, PatchOwn, w.imps[imp].toks, b0);
      InlineRead(w, imp, b, b1, ns);
    }
  }

  lemma BeginFits(w: World, imp: Imp, b: Bin)
    requires Fits(b) && Faithful(w, b) && imp in w.imps && imp !in b.fimps
    ensures var b0 := BeginInline(w, imp, b); Fits(b0) && Faithful(w, b0) && Grow(b, b0)
  {
    FaithfulOps(w, b, BeginInline(w, imp, b));
  }

  lemma InlineRead(w: World, imp: Imp, b: Bin, b1: Bin, ns: seq<Node>)
    requires Fits(b) && Faithful(w, b) && imp !in b.fimps && imp in w.imps
    requires Reads(w, BeginInline(w, imp, b), b1, ns, Plain(w.imps[imp].toks))
    ensures Reads(w, b, EndInline(imp, |b.ops| + 1, b1, ns), [], [])
  {
    hide Plain;
    var d := EndInline(imp, |b.ops| + 1, b1, ns);
    BeginFits(w, imp, b);
    InlineGrow(w, imp, b, b1, ns);
    NamedGrows(b1, d, ns);
    forall other | other in d.fns
      ensures other in w.imps && Strip(d.fns[other]) == Plain(w.imps[other].toks) && Named(d, d.fns[other])
    { if other != imp { NamedGrows(b1, d, d.fns[other]); } }
    forall at | at in d.lams ensures Named(d, d.lams[at]) { NamedGrows(b1, d, d.lams[at]); }
  }

  /** Compiling reads a program token by token: the annotated tokens, and every
      function body in the bin, are what the source tokens stand for, and each
      lambda token's body is the one its address names. */
  lemma CompiledAsWritten(w: World, toks: seq<Tok>)
    ensures var (b, ns) := Compile(w, PatchOwn, toks);
            && Strip(ns) == Plain(toks)
            && Named(b, ns)
            && Faithful(w, b)
  {
    SeqReads(w, toks, EMPTY_BIN);
  }
}
