/** Where a switch must not stand inside a clause of another.  For each place there is
    a program that, compiled as switch_eval does it, does something else than its
    tokens mean: a condition, a group, a stack literal, a lambda, an inlined function,
    `catch: _`, a `let:`, and any place with more tokens behind it. */
module NestedSwitch {
  import opened Basics
  import opened VmState
  import opened Vm
  import opened Layout
  import opened Compiler
  import opened CompilerProof
  import opened SwitchPatch
  import opened TailSwitch
  import opened Balance

  /** Running the compiled program is not what its tokens mean. */
  ghost predicate Differs(w: World, toks: seq<Tok>, fuel: nat, st: State) {
    var (b, ns) := Compile(w, PatchOwn, toks);
    RunOps(w, Compile(w, PatchAll, toks).0, fuel, 0, -1, st) != EvalSeq(w, b, fuel, ns, st)
  }

  /** Both compilers give the same annotated tokens. */
  lemma SameNodes(w: World, toks: seq<Tok>)
    ensures Compile(w, PatchAll, toks).1 == Compile(w, PatchOwn, toks).1
  {
    SeqPaired(w, toks, EMPTY_BIN, EMPTY_BIN);
  }

  /** A switch of one clause, whose condition is the literal `t`. */
  function Switch(t: Value, rest: seq<Tok>): Tok {
    TSwitch([SwitchClause(TLiteral(t), rest)])
  }

  function Inner(t: Value, v: Value): Tok {
    Switch(t, [TLiteral(v)])
  }

  // ---- compiling one such program ------------------------------------------

  lemma NoToks(w: World, b: Bin)
    ensures CompileSeq(w, PatchAll, [], b) == (b, [])
  {
  }

  lemma ConsToks(w: World, tok: Tok, toks: seq<Tok>, b: Bin)
    ensures var (b1, ns) := CompileTok(w, PatchAll, tok, b);
            var (b2, ms) := CompileSeq(w, PatchAll, toks, b1);
            CompileSeq(w, PatchAll, [tok] + toks, b) == (b2, ns + ms)
  {
    assert ([tok] + toks)[1..] == toks;
    hide CompileTok;
  }

  lemma OneTok(w: World, tok: Tok, b: Bin)
    ensures CompileSeq(w, PatchAll, [tok], b) == CompileTok(w, PatchAll, tok, b)
  {
    hide CompileSeq, CompileTok;
    var (b1, ns) := CompileTok(w, PatchAll, tok, b);
    ConsToks(w, tok, [], b);
    NoToks(w, b1);
    assert [tok] + [] == [tok] && ns + [] == ns;
  }

  lemma TwoToks(w: World, tok: Tok, tok2: Tok, b: Bin)
    ensures var (b1, ns) := CompileTok(w, PatchAll, tok, b);
            var (b2, ms) := CompileTok(w, PatchAll, tok2, b1);
            CompileSeq(w, PatchAll, [tok, tok2], b) == (b2, ns + ms)
  {
    hide CompileSeq, CompileTok;
    ConsToks(w, tok, [tok2], b);
    OneTok(w, tok2, CompileTok(w, PatchAll, tok, b).0);
    assert [tok] + [tok2] == [tok, tok2];
  }

  /** The ops of a switch with one clause, around those of the rest of the clause. */
  function SwitchOps(ops: seq<Op>, a: nat): seq<Op>
    requires a + 1 < |ops|
  {
    RetargetAll(ops[a + 1 := OElse(|ops| - a - 1)] + [OJump(0)], a, |ops| + 1)
  }

  lemma SwitchOf(w: World, t: Value, rest: seq<Tok>, b: Bin)
    ensures var (b1, ns) := CompileSeq(w, PatchAll, rest, Emit(Emit(b, OPush(t)), OElse(0)));
            var (c, ms) := CompileTok(w, PatchAll, Switch(t, rest), b);
            && |b.ops| + 1 < |b1.ops| && c == b1.(ops := SwitchOps(b1.ops, |b.ops|))
            && ms == [NSwitch([Case([NPush(t)], ns)])]
  {
    hide CompileSeq, CompileTok, CompileCases;
    var cs := [SwitchClause(TLiteral(t), rest)];
    CasesOf(w, PatchAll, cs, b);
    PushTok(w, t, b);
    assert cs[1..] == [];
    var (b4, c, j) := FirstOf(w, PatchAll, cs[0], b);
    NoCases(w, b4);
    assert [c] + [] == [c];
    SwitchTok(w, cs, b);
  }

  lemma PushTok(w: World, v: Value, b: Bin)
    ensures CompileTok(w, PatchAll, TLiteral(v), b) == (Emit(b, OPush(v)), [NPush(v)])
  {
  }

  lemma SwitchTok(w: World, cs: seq<SwitchClause>, b: Bin)
    ensures var (b1, ns, own) := CompileCases(w, PatchAll, cs, b);
            CompileTok(w, PatchAll, TSwitch(cs), b)
                == (b1.(ops := RetargetAll(b1.ops, |b.ops|, |b1.ops|)), [NSwitch(ns)])
  {
    hide CompileCases;
  }

  /** The inner switch behind any ops. */
  lemma InnerOf(w: World, t: Value, v: Value, b: Bin)
    ensures CompileTok(w, PatchAll, Inner(t, v), b)
         == (b.(ops := b.ops + [OPush(t), OElse(2), OPush(v), OJump(|b.ops| + 4)]),
             [NSwitch([Case([NPush(t)], [NPush(v)])])])
  {
    hide CompileSeq, CompileTok;
    SwitchOf(w, t, [TLiteral(v)], b);
    OneTok(w, TLiteral(v), Emit(Emit(b, OPush(t)), OElse(0)));
    PushTok(w, v, Emit(Emit(b, OPush(t)), OElse(0)));
    var ops := b.ops + [OPush(t)] + [OElse(0)] + [OPush(v)];
    assert SwitchOps(ops, |b.ops|) == b.ops + [OPush(t), OElse(2), OPush(v), OJump(|b.ops| + 4)];
  }

  // ---- running it ----------------------------------------------------------

  /** A state in which literals can be tested and pushed. */
  predicate Plain(w: World, t: Value, st: State) {
    st.errors == [] && w.isTrue(t) && Top(st) < |st.heap|
  }

  lemma TakenBack(w: World, t: Value, st: State)
    requires Plain(w, t, st)
    ensures DoElse(w, Push(st, t)) == Taken(st)
  {
    assert TopStack(Push(st, t))[..|TopStack(st)|] == TopStack(st);
    assert SetStack(Push(st, t), Top(st), TopStack(st)).heap == st.heap;
  }

  lemma PushGoes(w: World, b: Bin, fuel: nat, pc: nat, stop: int, st: State)
    requires pc < |b.ops| && pc != stop && b.ops[pc].OPush? && st.errors == []
    ensures RunOps(w, b, fuel, pc, stop, st) == RunOps(w, b, fuel, pc + 1, stop, Push(st, b.ops[pc].v))
  {
    hide RunOps;
    OneStep(w, b, fuel, pc, stop, st, Next(pc + 1, Push(st, b.ops[pc].v)));
  }

  lemma ElseGoes(w: World, b: Bin, fuel: nat, pc: nat, stop: int, st: State, st1: State)
    requires pc < |b.ops| && pc != stop && b.ops[pc].OElse? && st.errors == [] && DoElse(w, st) == Taken(st1)
    ensures RunOps(w, b, fuel, pc, stop, st) == RunOps(w, b, fuel, pc + 1, stop, st1)
  {
    hide RunOps, DoElse;
    OneStep(w, b, fuel, pc, stop, st, Next(pc + 1, st1));
  }

  lemma JumpGoes(w: World, b: Bin, fuel: nat, pc: nat, stop: int, st: State)
    requires pc < |b.ops| && pc != stop && b.ops[pc].OJump? && b.ops[pc].pc > pc
    ensures RunOps(w, b, fuel, pc, stop, st) == RunOps(w, b, fuel, b.ops[pc].pc, stop, st)
  {
    hide RunOps;
    OneStep(w, b, fuel, pc, stop, st, Next(b.ops[pc].pc, st));
  }

  /** While errors are pending these ops do nothing. */
  lemma FailGoes(w: World, b: Bin, fuel: nat, pc: nat, stop: int, st: State)
    requires pc < |b.ops| && pc != stop && (b.ops[pc].OPush? || b.ops[pc].OElse?) && st.errors != []
    ensures RunOps(w, b, fuel, pc, stop, st) == RunOps(w, b, fuel, pc + 1, stop, st)
  {
    hide RunOps;
    OneStep(w, b, fuel, pc, stop, st, Next(pc + 1, st));
  }

  lemma Enters(w: World, b: Bin, fuel: nat, a: nat, stop: int, st: State, t: Value)
    requires Plain(w, t, st) && a + 1 < |b.ops| && b.ops[a] == OPush(t) && b.ops[a + 1].OElse? && stop != a
             && stop != a + 1
    ensures RunOps(w, b, fuel, a, stop, st) == RunOps(w, b, fuel, a + 2, stop, st)
  {
    hide DoElse, RunOps;
    TakenBack(w, t, st);
    PushGoes(w, b, fuel, a, stop, st);
    ElseGoes(w, b, fuel, a + 1, stop, Push(st, t), st);
  }

  /** The inner switch, taken, with its jump going to `end`. */
  lemma InnerRuns(w: World, b: Bin, fuel: nat, a: nat, stop: int, st: State, t: Value, v: Value, end: nat)
    requires Plain(w, t, st) && a + 3 < |b.ops| && b.ops[a..a + 4] == [OPush(t), OElse(2), OPush(v), OJump(end)]
    requires !(a <= stop < a + 4) && end > a + 3
    ensures RunOps(w, b, fuel, a, stop, st) == RunOps(w, b, fuel, end, stop, Push(st, v))
  {
    hide RunOps;
    var part := b.ops[a..a + 4];
    assert part[0] == b.ops[a] && part[1] == b.ops[a + 1] && part[2] == b.ops[a + 2] && part[3] == b.ops[a + 3];
    Enters(w, b, fuel, a, stop, st, t);
    PushGoes(w, b, fuel, a + 2, stop, st);
    JumpGoes(w, b, fuel, a + 3, stop, Push(st, v));
  }

  lemma Finished(w: World, b: Bin, fuel: nat, stop: int, st: State)
    ensures RunOps(w, b, fuel, |b.ops|, stop, st) == Some(st)
  {
  }

  lemma EvalOne(w: World, b: Bin, fuel: nat, n: Node, st: State)
    ensures EvalSeq(w, b, fuel, [n], st) == EvalNode(w, b, fuel, n, st)
  {
    hide EvalNode;
    assert [n][1..] == [];
  }

  lemma EvalTwo(w: World, b: Bin, fuel: nat, n: Node, m: Node, st: State)
    ensures var r := EvalNode(w, b, fuel, n, st);
            EvalSeq(w, b, fuel, [n, m], st) == if r.None? then None else EvalNode(w, b, fuel, m, r.value)
  {
    hide EvalNode;
    assert [n, m][1..] == [m];
    var r := EvalNode(w, b, fuel, n, st);
    if r.Some? { EvalOne(w, b, fuel, m, r.value); }
  }

  /** A clause that is taken, in the meaning of tokens. */
  lemma ClauseTaken(w: World, b: Bin, fuel: nat, t: Value, ns: seq<Node>, st: State)
    requires Plain(w, t, st)
    ensures EvalNode(w, b, fuel, NSwitch([Case([NPush(t)], ns)]), st) == EvalSeq(w, b, fuel, ns, st)
  {
    hide DoElse, EvalNode;
    TakenBack(w, t, st);
    EvalOne(w, b, fuel, NPush(t), st);
    PushMeans(w, b, fuel, t, st);
    SwitchMeans(w, b, fuel, [Case([NPush(t)], ns)], st);
  }

  lemma PushMeans(w: World, b: Bin, fuel: nat, v: Value, st: State)
    ensures EvalNode(w, b, fuel, NPush(v), st) == Some(if st.errors != [] then st else Push(st, v))
  {
  }

  lemma SwitchMeans(w: World, b: Bin, fuel: nat, cs: seq<Case>, st: State)
    ensures EvalNode(w, b, fuel, NSwitch(cs), st) == EvalCases(w, b, fuel, cs, st)
  {
    hide EvalCases;
  }

  lemma InnerMeans(w: World, b: Bin, fuel: nat, t: Value, v: Value, st: State)
    requires Plain(w, t, st)
    ensures EvalNode(w, b, fuel, NSwitch([Case([NPush(t)], [NPush(v)])]), st) == Some(Push(st, v))
  {
    hide EvalNode;
    ClauseTaken(w, b, fuel, t, [NPush(v)], st);
    EvalOne(w, b, fuel, NPush(v), st);
    PushMeans(w, b, fuel, v, st);
  }

  /** The first two ops of the outer switch. */
  function Head(t: Value): Bin {
    Emit(Emit(EMPTY_BIN, OPush(t)), OElse(0))
  }

  // ---- more tokens behind --------------------------------------------------

  /** `switch: ((t switch: ((t v);) u);)` skips the last token. */
  lemma BehindDiffers(w: World, t: Value, v: Value, u: Value, fuel: nat, st: State)
    requires Plain(w, t, st)
    ensures Differs(w, [Switch(t, [Inner(t, v), TLiteral(u)])], fuel, st)
  {
    hide CompileSeq, CompileTok, Compile, RunOps, EvalSeq, EvalNode;
    var toks := [Switch(t, [Inner(t, v), TLiteral(u)])];
    var (b, ns) := Compile(w, PatchAll, toks);
    BehindCompiles(w, t, v, u);
    SameNodes(w, toks);
    Enters(w, b, fuel, 0, -1, st, t);
    InnerRuns(w, b, fuel, 2, -1, st, t, v, 8);
    Finished(w, b, fuel, -1, Push(st, v));
    var y := Compile(w, PatchOwn, toks).0;
    var inner := NSwitch([Case([NPush(t)], [NPush(v)])]);
    EvalOne(w, y, fuel, ns[0], st);
    ClauseTaken(w, y, fuel, t, [inner, NPush(u)], st);
    EvalTwo(w, y, fuel, inner, NPush(u), st);
    InnerMeans(w, y, fuel, t, v, st);
    PushMeans(w, y, fuel, u, Push(st, v));
    assert |TopStack(Push(st, v))| == |TopStack(st)| + 1 && |TopStack(Push(Push(st, v), u))| == |TopStack(st)| + 2;
  }

  lemma BehindCompiles(w: World, t: Value, v: Value, u: Value)
    ensures var (b, ns) := Compile(w, PatchAll, [Switch(t, [Inner(t, v), TLiteral(u)])]);
            && b.ops == [OPush(t), OElse(6), OPush(t), OElse(2), OPush(v), OJump(8), OPush(u), OJump(8)]
            && ns == [NSwitch([Case([NPush(t)], [NSwitch([Case([NPush(t)], [NPush(v)])]), NPush(u)])])]
  {
    hide CompileSeq, CompileTok;
    var rest := [Inner(t, v), TLiteral(u)];
    OneTok(w, Switch(t, rest), EMPTY_BIN);
    SwitchOf(w, t, rest, EMPTY_BIN);
    TwoToks(w, Inner(t, v), TLiteral(u), Head(t));
    InnerOf(w, t, v, Head(t));
    PushTok(w, u, CompileTok(w, PatchAll, Inner(t, v), Head(t)).0);
    var inner := NSwitch([Case([NPush(t)], [NPush(v)])]);
    assert [inner] + [NPush(u)] == [inner, NPush(u)];
    assert SwitchOps([OPush(t), OElse(0), OPush(t), OElse(2), OPush(v), OJump(6), OPush(u)], 0)
        == [OPush(t), OElse(6), OPush(t), OElse(2), OPush(v), OJump(8), OPush(u), OJump(8)];
  }

  // ---- in a condition ------------------------------------------------------

  /** `switch: (((switch: ((t v);)) u);)` takes what the condition leaves for its result. */
  lemma CondDiffers(w: World, t: Value, v: Value, u: Value, fuel: nat, st: State)
    requires Plain(w, t, st) && u != v
    ensures Differs(w, CondToks(t, v, u), fuel, st)
  {
    hide CompileSeq, CompileTok, Compile, RunOps, EvalSeq, EvalNode, DoElse;
    var toks := CondToks(t, v, u);
    var (b, ns) := Compile(w, PatchAll, toks);
    CondCompiles(w, t, v, u);
    SameNodes(w, toks);
    InnerRuns(w, b, fuel, 0, -1, st, t, v, 7);
    Finished(w, b, fuel, -1, Push(st, v));
    var y := Compile(w, PatchOwn, toks).0;
    EvalOne(w, y, fuel, ns[0], st);
    CondMeans(w, y, fuel, t, v, u, st);
    assert TopStack(Push(st, v))[|TopStack(st)|] == v && TopStack(Push(st, u))[|TopStack(st)|] == u;
    assert |TopStack(Push(st, v))| == |TopStack(st)| + 1;
  }

  function CondToks(t: Value, v: Value, u: Value): seq<Tok> {
    [TSwitch([SwitchClause(TGroup([Inner(t, v)]), [TLiteral(u)])])]
  }

  function CondNode(t: Value, v: Value, u: Value): Node {
    NSwitch([Case([NSwitch([Case([NPush(t)], [NPush(v)])])], [NPush(u)])])
  }

  lemma CondCompiles(w: World, t: Value, v: Value, u: Value)
    ensures var (b, ns) := Compile(w, PatchAll, CondToks(t, v, u));
            && b.ops == [OPush(t), OElse(2), OPush(v), OJump(7), OElse(2), OPush(u), OJump(7)]
            && ns == [CondNode(t, v, u)]
  {
    hide CompileSeq, CompileTok, CompileCases;
    var c := SwitchClause(TGroup([Inner(t, v)]), [TLiteral(u)]);
    OneTok(w, TSwitch([c]), EMPTY_BIN);
    OneTok(w, Inner(t, v), EMPTY_BIN);
    InnerOf(w, t, v, EMPTY_BIN);
    var b1 := CompileTok(w, PatchAll, Inner(t, v), EMPTY_BIN).0;
    OneTok(w, TLiteral(u), Emit(b1, OElse(0)));
    PushTok(w, u, Emit(b1, OElse(0)));
    CasesOf(w, PatchAll, [c], EMPTY_BIN);
    var (b4, x, j) := FirstOf(w, PatchAll, c, EMPTY_BIN);
    assert [c][1..] == [] && [x] + [] == [x];
    NoCases(w, b4);
    SwitchTok(w, [c], EMPTY_BIN);
    assert b4.ops == [OPush(t), OElse(2), OPush(v), OJump(4), OElse(2), OPush(u), OJump(0)];
  }

  lemma CondMeans(w: World, b: Bin, fuel: nat, t: Value, v: Value, u: Value, st: State)
    requires Plain(w, t, st)
    ensures EvalNode(w, b, fuel, CondNode(t, v, u), st) == Some(if w.isTrue(v) then Push(st, u) else st)
  {
    hide EvalNode;
    var inner := NSwitch([Case([NPush(t)], [NPush(v)])]);
    InnerMeans(w, b, fuel, t, v, st);
    EvalOne(w, b, fuel, inner, st);
    Tests(w, v, st);
    EvalOne(w, b, fuel, NPush(u), st);
    PushMeans(w, b, fuel, u, st);
    SwitchMeans(w, b, fuel, [Case([inner], [NPush(u)])], st);
    assert [Case([inner], [NPush(u)])][1..] == [];
    hide EvalSeq, DoElse;
  }

  lemma Tests(w: World, v: Value, st: State)
    requires Top(st) < |st.heap|
    ensures DoElse(w, Push(st, v)) == if w.isTrue(v) then Taken(st) else Skipped(st)
  {
    assert TopStack(Push(st, v))[..|TopStack(st)|] == TopStack(st);
    assert SetStack(Push(st, v), Top(st), TopStack(st)).heap == st.heap;
  }

  // ---- in a group or a stack literal ---------------------------------------

  function Body(stack: bool, body: seq<Tok>): Tok {
    if stack then TStack(body) else TGroup(body)
  }

  function BodyNode(stack: bool, body: seq<Node>): Node {
    if stack then NStack(body) else NGroup(body)
  }

  /** `switch: ((t (switch: ((t v);)));)`, or with `[]`, leaves the inner scope open. */
  lemma BodyDiffers(w: World, stack: bool, t: Value, v: Value, fuel: nat, st: State)
    requires Plain(w, t, st) && st.scopes != []
    ensures Differs(w, [Switch(t, [Body(stack, [Inner(t, v)])])], fuel, st)
  {
    hide CompileSeq, CompileTok, Compile, RunOps, EvalSeq, EvalNode, End;
    var toks := [Switch(t, [Body(stack, [Inner(t, v)])])];
    var (b, ns) := Compile(w, PatchAll, toks);
    BodyCompiles(w, stack, t, v);
    SameNodes(w, toks);
    var st1 := EnterGroup(st);
    var n := |BodyTail(stack)|;
    assert b.ops[3..7] == [OPush(t), OElse(2), OPush(v), OJump(8 + n)];
    Enters(w, b, fuel, 0, -1, st, t);
    GroupGoes(w, b, fuel, 2, st);
    InnerRuns(w, b, fuel, 3, -1, st1, t, v, |b.ops|);
    Finished(w, b, fuel, -1, Push(st1, v));
    var y := Compile(w, PatchOwn, toks).0;
    var inner := NSwitch([Case([NPush(t)], [NPush(v)])]);
    EvalOne(w, y, fuel, ns[0], st);
    ClauseTaken(w, y, fuel, t, [BodyNode(stack, [inner])], st);
    EvalOne(w, y, fuel, BodyNode(stack, [inner]), st);
    EvalOne(w, y, fuel, inner, st1);
    InnerMeans(w, y, fuel, t, v, st1);
    BodyMeans(w, y, fuel, stack, [inner], st, Push(st1, v));
    assert |Push(st1, v).scopes| == |st.scopes| + 1;
  }

  lemma GroupGoes(w: World, b: Bin, fuel: nat, pc: nat, st: State)
    requires pc < |b.ops| && b.ops[pc].OBegin? && b.ops[pc].fimp.None? && st.errors == []
    ensures RunOps(w, b, fuel, pc, -1, st) == RunOps(w, b, fuel, pc + 1, -1, EnterGroup(st))
  {
    hide RunOps;
    OneStep(w, b, fuel, pc, -1, st, Next(pc + 1, EnterGroup(st)));
  }

  lemma BodyMeans(w: World, b: Bin, fuel: nat, stack: bool, body: seq<Node>, st: State, r: State)
    requires st.errors == [] && st.scopes != [] && EvalSeq(w, b, fuel, body, EnterGroup(st)) == Some(r)
             && |r.scopes| == |st.scopes| + 1
    ensures var x := EvalNode(w, b, fuel, BodyNode(stack, body), st);
            x.Some? && |x.value.scopes| == |st.scopes|
  {
    hide EvalSeq, EnterGroup;
    assert |End(r).scopes| == |st.scopes| && |End(Stash(r)).scopes| == |st.scopes|;
  }

  /** Ops up to the end of the inner switch, with the size and target still to be told. */
  function BodyHead(t: Value, v: Value, skip: nat, nops: nat, target: nat): seq<Op> {
    [OPush(t), OElse(skip), OBegin(None, nops), OPush(t), OElse(2), OPush(v), OJump(target)]
  }

  function BodyTail(stack: bool): seq<Op> {
    if stack then [OStash, OEnd] else [OEnd]
  }

  lemma BodyCompiles(w: World, stack: bool, t: Value, v: Value)
    ensures var (b, ns) := Compile(w, PatchAll, [Switch(t, [Body(stack, [Inner(t, v)])])]);
            var n := |BodyTail(stack)|;
            && b.ops == BodyHead(t, v, 6 + n, 4 + n, 8 + n) + BodyTail(stack) + [OJump(8 + n)]
            && ns == [NSwitch([Case([NPush(t)], [BodyNode(stack, [NSwitch([Case([NPush(t)], [NPush(v)])])])])])]
  {
    hide CompileSeq, CompileTok, SwitchOps;
    var tok := Body(stack, [Inner(t, v)]);
    OneTok(w, Switch(t, [tok]), EMPTY_BIN);
    SwitchOf(w, t, [tok], EMPTY_BIN);
    OneTok(w, tok, Head(t));
    BodyTok(w, stack, [Inner(t, v)], Head(t));
    var b0 := Emit(Head(t), OBegin(None, 0));
    OneTok(w, Inner(t, v), b0);
    InnerOf(w, t, v, b0);
    assert b0.ops == [OPush(t), OElse(0), OBegin(None, 0)];
    var n := |BodyTail(stack)|;
    assert CompileTok(w, PatchAll, tok, Head(t)).0.ops
        == ([OPush(t), OElse(0), OBegin(None, 0)] + [OPush(t), OElse(2), OPush(v), OJump(7)]
            + BodyTail(stack))[2 := OBegin(None, 4 + n)];
    BodyOps(t, v, BodyTail(stack));
  }

  lemma BodyOps(t: Value, v: Value, tail: seq<Op>)
    requires forall i :: 0 <= i < |tail| ==> !tail[i].OJump?
    ensures var n := |tail|;
            var ops := ([OPush(t), OElse(0), OBegin(None, 0)] + [OPush(t), OElse(2), OPush(v), OJump(7)]
                        + tail)[2 := OBegin(None, 4 + n)];
            SwitchOps(ops, 0) == BodyHead(t, v, 6 + n, 4 + n, 8 + n) + tail + [OJump(8 + n)]
  {
    var n := |tail|;
    var ops := ([OPush(t), OElse(0), OBegin(None, 0)] + [OPush(t), OElse(2), OPush(v), OJump(7)]
                + tail)[2 := OBegin(None, 4 + n)];
    assert ops == BodyHead(t, v, 0, 4 + n, 7) + tail;
    var (x, y) := (SwitchOps(ops, 0), BodyHead(t, v, 6 + n, 4 + n, 8 + n) + tail + [OJump(8 + n)]);
    assert |x| == |y|;
    forall i | 0 <= i < |x| ensures x[i] == y[i] {
      if 7 <= i < 7 + n { assert ops[i] == tail[i - 7]; }
    }
  }

  lemma BodyTok(w: World, stack: bool, body: seq<Tok>, b: Bin)
    requires body != []
    ensures var (b1, ns) := CompileSeq(w, PatchAll, body, Emit(b, OBegin(None, 0)));
            var tail := BodyTail(stack);
            var (c, ms) := CompileTok(w, PatchAll, Body(stack, body), b);
            && |b.ops| < |b1.ops|
            && c == Fill(b1.(ops := b1.ops + tail), |b.ops|, OBegin(None, |b1.ops| + |tail| - |b.ops| - 1))
            && ms == [BodyNode(stack, ns)]
  {
    hide CompileSeq;
    var b1 := CompileSeq(w, PatchAll, body, Emit(b, OBegin(None, 0))).0;
    assert b1.ops + [OStash] + [OEnd] == b1.ops + [OStash, OEnd];
  }

  // ---- in a let ------------------------------------------------------------

  /** `switch: ((t let: x switch: ((t v);););)` never binds the variable. */
  lemma LetDiffers(w: World, t: Value, v: Value, x: Sym, fuel: nat, st: State)
    requires Plain(w, t, st)
    ensures Differs(w, [Switch(t, [TLet([Inner(t, v)], [Binding(x, None)])])], fuel, st)
  {
    hide CompileSeq, CompileTok, Compile, RunOps, EvalSeq, EvalNode;
    var toks := [Switch(t, [TLet([Inner(t, v)], [Binding(x, None)])])];
    var (b, ns) := Compile(w, PatchAll, toks);
    LetCompiles(w, t, v, x);
    SameNodes(w, toks);
    Enters(w, b, fuel, 0, -1, st, t);
    InnerRuns(w, b, fuel, 2, -1, st, t, v, 8);
    Finished(w, b, fuel, -1, Push(st, v));
    var y := Compile(w, PatchOwn, toks).0;
    var inner := NSwitch([Case([NPush(t)], [NPush(v)])]);
    EvalOne(w, y, fuel, ns[0], st);
    ClauseTaken(w, y, fuel, t, [inner, NPutVar(x, None)], st);
    EvalTwo(w, y, fuel, inner, NPutVar(x, None), st);
    InnerMeans(w, y, fuel, t, v, st);
    PutMeans(w, y, fuel, x, Push(st, v));
    assert |TopStack(Push(st, v))| == |TopStack(st)| + 1;
  }

  lemma PutMeans(w: World, b: Bin, fuel: nat, x: Sym, st: State)
    requires st.errors == [] && TopStack(st) != [] && Top(st) < |st.heap|
    ensures var r := EvalNode(w, b, fuel, NPutVar(x, None), st);
            r.Some? && |TopStack(r.value)| == |TopStack(st)| - 1
  {
  }

  lemma LetCompiles(w: World, t: Value, v: Value, x: Sym)
    ensures var (b, ns) := Compile(w, PatchAll, [Switch(t, [TLet([Inner(t, v)], [Binding(x, None)])])]);
            && b.ops == [OPush(t), OElse(6), OPush(t), OElse(2), OPush(v), OJump(8), OPutVar(x, None), OJump(8)]
            && ns == [NSwitch([Case([NPush(t)], [NSwitch([Case([NPush(t)], [NPush(v)])]), NPutVar(x, None)])])]
  {
    hide CompileSeq, CompileTok;
    var (body, ids) := ([Inner(t, v)], [Binding(x, None)]);
    OneTok(w, Switch(t, [TLet(body, ids)]), EMPTY_BIN);
    SwitchOf(w, t, [TLet(body, ids)], EMPTY_BIN);
    OneTok(w, TLet(body, ids), Head(t));
    LetTok(w, body, x, Head(t));
    OneTok(w, Inner(t, v), Head(t));
    InnerOf(w, t, v, Head(t));
    var inner := NSwitch([Case([NPush(t)], [NPush(v)])]);
    assert [inner] + [NPutVar(x, None)] == [inner, NPutVar(x, None)];
    assert SwitchOps([OPush(t), OElse(0), OPush(t), OElse(2), OPush(v), OJump(6), OPutVar(x, None)], 0)
        == [OPush(t), OElse(6), OPush(t), OElse(2), OPush(v), OJump(8), OPutVar(x, None), OJump(8)];
  }

  lemma LetTok(w: World, body: seq<Tok>, x: Sym, b: Bin)
    ensures var (b1, ns) := CompileSeq(w, PatchAll, body, b);
            CompileTok(w, PatchAll, TLet(body, [Binding(x, None)]), b)
                == (Emit(b1, OPutVar(x, None)), ns + [NPutVar(x, None)])
  {
    hide CompileSeq;
    OnePut(x, CompileSeq(w, PatchAll, body, b).0);
    hide CompilePuts;
  }

  lemma OnePut(x: Sym, b: Bin)
    ensures CompilePuts([Binding(x, None)], b) == (Emit(b, OPutVar(x, None)), [NPutVar(x, None)])
  {
    assert [Binding(x, None)][..0] == [];
    assert CompilePuts([], Emit(b, OPutVar(x, None))) == (Emit(b, OPutVar(x, None)), []);
    assert [NPutVar(x, None)] + [] == [NPutVar(x, None)];
  }

  // ---- in a lambda ---------------------------------------------------------

  /** In `switch: ((t {switch: ((t v);)});) u` a call of the lambda, at whatever time,
      does not stop at its end but goes on behind the outer switch. */
  lemma LambdaDiffers(w: World, t: Value, v: Value, u: Value, fuel: nat, st: State)
    requires Plain(w, t, st)
    ensures var toks := [Switch(t, [TLambda([Inner(t, v)])]), TLiteral(u)];
            var (x, y) := (Compile(w, PatchAll, toks).0, Compile(w, PatchOwn, toks).0);
            && RunTarget(Interp, w, x, fuel, LambdaAt(2), st) == Some(Push(Push(st, v), u))
            && RunTarget(Tree, w, y, fuel, LambdaAt(2), st) == Some(Push(st, v))
  {
    hide CompileSeq, CompileTok, Compile, RunOps, EvalSeq, EvalNode;
    var toks := [Switch(t, [TLambda([Inner(t, v)])]), TLiteral(u)];
    var (x, y) := (Compile(w, PatchAll, toks).0, Compile(w, PatchOwn, toks).0);
    LambdaCompiles(w, t, v, u);
    SameLambdas(w, toks);
    InnerRuns(w, x, fuel, 3, 7, st, t, v, 8);
    PushGoes(w, x, fuel, 8, 7, Push(st, v));
    Finished(w, x, fuel, 7, Push(Push(st, v), u));
    var inner := NSwitch([Case([NPush(t)], [NPush(v)])]);
    EvalOne(w, y, fuel, inner, st);
    InnerMeans(w, y, fuel, t, v, st);
  }

  lemma SameLambdas(w: World, toks: seq<Tok>)
    ensures Compile(w, PatchAll, toks).0.lams == Compile(w, PatchOwn, toks).0.lams
  {
    SeqPaired(w, toks, EMPTY_BIN, EMPTY_BIN);
  }

  lemma LambdaCompiles(w: World, t: Value, v: Value, u: Value)
    ensures var b := Compile(w, PatchAll, [Switch(t, [TLambda([Inner(t, v)])]), TLiteral(u)]).0;
            && b.ops == [OPush(t), OElse(6), OLambda(3, 4), OPush(t), OElse(2), OPush(v), OJump(8), OJump(8), OPush(u)]
            && 2 in b.lams && b.lams[2] == [NSwitch([Case([NPush(t)], [NPush(v)])])]
  {
    hide CompileSeq, CompileTok;
    var tok := TLambda([Inner(t, v)]);
    TwoToks(w, Switch(t, [tok]), TLiteral(u), EMPTY_BIN);
    PushTok(w, u, CompileTok(w, PatchAll, Switch(t, [tok]), EMPTY_BIN).0);
    SwitchOf(w, t, [tok], EMPTY_BIN);
    OneTok(w, tok, Head(t));
    LambdaTok(w, [Inner(t, v)], Head(t));
    OneTok(w, Inner(t, v), Emit(Head(t), OLambda(3, 0)));
    InnerOf(w, t, v, Emit(Head(t), OLambda(3, 0)));
    assert SwitchOps([OPush(t), OElse(0), OLambda(3, 4), OPush(t), OElse(2), OPush(v), OJump(7)], 0)
        == [OPush(t), OElse(6), OLambda(3, 4), OPush(t), OElse(2), OPush(v), OJump(8), OJump(8)];
  }

  lemma LambdaTok(w: World, body: seq<Tok>, b: Bin)
    ensures var (b1, ns) := CompileSeq(w, PatchAll, body, Emit(b, OLambda(|b.ops| + 1, 0)));
            && |b.ops| < |b1.ops|
            && CompileTok(w, PatchAll, TLambda(body), b) == (EndLambda(b1, |b.ops|, ns), [NLambda(|b.ops|, ns)])
  {
    hide CompileSeq;
  }

  // ---- in catch: _ ---------------------------------------------------------

  /** `switch: ((t catch: ((_ switch: ((t v);)));) u`, entered with an error: what is
      behind the switch runs once while the error is set aside. */
  lemma CatchDiffers(w: World, t: Value, v: Value, u: Value, e: Value, fuel: nat, st: State)
    requires Plain(w, t, st)
    ensures Differs(w, [Switch(t, [TCatch([CatchClause(None, [Inner(t, v)])])]), TLiteral(u)], fuel, Rethrow(st, e))
  {
    hide CompileSeq, CompileTok, Compile, RunOps, EvalSeq, EvalNode;
    var toks := [Switch(t, [TCatch([CatchClause(None, [Inner(t, v)])])]), TLiteral(u)];
    var (b, ns) := Compile(w, PatchAll, toks);
    CatchCompiles(w, t, v, u);
    SameNodes(w, toks);
    CatchWalks(w, b, fuel, t, v, u, e, st);
    CatchMeans(w, Compile(w, PatchOwn, toks).0, fuel, t, v, u, e, st);
    assert |TopStack(Push(st, v))| == |TopStack(st)| + 1 && |TopStack(Push(Push(st, v), u))| == |TopStack(st)| + 2;
  }

  function CatchOps(t: Value, v: Value, u: Value): seq<Op> {
    [OPush(t), OElse(6), OCatch(None, 4), OPush(t), OElse(2), OPush(v), OJump(8), OJump(8), OPush(u)]
  }

  lemma CatchWalks(w: World, b: Bin, fuel: nat, t: Value, v: Value, u: Value, e: Value, st: State)
    requires Plain(w, t, st) && b.ops == CatchOps(t, v, u)
    ensures RunOps(w, b, fuel, 0, -1, Rethrow(st, e)) == Some(Rethrow(Push(Push(st, v), u), e))
  {
    hide RunOps;
    var (st1, r) := (Rethrow(st, e), Push(Push(st, v), u));
    FailGoes(w, b, fuel, 0, -1, st1);
    FailGoes(w, b, fuel, 1, -1, st1);
    assert DropError(st1) == st;
    InnerRuns(w, b, fuel, 3, 7, st, t, v, 8);
    PushGoes(w, b, fuel, 8, 7, Push(st, v));
    Finished(w, b, fuel, 7, r);
    CleansUp(w, b, fuel, 2, st1, r);
    CatchWalksAgain(w, b, fuel, t, v, u, Rethrow(r, e));
  }

  /** `catch: _` in error mode: its body, then the same ops again. */
  lemma CleansUp(w: World, b: Bin, fuel: nat, pc: nat, st: State, r: State)
    requires pc < |b.ops| && b.ops[pc].OCatch? && b.ops[pc].ty.None? && st.errors != []
    requires RunOps(w, b, fuel, pc + 1, pc + 1 + b.ops[pc].nops, DropError(st)) == Some(r)
    ensures RunOps(w, b, fuel, pc, -1, st) == RunOps(w, b, fuel, pc + 1, -1, Rethrow(r, st.errors[|st.errors| - 1]))
  {
    hide RunOps;
    OneStep(w, b, fuel, pc, -1, st, Next(pc + 1, Rethrow(r, st.errors[|st.errors| - 1])));
  }

  lemma CatchWalksAgain(w: World, b: Bin, fuel: nat, t: Value, v: Value, u: Value, st: State)
    requires st.errors != [] && b.ops == CatchOps(t, v, u)
    ensures RunOps(w, b, fuel, 3, -1, st) == Some(st)
  {
    hide RunOps;
    FailGoes(w, b, fuel, 3, -1, st);
    FailGoes(w, b, fuel, 4, -1, st);
    FailGoes(w, b, fuel, 5, -1, st);
    JumpGoes(w, b, fuel, 6, -1, st);
    FailGoes(w, b, fuel, 8, -1, st);
    Finished(w, b, fuel, -1, st);
  }

  function CatchNode(t: Value, v: Value): Node {
    NSwitch([Case([NPush(t)], [NCatch(None, [NSwitch([Case([NPush(t)], [NPush(v)])])])])])
  }

  lemma CatchMeans(w: World, b: Bin, fuel: nat, t: Value, v: Value, u: Value, e: Value, st: State)
    requires Plain(w, t, st)
    ensures EvalSeq(w, b, fuel, [CatchNode(t, v), NPush(u)], Rethrow(st, e)) == Some(Rethrow(Push(st, v), e))
  {
    hide EvalSeq, EvalNode, EvalCases;
    var (st1, r) := (Rethrow(st, e), Rethrow(Push(st, v), e));
    var inner := NSwitch([Case([NPush(t)], [NPush(v)])]);
    var catch := NCatch(None, [inner]);
    EvalTwo(w, b, fuel, CatchNode(t, v), NPush(u), st1);
    FailedClause(w, b, fuel, t, [catch], st1);
    EvalOne(w, b, fuel, catch, st1);
    assert DropError(st1) == st;
    EvalOne(w, b, fuel, inner, st);
    InnerMeans(w, b, fuel, t, v, st);
    EvalOne(w, b, fuel, inner, r);
    FailedClause(w, b, fuel, t, [NPush(v)], r);
    EvalOne(w, b, fuel, NPush(v), r);
    PushMeans(w, b, fuel, v, r);
    PushMeans(w, b, fuel, u, r);
    CatchAll(w, b, fuel, [inner], st1);
  }

  lemma CatchAll(w: World, b: Bin, fuel: nat, body: seq<Node>, st: State)
    requires st.errors != []
    ensures var r := EvalSeq(w, b, fuel, body, DropError(st));
            EvalNode(w, b, fuel, NCatch(None, body), st) ==
              if r.None? then None else EvalSeq(w, b, fuel, body, Rethrow(r.value, st.errors[|st.errors| - 1]))
  {
    hide EvalSeq;
  }

  /** While an error is pending the first clause is walked, whatever its condition. */
  lemma FailedClause(w: World, b: Bin, fuel: nat, t: Value, ns: seq<Node>, st: State)
    requires st.errors != []
    ensures EvalNode(w, b, fuel, NSwitch([Case([NPush(t)], ns)]), st) == EvalSeq(w, b, fuel, ns, st)
  {
    hide EvalNode;
    EvalOne(w, b, fuel, NPush(t), st);
    PushMeans(w, b, fuel, t, st);
    SwitchMeans(w, b, fuel, [Case([NPush(t)], ns)], st);
    hide EvalSeq;
  }

  lemma CatchCompiles(w: World, t: Value, v: Value, u: Value)
    ensures var (b, ns) := Compile(w, PatchAll, [Switch(t, [TCatch([CatchClause(None, [Inner(t, v)])])]), TLiteral(u)]);
            b.ops == CatchOps(t, v, u) && ns == [CatchNode(t, v), NPush(u)]
  {
    hide CompileSeq, CompileTok;
    var tok := TCatch([CatchClause(None, [Inner(t, v)])]);
    TwoToks(w, Switch(t, [tok]), TLiteral(u), EMPTY_BIN);
    PushTok(w, u, CompileTok(w, PatchAll, Switch(t, [tok]), EMPTY_BIN).0);
    SwitchOf(w, t, [tok], EMPTY_BIN);
    OneTok(w, tok, Head(t));
    CatchTok(w, None, [Inner(t, v)], [], Head(t));
    assert [CatchClause(None, [Inner(t, v)])] + [] == [CatchClause(None, [Inner(t, v)])];
    OneTok(w, Inner(t, v), Emit(Head(t), OCatch(None, 0)));
    InnerOf(w, t, v, Emit(Head(t), OCatch(None, 0)));
    var b1 := CompileSeq(w, PatchAll, [Inner(t, v)], Emit(Head(t), OCatch(None, 0))).0;
    CatchNil(w, Fill(b1, 2, OCatch(None, |b1.ops| - 3)));
    var catch := NCatch(None, [NSwitch([Case([NPush(t)], [NPush(v)])])]);
    assert [catch] + [] == [catch];
    assert [CatchNode(t, v)] + [NPush(u)] == [CatchNode(t, v), NPush(u)];
    assert SwitchOps([OPush(t), OElse(0), OCatch(None, 4), OPush(t), OElse(2), OPush(v), OJump(7)], 0)
        == [OPush(t), OElse(6), OCatch(None, 4), OPush(t), OElse(2), OPush(v), OJump(8), OJump(8)];
  }

  lemma CatchTok(w: World, ty: Option<TypeId>, body: seq<Tok>, more: seq<CatchClause>, b: Bin)
    ensures var (b1, ns) := CompileSeq(w, PatchAll, body, Emit(b, OCatch(ty, 0)));
            && |b.ops| < |b1.ops|
            && var (b2, ms) := CompileTok(w, PatchAll, TCatch(more),
                                          Fill(b1, |b.ops|, OCatch(ty, |b1.ops| - |b.ops| - 1)));
               CompileTok(w, PatchAll, TCatch([CatchClause(ty, body)] + more), b) == (b2, [NCatch(ty, ns)] + ms)
  {
    hide CompileSeq;
    assert ([CatchClause(ty, body)] + more)[1..] == more;
  }

  lemma CatchNil(w: World, b: Bin)
    ensures CompileTok(w, PatchAll, TCatch([]), b) == (b, [])
  {
  }

  // ---- in a catch clause with another one behind it ------------------------

  /** `switch: ((t catch: ((A switch: ((t x);)) (A u));))`, where x is unknown, entered with
      an error of type A: what the first clause throws never gets to the second. */
  lemma TypedDiffers(w: World, t: Value, x: Sym, u: Value, e: Value, ty: TypeId, fuel: nat, st: State)
    requires Plain(w, t, st) && w.isA(e, ty) && w.isA(Text("Unknown var"), ty)
    requires GetVar(Push(st, ErrorV(e)), Top(st), x).None?
    ensures Differs(w, TypedToks(t, x, u, ty), fuel, Rethrow(st, e))
  {
    hide CompileSeq, CompileTok, Compile, RunOps, EvalSeq, EvalNode;
    var toks := TypedToks(t, x, u, ty);
    var (b, ns) := Compile(w, PatchAll, toks);
    TypedCompiles(w, t, x, u, ty);
    SameNodes(w, toks);
    TypedWalks(w, b, fuel, t, x, u, e, ty, st);
    TypedMeans(w, Compile(w, PatchOwn, toks).0, fuel, t, x, u, e, ty, st);
  }

  function TypedToks(t: Value, x: Sym, u: Value, ty: TypeId): seq<Tok> {
    [Switch(t, [TCatch([CatchClause(Some(ty), [Switch(t, [TVar(x)])]), CatchClause(Some(ty), [TLiteral(u)])])])]
  }

  function TypedOps(t: Value, x: Sym, u: Value, ty: TypeId): seq<Op> {
    [OPush(t), OElse(8), OCatch(Some(ty), 4), OPush(t), OElse(2), OGetVar(x), OJump(10), OCatch(Some(ty), 1),
     OPush(u), OJump(10)]
  }

  function TypedNode(t: Value, x: Sym, u: Value, ty: TypeId): Node {
    NSwitch([Case([NPush(t)],
                  [NCatch(Some(ty), [NSwitch([Case([NPush(t)], [NGetVar(x)])])]), NCatch(Some(ty), [NPush(u)])])])
  }

  /** What the first clause leaves. */
  function Thrown(st: State, e: Value): State {
    Error(Push(st, ErrorV(e)), "Unknown var")
  }

  lemma TypedWalks(w: World, b: Bin, fuel: nat, t: Value, x: Sym, u: Value, e: Value, ty: TypeId, st: State)
    requires Plain(w, t, st) && w.isA(e, ty) && GetVar(Push(st, ErrorV(e)), Top(st), x).None?
             && b.ops == TypedOps(t, x, u, ty)
    ensures RunOps(w, b, fuel, 0, -1, Rethrow(st, e)) == Some(Thrown(st, e))
  {
    hide RunOps, GetVar, Push, Thrown, DoGetVar;
    TypedEnters(w, b, fuel, e, ty, st);
    TypedThrows(w, b, fuel, t, x, u, e, ty, st);
  }

  /** Any clause that begins with a typed catch, entered with an error of that type. */
  lemma TypedEnters(w: World, b: Bin, fuel: nat, e: Value, ty: TypeId, st: State)
    requires st.errors == [] && w.isA(e, ty) && |b.ops| > 2
    requires b.ops[0].OPush? && b.ops[1].OElse? && b.ops[2].OCatch? && b.ops[2].ty == Some(ty)
    ensures RunOps(w, b, fuel, 0, -1, Rethrow(st, e)) == RunOps(w, b, fuel, 3, -1, Push(st, ErrorV(e)))
  {
    hide RunOps, Push;
    var st1 := Rethrow(st, e);
    FailGoes(w, b, fuel, 0, -1, st1);
    FailGoes(w, b, fuel, 1, -1, st1);
    Caught(st, e);
    CatchGoes(w, b, fuel, 2, ty, st1);
  }

  lemma TypedThrows(w: World, b: Bin, fuel: nat, t: Value, x: Sym, u: Value, e: Value, ty: TypeId, st: State)
    requires Plain(w, t, st) && GetVar(Push(st, ErrorV(e)), Top(st), x).None? && b.ops == TypedOps(t, x, u, ty)
    ensures RunOps(w, b, fuel, 3, -1, Push(st, ErrorV(e))) == Some(Thrown(st, e))
  {
    hide RunOps, GetVar, Push, Thrown, DoGetVar;
    var (st2, st3) := (Push(st, ErrorV(e)), Thrown(st, e));
    Throws(w, t, st, e, x);
    Enters(w, b, fuel, 3, -1, st2, t);
    VarGoes(w, b, fuel, 5, st2);
    JumpGoes(w, b, fuel, 6, -1, st3);
    Finished(w, b, fuel, -1, st3);
  }

  lemma Throws(w: World, t: Value, st: State, e: Value, x: Sym)
    requires Plain(w, t, st) && GetVar(Push(st, ErrorV(e)), Top(st), x).None?
    ensures Plain(w, t, Push(st, ErrorV(e))) && DoGetVar(Push(st, ErrorV(e)), x) == Thrown(st, e)
  {
    hide GetVar;
  }

  lemma CatchGoes(w: World, b: Bin, fuel: nat, pc: nat, ty: TypeId, st: State)
    requires pc < |b.ops| && b.ops[pc].OCatch? && b.ops[pc].ty == Some(ty) && st.errors != [] && Catches(w, st, ty)
    ensures RunOps(w, b, fuel, pc, -1, st) == RunOps(w, b, fuel, pc + 1, -1, CatchError(st))
  {
    hide RunOps;
    OneStep(w, b, fuel, pc, -1, st, Next(pc + 1, CatchError(st)));
  }

  lemma VarGoes(w: World, b: Bin, fuel: nat, pc: nat, st: State)
    requires pc < |b.ops| && b.ops[pc].OGetVar? && st.errors == []
    ensures RunOps(w, b, fuel, pc, -1, st) == RunOps(w, b, fuel, pc + 1, -1, DoGetVar(st, b.ops[pc].id))
  {
    hide RunOps;
    OneStep(w, b, fuel, pc, -1, st, Next(pc + 1, DoGetVar(st, b.ops[pc].id)));
  }

  lemma Caught(st: State, e: Value)
    requires st.errors == []
    ensures CatchError(Rethrow(st, e)) == Push(st, ErrorV(e))
  {
    assert DropError(Rethrow(st, e)) == st;
  }

  lemma TypedMeans(w: World, b: Bin, fuel: nat, t: Value, x: Sym, u: Value, e: Value, ty: TypeId, st: State)
    requires Plain(w, t, st) && w.isA(e, ty) && w.isA(Text("Unknown var"), ty)
             && GetVar(Push(st, ErrorV(e)), Top(st), x).None?
    ensures var r := EvalSeq(w, b, fuel, [TypedNode(t, x, u, ty)], Rethrow(st, e)); r.Some? && r.value.errors == []
  {
    hide EvalSeq, EvalNode, EvalCases, GetVar;
    var (st1, st2, st3) := (Rethrow(st, e), Push(st, ErrorV(e)), Thrown(st, e));
    var first := NCatch(Some(ty), [NSwitch([Case([NPush(t)], [NGetVar(x)])])]);
    var second := NCatch(Some(ty), [NPush(u)]);
    EvalOne(w, b, fuel, TypedNode(t, x, u, ty), st1);
    FailedClause(w, b, fuel, t, [first, second], st1);
    EvalTwo(w, b, fuel, first, second, st1);
    Caught(st, e);
    CatchOne(w, b, fuel, ty, first.body, st1);
    EvalOne(w, b, fuel, first.body[0], st2);
    ClauseTaken(w, b, fuel, t, [NGetVar(x)], st2);
    EvalOne(w, b, fuel, NGetVar(x), st2);
    VarMeans(w, b, fuel, x, st2);
    CatchOne(w, b, fuel, ty, [NPush(u)], st3);
    var st4 := CatchError(st3);
    EvalOne(w, b, fuel, NPush(u), st4);
    PushMeans(w, b, fuel, u, st4);
  }

  lemma VarMeans(w: World, b: Bin, fuel: nat, x: Sym, st: State)
    requires st.errors == []
    ensures EvalNode(w, b, fuel, NGetVar(x), st) == Some(DoGetVar(st, x))
  {
  }

  lemma CatchOne(w: World, b: Bin, fuel: nat, ty: TypeId, body: seq<Node>, st: State)
    requires st.errors != [] && Catches(w, st, ty)
    ensures EvalNode(w, b, fuel, NCatch(Some(ty), body), st) == EvalSeq(w, b, fuel, body, CatchError(st))
  {
    hide EvalSeq;
  }

  lemma TypedCompiles(w: World, t: Value, x: Sym, u: Value, ty: TypeId)
    ensures var (b, ns) := Compile(w, PatchAll, TypedToks(t, x, u, ty));
            b.ops == TypedOps(t, x, u, ty) && ns == [TypedNode(t, x, u, ty)]
  {
    hide CompileSeq, CompileTok;
    var (one, two) := (CatchClause(Some(ty), [Switch(t, [TVar(x)])]), CatchClause(Some(ty), [TLiteral(u)]));
    OneTok(w, Switch(t, [TCatch([one, two])]), EMPTY_BIN);
    SwitchOf(w, t, [TCatch([one, two])], EMPTY_BIN);
    OneTok(w, TCatch([one, two]), Head(t));
    assert [one] + [two] == [one, two] && [two] + [] == [two];
    var b0 := Emit(Head(t), OCatch(Some(ty), 0));
    CatchTok(w, Some(ty), one.body, [two], Head(t));
    OneTok(w, Switch(t, [TVar(x)]), b0);
    VarSwitch(w, t, x, b0);
    var b1 := CompileSeq(w, PatchAll, one.body, b0).0;
    var b2 := Fill(b1, 2, OCatch(Some(ty), |b1.ops| - 3));
    CatchTok(w, Some(ty), two.body, [], b2);
    OneTok(w, TLiteral(u), Emit(b2, OCatch(Some(ty), 0)));
    PushTok(w, u, Emit(b2, OCatch(Some(ty), 0)));
    hide SwitchOps;
    var b3 := Emit(Emit(b2, OCatch(Some(ty), 1)), OPush(u));
    assert Fill(Emit(Emit(b2, OCatch(Some(ty), 0)), OPush(u)), 7, OCatch(Some(ty), 1)) == b3;
    CatchNil(w, b3);
    TypedNodes(t, x, u, ty);
    TypedSwitchOps(t, x, u, ty);
  }

  lemma TypedSwitchOps(t: Value, x: Sym, u: Value, ty: TypeId)
    ensures SwitchOps([OPush(t), OElse(0), OCatch(Some(ty), 4), OPush(t), OElse(2), OGetVar(x), OJump(7),
              OCatch(Some(ty), 1), OPush(u)], 0)
         == TypedOps(t, x, u, ty)
  {
  }

  lemma TypedNodes(t: Value, x: Sym, u: Value, ty: TypeId)
    ensures var first := NCatch(Some(ty), [NSwitch([Case([NPush(t)], [NGetVar(x)])])]);
            [first] + ([NCatch(Some(ty), [NPush(u)])] + []) == [first, NCatch(Some(ty), [NPush(u)])]
  {
  }

  lemma VarSwitch(w: World, t: Value, x: Sym, b: Bin)
    ensures CompileTok(w, PatchAll, Switch(t, [TVar(x)]), b)
         == (b.(ops := b.ops + [OPush(t), OElse(2), OGetVar(x), OJump(|b.ops| + 4)]),
             [NSwitch([Case([NPush(t)], [NGetVar(x)])])])
  {
    hide CompileSeq, CompileTok;
    SwitchOf(w, t, [TVar(x)], b);
    OneTok(w, TVar(x), Emit(Emit(b, OPush(t)), OElse(0)));
    VarTok(w, x, Emit(Emit(b, OPush(t)), OElse(0)));
    assert SwitchOps(b.ops + [OPush(t)] + [OElse(0)] + [OGetVar(x)], |b.ops|)
        == b.ops + [OPush(t), OElse(2), OGetVar(x), OJump(|b.ops| + 4)];
  }

  lemma VarTok(w: World, x: Sym, b: Bin)
    ensures CompileTok(w, PatchAll, TVar(x), b) == (Emit(b, OGetVar(x)), [NGetVar(x)])
  {
  }

  // ---- in an inlined function ----------------------------------------------

  /** Function 0 has one implementation, of the given body. */
  ghost predicate OneFunction(w: World, body: seq<Tok>) {
    && 0 in w.imps && w.imps[0] == Fimp(0, [], [], None, body)
    && w.sole == map[0 := 0] && forall s: seq<Value> :: w.best(0, s) == Some(0)
  }

  function FnToks(t: Value): seq<Tok> {
    [Switch(t, [TCall(0, None)])]
  }

  function FnOps(t: Value, v: Value): seq<Op> {
    [OPush(t), OElse(9), OFimp(0), OBegin(Some(0), 5), OPush(t), OElse(2), OPush(v), OJump(11), OReturn(0, 3),
     OFuncall(0, None), OJump(11)]
  }

  /** `switch: ((t f);)`, where f has the body `switch: ((t v);)`: the call never returns,
      so that its scope, lib and call record stay. */
  lemma FunctionDiffers(w: World, t: Value, v: Value, fuel: nat, st: State)
    requires Plain(w, t, st) && OneFunction(w, [Inner(t, v)]) && Polite(w) && Based(st) && |st.calls| < MAX_CALLS
             && fuel > 0
    requires 9 !in st.cache
    ensures Differs(w, FnToks(t), fuel, st)
  {
    hide CompileSeq, CompileTok, Compile, RunOps, EvalSeq, EvalNode, Above, Polite;
    var toks := FnToks(t);
    var b := Compile(w, PatchAll, toks).0;
    FnCompiles(w, t, v);
    FnRunsOn(w, b, fuel, t, v, st);
    var (y, ns) := Compile(w, PatchOwn, toks);
    SeqBalanced(w, y, fuel, ns, st);
    var r := RunOps(w, b, fuel, 0, -1, st).value;
    NotLevel(st, r);
  }

  lemma NotLevel(st: State, r: State)
    requires r.badReturns == st.badReturns && |r.scopes| > |st.scopes|
    ensures !Above(st, r, 0, 0, 0)
  {
  }

  lemma FnRunsOn(w: World, b: Bin, fuel: nat, t: Value, v: Value, st: State)
    requires Plain(w, t, st) && OneFunction(w, [Inner(t, v)]) && |st.calls| < MAX_CALLS && fuel > 0 && st.scopes != []
    requires b.ops == FnOps(t, v) && b.fimps == map[0 := Range(3, 6)] && 9 !in st.cache
    ensures var r := RunOps(w, b, fuel, 0, -1, st);
            r.Some? && r.value.badReturns == st.badReturns && |r.value.scopes| > |st.scopes|
  {
    hide RunOps, Funcall, EnterFn;
    var st1 := Entered(st);
    var st2 := EnterFn(w, st1, 0);
    FnEnters(w, st1);
    Enters(w, b, fuel, 0, -1, st, t);
    SkipGoes(w, b, fuel, 2, st);
    BeginGoes(w, b, fuel - 1, 3, 9, st1);
    InnerRuns(w, b, fuel - 1, 4, 9, st2, t, v, 11);
    var r := Push(st2, v);
    Finished(w, b, fuel - 1, 9, r);
    FnCalled(w, b, fuel, st);
    CallGoes(w, b, fuel, 9, st, r);
    JumpGoes(w, b, fuel, 10, -1, r);
    Finished(w, b, fuel, -1, r);
  }

  /** The state in which the call at address 9 starts the body of function 0. */
  function Entered(st: State): State {
    st.(cache := st.cache[9 := Some(0)], calls := st.calls + [Call(0, Top(st), [], 0)])
  }

  lemma FnEnters(w: World, st: State)
    requires 0 in w.imps
    ensures var r := EnterFn(w, st, 0);
            && |r.scopes| == |st.scopes| + 1 && r.errors == st.errors && r.badReturns == st.badReturns
            && Top(r) < |r.heap|
  {
  }

  lemma SkipGoes(w: World, b: Bin, fuel: nat, pc: nat, st: State)
    requires pc < |b.ops| && b.ops[pc].OFimp? && b.ops[pc].imp in b.fimps && b.fimps[b.ops[pc].imp].nops >= 0
    ensures RunOps(w, b, fuel, pc, -1, st) == RunOps(w, b, fuel, pc + 1 + b.fimps[b.ops[pc].imp].nops, -1, st)
  {
    hide RunOps;
    OneStep(w, b, fuel, pc, -1, st, Next(pc + 1 + b.fimps[b.ops[pc].imp].nops, st));
  }

  lemma BeginGoes(w: World, b: Bin, fuel: nat, pc: nat, stop: int, st: State)
    requires pc < |b.ops| && pc != stop && b.ops[pc].OBegin? && b.ops[pc].fimp == Some(0) && 0 in w.imps
             && st.errors == []
    ensures RunOps(w, b, fuel, pc, stop, st) == RunOps(w, b, fuel, pc + 1, stop, EnterFn(w, st, 0))
  {
    hide RunOps, EnterFn;
    OneStep(w, b, fuel, pc, stop, st, Next(pc + 1, EnterFn(w, st, 0)));
  }

  lemma CallGoes(w: World, b: Bin, fuel: nat, pc: nat, st: State, r: State)
    requires pc < |b.ops| && b.ops[pc].OFuncall? && st.errors == []
    requires Funcall(Interp, w, b, fuel, pc, b.ops[pc].func, b.ops[pc].imp0, st) == Some(r)
    ensures RunOps(w, b, fuel, pc, -1, st) == RunOps(w, b, fuel, pc + 1, -1, r)
  {
    hide RunOps, Funcall;
    OneStep(w, b, fuel, pc, -1, st, Next(pc + 1, r));
  }

  lemma FnCalled(w: World, b: Bin, fuel: nat, st: State)
    requires 0 in w.imps && w.imps[0].args == [] && w.imps[0].prim.None?
             && (forall s: seq<Value> :: w.best(0, s) == Some(0))
    requires |st.calls| < MAX_CALLS && fuel > 0 && b.fimps == map[0 := Range(3, 6)] && 9 !in st.cache
    ensures Funcall(Interp, w, b, fuel, 9, 0, None, st) == RunOps(w, b, fuel - 1, 3, 9, Entered(st))
  {
    hide CallImp;
    var st1 := st.(cache := st.cache[9 := Some(0)]);
    assert Met(w, 9, None, st) == st && Resolve(w, 9, 0, None, st) == (st1, Some(0));
    assert Top(st1) == Top(st);
    BodyCalled(w, b, fuel, st1);
  }

  lemma BodyCalled(w: World, b: Bin, fuel: nat, st: State)
    requires 0 in w.imps && w.imps[0].args == [] && w.imps[0].prim.None?
    requires |st.calls| < MAX_CALLS && fuel > 0 && b.fimps == map[0 := Range(3, 6)]
    ensures CallImp(Interp, w, b, fuel, 0, Top(st), st)
            == RunOps(w, b, fuel - 1, 3, 9, st.(calls := st.calls + [Call(0, Top(st), [], 0)]))
  {
    hide RunOps;
    var st1 := st.(calls := st.calls + [Call(0, Top(st), [], 0)]);
    assert PopArgs(st1, 0) == st1;
    assert RunTarget(Interp, w, b, fuel - 1, BodyOf(0), st1) == RunOps(w, b, fuel - 1, 3, 9, st1);
  }

  lemma FnCompiles(w: World, t: Value, v: Value)
    requires OneFunction(w, [Inner(t, v)])
    ensures var b := Compile(w, PatchAll, FnToks(t)).0;
            b.ops == FnOps(t, v) && b.fimps == map[0 := Range(3, 6)]
  {
    hide CompileSeq, CompileTok;
    var call := TCall(0, None);
    OneTok(w, Switch(t, [call]), EMPTY_BIN);
    SwitchOf(w, t, [call], EMPTY_BIN);
    OneTok(w, call, Head(t));
    CallTok(w, Head(t));
    var b0 := BeginInline(w, 0, Head(t));
    OneTok(w, Inner(t, v), b0);
    InnerOf(w, t, v, b0);
    var ops := [OPush(t), OElse(0), OFimp(0), OBegin(Some(0), 5), OPush(t), OElse(2), OPush(v), OJump(8),
                OReturn(0, 3), OFuncall(0, None)];
    assert Inline(w, PatchAll, 0, Head(t)).ops == ops[..9];
    assert SwitchOps(ops, 0) == FnOps(t, v);
  }

  lemma CallTok(w: World, b: Bin)
    requires w.sole == map[0 := 0] && 0 in w.imps && w.imps[0].prim.None?
    ensures CompileTok(w, PatchAll, TCall(0, None), b).0 == Emit(Inline(w, PatchAll, 0, b), OFuncall(0, None))
  {
    hide Inline;
  }

  // ---- where nothing is ever run -------------------------------------------

  /** `switch: ((t u) (t (switch: ((t v);))));`: the second clause is never taken. */
  function HarmlessToks(t: Value, v: Value, u: Value): seq<Tok> {
    [TSwitch([SwitchClause(TLiteral(t), [TLiteral(u)]), SwitchClause(TLiteral(t), [TGroup([Inner(t, v)])])])]
  }

  function HarmlessNode(t: Value, v: Value, u: Value): Node {
    NSwitch([Case([NPush(t)], [NPush(u)]), Case([NPush(t)], [NGroup([NSwitch([Case([NPush(t)], [NPush(v)])])])])])
  }

  /** So a switch that stands where it must not does no harm there, in any world and
      state. */
  lemma HarmlessNested(w: World, t: Value, v: Value, u: Value, fuel: nat, st: State)
    ensures !TailSeq(w, HarmlessToks(t, v, u), {}, false)
    ensures !Differs(w, HarmlessToks(t, v, u), fuel, st)
  {
    hide CompileSeq, CompileTok, Compile, RunOps, EvalSeq, EvalNode;
    var toks := HarmlessToks(t, v, u);
    NotTail(w, t, v, u);
    HarmlessCompiles(w, t, v, u);
    SameNodes(w, toks);
    HarmlessRuns(w, Compile(w, PatchAll, toks).0, fuel, t, u, st);
    var y := Compile(w, PatchOwn, toks).0;
    EvalOne(w, y, fuel, HarmlessNode(t, v, u), st);
    HarmlessMeans(w, y, fuel, t, v, u, st);
  }

  lemma NotTail(w: World, t: Value, v: Value, u: Value)
    ensures !TailSeq(w, HarmlessToks(t, v, u), {}, false)
  {
    var (c, d) := (SwitchClause(TLiteral(t), [TLiteral(u)]), SwitchClause(TLiteral(t), [TGroup([Inner(t, v)])]));
    assert [c, d][1..] == [d];
    assert SeenSeq(w, c.rest, SeenCond(w, c.head, {})) == {} by { assert c.rest[1..] == []; }
    var group := d.rest[0];
    assert !FlatTok(w, Inner(t, v), {}, true);
    assert !FlatSeq(w, [Inner(t, v)], {}, true);
    assert !TailTok(w, group, {}, true);
    assert !TailSeq(w, d.rest, {}, true);
    assert SeenCond(w, d.head, {}) == {} && [d][0] == d;
    assert !TailCases(w, [d], {});
    assert !TailCases(w, [c, d], {});
    assert !TailTok(w, TSwitch([c, d]), {}, false);
  }

  /** What either way leads to: the first clause, or neither. */
  function HarmlessResult(w: World, t: Value, u: Value, st: State): State {
    if st.errors != [] then st
    else
      var r := DoElse(w, Push(st, t));
      if r.Skipped? then DoElse(w, Push(r.st, t)).st
      else if r.st.errors != [] then r.st else Push(r.st, u)
  }

  /** A value that was not true once is not true the next time. */
  lemma SkippedTwice(w: World, t: Value, st: State)
    requires DoElse(w, Push(st, t)).Skipped?
    ensures var st1 := DoElse(w, Push(st, t)).st;
            DoElse(w, Push(st1, t)).Skipped? && st1.errors == st.errors
                && DoElse(w, Push(st1, t)).st.errors == st.errors
  {
  }

  lemma HarmlessRuns(w: World, b: Bin, fuel: nat, t: Value, u: Value, st: State)
    requires |b.ops| == 13 && b.ops[..6] == [OPush(t), OElse(2), OPush(u), OJump(13), OPush(t), OElse(7)]
    ensures RunOps(w, b, fuel, 0, -1, st) == Some(HarmlessResult(w, t, u, st))
  {
    hide RunOps, DoElse, Push;
    var ops := b.ops[..6];
    assert ops[0] == b.ops[0] && ops[1] == b.ops[1] && ops[2] == b.ops[2] && ops[3] == b.ops[3] && ops[4] == b.ops[4]
           && ops[5] == b.ops[5];
    if st.errors != [] {
      FailGoes(w, b, fuel, 0, -1, st);
      FailGoes(w, b, fuel, 1, -1, st);
      FirstClause(w, b, fuel, t, u, st);
    } else {
      PushGoes(w, b, fuel, 0, -1, st);
      assert Push(st, t).errors == [] by { PushQuiet(st, t); }
      var r := DoElse(w, Push(st, t));
      if r.Taken? {
        ElseGoes(w, b, fuel, 1, -1, Push(st, t), r.st);
        FirstClause(w, b, fuel, t, u, r.st);
      } else {
        SkipsGo(w, b, fuel, 1, Push(st, t));
        SkippedTwice(w, t, st);
        PushGoes(w, b, fuel, 4, -1, r.st);
        PushQuiet(r.st, t);
        SkipsGo(w, b, fuel, 5, Push(r.st, t));
        Finished(w, b, fuel, -1, DoElse(w, Push(r.st, t)).st);
      }
    }
  }

  lemma PushQuiet(st: State, t: Value)
    ensures Push(st, t).errors == st.errors
  {
  }

  lemma SkipsGo(w: World, b: Bin, fuel: nat, pc: nat, st: State)
    requires pc < |b.ops| && b.ops[pc].OElse? && st.errors == [] && DoElse(w, st).Skipped?
    ensures RunOps(w, b, fuel, pc, -1, st) == RunOps(w, b, fuel, pc + 1 + b.ops[pc].nops, -1, DoElse(w, st).st)
  {
    hide RunOps, DoElse;
    ElseOp(w, b, fuel, pc, st);
    OneStep(w, b, fuel, pc, -1, st, Next(pc + 1 + b.ops[pc].nops, DoElse(w, st).st));
  }

  lemma FirstClause(w: World, b: Bin, fuel: nat, t: Value, u: Value, st: State)
    requires |b.ops| == 13 && b.ops[2] == OPush(u) && b.ops[3] == OJump(13)
    ensures RunOps(w, b, fuel, 2, -1, st) == Some(if st.errors != [] then st else Push(st, u))
  {
    hide RunOps;
    if st.errors != [] { FailGoes(w, b, fuel, 2, -1, st); } else { PushGoes(w, b, fuel, 2, -1, st); }
    var st1 := if st.errors != [] then st else Push(st, u);
    JumpGoes(w, b, fuel, 3, -1, st1);
    Finished(w, b, fuel, -1, st1);
  }

  lemma HarmlessMeans(w: World, b: Bin, fuel: nat, t: Value, v: Value, u: Value, st: State)
    ensures EvalNode(w, b, fuel, HarmlessNode(t, v, u), st) == Some(HarmlessResult(w, t, u, st))
  {
    hide EvalNode, DoElse, EvalSeq, Push;
    var c := Case([NPush(t)], [NPush(u)]);
    var d := Case([NPush(t)], [NGroup([NSwitch([Case([NPush(t)], [NPush(v)])])])]);
    SwitchMeans(w, b, fuel, [c, d], st);
    assert [c, d][1..] == [d] && [d][1..] == [];
    ClauseMeans(w, b, fuel, t, [NPush(u)], [d], st);
    var st1 := if st.errors != [] then st else DoElse(w, Push(st, t)).st;
    EvalOne(w, b, fuel, NPush(u), st1);
    PushMeans(w, b, fuel, u, st1);
    if st.errors == [] && DoElse(w, Push(st, t)).Skipped? {
      SkippedTwice(w, t, st);
      ClauseMeans(w, b, fuel, t, d.body, [], st1);
      assert EvalCases(w, b, fuel, [], DoElse(w, Push(st1, t)).st) == Some(DoElse(w, Push(st1, t)).st);
    }
  }

  /** A clause whose condition is a literal. */
  lemma ClauseMeans(w: World, b: Bin, fuel: nat, t: Value, body: seq<Node>, cs: seq<Case>, st: State)
    ensures var r := DoElse(w, Push(st, t));
            EvalCases(w, b, fuel, [Case([NPush(t)], body)] + cs, st) ==
              if st.errors != [] then EvalSeq(w, b, fuel, body, st)
              else if r.Taken? then EvalSeq(w, b, fuel, body, r.st) else EvalCases(w, b, fuel, cs, r.st)
  {
    hide EvalNode, EvalSeq, DoElse, Push;
    assert ([Case([NPush(t)], body)] + cs)[1..] == cs;
    EvalOne(w, b, fuel, NPush(t), st);
    PushMeans(w, b, fuel, t, st);
    PushQuiet(st, t);
  }

  lemma HarmlessCompiles(w: World, t: Value, v: Value, u: Value)
    ensures var (b, ns) := Compile(w, PatchAll, HarmlessToks(t, v, u));
            && |b.ops| == 13 && b.ops[..6] == [OPush(t), OElse(2), OPush(u), OJump(13), OPush(t), OElse(7)]
            && ns == [HarmlessNode(t, v, u)]
  {
    hide CompileSeq, CompileTok, CompileCases;
    var (c, d) := (SwitchClause(TLiteral(t), [TLiteral(u)]), SwitchClause(TLiteral(t), [TGroup([Inner(t, v)])]));
    OneTok(w, TSwitch([c, d]), EMPTY_BIN);
    SwitchTok(w, [c, d], EMPTY_BIN);
    CasesOf(w, PatchAll, [c, d], EMPTY_BIN);
    assert [c, d][1..] == [d] && [d][1..] == [];
    PushClause(w, t, u, EMPTY_BIN);
    var b4 := EMPTY_BIN.(ops := [OPush(t), OElse(2), OPush(u), OJump(0)]);
    CasesOf(w, PatchAll, [d], b4);
    GroupClause(w, t, v, b4);
    var (b5, x, j) := FirstOf(w, PatchAll, d, b4);
    NoCases(w, b5);
    assert [x] + [] == [x];
    assert [Case([NPush(t)], [NPush(u)])] + [x] == [Case([NPush(t)], [NPush(u)]), x];
  }

  lemma PushClause(w: World, t: Value, u: Value, b: Bin)
    requires b.ops == []
    ensures FirstOf(w, PatchAll, SwitchClause(TLiteral(t), [TLiteral(u)]), b)
         == (b.(ops := [OPush(t), OElse(2), OPush(u), OJump(0)]), Case([NPush(t)], [NPush(u)]), 3)
  {
    hide CompileSeq, CompileTok;
    PushTok(w, t, b);
    var b1 := Emit(Emit(b, OPush(t)), OElse(0));
    OneTok(w, TLiteral(u), b1);
    PushTok(w, u, b1);
    assert b1.ops == [OPush(t), OElse(0)];
    var ops := [OPush(t), OElse(0)] + [OPush(u)] + [OJump(0)];
    assert ops[1 := OElse(2)] == [OPush(t), OElse(2), OPush(u), OJump(0)];
  }

  lemma GroupClause(w: World, t: Value, v: Value, b: Bin)
    requires |b.ops| == 4
    ensures var (b5, x, j) := FirstOf(w, PatchAll, SwitchClause(TLiteral(t), [TGroup([Inner(t, v)])]), b);
            && b5.ops == b.ops + [OPush(t), OElse(7), OBegin(None, 5), OPush(t), OElse(2), OPush(v), OJump(11), OEnd,
                                  OJump(0)]
            && x == Case([NPush(t)], [NGroup([NSwitch([Case([NPush(t)], [NPush(v)])])])])
  {
    hide CompileSeq, CompileTok;
    PushTok(w, t, b);
    var b1 := Emit(Emit(b, OPush(t)), OElse(0));
    OneTok(w, TGroup([Inner(t, v)]), b1);
    BodyTok(w, false, [Inner(t, v)], b1);
    var b2 := Emit(b1, OBegin(None, 0));
    OneTok(w, Inner(t, v), b2);
    InnerOf(w, t, v, b2);
    var b3 := CompileTok(w, PatchAll, TGroup([Inner(t, v)]), b1).0;
    assert b3.ops == b.ops + [OPush(t), OElse(0), OBegin(None, 5), OPush(t), OElse(2), OPush(v), OJump(11), OEnd];
  }

  // ---- right in one world and wrong in another -----------------------------

  /** The program of BehindDiffers, which goes wrong in every world where `t` is true, is
      right in every other one: which programs go wrong is not said by the tokens. */
  lemma BehindHarmless(w: World, t: Value, v: Value, u: Value, fuel: nat, st: State)
    requires !w.isTrue(t)
    ensures !Differs(w, [Switch(t, [Inner(t, v), TLiteral(u)])], fuel, st)
  {
    hide CompileSeq, CompileTok, Compile, RunOps, EvalSeq, EvalNode;
    var toks := [Switch(t, [Inner(t, v), TLiteral(u)])];
    var (b, ns) := Compile(w, PatchAll, toks);
    BehindCompiles(w, t, v, u);
    SameNodes(w, toks);
    UntrueRuns(w, b, fuel, t, v, u, st);
    EvalOne(w, Compile(w, PatchOwn, toks).0, fuel, ns[0], st);
    UntrueMeans(w, Compile(w, PatchOwn, toks).0, fuel, t, v, u, st);
  }

  /** Testing a value that is not true takes no clause, or fails. */
  lemma Untrue(w: World, t: Value, st: State)
    requires !w.isTrue(t)
    ensures DoElse(w, Push(st, t)).Taken? ==> DoElse(w, Push(st, t)).st.errors != []
  {
  }

  function UntrueResult(w: World, t: Value, st: State): State {
    if st.errors != [] then st else DoElse(w, Push(st, t)).st
  }

  lemma UntrueRuns(w: World, b: Bin, fuel: nat, t: Value, v: Value, u: Value, st: State)
    requires !w.isTrue(t)
    requires b.ops == [OPush(t), OElse(6), OPush(t), OElse(2), OPush(v), OJump(8), OPush(u), OJump(8)]
    ensures RunOps(w, b, fuel, 0, -1, st) == Some(UntrueResult(w, t, st))
  {
    hide RunOps, DoElse, Push;
    if st.errors != [] {
      FailGoes(w, b, fuel, 0, -1, st);
      FailGoes(w, b, fuel, 1, -1, st);
      FailedRest(w, b, fuel, st);
    } else {
      PushGoes(w, b, fuel, 0, -1, st);
      PushQuiet(st, t);
      Untrue(w, t, st);
      var r := DoElse(w, Push(st, t));
      if r.Taken? {
        ElseGoes(w, b, fuel, 1, -1, Push(st, t), r.st);
        FailedRest(w, b, fuel, r.st);
      } else {
        SkipsGo(w, b, fuel, 1, Push(st, t));
        Finished(w, b, fuel, -1, r.st);
      }
    }
  }

  lemma FailedRest(w: World, b: Bin, fuel: nat, st: State)
    requires |b.ops| == 8 && b.ops[2].OPush? && b.ops[3].OElse? && b.ops[4].OPush? && b.ops[5] == OJump(8)
    requires st.errors != []
    ensures RunOps(w, b, fuel, 2, -1, st) == Some(st)
  {
    hide RunOps;
    FailGoes(w, b, fuel, 2, -1, st);
    FailGoes(w, b, fuel, 3, -1, st);
    FailGoes(w, b, fuel, 4, -1, st);
    JumpGoes(w, b, fuel, 5, -1, st);
    Finished(w, b, fuel, -1, st);
  }

  lemma UntrueMeans(w: World, b: Bin, fuel: nat, t: Value, v: Value, u: Value, st: State)
    requires !w.isTrue(t)
    ensures var inner := NSwitch([Case([NPush(t)], [NPush(v)])]);
            EvalNode(w, b, fuel, NSwitch([Case([NPush(t)], [inner, NPush(u)])]), st) == Some(UntrueResult(w, t, st))
  {
    hide EvalNode, DoElse, EvalSeq, Push;
    var inner := NSwitch([Case([NPush(t)], [NPush(v)])]);
    var c := Case([NPush(t)], [inner, NPush(u)]);
    SwitchMeans(w, b, fuel, [c], st);
    assert [c] + [] == [c];
    ClauseMeans(w, b, fuel, t, c.body, [], st);
    Untrue(w, t, st);
    var st1 := UntrueResult(w, t, st);
    if st1.errors != [] {
      EvalTwo(w, b, fuel, inner, NPush(u), st1);
      FailedClause(w, b, fuel, t, [NPush(v)], st1);
      EvalOne(w, b, fuel, NPush(v), st1);
      PushMeans(w, b, fuel, v, st1);
      PushMeans(w, b, fuel, u, st1);
    }
    assert EvalCases(w, b, fuel, [], st1) == Some(st1);
  }
}
