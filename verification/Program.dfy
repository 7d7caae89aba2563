/** A whole program: compile it and run it, by the eval loop or as emitted code. */
module Program {
  import opened Basics
  import opened VmState
  import opened Vm
  import opened Compiler
  import opened SwitchPatch
  import opened TailSwitch
  import opened TailRuns
  import opened Inlining
  import opened EmitProof
  import opened EmitEqual
  import opened BinBuilder
  import opened Context
  import opened Variables

  /** cx_eval_toks.  The context ends as the compiled code leaves it; if switches stand
      inside others only at the end of a clause, that is what the tokens mean.  The
      program counter is back where it was. */
  method EvalToks(w: World, toks: seq<Tok>, cx: Cx, fuel: nat) returns (done: bool)
    modifies cx
    ensures cx.pc == old(cx.pc)
    ensures RunOps(w, Compile(w, PatchAll, toks).0, fuel, 0, -1, old(cx.Now())) == if done then Some(cx.Now()) else None
    ensures TailSeq(w, toks, {}, false) ==>
              var (b, ns) := Compile(w, PatchOwn, toks);
              EvalSeq(w, b, fuel, ns, old(cx.Now())) == if done then Some(cx.Now()) else None
  {
    var bin := new Builder();
    ghost var ns := bin.CompileToks(w, toks);
    done := cx.Eval(w, bin, fuel, 0, -1);
    if TailSeq(w, toks, {}, false) { TailProgramsRunAsTokens(w, toks, fuel, old(cx.Now())); }
  }

  /** Every compiled bin can be emitted. */
  lemma CompiledIsEmittable(w: World, toks: seq<Tok>)
    ensures Emittable(Compile(w, PatchAll, toks).0)
  {
    var b := Compile(w, PatchAll, toks).0;
    SeqTidies(w, PatchAll, toks, EMPTY_BIN);
    assert Tidied(EMPTY_BIN, b);
    forall i | 0 <= i < |b.ops| && b.ops[i].OFimp? ensures b.ops[i].imp in b.fimps && b.fimps[b.ops[i].imp].nops >= 0 {
      assert b.ops[i].imp in b.fimps && b.ops[i].imp !in EMPTY_BIN.fimps;
    }
  }

  /** The emitted program means what its tokens mean, unless emitted code and loop part
      on the way. */
  lemma EmittedRunsAsTokens(w: World, toks: seq<Tok>, fuel: nat, st: State)
    requires TailSeq(w, toks, {}, false)
    ensures var (b, ns) := Compile(w, PatchOwn, toks);
            Near(st.partings, RunLabels(w, Compile(w, PatchAll, toks).0, fuel, 0, -1, st), EvalSeq(w, b, fuel, ns, st))
  {
    CompiledIsEmittable(w, toks);
    EmittedRunsAsOps(w, Compile(w, PatchAll, toks).0, fuel, 0, -1, st);
    TailProgramsRunAsTokens(w, toks, fuel, st);
  }

  /** If no call names an implementation and nobody asks for a recall, it always does. */
  lemma EmittedEqualsTokens(w: World, toks: seq<Tok>, fuel: nat, st: State)
    requires TailSeq(w, toks, {}, false) && NoNames(Compile(w, PatchAll, toks).0) && NoRecalls(w) && Settled(st)
    ensures var (b, ns) := Compile(w, PatchOwn, toks);
            RunLabels(w, Compile(w, PatchAll, toks).0, fuel, 0, -1, st) == EvalSeq(w, b, fuel, ns, st)
  {
    CompiledIsEmittable(w, toks);
    EmittedEqualsOps(w, Compile(w, PatchAll, toks).0, fuel, 0, -1, st);
    TailProgramsRunAsTokens(w, toks, fuel, st);
  }

  /** `$id` in `n` groups, as written. */
  function Written(n: nat, id: Sym): Tok {
    if n == 0 then TVar(id) else TGroup([Written(n - 1, id)])
  }

  lemma {:induction false} WrittenCompiles(w: World, n: nat, id: Sym, b: Bin)
    ensures CompileTok(w, PatchOwn, Written(n, id), b).1 == [Nested(n, id)]
    ensures TailTok(w, Written(n, id), {}, false)
    decreases n
  {
    if n > 0 {
      var t := Written(n - 1, id);
      var b0 := Emit(b, OBegin(None, 0));
      WrittenCompiles(w, n - 1, id, b0);
      OneCompiles(w, t, b0);
      assert TailSeq(w, [t][1..], SeenTok(w, t, {}), false);
    }
  }

  lemma OneCompiles(w: World, t: Tok, b: Bin)
    ensures CompileSeq(w, PatchOwn, [t], b).1 == CompileTok(w, PatchOwn, t, b).1
  {
    hide CompileTok;
    var (b1, ns) := CompileTok(w, PatchOwn, t, b);
    assert CompileSeq(w, PatchOwn, [t][1..], b1) == (b1, []) && ns + [] == ns;
  }

  /** `let: id v; (...($id)...)` leaves `v`, however deep in groups the name is read, in any
      world and state without errors. */
  lemma LetProgram(w: World, n: nat, id: Sym, v: Value, fuel: nat, st: State)
    requires st.errors == [] && st.scopes != [] && Top(st) < |st.heap|
    ensures var toks := [TLet([TLiteral(v)], [Binding(id, None)]), Written(n, id)];
            var x := RunOps(w, Compile(w, PatchAll, toks).0, fuel, 0, -1, st);
            x.Some? && TopStack(x.value) == TopStack(st) + [v] && x.value.errors == [] && x.value.scopes == st.scopes
  {
    var (t0, t1) := (TLet([TLiteral(v)], [Binding(id, None)]), Written(n, id));
    var toks := [t0, t1];
    LetCompiles(w, id, v);
    var b1 := CompileTok(w, PatchOwn, t0, EMPTY_BIN).0;
    WrittenCompiles(w, n, id, b1);
    OneCompiles(w, t1, b1);
    assert toks[1..] == [t1];
    assert Compile(w, PatchOwn, toks).1 == [NPush(v), NPutVar(id, None)] + [Nested(n, id)];
    assert [t1][1..] == [];
    assert TailSeq(w, [t1], {}, false);
    hide CompileSeq, CompileTok, Written, TailTok;
    TailProgramsRunAsTokens(w, toks, fuel, st);
    LetSeenInGroups(w, Compile(w, PatchOwn, toks).0, fuel, n, id, v, st);
  }

  lemma LetCompiles(w: World, id: Sym, v: Value)
    ensures var t := TLet([TLiteral(v)], [Binding(id, None)]);
            && CompileTok(w, PatchOwn, t, EMPTY_BIN).1 == [NPush(v), NPutVar(id, None)]
            && TailTok(w, t, {}, false) && SeenTok(w, t, {}) == {}
  {
    var b := EMPTY_BIN;
    var ids := [Binding(id, None)];
    OneCompiles(w, TLiteral(v), b);
    var b1 := CompileSeq(w, PatchOwn, [TLiteral(v)], b).0;
    assert CompileSeq(w, PatchOwn, [TLiteral(v)], b).1 == [NPush(v)];
    assert ids[..0] == [];
    assert CompilePuts(ids, b1).1 == [NPutVar(id, None)];
    var none: set<Imp> := {};
    assert [TLiteral(v)][1..] == [] && SeenTok(w, TLiteral(v), none) == none && TailTok(w, TLiteral(v), none, false);
    assert TailSeq(w, [TLiteral(v)], none, false) && SeenSeq(w, [TLiteral(v)], none) == none;
  }
}
