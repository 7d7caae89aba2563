/** Compiling appends code that is linked: every token sequence, function body and
    lambda body lies where the bin says, with skips that land right behind it. */
module CompilerProof {
  import opened Basics
  import opened VmState
  import opened Vm
  import opened Layout
  import opened Compiler

  // ---- sequences of nodes --------------------------------------------------

  lemma {:induction false} SizeConcat(x: seq<Node>, y: seq<Node>)
    ensures SizeSeq(x + y) == SizeSeq(x) + SizeSeq(y)
    decreases |x|
  {
    if x == [] {
      assert x + y == y;
    } else {
      assert (x + y)[1..] == x[1..] + y;
      SizeConcat(x[1..], y);
    }
  }

  lemma {:induction false} CodedConcat(b: Bin, x: seq<Node>, y: seq<Node>, a: nat)
    requires CodedSeq(b, x, a) && CodedSeq(b, y, a + SizeSeq(x))
    ensures CodedSeq(b, x + y, a)
    decreases |x|
  {
    SizeConcat(x, y);
    if x == [] {
      assert x + y == y;
    } else {
      assert (x + y)[1..] == x[1..] + y;
      CodedConcat(b, x[1..], y, a + Size(x[0]));
    }
  }

  // ---- code is unaffected by changes outside its range ---------------------

  ghost predicate Agree(b: Bin, c: Bin, lo: nat, hi: nat) {
    && hi <= |b.ops| && hi <= |c.ops|
    && (forall i :: lo <= i < hi ==> c.ops[i] == b.ops[i])
    && (forall imp :: Complete(b, imp) ==> imp in c.fimps && c.fimps[imp] == b.fimps[imp])
  }

  lemma {:induction false} CodedSeqFrame(b: Bin, c: Bin, ns: seq<Node>, a: nat)
    requires CodedSeq(b, ns, a) && Agree(b, c, a, a + SizeSeq(ns))
    ensures CodedSeq(c, ns, a)
    decreases ns, 0
  {
    if ns != [] {
      CodedFrame(b, c, ns[0], a);
      CodedSeqFrame(b, c, ns[1..], a + Size(ns[0]));
    }
  }

  lemma {:induction false} CodedFrame(b: Bin, c: Bin, n: Node, a: nat)
    requires Coded(b, n, a) && Agree(b, c, a, a + Size(n))
    ensures Coded(c, n, a)
    decreases n, 0
  {
    hide CodedSeq, CodedCases, Inlined;
    match n
    case NSwitch(cases) => CodedCasesFrame(b, c, cases, a, a + SizeCases(cases));
    case NCall(site, func, imp, inl) => InlinedFrame(b, c, a, inl);
    case NFunc(def, inl) => InlinedFrame(b, c, a + 1, inl);
    case NPush(_) =>
    case NGetVar(_) =>
    case NPutVar(_, _) =>
    case _ => BodyFrame(b, c, n, a);
  }

  /** Tokens with a body behind their first op. */
  lemma {:induction false} BodyFrame(b: Bin, c: Bin, n: Node, a: nat)
    requires Coded(b, n, a) && Agree(b, c, a, a + Size(n))
    requires n.NGroup? || n.NStack? || n.NLambda? || n.NCatch?
    ensures Coded(c, n, a)
    decreases n.body, 1
  {
    hide CodedSeq;
    CodedSeqFrame(b, c, n.body, a + 1);
  }

  lemma InlinedFrame(b: Bin, c: Bin, a: nat, inl: nat)
    requires Inlined(b, a, inl) && (inl > 0 ==> Agree(b, c, a, a + inl))
    ensures Inlined(c, a, inl)
  {
    if inl > 0 { assert Complete(b, b.ops[a].imp); }
  }

  lemma {:induction false} CodedCasesFrame(b: Bin, c: Bin, cs: seq<Case>, a: nat, end: nat)
    requires CodedCases(b, cs, a, end) && Agree(b, c, a, a + SizeCases(cs))
    ensures CodedCases(c, cs, a, end)
    decreases cs, 0
  {
    hide CodedSeq, Coded;
    if cs != [] {
      var m := a + SizeSeq(cs[0].cond);
      var j := m + 1 + SizeSeq(cs[0].body);
      CodedSeqFrame(b, c, cs[0].cond, a);
      CodedSeqFrame(b, c, cs[0].body, m + 1);
      CodedCasesFrame(b, c, cs[1..], j + 1, end);
    }
  }

  ghost predicate LamOk(b: Bin, at: nat)
    requires at in b.lams
  {
    at < |b.ops| && b.ops[at] == OLambda(at + 1, SizeSeq(b.lams[at])) && CodedSeq(b, b.lams[at], at + 1)
  }

  lemma LamBound(b: Bin, at: nat)
    requires at in b.lams && LamOk(b, at)
    ensures at + 1 + SizeSeq(b.lams[at]) <= |b.ops|
  {
  }

  lemma LamFrame(b: Bin, c: Bin, at: nat)
    requires at in b.lams && LamOk(b, at) && at in c.lams && c.lams[at] == b.lams[at]
    requires Agree(b, c, at, at + 1 + SizeSeq(b.lams[at]))
    ensures LamOk(c, at)
  {
    CodedSeqFrame(b, c, b.lams[at], at + 1);
  }

  ghost predicate FnOk(w: World, b: Bin, imp: Imp) {
    Complete(b, imp) && imp in b.fns && CodedFn(w, b, imp)
  }

  lemma FnBound(w: World, b: Bin, imp: Imp)
    requires FnOk(w, b, imp)
    ensures imp in b.fns && imp in b.fimps && b.fimps[imp].nops >= 2
            && b.fimps[imp].start + b.fimps[imp].nops <= |b.ops|
  {
  }

  lemma FnFrame(w: World, b: Bin, c: Bin, imp: Imp)
    requires FnOk(w, b, imp) && imp in c.fns && c.fns[imp] == b.fns[imp]
    requires Agree(b, c, b.fimps[imp].start, b.fimps[imp].start + b.fimps[imp].nops)
    ensures FnOk(w, c, imp)
  {
    CodedSeqFrame(b, c, b.fns[imp], BodyStart(w, b, imp));
  }

  // ---- invariants of a growing bin -----------------------------------------

  ghost predicate Fits(b: Bin) {
    (forall at :: at in b.lams ==> at < |b.ops|) && b.fns.Keys <= b.fimps.Keys
  }

  /** Nothing recorded is lost; new lambdas lie in the new code. */
  ghost predicate Grow(b: Bin, c: Bin) {
    && |b.ops| <= |c.ops|
    && (forall i :: 0 <= i < |b.ops| ==> c.ops[i] == b.ops[i])
    && (forall imp :: imp in b.fimps ==> imp in c.fimps && c.fimps[imp] == b.fimps[imp])
    && (forall imp :: imp in b.fns ==> imp in c.fns && c.fns[imp] == b.fns[imp])
    && (forall at :: at in b.lams ==> at in c.lams && c.lams[at] == b.lams[at])
    && (forall at :: at in c.lams && at !in b.lams ==> at >= |b.ops|)
  }

  lemma GrowTrans(b: Bin, c: Bin, d: Bin)
    requires Grow(b, c) && Grow(c, d)
    ensures Grow(b, d)
  {
  }

  /** Lambdas at or after `lo` and functions outside `had` are in place. */
  ghost predicate Sound(w: World, b: Bin, lo: nat, had: set<Imp>) {
    && (forall at :: lo <= at < |b.ops| && b.ops[at].OLambda? ==> at in b.lams)
    && (forall at :: at in b.lams && at >= lo ==> LamOk(b, at))
    && (forall imp :: imp in b.fimps && imp !in had ==> FnOk(w, b, imp) && b.fimps[imp].start > lo)
    && (forall imp :: imp in b.fns && imp !in had ==> imp in b.fimps)
  }

  /** A bin that only differs before `lo` and after its end is as sound. */
  lemma SoundFrame(w: World, b: Bin, c: Bin, lo: nat, had: set<Imp>)
    requires Sound(w, b, lo, had) && Agree(b, c, lo, |b.ops|)
    requires c.lams == b.lams && c.fns == b.fns && c.fimps == b.fimps
    requires forall i :: |b.ops| <= i < |c.ops| ==> !c.ops[i].OLambda?
    ensures Sound(w, c, lo, had)
  {
    forall at | at in c.lams && at >= lo ensures LamOk(c, at) { LamFrame(b, c, at); }
    forall imp | imp in c.fimps && imp !in had ensures FnOk(w, c, imp) { FnFrame(w, b, c, imp); }
  }

  /** Two pieces of new code, one after the other. */
  lemma SoundTrans(w: World, b: Bin, c: Bin, lo: nat, had: set<Imp>)
    requires Sound(w, b, lo, had) && had <= b.fimps.Keys && lo <= |b.ops| && Fits(b)
    requires Grow(b, c) && Sound(w, c, |b.ops|, b.fimps.Keys)
    ensures Sound(w, c, lo, had)
  {
    forall at | at in c.lams && at >= lo ensures LamOk(c, at) {
      if at in b.lams { LamFrame(b, c, at); }
    }
    forall imp | imp in c.fimps && imp !in had ensures FnOk(w, c, imp) && c.fimps[imp].start > lo {
      if imp in b.fimps { FnFrame(w, b, c, imp); }
    }
    forall imp | imp in c.fns && imp !in had ensures imp in c.fimps {
      if imp in b.fimps.Keys { assert imp in c.fimps; }
    }
  }

  /** `i` lies in no lambda or function body recorded since `lo` and `had`. */
  ghost predicate Clear(b: Bin, lo: nat, had: set<Imp>, i: nat) {
    && (forall at :: at in b.lams && at >= lo ==> i < at || i > at + SizeSeq(b.lams[at]))
    && (forall imp :: imp in b.fimps && imp !in had ==>
          b.fimps[imp].nops >= 0 && (i < b.fimps[imp].start || i >= b.fimps[imp].start + b.fimps[imp].nops))
  }

  /** Retargeting clear jumps leaves the code sound. */
  lemma SoundRetarget(w: World, b: Bin, c: Bin, lo: nat, had: set<Imp>, own: seq<nat>, end: nat)
    requires Sound(w, b, lo, had) && Retargeted(b, c, own, end)
    requires forall i :: i in own ==> i < |b.ops| && b.ops[i].OJump? && Clear(b, lo, had, i)
    ensures Sound(w, c, lo, had)
  {
    forall at | at in c.lams && at >= lo ensures LamOk(c, at) {
      forall i | at <= i < at + 1 + SizeSeq(b.lams[at]) ensures c.ops[i] == b.ops[i] {
      }
      LamFrame(b, c, at);
    }
    forall imp | imp in c.fimps && imp !in had ensures FnOk(w, c, imp) {
      forall i | b.fimps[imp].start <= i < b.fimps[imp].start + b.fimps[imp].nops ensures c.ops[i] == b.ops[i] {
      }
      FnFrame(w, b, c, imp);
    }
  }

  // ---- the compiler --------------------------------------------------------

  /** What compiling from `b` to `c` with result `ns` guarantees. */
  ghost predicate Done(w: World, b: Bin, c: Bin, ns: seq<Node>) {
    && Grow(b, c) && Fits(c)
    && Sound(w, c, |b.ops|, b.fimps.Keys)
    && |c.ops| == |b.ops| + SizeSeq(ns)
    && CodedSeq(c, ns, |b.ops|)
  }

  lemma DoneTrans(w: World, b: Bin, c: Bin, d: Bin, x: seq<Node>, y: seq<Node>)
    requires Done(w, b, c, x) && Done(w, c, d, y)
    ensures Done(w, b, d, x + y)
  {
    GrowTrans(b, c, d);
    SoundTrans(w, c, d, |b.ops|, b.fimps.Keys);
    SizeConcat(x, y);
    CodedSeqFrame(c, d, x, |b.ops|);
    CodedConcat(d, x, y, |b.ops|);
  }

  lemma DoneNil(w: World, b: Bin)
    requires Fits(b)
    ensures Done(w, b, b, [])
  {
  }

  lemma DoneFits(w: World, b: Bin, c: Bin, ns: seq<Node>)
    requires Done(w, b, c, ns)
    ensures Fits(c)
  {
  }

  lemma One(n: Node, b: Bin, a: nat)
    ensures SizeSeq([n]) == Size(n)
    ensures Coded(b, n, a) ==> CodedSeq(b, [n], a)
  {
    assert [n][1..] == [];
  }

  /** An op that is neither a lambda nor a placeholder. */
  lemma DoneOne(w: World, b: Bin, op: Op, n: Node)
    requires Fits(b) && !op.OLambda? && Size(n) == 1
    requires Coded(Emit(b, op), n, |b.ops|)
    ensures Done(w, b, Emit(b, op), [n])
  {
    One(n, Emit(b, op), |b.ops|);
  }

  /** A placeholder at |b.ops|, code after it, more plain ops, and the placeholder
      filled in: sound from the placeholder on. */
  lemma Wrapped(w: World, b: Bin, op0: Op, c: Bin, d: Bin)
    requires Fits(b) && Grow(Emit(b, op0), c) && Fits(c) && Sound(w, c, |b.ops| + 1, b.fimps.Keys)
    requires d == c.(ops := d.ops) && |c.ops| <= |d.ops|
    requires forall i :: 0 <= i < |c.ops| && i != |b.ops| ==> d.ops[i] == c.ops[i]
    requires forall i :: |c.ops| <= i < |d.ops| ==> !d.ops[i].OLambda?
    requires !d.ops[|b.ops|].OLambda?
    ensures Grow(b, d) && Fits(d) && Sound(w, d, |b.ops|, b.fimps.Keys)
    ensures Agree(c, d, |b.ops| + 1, |c.ops|)
  {
    SoundFrame(w, c, d, |b.ops| + 1, b.fimps.Keys);
    assert |b.ops| !in d.lams;
  }

  /** A group or a stack literal around compiled code. */
  lemma GroupEnd(w: World, b: Bin, b1: Bin, ns: seq<Node>, tail: seq<Op>, n: Node)
    requires Fits(b) && Done(w, Emit(b, OBegin(None, 0)), b1, ns)
    requires (tail == [OEnd] && n == NGroup(ns)) || (tail == [OStash, OEnd] && n == NStack(ns))
    ensures Done(w, b, Fill(b1.(ops := b1.ops + tail), |b.ops|, OBegin(None, |b1.ops| + |tail| - |b.ops| - 1)), [n])
  {
    var c := Fill(b1.(ops := b1.ops + tail), |b.ops|, OBegin(None, |b1.ops| + |tail| - |b.ops| - 1));
    Wrapped(w, b, OBegin(None, 0), b1, c);
    CodedSeqFrame(b1, c, ns, |b.ops| + 1);
    One(n, c, |b.ops|);
  }

  lemma LambdaEnd(w: World, b: Bin, b1: Bin, ns: seq<Node>)
    requires Fits(b) && Done(w, Emit(b, OLambda(|b.ops| + 1, 0)), b1, ns)
    ensures Done(w, b, EndLambda(b1, |b.ops|, ns), [NLambda(|b.ops|, ns)])
  {
    hide Sound;
    var a := |b.ops|;
    var c := EndLambda(b1, a, ns);
    LambdaAgree(w, b, b1, ns);
    CodedSeqFrame(b1, c, ns, a + 1);
    hide CodedSeq;
    LambdaSound(w, b, b1, ns);
    One(NLambda(a, ns), c, a);
  }

  lemma LambdaAgree(w: World, b: Bin, b1: Bin, ns: seq<Node>)
    requires Done(w, Emit(b, OLambda(|b.ops| + 1, 0)), b1, ns)
    ensures |b.ops| < |b1.ops| && Agree(b1, EndLambda(b1, |b.ops|, ns), |b.ops| + 1, |b1.ops|)
  {
    hide CodedSeq, Sound;
  }

  lemma LambdaSound(w: World, b: Bin, b1: Bin, ns: seq<Node>)
    requires Fits(b) && Done(w, Emit(b, OLambda(|b.ops| + 1, 0)), b1, ns)
    requires |b.ops| < |b1.ops| && CodedSeq(EndLambda(b1, |b.ops|, ns), ns, |b.ops| + 1)
    ensures Sound(w, EndLambda(b1, |b.ops|, ns), |b.ops|, b.fimps.Keys)
  {
    hide CodedSeq, FnOk;
    var a := |b.ops|;
    var c := EndLambda(b1, a, ns);
    LambdaAgree(w, b, b1, ns);
    assert LamOk(c, a);
    hide LamOk;
    forall at | at in c.lams && at >= a ensures LamOk(c, at) {
      if at != a {
        LamBound(b1, at);
        LamFrame(b1, c, at);
      }
    }
    forall imp | imp in c.fimps && imp !in b.fimps.Keys ensures FnOk(w, c, imp) {
      FnBound(w, b1, imp);
      FnFrame(w, b1, c, imp);
    }
  }

  lemma CatchEnd(w: World, b: Bin, b1: Bin, ty: Option<TypeId>, ns: seq<Node>)
    requires Fits(b) && Done(w, Emit(b, OCatch(ty, 0)), b1, ns)
    ensures Done(w, b, Fill(b1, |b.ops|, OCatch(ty, |b1.ops| - |b.ops| - 1)), [NCatch(ty, ns)])
  {
    var c := Fill(b1, |b.ops|, OCatch(ty, |b1.ops| - |b.ops| - 1));
    Wrapped(w, b, OCatch(ty, 0), b1, c);
    CodedSeqFrame(b1, c, ns, |b.ops| + 1);
    One(NCatch(ty, ns), c, |b.ops|);
  }

  ghost predicate InlineOk(w: World, b: Bin, c: Bin) {
    && Grow(b, c) && Fits(c)
    && Sound(w, c, |b.ops|, b.fimps.Keys)
    && Inlined(c, |b.ops|, |c.ops| - |b.ops|)
  }

  lemma InlineNone(w: World, b: Bin)
    requires Fits(b)
    ensures InlineOk(w, b, b)
  {
  }

  /** A call behind the code it inlines, if any. */
  lemma CallEnd(w: World, b: Bin, b1: Bin, func: Func, imp: Option<Imp>)
    requires Fits(b) && InlineOk(w, b, b1)
    ensures Done(w, b, Emit(b1, OFuncall(func, imp)), [NCall(|b1.ops|, func, imp, |b1.ops| - |b.ops|)])
  {
    var c := Emit(b1, OFuncall(func, imp));
    var n := NCall(|b1.ops|, func, imp, |b1.ops| - |b.ops|);
    SoundFrame(w, b1, c, |b.ops|, b.fimps.Keys);
    One(n, c, |b.ops|);
  }

  lemma FuncCoded(w: World, b: Bin, c: Bin, def: Imp)
    requires InlineOk(w, Emit(b, OFuncdef(def)), c)
    ensures |c.ops| >= |b.ops| + 1 && Coded(c, NFunc(def, |c.ops| - (|b.ops| + 1)), |b.ops|)
  {
    hide Sound;
  }

  lemma FuncEnd(w: World, b: Bin, c: Bin, def: Imp)
    requires Fits(b) && InlineOk(w, Emit(b, OFuncdef(def)), c)
    ensures Done(w, b, c, [NFunc(def, |c.ops| - (|b.ops| + 1))])
  {
    hide LamOk, FnOk, Coded;
    var b0 := Emit(b, OFuncdef(def));
    assert Sound(w, b0, |b.ops|, b.fimps.Keys);
    FuncCoded(w, b, c, def);
    hide Sound, Inlined;
    SoundTrans(w, b0, c, |b.ops|, b.fimps.Keys);
    GrowTrans(b, b0, c);
    One(NFunc(def, |c.ops| - (|b.ops| + 1)), c, |b.ops|);
  }

  lemma InlineEnd(w: World, imp: Imp, b: Bin, b1: Bin, ns: seq<Node>)
    requires Fits(b) && imp !in b.fimps && imp in w.imps
    requires Done(w, BeginInline(w, imp, b), b1, ns)
    ensures InlineOk(w, b, EndInline(imp, |b.ops| + 1, b1, ns))
  {
    hide CodedSeq, CodedFn, Sound, Inlined;
    InlineGrow(w, imp, b, b1, ns);
    InlineAgree(w, imp, b, b1, ns);
    CodedSeqFrame(b1, EndInline(imp, |b.ops| + 1, b1, ns), ns, |BeginInline(w, imp, b).ops|);
    InlineFn(w, imp, b, b1, ns);
    InlineSound(w, imp, b, b1, ns);
  }

  lemma InlineAgree(w: World, imp: Imp, b: Bin, b1: Bin, ns: seq<Node>)
    requires imp !in b.fimps && imp in w.imps && Grow(BeginInline(w, imp, b), b1)
    ensures Agree(b1, EndInline(imp, |b.ops| + 1, b1, ns), |b.ops| + 2, |b1.ops|)
  {
    assert imp in BeginInline(w, imp, b).fimps;
  }

  lemma InlineSound(w: World, imp: Imp, b: Bin, b1: Bin, ns: seq<Node>)
    requires Fits(b) && imp !in b.fimps && imp in w.imps
    requires var b0 := BeginInline(w, imp, b); Grow(b0, b1) && Fits(b1) && Sound(w, b1, |b0.ops|, b0.fimps.Keys)
    requires FnOk(w, EndInline(imp, |b.ops| + 1, b1, ns), imp)
    ensures Sound(w, EndInline(imp, |b.ops| + 1, b1, ns), |b.ops|, b.fimps.Keys)
  {
    hide CodedSeq;
    var c := EndInline(imp, |b.ops| + 1, b1, ns);
    InlineAgree(w, imp, b, b1, ns);
    InlineLams(w, imp, b, b1, c);
    InlineFns(w, imp, b, b1, c);
    hide LamOk, Fits, FnOk, Agree;
  }

  lemma InlineFns(w: World, imp: Imp, b: Bin, b1: Bin, c: Bin)
    requires imp !in b.fimps && imp in w.imps && Agree(b1, c, |b.ops| + 2, |b1.ops|)
    requires var b0 := BeginInline(w, imp, b); Grow(b0, b1) && Sound(w, b1, |b0.ops|, b0.fimps.Keys)
    requires c.fimps == b1.fimps[imp := Range(|b.ops| + 1, |c.ops| - |b.ops| - 1)] && FnOk(w, c, imp)
             && |c.ops| > |b.ops|
    requires forall other :: other in b1.fns && other != imp ==> other in c.fns && c.fns[other] == b1.fns[other]
    ensures forall other :: other in c.fimps && other !in b.fimps.Keys ==>
            FnOk(w, c, other) && c.fimps[other].start > |b.ops|
  {
    hide CodedSeq, LamOk, CodedFn;
    forall other | other in c.fimps && other !in b.fimps.Keys
      ensures FnOk(w, c, other) && c.fimps[other].start > |b.ops| {
      if other != imp {
        FnBound(w, b1, other);
        FnFrame(w, b1, c, other);
      }
    }
  }

  lemma InlineLams(w: World, imp: Imp, b: Bin, b1: Bin, c: Bin)
    requires Fits(b) && imp in w.imps
    requires var b0 := BeginInline(w, imp, b); Grow(b0, b1) && Fits(b1) && Sound(w, b1, |b0.ops|, b0.fimps.Keys)
    requires c.lams == b1.lams && Agree(b1, c, |b.ops| + 2, |b1.ops|)
    ensures forall at :: at in c.lams && at >= |b.ops| ==> LamOk(c, at)
  {
    hide CodedSeq, FnOk, LamOk;
    forall at | at in c.lams && at >= |b.ops| ensures LamOk(c, at) {
      LamBound(b1, at);
      LamFrame(b1, c, at);
    }
  }

  lemma InlineGrow(w: World, imp: Imp, b: Bin, b1: Bin, ns: seq<Node>)
    requires Fits(b) && imp !in b.fimps && imp in w.imps
    requires Grow(BeginInline(w, imp, b), b1) && Fits(b1)
    ensures var c := EndInline(imp, |b.ops| + 1, b1, ns);
            Grow(b, c) && Fits(c) && Inlined(c, |b.ops|, |c.ops| - |b.ops|)
  {
  }

  lemma InlineFn(w: World, imp: Imp, b: Bin, b1: Bin, ns: seq<Node>)
    requires imp !in b.fimps && imp in w.imps && Grow(BeginInline(w, imp, b), b1)
    requires |b1.ops| == |BeginInline(w, imp, b).ops| + SizeSeq(ns)
    requires CodedSeq(EndInline(imp, |b.ops| + 1, b1, ns), ns, |BeginInline(w, imp, b).ops|)
    ensures FnOk(w, EndInline(imp, |b.ops| + 1, b1, ns), imp)
  {
    var b0 := BeginInline(w, imp, b);
    if w.imps[imp].args != [] { assert b1.ops[|b.ops| + 2] == b0.ops[|b.ops| + 2]; }
  }

  // ---- the induction over tokens -------------------------------------------

  lemma {:induction false} CompileSeqDone(w: World, toks: seq<Tok>, b: Bin)
    requires Fits(b)
    ensures var (c, ns) := CompileSeq(w, PatchOwn, toks, b); Done(w, b, c, ns)
    decreases Left(w, b), 1, toks, 1
  {
    hide Done;
    if toks == [] {
      DoneNil(w, b);
    } else {
      var (b1, ns1) := CompileTok(w, PatchOwn, toks[0], b);
      var (b2, ns2) := CompileSeq(w, PatchOwn, toks[1..], b1);
      CompileTokDone(w, toks[0], b);
      DoneFits(w, b, b1, ns1);
      CompileSeqDone(w, toks[1..], b1);
      DoneTrans(w, b, b1, b2, ns1, ns2);
    }
  }

  lemma {:induction false} CompileTokDone(w: World, tok: Tok, b: Bin)
    requires Fits(b)
    ensures var (c, ns) := CompileTok(w, PatchOwn, tok, b); Done(w, b, c, ns)
    decreases Left(w, b), 1, tok, 1
  {
    hide Done, InlineOk;
    match tok
    case TLiteral(v) => DoneOne(w, b, OPush(v), NPush(v));
    case TVar(id) => DoneOne(w, b, OGetVar(id), NGetVar(id));
    case TGroup(body) => if body == [] { DoneNil(w, b); } else { GroupDone(w, tok, b); }
    case TStack(body) =>
      if body == [] { DoneOne(w, b, OPush(StackV([])), NPush(StackV([]))); } else { StackDone(w, tok, b); }
    case TLambda(body) =>
      var (b1, ns) := CompileSeq(w, PatchOwn, body, Emit(b, OLambda(|b.ops| + 1, 0)));
      CompileSeqDone(w, body, Emit(b, OLambda(|b.ops| + 1, 0)));
      LambdaEnd(w, b, b1, ns);
    case TCall(func, imp) => CallDone(w, tok, b);
    case TFunc(def) =>
      InlineDone(w, def, Emit(b, OFuncdef(def)));
      FuncEnd(w, b, Inline(w, PatchOwn, def, Emit(b, OFuncdef(def))), def);
    case TLet(body, ids) =>
      var (b1, ns) := CompileSeq(w, PatchOwn, body, b);
      var (b2, puts) := CompilePuts(ids, b1);
      CompileSeqDone(w, body, b);
      DoneFits(w, b, b1, ns);
      PutsDone(w, ids, b1);
      DoneTrans(w, b, b1, b2, ns, puts);
    case TCatch(clauses) => CatchesDone(w, clauses, b);
    case TSwitch(cases) => SwitchDone(w, tok, b);
  }

  lemma {:induction false} GroupDone(w: World, tok: Tok, b: Bin)
    requires Fits(b) && tok.TGroup? && tok.body != []
    ensures var (c, ns) := CompileTok(w, PatchOwn, tok, b); Done(w, b, c, ns)
    decreases Left(w, b), 1, tok, 0
  {
    hide Done;
    var b0 := Emit(b, OBegin(None, 0));
    var (b1, ns) := CompileSeq(w, PatchOwn, tok.body, b0);
    CompileSeqDone(w, tok.body, b0);
    GroupEnd(w, b, b1, ns, [OEnd], NGroup(ns));
  }

  lemma {:induction false} StackDone(w: World, tok: Tok, b: Bin)
    requires Fits(b) && tok.TStack? && tok.body != []
    ensures var (c, ns) := CompileTok(w, PatchOwn, tok, b); Done(w, b, c, ns)
    decreases Left(w, b), 1, tok, 0
  {
    hide Done;
    var b0 := Emit(b, OBegin(None, 0));
    var (b1, ns) := CompileSeq(w, PatchOwn, tok.body, b0);
    CompileSeqDone(w, tok.body, b0);
    GroupEnd(w, b, b1, ns, [OStash, OEnd], NStack(ns));
    assert b1.ops + [OStash, OEnd] == b1.ops + [OStash] + [OEnd];
  }

  lemma {:induction false} CallDone(w: World, tok: Tok, b: Bin)
    requires Fits(b) && tok.TCall?
    ensures var (c, ns) := CompileTok(w, PatchOwn, tok, b); Done(w, b, c, ns)
    decreases Left(w, b), 1, tok, 0
  {
    hide Done, InlineOk, Inline;
    var one := ToInline(w, tok.func, tok.imp);
    if one.Some? { InlineDone(w, one.value, b); } else { InlineNone(w, b); }
    var b1 := if one.Some? then Inline(w, PatchOwn, one.value, b) else b;
    CallEnd(w, b, b1, tok.func, tok.imp);
  }

  lemma {:induction false} PutsDone(w: World, ids: seq<Binding>, b: Bin)
    requires Fits(b)
    ensures var (c, ns) := CompilePuts(ids, b); Done(w, b, c, ns)
    decreases |ids|
  {
    if ids != [] {
      var op := OPutVar(ids[|ids| - 1].id, ids[|ids| - 1].ty);
      var (c, ns) := CompilePuts(ids[..|ids| - 1], Emit(b, op));
      DoneOne(w, b, op, NPutVar(ids[|ids| - 1].id, ids[|ids| - 1].ty));
      PutsDone(w, ids[..|ids| - 1], Emit(b, op));
      DoneTrans(w, b, Emit(b, op), c, [NPutVar(ids[|ids| - 1].id, ids[|ids| - 1].ty)], ns);
    }
  }

  lemma {:induction false} CatchesDone(w: World, cs: seq<CatchClause>, b: Bin)
    requires Fits(b)
    ensures var (c, ns) := CompileCatches(w, PatchOwn, cs, b); Done(w, b, c, ns)
    decreases Left(w, b), 1, cs, 1
  {
    hide Done;
    if cs == [] {
      DoneNil(w, b);
    } else {
      var b0 := Emit(b, OCatch(cs[0].ty, 0));
      var (b1, ns) := CompileSeq(w, PatchOwn, cs[0].body, b0);
      CompileSeqDone(w, cs[0].body, b0);
      var b2 := Fill(b1, |b.ops|, OCatch(cs[0].ty, |b1.ops| - |b.ops| - 1));
      CatchEnd(w, b, b1, cs[0].ty, ns);
      DoneFits(w, b, b2, [NCatch(cs[0].ty, ns)]);
      var (b3, rest) := CompileCatches(w, PatchOwn, cs[1..], b2);
      CatchesDone(w, cs[1..], b2);
      DoneTrans(w, b, b2, b3, [NCatch(cs[0].ty, ns)], rest);
    }
  }

  // ---- switches ------------------------------------------------------------

  /** Compiled clauses whose jumps, at the addresses `own`, have no target yet. */
  ghost predicate OpenCases(b: Bin, cs: seq<Case>, a: nat, own: seq<nat>)
    decreases cs, 0
  {
    a + SizeCases(cs) <= |b.ops| && |own| == |cs| &&
    (cs != [] ==>
       var m := a + SizeSeq(cs[0].cond);
       var j := m + 1 + SizeSeq(cs[0].body);
       && CodedSeq(b, cs[0].cond, a)
       && b.ops[m] == OElse(j - m)
       && CodedSeq(b, cs[0].body, m + 1)
       && b.ops[j].OJump? && own[0] == j
       && OpenCases(b, cs[1..], j + 1, own[1..]))
  }

  lemma {:induction false} OpenFrame(b: Bin, c: Bin, cs: seq<Case>, a: nat, own: seq<nat>)
    requires OpenCases(b, cs, a, own) && Agree(b, c, a, a + SizeCases(cs))
    ensures OpenCases(c, cs, a, own)
    decreases cs, 0
  {
    hide CodedSeq, Coded;
    if cs != [] {
      var m := a + SizeSeq(cs[0].cond);
      var j := m + 1 + SizeSeq(cs[0].body);
      CodedSeqFrame(b, c, cs[0].cond, a);
      CodedSeqFrame(b, c, cs[0].body, m + 1);
      OpenFrame(b, c, cs[1..], j + 1, own[1..]);
    }
  }

  lemma {:induction false} OwnBounds(b: Bin, cs: seq<Case>, a: nat, own: seq<nat>)
    requires OpenCases(b, cs, a, own)
    ensures forall i :: i in own ==> a < i < a + SizeCases(cs)
    decreases cs, 0
  {
    if cs != [] {
      var j := a + SizeSeq(cs[0].cond) + 1 + SizeSeq(cs[0].body);
      OwnBounds(b, cs[1..], j + 1, own[1..]);
      forall i | i in own ensures a < i < a + SizeCases(cs) {
        if i != own[0] { assert i in own[1..]; }
      }
    }
  }

  /** `c` is `b` with the jumps at `all` sent to `end`. */
  ghost predicate Retargeted(b: Bin, c: Bin, all: seq<nat>, end: nat) {
    && c == b.(ops := c.ops) && |c.ops| == |b.ops|
    && (forall i :: 0 <= i < |b.ops| ==> c.ops[i] == if i in all then OJump(end) else b.ops[i])
  }

  lemma RetargetedAgree(b: Bin, c: Bin, all: seq<nat>, end: nat, lo: nat, hi: nat)
    requires Retargeted(b, c, all, end) && hi <= |b.ops|
    requires forall i :: lo <= i < hi ==> i !in all
    ensures Agree(b, c, lo, hi)
  {
  }

  lemma RetargetedSize(b: Bin, c: Bin, all: seq<nat>, end: nat)
    requires Retargeted(b, c, all, end)
    ensures |c.ops| == |b.ops|
  {
  }

  lemma RetargetedAt(b: Bin, c: Bin, all: seq<nat>, end: nat, i: nat)
    requires Retargeted(b, c, all, end) && i < |b.ops|
    ensures |c.ops| == |b.ops| && c.ops[i] == if i in all then OJump(end) else b.ops[i]
  {
  }

  /** Giving exactly the open jumps their target closes the clauses. */
  lemma {:induction false} CloseCases(b: Bin, c: Bin, cs: seq<Case>, a: nat, own: seq<nat>, all: seq<nat>, end: nat)
    requires OpenCases(b, cs, a, own) && Retargeted(b, c, all, end)
    requires forall i :: a <= i < a + SizeCases(cs) ==> (i in all <==> i in own)
    ensures CodedCases(c, cs, a, end)
    decreases cs, 0
  {
    hide CodedSeq, Agree, Retargeted;
    RetargetedSize(b, c, all, end);
    if cs != [] {
      var m := a + SizeSeq(cs[0].cond);
      var j := m + 1 + SizeSeq(cs[0].body);
      OwnBounds(b, cs[1..], j + 1, own[1..]);
      assert own == [j] + own[1..];
      assert forall i :: a <= i < j ==> i !in own;
      RetargetedAgree(b, c, all, end, a, m);
      CodedSeqFrame(b, c, cs[0].cond, a);
      RetargetedAgree(b, c, all, end, m + 1, j);
      CodedSeqFrame(b, c, cs[0].body, m + 1);
      assert j in own;
      assert c.ops[m] == b.ops[m] && c.ops[j] == OJump(end)
               by { RetargetedAt(b, c, all, end, m); RetargetedAt(b, c, all, end, j); }
      CloseCases(b, c, cs[1..], j + 1, own[1..], all, end);
    }
  }

  ghost predicate CasesDone(w: World, b: Bin, c: Bin, cs: seq<Case>, own: seq<nat>) {
    && Grow(b, c) && Fits(c)
    && Sound(w, c, |b.ops|, b.fimps.Keys)
    && |c.ops| == |b.ops| + SizeCases(cs)
    && OpenCases(c, cs, |b.ops|, own)
    && (forall i :: i in own ==> Clear(c, |b.ops|, b.fimps.Keys, i))
  }

  /** An op behind sound code, followed by more sound code, is in no body. */
  lemma Between(w: World, b: Bin, c: Bin, lo: nat, had: set<Imp>, i: nat)
    requires Sound(w, b, lo, had) && had <= b.fimps.Keys && lo <= |b.ops| <= i && Fits(b)
    requires Grow(b, c) && Sound(w, c, i + 1, b.fimps.Keys)
    requires forall at :: at in c.lams && at !in b.lams ==> at > i
    ensures Clear(c, lo, had, i)
  {
    forall at | at in c.lams && at >= lo ensures i < at || i > at + SizeSeq(c.lams[at]) {
      if at in b.lams { assert LamOk(b, at); }
    }
    forall imp | imp in c.fimps && imp !in had
      ensures c.fimps[imp].nops >= 0 && (i < c.fimps[imp].start || i >= c.fimps[imp].start + c.fimps[imp].nops)
    {
      if imp in b.fimps { assert FnOk(w, b, imp); } else { assert FnOk(w, c, imp); }
    }
  }

  /** What is clear of later code stays clear when more code follows. */
  lemma ClearLater(w: World, b: Bin, c: Bin, lo: nat, had: set<Imp>, i: nat)
    requires Clear(b, lo, had, i) && i < |b.ops| && Fits(b)
    requires Grow(b, c) && Sound(w, c, |b.ops|, b.fimps.Keys)
    ensures Clear(c, lo, had, i)
  {
    forall imp | imp in c.fimps && imp !in had
      ensures c.fimps[imp].nops >= 0 && (i < c.fimps[imp].start || i >= c.fimps[imp].start + c.fimps[imp].nops)
    {
      if imp !in b.fimps { assert FnOk(w, c, imp); }
    }
  }

  /** What is clear in later code is clear of the code before it. */
  lemma ClearEarlier(w: World, b: Bin, c: Bin, lo: nat, had: set<Imp>, i: nat)
    requires Sound(w, b, lo, had) && had <= b.fimps.Keys && lo <= |b.ops| <= i && Fits(b)
    requires Grow(b, c) && Clear(c, |b.ops|, b.fimps.Keys, i)
    ensures Clear(c, lo, had, i)
  {
    forall at | at in c.lams && at >= lo ensures i < at || i > at + SizeSeq(c.lams[at]) {
      if at in b.lams { assert LamOk(b, at); }
    }
    forall imp | imp in c.fimps && imp !in had
      ensures c.fimps[imp].nops >= 0 && (i < c.fimps[imp].start || i >= c.fimps[imp].start + c.fimps[imp].nops)
    {
      if imp in b.fimps { assert FnOk(w, b, imp); }
    }
  }

  /** One clause: condition, OELSE, body, OJUMP. */
  lemma ClauseDone(w: World, b: Bin, b1: Bin, cond: seq<Node>, b2: Bin, body: seq<Node>, b4: Bin)
    requires Fits(b) && Done(w, b, b1, cond) && Done(w, Emit(b1, OElse(0)), b2, body)
    requires b4 == Fill(Emit(b2, OJump(0)), |b1.ops|, OElse(|b2.ops| - |b1.ops|))
    ensures CasesDone(w, b, b4, [Case(cond, body)], [|b2.ops|])
  {
    hide Sound, CodedSeq, OpenCases;
    Wrapped(w, b1, OElse(0), b2, b4);
    GrowTrans(b, b1, b4);
    SoundTrans(w, b1, b4, |b.ops|, b.fimps.Keys);
    ClauseOpen(w, b, b1, cond, b2, body, b4);
    ClauseClear(w, b, b1, cond, b2, body, b4);
  }

  lemma ClauseOpen(w: World, b: Bin, b1: Bin, cond: seq<Node>, b2: Bin, body: seq<Node>, b4: Bin)
    requires Done(w, b, b1, cond) && Done(w, Emit(b1, OElse(0)), b2, body)
    requires b4 == Fill(Emit(b2, OJump(0)), |b1.ops|, OElse(|b2.ops| - |b1.ops|))
    ensures OpenCases(b4, [Case(cond, body)], |b.ops|, [|b2.ops|])
    ensures SizeCases([Case(cond, body)]) == |b4.ops| - |b.ops|
  {
    hide CodedSeq, Sound;
    CodedSeqFrame(b1, b4, cond, |b.ops|);
    CodedSeqFrame(b2, b4, body, |b1.ops| + 1);
    assert [Case(cond, body)][1..] == [] && [|b2.ops|][1..] == [];
    assert SizeCases([Case(cond, body)]) == SizeSeq(cond) + SizeSeq(body) + 2;
    assert b4.ops[|b2.ops|] == OJump(0);
  }

  lemma ClauseClear(w: World, b: Bin, b1: Bin, cond: seq<Node>, b2: Bin, body: seq<Node>, b4: Bin)
    requires Fits(b) && Done(w, b, b1, cond) && Done(w, Emit(b1, OElse(0)), b2, body)
    requires b4 == Fill(Emit(b2, OJump(0)), |b1.ops|, OElse(|b2.ops| - |b1.ops|))
    ensures Clear(b4, |b.ops|, b.fimps.Keys, |b2.ops|)
  {
    hide Sound, CodedSeq, Clear;
    var b3 := Fill(b2, |b1.ops|, OElse(|b2.ops| - |b1.ops|));
    Wrapped(w, b1, OElse(0), b2, b3);
    SoundTrans(w, b1, b3, |b.ops|, b.fimps.Keys);
    assert Grow(b3, b4);
    JumpSound(w, b3, b4);
    Between(w, b3, b4, |b.ops|, b.fimps.Keys, |b2.ops|);
  }

  lemma JumpSound(w: World, b: Bin, c: Bin)
    requires Fits(b) && c == Emit(b, OJump(0))
    ensures Sound(w, c, |c.ops|, b.fimps.Keys)
  {
  }

  lemma CasesTrans(w: World, b: Bin, c: Bin, d: Bin, x: Case, xs: seq<Case>, j: nat, own: seq<nat>)
    requires Fits(b) && CasesDone(w, b, c, [x], [j]) && CasesDone(w, c, d, xs, own)
    ensures CasesDone(w, b, d, [x] + xs, [j] + own)
  {
    hide Sound, Clear, CodedSeq;
    var (lo, had) := (|b.ops|, b.fimps.Keys);
    GrowTrans(b, c, d);
    SoundTrans(w, c, d, lo, had);
    OpenFrame(c, d, [x], lo, [j]);
    assert ([x] + xs)[1..] == xs && ([j] + own)[1..] == own && [x][1..] == [];
    OwnBounds(d, xs, |c.ops|, own);
    forall i | i in [j] + own ensures Clear(d, lo, had, i) {
      if i == j {
        assert i in [j];
        ClearLater(w, c, d, lo, had, i);
      } else {
        ClearEarlier(w, c, d, lo, had, i);
      }
    }
  }

  lemma CasesNil(w: World, b: Bin)
    requires Fits(b)
    ensures CasesDone(w, b, b, [], [])
  {
  }

  lemma CasesFit(w: World, b: Bin, c: Bin, cs: seq<Case>, own: seq<nat>)
    requires CasesDone(w, b, c, cs, own)
    ensures Fits(c)
  {
  }

  lemma {:induction false} CompileCasesDone(w: World, cs: seq<SwitchClause>, b: Bin)
    requires Fits(b)
    ensures var (c, ns, own) := CompileCases(w, PatchOwn, cs, b); CasesDone(w, b, c, ns, own)
    decreases Left(w, b), 1, cs, 1
  {
    hide Done, CasesDone, CompileSeq, CompileTok;
    if cs == [] {
      CasesNil(w, b);
    } else {
      var (b1, cond) := if cs[0].head.TGroup? then CompileSeq(w, PatchOwn, cs[0].head.body, b)
          else CompileTok(w, PatchOwn, cs[0].head, b);
      if cs[0].head.TGroup? { CompileSeqDone(w, cs[0].head.body, b); } else { CompileTokDone(w, cs[0].head, b); }
      DoneFits(w, b, b1, cond);
      var ei := |b1.ops|;
      var (b2, body) := CompileSeq(w, PatchOwn, cs[0].rest, Emit(b1, OElse(0)));
      CompileSeqDone(w, cs[0].rest, Emit(b1, OElse(0)));
      var b3 := Emit(b2, OJump(0));
      var b4 := Fill(b3, ei, OElse(|b3.ops| - ei - 1));
      ClauseDone(w, b, b1, cond, b2, body, b4);
      CasesFit(w, b, b4, [Case(cond, body)], [|b2.ops|]);
      var (b5, rest, own) := CompileCases(w, PatchOwn, cs[1..], b4);
      CompileCasesDone(w, cs[1..], b4);
      CasesTrans(w, b, b4, b5, Case(cond, body), rest, |b2.ops|, own);
    }
  }

  lemma {:induction false} SwitchDone(w: World, tok: Tok, b: Bin)
    requires Fits(b) && tok.TSwitch?
    ensures var (c, ns) := CompileTok(w, PatchOwn, tok, b); Done(w, b, c, ns)
    decreases Left(w, b), 1, tok, 0
  {
    hide Done, CasesDone;
    var (b1, cases, own) := CompileCases(w, PatchOwn, tok.cases, b);
    CompileCasesDone(w, tok.cases, b);
    SwitchEnd(w, b, b1, cases, own);
  }

  lemma SwitchEnd(w: World, b: Bin, b1: Bin, cases: seq<Case>, own: seq<nat>)
    requires Fits(b) && CasesDone(w, b, b1, cases, own)
    requires forall i :: 0 <= i < |own| ==> own[i] < |b1.ops|
    ensures Done(w, b, b1.(ops := RetargetOwn(b1.ops, own, |b1.ops|)), [NSwitch(cases)])
  {
    hide Sound, OpenCases, CodedCases, Clear;
    var c := b1.(ops := RetargetOwn(b1.ops, own, |b1.ops|));
    OwnBounds(b1, cases, |b.ops|, own);
    JumpsOpen(b1, cases, |b.ops|, own);
    SoundRetarget(w, b1, c, |b.ops|, b.fimps.Keys, own, |b1.ops|);
    CloseCases(b1, c, cases, |b.ops|, own, own, |b1.ops|);
    SwitchCoded(c, cases, |b.ops|);
  }

  lemma SwitchCoded(c: Bin, cases: seq<Case>, a: nat)
    requires CodedCases(c, cases, a, a + SizeCases(cases))
    ensures CodedSeq(c, [NSwitch(cases)], a) && SizeSeq([NSwitch(cases)]) == SizeCases(cases)
  {
    One(NSwitch(cases), c, a);
    BoundCases(c, cases, a, a + SizeCases(cases));
  }

  lemma BoundCases(c: Bin, cases: seq<Case>, a: nat, end: nat)
    requires CodedCases(c, cases, a, end)
    ensures a + SizeCases(cases) <= |c.ops|
  {
  }

  lemma {:induction false} JumpsOpen(b: Bin, cs: seq<Case>, a: nat, own: seq<nat>)
    requires OpenCases(b, cs, a, own)
    ensures forall i :: i in own ==> i < |b.ops| && b.ops[i].OJump?
    decreases cs, 0
  {
    if cs != [] {
      JumpsOpen(b, cs[1..], a + SizeSeq(cs[0].cond) + 2 + SizeSeq(cs[0].body), own[1..]);
      assert own == [own[0]] + own[1..];
    }
  }

  // ---- inlining ------------------------------------------------------------

  lemma {:induction false} InlineDone(w: World, imp: Imp, b: Bin)
    requires Fits(b)
    ensures InlineOk(w, b, Inline(w, PatchOwn, imp, b))
    decreases Left(w, b), 0
  {
    hide Done;
    if imp !in b.fimps && imp in w.imps {
      LeftShrinks(w, imp, b);
      var b0 := BeginInline(w, imp, b);
      var (b1, ns) := CompileSeq(w, PatchOwn, w.imps[imp].toks, b0);
      CompileSeqDone(w, w.imps[imp].toks, b0);
      InlineEnd(w, imp, b, b1, ns);
    }
  }

  // ---- results -------------------------------------------------------------

  /** Every program compiles to linked code that covers the whole op array. */
  lemma CompiledIsLinked(w: World, toks: seq<Tok>)
    ensures var (b, ns) := Compile(w, PatchOwn, toks);
            Linked(w, b) && CodedSeq(b, ns, 0) && |b.ops| == SizeSeq(ns)
  {
    CompileSeqDone(w, toks, EMPTY_BIN);
    var (b, ns) := Compile(w, PatchOwn, toks);
    forall imp | Complete(b, imp) ensures imp in b.fns && CodedFn(w, b, imp) { assert FnOk(w, b, imp); }
    forall imp | imp in b.fns ensures Complete(b, imp) { assert FnOk(w, b, imp); }
    forall at | at in b.lams
      ensures at < |b.ops| && b.ops[at] == OLambda(at + 1, SizeSeq(b.lams[at])) && CodedSeq(b, b.lams[at], at + 1)
    { assert LamOk(b, at); }
  }

  /** Running a compiled program is the meaning of its tokens: for every program,
      entry state, mode and amount of fuel. */
  lemma CompilerCorrect(w: World, toks: seq<Tok>, fuel: nat, st: State)
    ensures var (b, ns) := Compile(w, PatchOwn, toks);
            RunOps(w, b, fuel, 0, -1, st) == EvalSeq(w, b, fuel, ns, st)
  {
    var (b, ns) := Compile(w, PatchOwn, toks);
    CompiledIsLinked(w, toks);
    CodeRunsAsTokens(w, b, fuel, ns, 0, -1, st);
  }
}
