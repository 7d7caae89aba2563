/** What the coroutine protocol guarantees over all interleavings. */
module CoroutineResults {
  import opened Basics
  import opened Switching
  import opened Coroutine

  /** Only one thread ever runs; a coroutine runs only while its state is RESUME, and
      then cx->coro names it, so that `suspend` suspends the thread that calls it. */
  lemma OneRunner(ss: seq<State>, ms: seq<Move>, k: nat, i: nat, j: nat)
    requires IsRun(ss, ms) && k < |ss| && i < |ss[k].coros| && j < |ss[k].coros|
    requires ss[k].coros[i].pc == Running
    ensures ss[k].coros[i].state == Resumed && ss[k].vm.coro == i
    ensures ss[k].coros[j].pc == Running ==> j == i
  {
    InvAlways(ss, ms, k);
    RunningIsInnermost(ss[k], i);
    if ss[k].coros[j].pc == Running { RunningIsInnermost(ss[k], j); }
  }

  /** A semaphore never holds more than one token, and a token is only there for a
      resumed coroutine that waits for it. */
  lemma OneToken(ss: seq<State>, ms: seq<Move>, k: nat, i: nat)
    requires IsRun(ss, ms) && k < |ss| && i < |ss[k].coros|
    ensures var x := ss[k].coros[i];
            x.onCall <= 1 && (x.onCall == 1 ==> x.state == Resumed && x.pc == Waiting(i) && ss[k].vm.coro == i)
  {
    InvAlways(ss, ms, k);
    Whereabouts(ss[k], i);
  }

  /** No wake-up is lost: a resumed coroutine that still waits has its token, or its
      caller is about to post it. */
  lemma NoLostWakeUp(ss: seq<State>, ms: seq<Move>, k: nat, i: nat)
    requires IsRun(ss, ms) && k < |ss| && i < |ss[k].coros|
    requires ss[k].coros[i].state == Resumed && ss[k].coros[i].pc.Waiting?
    ensures || ss[k].coros[i].onCall == 1
            || exists j :: 0 <= j < |ss[k].coros| && ss[k].coros[j].pc == Posting(i)
  {
    InvAlways(ss, ms, k);
    var s := ss[k];
    Whereabouts(s, i);
    if s.coros[i].onCall != 1 { assert s.coros[s.chain[|s.chain| - 2]].pc == Posting(i); }
  }

  // ---- the chain -----------------------------------------------------------

  /** Following prev_coro from `c`, at most `n` times. */
  function Follow(s: State, c: int, n: nat): seq<int>
    decreases n
  {
    if c <= 0 || c >= |s.coros| || n == 0 then [] else [c] + Follow(s, s.coros[c].base.coro, n - 1)
  }

  function Reversed(q: seq<nat>): seq<int> {
    if q == [] then [] else [q[|q| - 1]] + Reversed(q[..|q| - 1])
  }

  lemma {:induction false} FollowChain(s: State, k: nat, n: nat)
    requires Chained(s) && LinkedUp(s) && k < |s.chain| && n >= k
    ensures Follow(s, s.chain[k], n) == Reversed(s.chain[1..k + 1])
  {
    if k > 0 {
      assert s.chain[k] != s.chain[0];
      FollowChain(s, k - 1, n - 1);
      assert s.chain[1..k + 1][..k - 1] == s.chain[1..k];
      assert s.coros[s.chain[k]].base.coro == s.chain[k - 1];
    }
  }

  lemma {:induction false} ReversedHas(q: seq<nat>, i: nat)
    ensures i in Reversed(q) <==> i in q
  {
    if q != [] {
      ReversedHas(q[..|q| - 1], i);
      assert q == q[..|q| - 1] + [q[|q| - 1]];
    }
  }

  /** From cx->coro through the saved prev_coro fields one meets exactly the coroutines
      whose state is RESUME, each of them followed by the one that called it. */
  lemma ChainIsResumed(ss: seq<State>, ms: seq<Move>, k: nat, i: nat)
    requires IsRun(ss, ms) && k < |ss| && 0 < i < |ss[k].coros|
    ensures var s := ss[k];
            var met := Follow(s, s.vm.coro, |s.coros|);
            && s.chain != [] && met == Reversed(s.chain[1..])
            && (i in met <==> s.coros[i].state == Resumed)
  {
    InvAlways(ss, ms, k);
    var s := ss[k];
    Distinct(s.chain, |s.coros|);
    FollowChain(s, |s.chain| - 1, |s.coros|);
    assert s.chain[1..|s.chain| - 1 + 1] == s.chain[1..];
    ReversedHas(s.chain[1..], i);
    assert s.chain == [0] + s.chain[1..];
  }

  // ---- callers and callees get their stacks back ---------------------------

  /** The record of a call that is still open. */
  predicate OpenSince(s: State, chain: seq<nat>, had: seq<Vm>, c: nat, vm: Vm) {
    |s.chain| > |chain| && s.chain[..|chain| + 1] == chain + [c] && |s.had| > |had| && s.had[..|had| + 1] == had + [vm]
  }

  lemma OpenKept(s: State, m: Move, chain: seq<nat>, had: seq<Vm>, c: nat, vm: Vm)
    requires Inv(s) && Enabled(s, m) && OpenSince(s, chain, had, c, vm) && |had| == |chain| - 1
    ensures |Next(s, m).chain| > |chain| ==> OpenSince(Next(s, m), chain, had, c, vm)
    ensures |Next(s, m).chain| <= |chain| ==> Next(s, m).vm == vm && Next(s, m).chain == chain
  {
    HadSize(s);
    match m
    case Suspend(i) =>
      SuspendKept(s, i);
      if s.vm.coro != 0 { SuspendOpen(s, i, chain, had, c, vm); }
    case Finish(i) =>
      FinishKept(s, i);
      FinishOpen(s, i, chain, had, c, vm);
    case Call(i, d) =>
      hide Inv;
      CallOpen(s, i, d, chain, had, c, vm);
    case _ => hide Inv;
  }

  lemma CallOpen(s: State, i: nat, d: nat, chain: seq<nat>, had: seq<Vm>, c: nat, vm: Vm)
    requires Enabled(s, Call(i, d)) && OpenSince(s, chain, had, c, vm)
    ensures OpenSince(Next(s, Call(i, d)), chain, had, c, vm)
  {
  }

  lemma SuspendOpen(s: State, i: nat, chain: seq<nat>, had: seq<Vm>, c: nat, vm: Vm)
    requires Enabled(s, Suspend(i)) && OpenSince(s, chain, had, c, vm) && |had| == |chain| - 1
             && |s.had| == |s.chain| - 1
    requires s.vm.coro == i != 0 && |s.had| > 0 && Next(s, Suspend(i)).vm == s.had[|s.had| - 1]
    ensures var r := Next(s, Suspend(i));
            && (|r.chain| > |chain| ==> OpenSince(r, chain, had, c, vm))
            && (|r.chain| <= |chain| ==> r.vm == vm && r.chain == chain)
  {
    SuspendIsPop(s, i);
    hide OpenSince, Next, Unload, Suffix;
    PopOpen(s, Next(s, Suspend(i)), chain, had, c, vm);
  }

  lemma FinishOpen(s: State, i: nat, chain: seq<nat>, had: seq<Vm>, c: nat, vm: Vm)
    requires Enabled(s, Finish(i)) && OpenSince(s, chain, had, c, vm) && |had| == |chain| - 1
             && |s.had| == |s.chain| - 1
    requires |s.had| > 0 && Next(s, Finish(i)).vm == s.had[|s.had| - 1]
    ensures var r := Next(s, Finish(i));
            && (|r.chain| > |chain| ==> OpenSince(r, chain, had, c, vm))
            && (|r.chain| <= |chain| ==> r.vm == vm && r.chain == chain)
  {
    hide OpenSince;
    PopOpen(s, Next(s, Finish(i)), chain, had, c, vm);
  }

  lemma PopOpen(s: State, r: State, chain: seq<nat>, had: seq<Vm>, c: nat, vm: Vm)
    requires OpenSince(s, chain, had, c, vm) && |had| == |chain| - 1 && |s.had| == |s.chain| - 1
    requires r.chain == s.chain[..|s.chain| - 1] && r.had == s.had[..|s.had| - 1] && r.vm == s.had[|s.had| - 1]
    ensures |r.chain| > |chain| ==> OpenSince(r, chain, had, c, vm)
    ensures |r.chain| <= |chain| ==> r.vm == vm && r.chain == chain
  {
    if |r.chain| > |chain| {
      assert r.chain[..|chain| + 1] == s.chain[..|chain| + 1];
      assert r.had[..|had| + 1] == s.had[..|had| + 1];
    } else {
      assert s.chain == chain + [c] && s.had == had + [vm];
    }
  }

  lemma {:induction false} OpenUntil(ss: seq<State>, ms: seq<Move>, a: nat, b: nat, i: nat, c: nat)
    requires IsRun(ss, ms) && a < b < |ss| && ms[a] == Call(i, c) && |ss[a + 1].chain| > |ss[a].chain|
    requires forall k :: a < k < b ==> |ss[k].chain| > |ss[a].chain|
    ensures |ss[b].chain| > |ss[a].chain| ==> OpenSince(ss[b], ss[a].chain, ss[a].had, c, ss[a].vm)
    ensures |ss[b].chain| <= |ss[a].chain| ==> ss[b].vm == ss[a].vm && ss[b].chain == ss[a].chain
  {
    hide Inv, Init, OpenSince, Next, Enabled;
    assert ss[b - 1 + 1] == Next(ss[b - 1], ms[b - 1]);
    if b == a + 1 {
      CallOpens(ss[a], i, c);
    } else {
      OpenUntil(ss, ms, a, b - 1, i, c);
      InvAlways(ss, ms, b - 1);
      InvAlways(ss, ms, a);
      HadSize(ss[a]);
      OpenKept(ss[b - 1], ms[b - 1], ss[a].chain, ss[a].had, c, ss[a].vm);
    }
  }

  lemma HadSize(s: State)
    requires Inv(s)
    ensures |s.had| == |s.chain| - 1
  {
  }

  lemma CallOpens(s: State, i: nat, c: nat)
    requires Enabled(s, Call(i, c)) && |Next(s, Call(i, c)).chain| > |s.chain|
    ensures OpenSince(Next(s, Call(i, c)), s.chain, s.had, c, s.vm)
  {
  }

  /** When a call is over, by suspension or at the coroutine's end, and however many
      coroutines were called inside, the caller finds the libs, scopes and calls
      stacks, bin, pc, task and coroutine exactly as they were at the call. */
  lemma CallerGetsBack(ss: seq<State>, ms: seq<Move>, a: nat, b: nat, i: nat, c: nat)
    requires IsRun(ss, ms) && a < b < |ss| && ms[a] == Call(i, c) && |ss[a + 1].chain| > |ss[a].chain|
    requires forall k :: a < k < b ==> |ss[k].chain| > |ss[a].chain|
    requires |ss[b].chain| == |ss[a].chain|
    ensures ss[b].vm == ss[a].vm && ss[b].chain == ss[a].chain
  {
    OpenUntil(ss, ms, a, b, i, c);
  }

  /** Suspended coroutines keep what they saved. */
  lemma RestKept(s: State, m: Move, c: nat)
    requires Inv(s) && Enabled(s, m) && c < |s.coros| && s.coros[c].state == Suspended
    requires forall i :: m != Call(i, c)
    ensures var r := Next(s, m); c < |r.coros| && r.coros[c].state == Suspended && r.coros[c].saved == s.coros[c].saved
  {
    RestingStays(s, c);
    hide Inv, Unload, Suffix, Load, BaseOf, Popped, Pushed, WorksAbove, Covers;
    match m
    case Suspend(i) => RestSuspend(s, i, c);
    case Finish(i) => NotResting(s, i);
    case Call(i, d) => RestCall(s, i, d, c);
    case _ =>
  }

  lemma RestSuspend(s: State, i: nat, c: nat)
    requires Inv(s) && Enabled(s, Suspend(i)) && c < |s.coros| && s.coros[c].state != Resumed
    ensures |Next(s, Suspend(i)).coros| == |s.coros| && Next(s, Suspend(i)).coros[c] == s.coros[c]
  {
    NotResting(s, i);
    SuspendKept(s, i);
    hide Inv, Unload, Suffix, Covers;
    if i != 0 { SuspendIsPop(s, i); }
  }

  lemma RestCall(s: State, i: nat, d: nat, c: nat)
    requires Inv(s) && Enabled(s, Call(i, d)) && c < |s.coros| && s.coros[c].state == Suspended && d != c
    ensures |Next(s, Call(i, d)).coros| == |s.coros| && Next(s, Call(i, d)).coros[c] == s.coros[c]
  {
    NotResting(s, i);
    hide Inv, Load, BaseOf;
  }

  /** A suspended coroutine is out of the chain and nobody is about to start it. */
  lemma RestingStays(s: State, c: nat)
    requires Inv(s) && c < |s.coros| && s.coros[c].state == Suspended
    ensures s.coros[c].pc == Waiting(c) && s.coros[c].onCall == 0
    ensures forall i :: 0 <= i < |s.coros| && (s.coros[i].pc.Creating? || s.coros[i].pc.Posting?) ==>
            s.coros[i].pc.c != c
  {
    hide LinkedUp, Stacked;
    Whereabouts(s, c);
    forall i | 0 <= i < |s.coros| && (s.coros[i].pc.Creating? || s.coros[i].pc.Posting?) ensures s.coros[i].pc.c != c {
      StarterIsCaller(s, i);
    }
  }

  lemma NotResting(s: State, i: nat)
    requires Inv(s) && i < |s.coros| && s.coros[i].pc == Running
    ensures s.coros[i].state == Resumed
  {
    RunningIsInnermost(s, i);
  }

  lemma JustSaved(s: State, c: nat)
    requires Inv(s) && Enabled(s, Suspend(c)) && c != 0
    ensures var r := Next(s, Suspend(c));
            && c < |s.coros| && Covers(s.vm, s.coros[c].base)
            && c < |r.coros| && r.coros[c].state == Suspended && r.coros[c].saved == Suffix(s.vm, s.coros[c].base)
  {
    SuspendKept(s, c);
    hide Inv;
    SuspendIsPop(s, c);
  }

  lemma {:induction false} SavedUntil(ss: seq<State>, ms: seq<Move>, a: nat, b: nat, c: nat)
    requires IsRun(ss, ms) && a < b < |ss| && ms[a] == Suspend(c) && c != 0
    requires forall k, i :: a < k < b ==> ms[k] != Call(i, c)
    ensures c < |ss[a].coros| && Covers(ss[a].vm, ss[a].coros[c].base)
    ensures c < |ss[b].coros| && ss[b].coros[c].state == Suspended
            && ss[b].coros[c].saved == Suffix(ss[a].vm, ss[a].coros[c].base)
  {
    hide Inv, Init, Next, Enabled, Covers, Suffix;
    assert ss[b - 1 + 1] == Next(ss[b - 1], ms[b - 1]);
    InvAlways(ss, ms, b - 1);
    if b == a + 1 {
      JustSaved(ss[a], c);
    } else {
      SavedUntil(ss, ms, a, b - 1, c);
      RestKept(ss[b - 1], ms[b - 1], c);
    }
  }

  /** However much later it is called again, and from wherever, a coroutine continues
      on the new caller's stacks followed by its own as it left them, in order, with
      its own bin and pc. */
  lemma CalleeGetsBack(ss: seq<State>, ms: seq<Move>, a: nat, b: nat, i: nat, c: nat)
    requires IsRun(ss, ms) && a < b < |ms| && ms[a] == Suspend(c) && c != 0 && ms[b] == Call(i, c)
    requires forall k, j :: a < k < b ==> ms[k] != Call(j, c)
    ensures var (left, base, r) := (ss[a].vm, ss[a].coros[c].base, ss[b + 1].vm);
            && Covers(left, base)
            && r.libs == ss[b].vm.libs + left.libs[base.nlibs..]
            && r.scopes == ss[b].vm.scopes + left.scopes[base.nscopes..]
            && r.calls == ss[b].vm.calls + left.calls[base.ncalls..]
            && r.bin == left.bin && r.pc == left.pc && r.coro == c
  {
    SavedUntil(ss, ms, a, b, c);
    assert ss[b + 1] == Next(ss[b], ms[b]);
  }

  // ---- first and last --------------------------------------------------------

  /** A coroutine that has not been called yet. */
  lemma NewKept(s: State, m: Move, c: nat)
    requires Inv(s) && Enabled(s, m) && c < |s.coros| && s.coros[c].state == New
    requires forall i :: m != Call(i, c)
    ensures c < |Next(s, m).coros| && Next(s, m).coros[c].state == New
  {
    hide Inv, Unload, Suffix, Load, BaseOf, WorksAbove, Covers;
    match m
    case Suspend(i) => RestSuspend(s, i, c);
    case Finish(i) => NotResting(s, i);
    case _ =>
  }

  lemma {:induction false} NewUntil(ss: seq<State>, ms: seq<Move>, b: nat, c: nat)
    requires IsRun(ss, ms) && b < |ss| && 0 < c < |ss[b].coros|
    requires forall k, i :: 0 <= k < b ==> ms[k] != Call(i, c)
    ensures ss[b].coros[c].state == New
  {
    hide Inv, Next, Enabled;
    if b > 0 {
      assert ss[b - 1 + 1] == Next(ss[b - 1], ms[b - 1]);
      InvAlways(ss, ms, b - 1);
      SizeKept(ss[b - 1], ms[b - 1]);
      NewUntil(ss, ms, b - 1, c);
      NewKept(ss[b - 1], ms[b - 1], c);
    }
  }

  lemma SizeKept(s: State, m: Move)
    requires Enabled(s, m)
    ensures |Next(s, m).coros| == |s.coros|
  {
  }

  /** The first call of a coroutine starts it on the stacks, bin and pc of the caller. */
  lemma CalleeStarts(ss: seq<State>, ms: seq<Move>, b: nat, i: nat, c: nat)
    requires IsRun(ss, ms) && b < |ms| && ms[b] == Call(i, c)
    requires forall k, j :: 0 <= k < b ==> ms[k] != Call(j, c)
    ensures ss[b + 1].vm == ss[b].vm.(coro := c) && ss[b + 1].chain == ss[b].chain + [c]
    ensures i < |ss[b + 1].coros| && ss[b + 1].coros[i].pc == Creating(c)
  {
    NewUntil(ss, ms, b, c);
    assert ss[b + 1] == Next(ss[b], ms[b]);
    if i == c {
      InvAlways(ss, ms, b);
      NotResting(ss[b], i);
    }
  }

  lemma StartedKept(s: State, m: Move, c: nat)
    requires Enabled(s, m) && c < |s.coros| && s.coros[c].pc != Absent
    ensures c < |Next(s, m).coros| && Next(s, m).coros[c].pc != Absent
  {
  }

  lemma {:induction false} StartedSince(ss: seq<State>, ms: seq<Move>, a: nat, b: nat, i: nat, c: nat)
    requires IsRun(ss, ms) && a < b < |ss| && ms[a] == Create(i) && i < |ss[a].coros|
             && ss[a].coros[i].pc == Creating(c)
    ensures c < |ss[b].coros| && ss[b].coros[c].pc != Absent
  {
    assert ss[b - 1 + 1] == Next(ss[b - 1], ms[b - 1]);
    if b > a + 1 {
      StartedSince(ss, ms, a, b - 1, i, c);
      hide Next;
      StartedKept(ss[b - 1], ms[b - 1], c);
    }
  }

  /** No coroutine gets a second thread. */
  lemma CreatedOnce(ss: seq<State>, ms: seq<Move>, a: nat, b: nat, i: nat, j: nat, c: nat)
    requires IsRun(ss, ms) && a < b < |ms| && ms[a] == Create(i) && ms[b] == Create(j)
    requires i < |ss[a].coros| && ss[a].coros[i].pc == Creating(c)
    ensures j < |ss[b].coros| && ss[b].coros[j].pc != Creating(c)
  {
    StartedSince(ss, ms, a, b, i, c);
    InvAlways(ss, ms, b);
    assert Enabled(ss[b], ms[b]);
    StarterIsCaller(ss[b], j);
  }

  lemma DoneKept(s: State, m: Move, c: nat)
    requires Inv(s) && Enabled(s, m) && c < |s.coros| && s.coros[c].state == Done
    ensures c < |Next(s, m).coros| && Next(s, m).coros[c].state == Done
  {
    hide Inv, Unload, Suffix, Load, BaseOf, WorksAbove, Covers;
    match m
    case Suspend(i) => RestSuspend(s, i, c);
    case Finish(i) => NotResting(s, i);
    case _ =>
  }

  lemma {:induction false} DoneSince(ss: seq<State>, ms: seq<Move>, a: nat, b: nat, c: nat)
    requires IsRun(ss, ms) && a < b < |ss| && ms[a] == Finish(c)
    ensures c < |ss[b].coros| && ss[b].coros[c].state == Done
  {
    hide Inv, Next, Enabled;
    assert ss[b - 1 + 1] == Next(ss[b - 1], ms[b - 1]);
    InvAlways(ss, ms, b - 1);
    if b == a + 1 {
      FinishIsDone(ss[a], c);
    } else {
      DoneSince(ss, ms, a, b - 1, c);
      DoneKept(ss[b - 1], ms[b - 1], c);
    }
  }

  lemma FinishIsDone(s: State, c: nat)
    requires Inv(s) && Enabled(s, Finish(c))
    ensures c < |Next(s, Finish(c)).coros| && Next(s, Finish(c)).coros[c].state == Done
  {
    FinishKept(s, c);
  }

  /** After its end a coroutine's thread is gone: nobody is about to start it, it takes
      no step, and a call of the coroutine hands nothing over. */
  lemma FinishedForGood(ss: seq<State>, ms: seq<Move>, a: nat, b: nat, c: nat)
    requires IsRun(ss, ms) && a < b < |ss| && ms[a] == Finish(c)
    ensures c < |ss[b].coros| && ss[b].coros[c].state == Done && ss[b].coros[c].pc == Exited && c !in ss[b].chain
    ensures forall i :: 0 <= i < |ss[b].coros| ==>
              ss[b].coros[i].pc != Creating(c) && ss[b].coros[i].pc != Posting(c)
    ensures b < |ms| ==> ms[b].i != c && (ms[b].Call? && ms[b].c == c ==> ss[b + 1] == ss[b])
  {
    DoneSince(ss, ms, a, b, c);
    InvAlways(ss, ms, b);
    Whereabouts(ss[b], c);
    hide Inv;
    forall i | 0 <= i < |ss[b].coros| ensures ss[b].coros[i].pc != Creating(c) && ss[b].coros[i].pc != Posting(c) {
      NotStarting(ss[b], i, c);
    }
    if b < |ms| { assert Enabled(ss[b], ms[b]) && ss[b + 1] == Next(ss[b], ms[b]); }
  }

  lemma NotStarting(s: State, i: nat, c: nat)
    requires Inv(s) && i < |s.coros| && c < |s.coros| && s.coros[c].state == Done
    ensures s.coros[i].pc != Creating(c) && s.coros[i].pc != Posting(c)
  {
    if s.coros[i].pc.Creating? || s.coros[i].pc.Posting? { StarterIsCaller(s, i); }
  }

  lemma DoneStep(s: State, m: Move, c: nat)
    requires Enabled(s, m) && c < |s.coros| && s.coros[c].state != Done && m != Finish(c)
    ensures c < |Next(s, m).coros| && Next(s, m).coros[c].state != Done
  {
  }

  lemma {:induction false} DoneByFinish(ss: seq<State>, ms: seq<Move>, b: nat, c: nat)
    requires IsRun(ss, ms) && b < |ss| && 0 < c < |ss[b].coros| && ss[b].coros[c].state == Done
    ensures exists a :: 0 <= a < b && ms[a] == Finish(c)
  {
    hide Next, Enabled;
    if b > 0 {
      assert ss[b - 1 + 1] == Next(ss[b - 1], ms[b - 1]);
      SizeKept(ss[b - 1], ms[b - 1]);
      if ms[b - 1] != Finish(c) {
        if ss[b - 1].coros[c].state != Done { DoneStep(ss[b - 1], ms[b - 1], c); }
        DoneByFinish(ss, ms, b - 1, c);
      }
    }
  }

  /** A call fails, which hands nothing over and changes nothing, exactly if the
      coroutine has been called and has not given the VM back, or has come to its end. */
  lemma CallFailsIff(ss: seq<State>, ms: seq<Move>, b: nat, i: nat, c: nat)
    requires IsRun(ss, ms) && b < |ms| && ms[b] == Call(i, c)
    ensures ss[b + 1] == ss[b] <==> c in ss[b].chain || exists a :: 0 <= a < b && ms[a] == Finish(c)
  {
    InvAlways(ss, ms, b);
    var s := ss[b];
    assert Enabled(s, ms[b]) && ss[b + 1] == Next(s, ms[b]);
    assert s.coros[c].state == Resumed <==> c in s.chain;
    hide Inv;
    if s.coros[c].state == Done { DoneByFinish(ss, ms, b, c); }
    if a :| 0 <= a < b && ms[a] == Finish(c) { DoneSince(ss, ms, a, b, c); }
    if s.coros[c].state == New || s.coros[c].state == Suspended { assert |ss[b + 1].chain| == |s.chain| + 1; }
  }

  // ---- progress ------------------------------------------------------------

  /** Protocol steps left before some thread runs. */
  function Delay(s: State): nat
    requires s.chain != [] && forall k :: 0 <= k < |s.chain| ==> s.chain[k] < |s.coros|
  {
    var t := s.coros[Innermost(s)];
    if t.pc == Running then 0
    else if t.pc.Spinning? then 1
    else if t.pc.Waiting? && t.onCall == 1 then 1
    else if t.pc.Waiting? then 2
    else 1
  }

  /** If nobody runs, one thread's next protocol step brings somebody closer. */
  lemma HandOverGoesOn(s: State)
    requires Inv(s) && forall i :: 0 <= i < |s.coros| ==> s.coros[i].pc != Running
    ensures exists m :: Enabled(s, m) && (m.Create? || m.Post? || m.Look? || m.Wake?)
                        && Inv(Next(s, m)) && Delay(Next(s, m)) < Delay(s)
  {
    var m := HandOverMove(s);
    InvKept(s, m);
  }

  lemma HandOverMove(s: State) returns (m: Move)
    requires Inv(s) && forall i :: 0 <= i < |s.coros| ==> s.coros[i].pc != Running
    ensures Enabled(s, m) && (m.Create? || m.Post? || m.Look? || m.Wake?)
    ensures Next(s, m).chain == s.chain && |Next(s, m).coros| == |s.coros| && Delay(Next(s, m)) < Delay(s)
  {
    hide LinkedUp, Stacked;
    var t := Innermost(s);
    assert s.coros[t].pc != Running;
    if s.coros[t].pc.Spinning? {
      m := Look(t);
    } else if s.coros[t].pc.Waiting? && s.coros[t].onCall == 1 {
      m := Wake(t);
    } else {
      var i := s.chain[|s.chain| - 2];
      m := if s.coros[i].pc.Posting? then Post(i) else Create(i);
    }
  }
}
