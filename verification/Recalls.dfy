/** Recall: a function runs its body again on new arguments, in the scope and call
    record it has. */
module Recalls {
  import opened Basics
  import opened VmState
  import opened Vm
  import opened Values

  /** A function that returns while a recall is pending runs again, if the scope is not
      checked or the values on its stack match its arguments; otherwise it fails and
      nothing is popped.  One recall is counted down either way. */
  lemma RecallsIff(w: World, imp: Imp, st: State)
    requires imp in w.imps
    ensures var checked := Obj(st, Top(st)).safe;
            DoReturn(w, st, imp).Again? <==> TopCall(st).recalls > 0 && (checked ==> w.matches(imp, TopStack(st)))
    ensures TopCall(st).recalls > 0 && DoReturn(w, st, imp).Leave? ==>
              var r := DoReturn(w, st, imp).st;
              && r.errors == st.errors + [Text("Recall not applicable")] && r.heap == st.heap
              && r.scopes == st.scopes && r.libs == st.libs && |r.calls| == |st.calls|
              && r.calls[..|st.calls| - 1] == st.calls[..|st.calls| - 1]
              && TopCall(r) == TopCall(st).(recalls := TopCall(st).recalls - 1)
  {
  }

  /** The last values of the function's stack, as many as it has arguments, are the new
      arguments, in order; the rest stays.  Nothing else changes but the recall counted
      down: no variable, no other stack, no other call record.  With too few values
      there is an error instead and arguments and stack are as they were. */
  lemma RecallTakesArgs(w: World, imp: Imp, st: State)
    requires imp in w.imps && DoReturn(w, st, imp).Again?
    requires TopCall(st).scope == Top(st) < |st.heap|
    ensures var (r, s, n) := (DoReturn(w, st, imp).st, TopStack(st), |w.imps[imp].args|);
            && r == st.(heap := r.heap, calls := r.calls, errors := r.errors)
            && r.heap == st.heap[Top(st) := st.heap[Top(st)].(stack := TopStack(r))]
            && |r.calls| == |st.calls| > 0 && r.calls[..|st.calls| - 1] == st.calls[..|st.calls| - 1]
            && TopCall(r) == TopCall(st).(args := TopCall(r).args, recalls := TopCall(st).recalls - 1)
            && (0 < n <= |s| ==>
                  TopStack(r) + TopCall(r).args == s && |TopCall(r).args| == n && r.errors == st.errors)
            && (n == 0 ==> TopStack(r) == s && TopCall(r).args == TopCall(st).args && r.errors == st.errors)
            && (|s| < n ==> TopStack(r) == s && TopCall(r).args == TopCall(st).args
                            && r.errors == st.errors + [Text("Not enough args to call")])
  {
    hide CollectRets, LeaveFn;
    var (c, s) := (TopCall(st), TopStack(st));
    var st1 := SetTopCall(st, c.(recalls := c.recalls - 1));
    assert TopCall(st1) == c.(recalls := c.recalls - 1) && st1.heap == st.heap;
    assert st.heap[Top(st) := st.heap[Top(st)].(stack := s)] == st.heap;
  }

  /** The state in which the body runs next. */
  function Rebound(w: World, imp: Imp, st: State): State
    requires imp in w.imps && DoReturn(w, st, imp).Again?
  {
    DoPutArgs(w, DoReturn(w, st, imp).st, imp)
  }

  /** The body starts again on what it left on its stack but for the new arguments:
      behind it are the positional ones of them, and each name has the last value given
      for it.  Other variables keep their values from one round to the next. */
  lemma NextRound(w: World, imp: Imp, st: State)
    requires imp in w.imps && DoReturn(w, st, imp).Again? && st.errors == []
    requires TopCall(st).scope == Top(st) < |st.heap| && |w.imps[imp].args| <= |TopStack(st)|
    requires w.imps[imp].args == [] ==> TopCall(st).args == []
    ensures var (r, s, t, args) := (Rebound(w, imp, st), TopStack(st), Top(st), w.imps[imp].args);
            var (rest, vals) := (s[..|s| - |args|], s[|s| - |args|..]);
            && TopStack(r) == rest + Positional(args, vals) && TopCall(r).args == vals
            && (forall id :: Named(args, vals, st.heap[t].vars, Obj(r, t).vars, id))
            && |r.heap| == |st.heap| && r.errors == [] && r.scopes == st.scopes && r.libs == st.libs
            && (forall i :: 0 <= i < |st.heap| && i != t ==> r.heap[i] == st.heap[i])
            && r.heap[t].parent == st.heap[t].parent && r.heap[t].safe == st.heap[t].safe
            && |r.calls| == |st.calls| > 0 && TopCall(r).scope == t && TopCall(r).recalls == TopCall(st).recalls - 1
  {
    RecallTakesArgs(w, imp, st);
    var (st1, s, args) := (DoReturn(w, st, imp).st, TopStack(st), w.imps[imp].args);
    hide DoReturn, PutArgs, Positional, Named;
    var vals := s[|s| - |args|..];
    assert s == s[..|s| - |args|] + vals;
    assert TopCall(st1).args == vals && TopStack(st1) == s[..|s| - |args|];
    ArgsPut(st1, args, vals);
  }

  /** Pass `k` through the body, with `fuel - k` left. */
  ghost predicate Pass(w: World, b: Bin, fuel: nat, imp: Imp, starts: seq<State>, ends: seq<State>, k: nat)
    requires imp in w.imps && imp in b.fns && k < |starts| == |ends| && k <= fuel
  {
    EvalSeq(w, b, fuel - k, b.fns[imp], starts[k]) == Some(ends[k]) && ends[k].errors == []
  }

  /** It ends with a recall that finds enough values, and the next starts from there. */
  ghost predicate Linked(w: World, imp: Imp, starts: seq<State>, ends: seq<State>, k: nat)
    requires imp in w.imps && k + 1 < |starts| == |ends|
  {
    && DoReturn(w, ends[k], imp).Again? && DoReturn(w, ends[k], imp).st.errors == []
    && starts[k + 1] == Rebound(w, imp, ends[k])
  }

  /** However often it recalls, a function is a loop: the body runs on the arguments of
      each recall in turn, and what the first pass without one returns is the result. */
  lemma {:induction false} RecallLoops(w: World, b: Bin, fuel: nat, imp: Imp, st: State, starts: seq<State>,
                                       ends: seq<State>)
    requires imp in w.imps && imp in b.fns && st.errors == [] && 0 < |starts| == |ends| <= fuel + 1
    requires starts[0] == DoPutArgs(w, st, imp)
    requires forall k :: 0 <= k < |ends| ==> Pass(w, b, fuel, imp, starts, ends, k)
    requires forall k :: 0 <= k < |ends| - 1 ==> Linked(w, imp, starts, ends, k)
    requires DoReturn(w, ends[|ends| - 1], imp).Leave?
    ensures FnRounds(w, b, fuel, imp, st) == Some(DoReturn(w, ends[|ends| - 1], imp).st)
    decreases |ends|
  {
    hide DoReturn, EvalSeq, DoPutArgs;
    assert Pass(w, b, fuel, imp, starts, ends, 0);
    if |ends| > 1 {
      assert Linked(w, imp, starts, ends, 0);
      var (less, st1, starts1, ends1) := (fuel - 1, DoReturn(w, ends[0], imp).st, starts[1..], ends[1..]);
      forall k | 0 <= k < |ends1| ensures Pass(w, b, less, imp, starts1, ends1, k) {
        assert Pass(w, b, fuel, imp, starts, ends, k + 1);
      }
      forall k | 0 <= k < |ends1| - 1 ensures Linked(w, imp, starts1, ends1, k) {
        assert Linked(w, imp, starts, ends, k + 1);
      }
      RecallLoops(w, b, less, imp, st1, starts1, ends1);
    }
  }
}
