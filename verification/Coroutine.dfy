/** Coroutines hand the VM over between threads.  A step system with one step per
    atomic operation, semaphore operation or thread creation, together with the
    plain code in front of it; `reset` and `cancel` are not part of it.

    Thread 0 is the main thread, which has no coroutine: where cx->coro is NULL the
    model has 0.  `chain` and `had` are history variables: the threads that have been
    called and have not given the VM back, outermost first, and the VM at each of
    those calls. */
module Coroutine {
  import opened Switching

  datatype CoroState = New | Suspended | Resumed | Done

  /** Where a thread is.  A thread waits on the semaphore of the coroutine it
      suspended, and spins on the state of the one it called. */
  datatype Pc =
    | Absent | Running | Creating(c: nat) | Posting(c: nat) | Spinning(c: nat)
    | Waiting(c: nat) | Exited

  datatype Coro = Coro(state: CoroState, onCall: nat, pc: Pc, base: Base, saved: Saved)

  datatype State = State(vm: Vm, coros: seq<Coro>, chain: seq<nat>, had: seq<Vm>)

  datatype Move =
    | Work(i: nat, vm: Vm)       // code that is neither call nor suspend
    | Call(i: nat, c: nat)       // cx_coro_call up to pthread_create or sem_post
    | Create(i: nat)             // pthread_create
    | Post(i: nat)               // sem_post
    | Look(i: nat)               // atomic_load of the called coroutine's state
    | Suspend(i: nat)            // cx_coro_suspend up to its atomic_store
    | Wake(i: nat)               // sem_wait
    | Finish(i: nat)             // on_start after its action has returned

  predicate Enabled(s: State, m: Move) {
    && m.i < |s.coros|
    && var x := s.coros[m.i];
    match m
    case Work(_, vm) => x.pc == Running && WorksAbove(x.base, s.vm, vm) && vm.coro == s.vm.coro
    case Call(_, c) => x.pc == Running && 0 < c < |s.coros|
    case Create(_) => x.pc.Creating? && x.pc.c < |s.coros|
    case Post(_) => x.pc.Posting? && x.pc.c < |s.coros|
    case Look(_) => x.pc.Spinning? && x.pc.c < |s.coros|
    case Suspend(_) => x.pc == Running && 0 <= s.vm.coro < |s.coros| && Covers(s.vm, s.coros[s.vm.coro].base)
    case Wake(_) => x.pc.Waiting? && x.pc.c < |s.coros| && s.coros[x.pc.c].onCall > 0
    case Finish(_) => 0 < m.i && x.pc == Running && Covers(s.vm, x.base)
  }

  function Put(s: State, i: nat, x: Coro): State
    requires i < |s.coros|
  {
    s.(coros := s.coros[i := x])
  }

  function Goto(s: State, i: nat, pc: Pc): State
    requires i < |s.coros|
  {
    Put(s, i, s.coros[i].(pc := pc))
  }

  function Next(s: State, m: Move): State
    requires Enabled(s, m)
  {
    match m
    case Work(i, vm) => s.(vm := vm)
    case Call(i, c) => CallNext(s, i, c)
    case Create(i) =>
      var c := s.coros[i].pc.c;
      Goto(Goto(s, i, Spinning(c)), c, Running)
    case Post(i) =>
      var c := s.coros[i].pc.c;
      var s1 := Goto(s, i, Spinning(c));
      Put(s1, c, s1.coros[c].(onCall := s1.coros[c].onCall + 1))
    case Look(i) => if s.coros[s.coros[i].pc.c].state == Resumed then s else Goto(s, i, Running)
    case Suspend(i) => if s.vm.coro == 0 then s else SuspendNext(s, i, s.vm.coro)
    case Wake(i) =>
      var c := s.coros[i].pc.c;
      var s1 := Goto(s, i, Running);
      Put(s1, c, s1.coros[c].(onCall := s1.coros[c].onCall - 1))
    case Finish(i) => Put(Popped(s), i, s.coros[i].(state := Done, pc := Exited)).(vm := Unload(s.vm, s.coros[i].base))
  }

  /** The state before the call goes on record. */
  function Pushed(s: State, c: nat): State {
    s.(chain := s.chain + [c], had := s.had + [s.vm])
  }

  function Popped(s: State): State {
    s.(chain := if s.chain == [] then [] else s.chain[..|s.chain| - 1],
       had := if s.had == [] then [] else s.had[..|s.had| - 1])
  }

  /** A new coroutine starts on the caller's bin and pc; a suspended one gets its own
      stacks back; in every other state the call fails and nothing is handed over. */
  function CallNext(s: State, i: nat, c: nat): State
    requires Enabled(s, Call(i, c))
  {
    var x := s.coros[c];
    var s1 := Put(Pushed(s, c), c, x.(state := Resumed, base := BaseOf(s.vm)));
    match x.state
    case New => Goto(s1, i, Creating(c)).(vm := s.vm.(coro := c))
    case Suspended => Goto(s1, i, Posting(c)).(vm := Load(s.vm, x.saved).(coro := c))
    case _ => s
  }

  /** Thread `i` suspends whatever cx->coro names and waits for that one's call. */
  function SuspendNext(s: State, i: nat, c: nat): State
    requires i < |s.coros| && c < |s.coros| && Covers(s.vm, s.coros[c].base)
  {
    var x := s.coros[c];
    Goto(Put(Popped(s), c, x.(state := Suspended, saved := Suffix(s.vm, x.base))), i,
         Waiting(c)).(vm := Unload(s.vm, x.base))
  }

  predicate Init(s: State) {
    && s.coros != [] && s.chain == [0] && s.had == [] && s.vm.coro == 0
    && s.coros[0].state == Resumed && s.coros[0].onCall == 0 && s.coros[0].pc == Running
    && s.coros[0].base == Base(0, 0, 0, -1, -1, -1, 0)
    && forall i :: 0 < i < |s.coros| ==> s.coros[i].state == New && s.coros[i].onCall == 0 && s.coros[i].pc == Absent
  }

  ghost predicate IsRun(ss: seq<State>, ms: seq<Move>) {
    && |ss| == |ms| + 1 && Init(ss[0])
    && (forall k :: 0 <= k < |ms| ==> Enabled(ss[k], ms[k]) && ss[k + 1] == Next(ss[k], ms[k]))
  }

  // ---- the invariant -------------------------------------------------------

  /** The chain holds the resumed threads, each once, the main thread first. */
  ghost predicate Chained(s: State) {
    && s.chain != [] && s.chain[0] == 0
    && (forall k :: 0 <= k < |s.chain| ==> s.chain[k] < |s.coros|)
    && (forall j, k :: 0 <= j < k < |s.chain| ==> s.chain[j] != s.chain[k])
    && (forall i :: 0 <= i < |s.coros| ==> (s.coros[i].state == Resumed <==> i in s.chain))
  }

  function Innermost(s: State): nat
    requires s.chain != []
  {
    s.chain[|s.chain| - 1]
  }

  /** cx->coro is the innermost thread's coroutine, and prev_coro leads from each to
      the one that called it. */
  ghost predicate LinkedUp(s: State)
    requires Chained(s)
  {
    && s.vm.coro == Innermost(s)
    && (forall k :: 0 < k < |s.chain| ==> s.coros[s.chain[k]].base.coro == s.chain[k - 1])
  }

  /** Each call's base is the VM at that call, and they lie on one another. */
  ghost predicate Stacked(s: State)
    requires Chained(s)
  {
    && |s.had| == |s.chain| - 1
    && s.coros[0].base == Base(0, 0, 0, -1, -1, -1, 0)
    && (forall k :: 0 <= k < |s.had| ==> s.coros[s.chain[k + 1]].base == BaseOf(s.had[k]))
    && (forall j, k :: 0 <= j < k < |s.had| ==> OnBase(s.had[k], s.had[j]))
    && (forall k :: 0 <= k < |s.had| ==> OnBase(s.vm, s.had[k]))
  }

  /** A coroutine that is not in the chain. */
  predicate Resting(x: Coro, i: nat) {
    && x.onCall == 0
    && match x.state
       case New => x.pc == Absent
       case Suspended => x.pc == Waiting(i)
       case Done => x.pc == Exited
       case Resumed => false
  }

  /** The innermost thread once it has the VM: running, or about to see that its
      callee is back. */
  predicate Awake(s: State, x: Coro) {
    x.onCall == 0 && (x.pc == Running || (x.pc.Spinning? && x.pc.c < |s.coros| && s.coros[x.pc.c].state != Resumed))
  }

  /** The hand-over from the caller to the innermost thread `t`. */
  predicate HandOver(s: State, caller: Pc, t: nat)
    requires t < |s.coros|
  {
    var x := s.coros[t];
    match caller
    case Creating(c) => c == t && x.pc == Absent && x.onCall == 0
    case Posting(c) => c == t && x.pc == Waiting(t) && x.onCall == 0
    case Spinning(c) => c == t && ((x.pc == Waiting(t) && x.onCall == 1) || Awake(s, x))
    case _ => false
  }

  ghost predicate Placed(s: State)
    requires Chained(s)
  {
    var n := |s.chain|;
    && (forall i :: 0 <= i < |s.coros| && i !in s.chain ==> Resting(s.coros[i], i))
    && (forall k :: 0 <= k < n - 2 ==> s.coros[s.chain[k]].pc == Spinning(s.chain[k + 1]))
    && (forall k :: 0 <= k < n - 1 ==> s.coros[s.chain[k]].onCall == 0)
    && (if n == 1 then Awake(s, s.coros[0]) else HandOver(s, s.coros[s.chain[n - 2]].pc, s.chain[n - 1]))
  }

  ghost predicate Inv(s: State) {
    Chained(s) && LinkedUp(s) && Stacked(s) && Placed(s)
  }

  // ---- what it implies for a thread ----------------------------------------

  /** A thread rests, is the innermost one or its caller, or spins further out. */
  lemma Whereabouts(s: State, i: nat)
    requires Chained(s) && Placed(s) && i < |s.coros|
    ensures i !in s.chain ==> Resting(s.coros[i], i)
    ensures i in s.chain && i != Innermost(s) ==> |s.chain| > 1 && s.coros[i].onCall == 0
    ensures i in s.chain && i != Innermost(s) && i != s.chain[|s.chain| - 2] ==>
              s.coros[i].pc.Spinning? && s.coros[i].pc.c in s.chain
  {
    if i in s.chain {
      var k :| 0 <= k < |s.chain| && s.chain[k] == i;
      if k < |s.chain| - 2 { assert s.coros[s.chain[k]].pc == Spinning(s.chain[k + 1]); }
    }
  }

  /** The only thread that can be running is the innermost one. */
  lemma RunningIsInnermost(s: State, i: nat)
    requires Chained(s) && Placed(s) && i < |s.coros| && s.coros[i].pc == Running
    ensures i == Innermost(s) && Awake(s, s.coros[i])
    ensures |s.chain| > 1 ==> s.coros[s.chain[|s.chain| - 2]].pc == Spinning(i)
  {
    Whereabouts(s, i);
  }

  /** Only the caller of the innermost thread can be about to create or wake it. */
  lemma StarterIsCaller(s: State, i: nat)
    requires Chained(s) && Placed(s) && i < |s.coros| && (s.coros[i].pc.Creating? || s.coros[i].pc.Posting?)
    ensures |s.chain| > 1 && i == s.chain[|s.chain| - 2] && s.coros[i].pc.c == Innermost(s)
  {
    Whereabouts(s, i);
  }

  /** A thread that waits does so on its own semaphore; if there is a token, it is the
      innermost one. */
  lemma WaiterIsOwn(s: State, i: nat)
    requires Chained(s) && Placed(s) && i < |s.coros| && s.coros[i].pc.Waiting?
    ensures s.coros[i].pc.c == i
    ensures s.coros[i].onCall > 0 ==> i == Innermost(s) && s.coros[i].onCall == 1 && |s.chain| > 1
                                      && s.coros[s.chain[|s.chain| - 2]].pc == Spinning(i)
  {
    Whereabouts(s, i);
  }

  /** Only the innermost thread can see its callee back. */
  lemma SpinnerAwake(s: State, i: nat)
    requires Chained(s) && Placed(s) && i < |s.coros| && s.coros[i].pc.Spinning?
    requires s.coros[i].pc.c < |s.coros| && s.coros[s.coros[i].pc.c].state != Resumed
    ensures i == Innermost(s) && Awake(s, s.coros[i])
    ensures |s.chain| > 1 ==> s.coros[s.chain[|s.chain| - 2]].pc == Spinning(i)
  {
    Whereabouts(s, i);
  }

  // ---- steps keep it -------------------------------------------------------

  lemma WorkKept(s: State, i: nat, vm: Vm)
    requires Inv(s) && Enabled(s, Work(i, vm))
    ensures Inv(s.(vm := vm))
  {
    RunningIsInnermost(s, i);
    hide Resting, HandOver, Awake, OnBase, WorksAbove;
    if |s.had| > 0 {
      var top := s.had[|s.had| - 1];
      WorkStays(top, s.vm, vm);
      forall k | 0 <= k < |s.had| ensures OnBase(vm, s.had[k]) { OnBaseTrans(vm, top, s.had[k], k == |s.had| - 1); }
    }
  }

  lemma OnBaseTrans(x: Vm, y: Vm, z: Vm, same: bool)
    requires OnBase(x, y) && (if same then y == z else OnBase(y, z))
    ensures OnBase(x, z)
  {
  }

  /** Changing where the innermost thread and its caller are. */
  lemma MoveKept(s: State, r: State)
    requires Inv(s) && r == s.(coros := r.coros) && |r.coros| == |s.coros|
    requires forall i :: 0 <= i < |s.coros| ==>
               && r.coros[i] == s.coros[i].(pc := r.coros[i].pc, onCall := r.coros[i].onCall)
               && (i != Innermost(s) && (|s.chain| > 1 ==> i != s.chain[|s.chain| - 2]) ==> r.coros[i] == s.coros[i])
    requires if |s.chain| == 1 then Awake(r, r.coros[0])
             else
               && HandOver(r, r.coros[s.chain[|s.chain| - 2]].pc, Innermost(s))
               && r.coros[s.chain[|s.chain| - 2]].onCall == 0
    ensures Inv(r)
  {
    hide Resting, HandOver, Awake, OnBase;
    forall i | 0 <= i < |r.coros| && i !in r.chain ensures Resting(r.coros[i], i) { assert r.coros[i] == s.coros[i]; }
    forall k | 0 <= k < |r.chain| - 2
      ensures r.coros[r.chain[k]].pc == Spinning(r.chain[k + 1]) && r.coros[r.chain[k]].onCall == 0 {
      assert r.coros[s.chain[k]] == s.coros[s.chain[k]];
    }
  }

  lemma CreateKept(s: State, i: nat)
    requires Inv(s) && Enabled(s, Create(i))
    ensures Inv(Next(s, Create(i)))
  {
    StarterIsCaller(s, i);
    MoveKept(s, Next(s, Create(i)));
  }

  lemma PostKept(s: State, i: nat)
    requires Inv(s) && Enabled(s, Post(i))
    ensures Inv(Next(s, Post(i)))
  {
    StarterIsCaller(s, i);
    MoveKept(s, Next(s, Post(i)));
  }

  lemma LookKept(s: State, i: nat)
    requires Inv(s) && Enabled(s, Look(i))
    ensures Inv(Next(s, Look(i)))
  {
    if s.coros[s.coros[i].pc.c].state != Resumed {
      SpinnerAwake(s, i);
      MoveKept(s, Next(s, Look(i)));
    }
  }

  lemma WakeKept(s: State, i: nat)
    requires Inv(s) && Enabled(s, Wake(i))
    ensures Inv(Next(s, Wake(i)))
  {
    WaiterIsOwn(s, i);
    MoveKept(s, Next(s, Wake(i)));
  }

  /** A call of a new or suspended coroutine. */
  lemma CallKept(s: State, i: nat, c: nat)
    requires Inv(s) && Enabled(s, Call(i, c))
    ensures Inv(Next(s, Call(i, c)))
  {
    var r := Next(s, Call(i, c));
    if s.coros[c].state == New || s.coros[c].state == Suspended {
      RunningIsInnermost(s, i);
      Whereabouts(s, c);
      assert c !in s.chain && Resting(s.coros[c], c);
      assert OnBase(r.vm, s.vm);
      CallChained(s, r, c);
      CallStacked(s, r, c);
      CallPlaced(s, r, i, c);
    }
  }

  /** What a call changes. */
  ghost predicate Called(s: State, r: State, i: nat, c: nat) {
    && i < |s.coros| && c < |s.coros| && i != c && c !in s.chain && |r.coros| == |s.coros|
    && r.chain == s.chain + [c] && r.had == s.had + [s.vm] && r.vm.coro == c && OnBase(r.vm, s.vm)
    && (forall j :: 0 <= j < |s.coros| && j != i && j != c ==> r.coros[j] == s.coros[j])
    && r.coros[i] == s.coros[i].(pc := r.coros[i].pc)
    && r.coros[c] == s.coros[c].(state := Resumed, base := BaseOf(s.vm))
  }

  lemma CallChained(s: State, r: State, c: nat)
    requires Inv(s) && Called(s, r, Innermost(s), c)
    ensures Chained(r) && LinkedUp(r)
  {
    hide Resting, HandOver, Awake, OnBase, Placed, Stacked;
    var i := Innermost(s);
    forall j | 0 <= j < |r.coros| ensures r.coros[j].state == Resumed <==> j in r.chain {
      assert s.coros[j].state == Resumed <==> j in s.chain;
    }
    forall k | 0 < k < |r.chain| ensures r.coros[r.chain[k]].base.coro == r.chain[k - 1] {
      if k < |s.chain| { assert s.coros[s.chain[k]].base.coro == s.chain[k - 1]; }
    }
  }

  lemma CallStacked(s: State, r: State, c: nat)
    requires Inv(s) && Called(s, r, Innermost(s), c) && Chained(r)
    ensures Stacked(r)
  {
    hide Resting, HandOver, Awake, OnBase, Placed;
    forall k | 0 <= k < |r.had| ensures r.coros[r.chain[k + 1]].base == BaseOf(r.had[k]) && OnBase(r.vm, r.had[k]) {
      if k < |s.had| {
        assert s.coros[s.chain[k + 1]].base == BaseOf(s.had[k]) && s.chain[k + 1] != c;
        OnBaseTrans(r.vm, s.vm, s.had[k], false);
      }
    }
    assert s.chain[0] != c;
  }

  lemma CallPlaced(s: State, r: State, i: nat, c: nat)
    requires Inv(s) && i == Innermost(s) && Called(s, r, i, c) && Chained(r)
    requires Awake(s, s.coros[i]) && Resting(s.coros[c], c) && HandOver(r, r.coros[i].pc, c)
    requires |s.chain| > 1 ==> s.coros[s.chain[|s.chain| - 2]].pc == Spinning(i)
    ensures Placed(r)
  {
    hide HandOver, OnBase, Stacked, LinkedUp, Resting;
    forall k | 0 <= k < |r.chain| - 2 ensures r.coros[r.chain[k]].pc == Spinning(r.chain[k + 1]) {
      assert s.coros[s.chain[k]].pc == Spinning(s.chain[k + 1]);
      assert s.chain[k] != i && s.chain[k] != c;
    }
    forall k | 0 <= k < |r.chain| - 1 ensures r.coros[r.chain[k]].onCall == 0 {
      assert s.coros[s.chain[k]].onCall == 0;
    }
    forall j | 0 <= j < |r.coros| && j !in r.chain ensures Resting(r.coros[j], j) { assert r.coros[j] == s.coros[j]; }
  }

  /** The innermost coroutine gives the VM back, for now or for good. */
  lemma PopKept(s: State, c: nat, x: Coro)
    requires Inv(s) && c == Innermost(s) && |s.chain| > 1 && x.state != Resumed && Resting(x, c)
    requires s.coros[s.chain[|s.chain| - 2]].pc == Spinning(c)
    ensures Covers(s.vm, s.coros[c].base)
    ensures Unload(s.vm, s.coros[c].base) == s.had[|s.had| - 1]
    ensures Inv(Put(Popped(s), c, x).(vm := Unload(s.vm, s.coros[c].base)))
  {
    var top := s.had[|s.had| - 1];
    UnloadBase(s.vm, top);
    assert s.coros[s.chain[|s.had| - 1 + 1]].base == BaseOf(top);
    var r := Put(Popped(s), c, x).(vm := top);
    PopChained(s, r, c, x);
    PopPlaced(s, r, c, x);
  }

  lemma PopChained(s: State, r: State, c: nat, x: Coro)
    requires Inv(s) && c == Innermost(s) && |s.chain| > 1 && x.state != Resumed
    requires r == Put(Popped(s), c, x).(vm := s.had[|s.had| - 1]) && s.coros[c].base == BaseOf(r.vm)
    ensures Chained(r) && LinkedUp(r) && Stacked(r)
  {
    hide Resting, HandOver, Awake, OnBase, Placed;
    assert s.coros[s.chain[|s.chain| - 1]].base.coro == s.chain[|s.chain| - 2];
    forall k | 0 <= k < |r.chain| ensures r.chain[k] != c && r.chain[k] == s.chain[k] {
    }
    forall j | 0 <= j < |r.coros| ensures r.coros[j].state == Resumed <==> j in r.chain {
      assert s.coros[j].state == Resumed <==> j in s.chain;
      InFront(s.chain, j);
    }
  }

  lemma InFront(q: seq<nat>, j: nat)
    requires q != []
    ensures j in q ==> j in q[..|q| - 1] || j == q[|q| - 1]
  {
  }

  lemma PopPlaced(s: State, r: State, c: nat, x: Coro)
    requires Inv(s) && c == Innermost(s) && |s.chain| > 1 && x.state != Resumed && Resting(x, c)
    requires r == Put(Popped(s), c, x).(vm := r.vm) && Chained(r)
    requires s.coros[s.chain[|s.chain| - 2]].pc == Spinning(c)
    ensures Placed(r)
  {
    var n := |s.chain|;
    assert Popping(s, r, c, x);
    hide Resting, OnBase, Stacked, LinkedUp, Put, Popped;
    PopRests(s, r, c, x);
    PopSpins(s, r, c, x);
    assert Awake(r, r.coros[r.chain[n - 2]]);
    hide Awake, Popping;
  }

  /** The innermost thread `c` leaves the chain; nobody else changes. */
  ghost predicate Popping(s: State, r: State, c: nat, x: Coro) {
    && s.chain != [] && c < |s.coros| == |r.coros| && r.chain == s.chain[..|s.chain| - 1] && r.coros[c] == x
    && forall j :: 0 <= j < |s.coros| && j != c ==> r.coros[j] == s.coros[j]
  }

  lemma PopRests(s: State, r: State, c: nat, x: Coro)
    requires Inv(s) && c == Innermost(s) && Popping(s, r, c, x) && Resting(x, c)
    ensures forall j :: 0 <= j < |r.coros| && j !in r.chain ==> Resting(r.coros[j], j)
  {
    hide Resting, Stacked, LinkedUp, HandOver, Awake;
    forall j | 0 <= j < |r.coros| && j !in r.chain ensures Resting(r.coros[j], j) {
      InFront(s.chain, j);
      if j != c { assert r.coros[j] == s.coros[j]; }
    }
  }

  lemma PopSpins(s: State, r: State, c: nat, x: Coro)
    requires Inv(s) && c == Innermost(s) && Popping(s, r, c, x) && |s.chain| > 1
    ensures forall k :: 0 <= k < |r.chain| ==>
            r.chain[k] == s.chain[k] && r.chain[k] < |r.coros| && r.coros[r.chain[k]] == s.coros[s.chain[k]]
    ensures forall k :: 0 <= k < |r.chain| ==> r.coros[r.chain[k]].onCall == 0
    ensures forall k :: 0 <= k < |r.chain| - 1 ==> r.coros[r.chain[k]].pc == Spinning(r.chain[k + 1])
  {
    hide Resting, Stacked, LinkedUp, HandOver, Awake;
  }

  lemma MainFirst(s: State)
    requires Inv(s)
    ensures s.chain != [] && (Innermost(s) != 0 ==> |s.chain| > 1)
  {
  }

  lemma SuspendIsPop(s: State, i: nat)
    requires Enabled(s, Suspend(i)) && s.vm.coro == i && i != 0
    ensures var x := s.coros[i];
            Next(s, Suspend(i)) ==
              Put(Popped(s), i, x.(state := Suspended, saved := Suffix(s.vm, x.base),
                                   pc := Waiting(i))).(vm := Unload(s.vm, x.base))
  {
  }

  lemma SuspendKept(s: State, i: nat)
    requires Inv(s) && Enabled(s, Suspend(i))
    ensures Inv(Next(s, Suspend(i)))
    ensures s.vm.coro == i
    ensures i != 0 ==> |s.had| > 0 && Next(s, Suspend(i)).vm == s.had[|s.had| - 1]
    ensures i == 0 ==> Next(s, Suspend(i)) == s
  {
    RunningIsInnermost(s, i);
    assert s.vm.coro == i;
    hide Inv;
    if i != 0 {
      MainFirst(s);
      SuspendIsPop(s, i);
      hide Next;
      var x := s.coros[i];
      PopKept(s, i, x.(state := Suspended, saved := Suffix(s.vm, x.base), pc := Waiting(i)));
    }
  }

  lemma FinishKept(s: State, i: nat)
    requires Inv(s) && Enabled(s, Finish(i))
    ensures Inv(Next(s, Finish(i)))
    ensures |s.had| > 0 && Next(s, Finish(i)).vm == s.had[|s.had| - 1]
    ensures var r := Next(s, Finish(i));
            |r.coros| == |s.coros| && r.coros[i].state == Done && r.coros[i].pc == Exited && i !in r.chain
  {
    RunningIsInnermost(s, i);
    PopKept(s, i, s.coros[i].(state := Done, pc := Exited));
  }

  lemma InvInit(s: State)
    requires Init(s)
    ensures Inv(s)
  {
  }

  lemma InvKept(s: State, m: Move)
    requires Inv(s) && Enabled(s, m)
    ensures Inv(Next(s, m))
  {
    hide Inv, Next, Enabled;
    match m
    case Work(i, vm) => WorkStep(s, i, vm);
    case Call(i, c) => CallKept(s, i, c);
    case Create(i) => CreateKept(s, i);
    case Post(i) => PostKept(s, i);
    case Look(i) => LookKept(s, i);
    case Suspend(i) => SuspendKept(s, i);
    case Wake(i) => WakeKept(s, i);
    case Finish(i) => FinishKept(s, i);
  }

  lemma WorkStep(s: State, i: nat, vm: Vm)
    requires Inv(s) && Enabled(s, Work(i, vm))
    ensures Inv(Next(s, Work(i, vm)))
  {
    WorkKept(s, i, vm);
  }

  /** Every state of every run. */
  lemma {:induction false} InvAlways(ss: seq<State>, ms: seq<Move>, k: nat)
    requires IsRun(ss, ms) && k < |ss|
    ensures Inv(ss[k])
  {
    hide Inv, Init;
    if k == 0 {
      InvInit(ss[0]);
    } else {
      InvAlways(ss, ms, k - 1);
      assert ss[k - 1 + 1] == Next(ss[k - 1], ms[k - 1]);
      InvKept(ss[k - 1], ms[k - 1]);
    }
  }
}
