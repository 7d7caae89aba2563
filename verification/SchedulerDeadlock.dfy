/** The run phase can lock up: with three tasks, one of which sleeps in its spin loop
    while the other two take turns until the run counter has gone round. */
module SchedulerDeadlock {
  import opened Switching
  import opened Scheduler
  import opened SchedulerResults

  ghost predicate Reached(s: State) {
    exists ss, ms :: IsRun(ss, ms) && ss[|ss| - 1] == s
  }

  lemma Moves(s: State, m: Move)
    requires Reached(s) && Enabled(s, m)
    ensures Reached(Next(s, m))
  {
    hide Enabled, Next, Init;
    var ss, ms :| IsRun(ss, ms) && ss[|ss| - 1] == s;
    var (ss2, ms2) := (ss + [Next(s, m)], ms + [m]);
    assert IsRun(ss2, ms2) && ss2[|ss2| - 1] == Next(s, m);
  }

  // ---- what one thread does between two waits ------------------------------

  /** Nobody else and nothing else has changed. */
  ghost predicate Others(s: State, r: State, i: nat) {
    && |r.tasks| == |s.tasks| && (forall k :: 0 <= k < |s.tasks| && k != i ==> r.tasks[k] == s.tasks[k])
    && r.reaped == s.reaped && r.lock == s.lock && r.main == s.main
  }

  /** Task `i` has taken the VM and runs. */
  ghost predicate Took(s: State, r: State, i: nat) {
    && Others(s, r, i) && i < |r.tasks| && r.tasks[i].pc == Running && Covers(r.vm, r.tasks[i].base)
    && r.run == 0 && r.nruns == s.nruns + 1 && r.ntasks == s.ntasks && r.done == s.done && r.doneQ == s.doneQ
  }

  lemma Starts(s: State, i: nat) returns (r: State)
    requires Reached(s) && i < |s.tasks| && s.tasks[i].pc == Parked && s.run == 1
    ensures Reached(r) && Took(s, r, i)
  {
    var s1 := Next(s, Thread(i));
    Moves(s, Thread(i));
    var s2 := Next(s1, Thread(i));
    Moves(s1, Thread(i));
    r := Next(s2, Thread(i));
    Moves(s2, Thread(i));
  }

  /** A spinning task that is not level with the counter. */
  lemma Resumes(s: State, i: nat) returns (r: State)
    requires Reached(s) && i < |s.tasks| && s.tasks[i].pc.SpinTasks? && s.run == 1 && s.ntasks > 1
    requires s.nruns % WIDTH != s.tasks[i].pc.prev % WIDTH
    ensures Reached(r) && Took(s, r, i)
  {
    var s1 := Wakes(s, i);
    var s2 := Next(s1, Thread(i));
    Moves(s1, Thread(i));
    r := Next(s2, Thread(i));
    Moves(s2, Thread(i));
  }

  lemma Wakes(s: State, i: nat) returns (r: State)
    requires Reached(s) && i < |s.tasks| && s.tasks[i].pc.SpinTasks? && s.run == 1 && s.ntasks > 1
    requires s.nruns % WIDTH != s.tasks[i].pc.prev % WIDTH
    ensures Reached(r) && r == Go(s.(run := 0), i, Resuming(s.tasks[i].pc.prev))
  {
    var p := s.tasks[i].pc.prev;
    var s1 := Next(s, Thread(i));
    Moves(s, Thread(i));
    var s2 := Next(s1, Thread(i));
    Moves(s1, Thread(i));
    r := Next(s2, Thread(i));
    Moves(s2, Thread(i));
    assert s1 == Go(s, i, SpinRuns(p)) && s2 == Go(s, i, Waiting(p));
  }

  /** A running task yields and goes to sleep in its spin loop. */
  lemma Yields(s: State, i: nat) returns (r: State)
    requires Reached(s) && i < |s.tasks| && s.tasks[i].pc == Running && Covers(s.vm, s.tasks[i].base) && s.ntasks > 1
    ensures Reached(r) && Others(s, r, i) && i < |r.tasks| && r.tasks[i].pc == SpinTasks(s.nruns)
    ensures r.run == s.run + 1 && r.nruns == s.nruns && r.ntasks == s.ntasks && r.done == s.done && r.doneQ == s.doneQ
  {
    var s1 := Next(s, Yield(i));
    Moves(s, Yield(i));
    var s2 := Next(s1, Thread(i));
    Moves(s1, Thread(i));
    r := Next(s2, Thread(i));
    Moves(s2, Thread(i));
  }

  /** A running task ends. */
  lemma Finishes(s: State, i: nat) returns (r: State)
    requires Reached(s) && i < |s.tasks| && s.tasks[i].pc == Running && Covers(s.vm, s.tasks[i].base)
             && s.lock == Nobody
    ensures Reached(r) && Others(s, r, i) && i < |r.tasks| && r.tasks[i].pc == Exited
    ensures r.run == s.run + 1 && r.nruns == s.nruns && r.ntasks == s.ntasks - 1 && r.done == s.done + 1
            && r.doneQ == s.doneQ + [i]
  {
    hide Remove, Enabled, Next;
    var s1 := LetsGo(s, i);
    var s2 := Queues(s1, i);
    r := Reports(s2, i);
  }

  lemma LetsGo(s: State, i: nat) returns (r: State)
    requires Reached(s) && i < |s.tasks| && s.tasks[i].pc == Running && Covers(s.vm, s.tasks[i].base)
    ensures Reached(r) && r == Go(s.(vm := Unload(s.vm, s.tasks[i].base), run := s.run + 1), i, Locking)
  {
    var s1 := Next(s, Finish(i));
    Moves(s, Finish(i));
    r := Next(s1, Thread(i));
    Moves(s1, Thread(i));
  }

  lemma Queues(s: State, i: nat) returns (r: State)
    requires Reached(s) && i < |s.tasks| && s.tasks[i].pc == Locking && s.lock == Nobody
    ensures Reached(r)
            && r == Go(s.(lock := TaskThread(i), ready := Remove(s.ready, i), doneQ := s.doneQ + [i]), i, Unlocking)
  {
    hide Remove;
    var s1 := Next(s, Thread(i));
    Moves(s, Thread(i));
    r := Next(s1, Thread(i));
    Moves(s1, Thread(i));
  }

  lemma Reports(s: State, i: nat) returns (r: State)
    requires Reached(s) && i < |s.tasks| && s.tasks[i].pc == Unlocking
    ensures Reached(r) && r == Go(s.(lock := Nobody, ntasks := s.ntasks - 1, done := s.done + 1), i, Exited)
  {
    hide Reached;
    var s1 := Next(s, Thread(i));
    Moves(s, Thread(i));
    assert s1 == Go(s.(lock := Nobody), i, Leaving);
    var s2 := Next(s1, Thread(i));
    Moves(s1, Thread(i));
    assert s2 == Go(s.(lock := Nobody, ntasks := s.ntasks - 1), i, Reporting);
    r := Next(s2, Thread(i));
    Moves(s2, Thread(i));
  }

  /** The main thread reaps the one task that has reported. */
  lemma Reaps(s: State, i: nat) returns (r: State)
    requires Reached(s) && s.main == WaitDone && s.done == 1 && s.ntasks != 0 && s.lock == Nobody
    requires s.doneQ == [i] && i < |s.tasks| && s.tasks[i].pc == Exited
    ensures Reached(r) && r == s.(done := 0, doneQ := [], reaped := s.reaped + [i])
  {
    var s1 := Next(s, Main);
    Moves(s, Main);
    var s2 := Next(s1, Main);
    Moves(s1, Main);
    var s3 := Next(s2, Main);
    Moves(s2, Main);
    var s4 := Next(s3, Main);
    Moves(s3, Main);
    r := ReapsOne(s4, i);
  }

  lemma ReapsOne(s: State, i: nat) returns (r: State)
    requires Reached(s) && s.main == Join(i) && s.ntasks != 0 && i < |s.tasks| && s.tasks[i].pc == Exited
    ensures Reached(r) && r == s.(lock := Nobody, reaped := s.reaped + [i], main := WaitDone)
  {
    var s1 := Next(s, Main);
    Moves(s, Main);
    var s2 := Next(s1, Main);
    Moves(s1, Main);
    r := Next(s2, Main);
    Moves(s2, Main);
  }

  // ---- the run -------------------------------------------------------------

  /** The VM when cx_sched_run is entered, and three tasks. */
  function Three(): State {
    var vm := Vm([0], [0], [], -1, -1, -1, -1);
    var t := Task(Parked, BaseOf(vm), Saved([], [], [], -1, -1), vm);
    State(0, 0, 3, 0, Nobody, [0, 1, 2], [], [], vm, [t, t, t], Start)
  }

  /** All three are alive; the VM is free and the main thread waits. */
  ghost predicate Calm(s: State) {
    && Reached(s) && |s.tasks| == 3 && s.main == WaitDone && s.lock == Nobody && s.run == 1 && s.done == 0
    && s.ntasks == 3
    && s.doneQ == []
  }

  /** Task 0 sleeps since the first run, `i` is one run behind, `j` has run last. */
  ghost predicate Turns(s: State, i: nat, j: nat, n: nat) {
    && Calm(s) && s.nruns == n
    && ((i == 1 && j == 2) || (i == 2 && j == 1)) && n >= 3
    && s.tasks[0].pc == SpinTasks(1) && s.tasks[i].pc == SpinTasks(n - 1) && s.tasks[j].pc == SpinTasks(n)
  }

  lemma Begins() returns (r: State)
    ensures Calm(r) && r.nruns == 0 && forall k :: 0 <= k < 3 ==> r.tasks[k].pc == Parked
  {
    var s := Three();
    AllThree();
    assert Init(s);
    assert IsRun([s], []) && [s][|[s]| - 1] == s;
    assert Reached(s);
    var s1 := Next(s, Main);
    Moves(s, Main);
    r := Next(s1, Main);
    Moves(s1, Main);
  }

  lemma AllThree()
    ensures multiset([0, 1, 2]) == All(3)
  {
    assert All(1) == multiset{0} && All(2) == multiset{0, 1} && All(3) == multiset{0, 1, 2};
  }

  /** Each task runs once. */
  lemma FirstRuns() returns (r: State)
    ensures Turns(r, 1, 2, 3)
  {
    hide Reached;
    var s := Begins();
    var a := Starts(s, 0);
    var b := Yields(a, 0);
    var c := Starts(b, 1);
    var d := Yields(c, 1);
    var e := Starts(d, 2);
    r := Yields(e, 2);
  }

  /** The two that are awake take turns, for as long as they like. */
  lemma {:induction false} TakeTurns(n: nat) returns (r: State, i: nat, j: nat)
    requires 3 <= n < WIDTH
    ensures Turns(r, i, j, n)
    decreases n
  {
    hide Reached;
    if n == 3 {
      r := FirstRuns();
      i, j := 1, 2;
    } else {
      var s, k, l := TakeTurns(n - 1);
      var a := Resumes(s, k);
      r := Yields(a, k);
      i, j := l, k;
    }
  }

  /** There is a run that ends in deadlock: when 2^32 runs have been counted since task
      0 went to sleep, it cannot tell that any has, nor can the task that ran last. */
  lemma DeadlockHappens() returns (ss: seq<State>, ms: seq<Move>)
    ensures IsRun(ss, ms) && Stuck(ss[|ss| - 1]) && ss[|ss| - 1].nruns == 0x1_0000_0001
  {
    hide Reached, IsRun, Next, Enabled;
    var s, i, j := TakeTurns(WIDTH - 1);
    var a := Resumes(s, i);
    var b := Finishes(a, i);
    var c := Reaps(b, i);
    var d := Resumes(c, j);
    var e := Yields(d, j);
    assert e.tasks[0].pc == SpinTasks(1) && e.tasks[i].pc == Exited && e.tasks[j].pc == SpinTasks(WIDTH + 1);
    assert Stuck(e);
    ss, ms := ReachedRun(e);
  }

  lemma ReachedRun(s: State) returns (ss: seq<State>, ms: seq<Move>)
    requires Reached(s)
    ensures IsRun(ss, ms) && ss[|ss| - 1] == s
  {
    ss, ms :| IsRun(ss, ms) && ss[|ss| - 1] == s;
  }
}
