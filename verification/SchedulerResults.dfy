/** What the run phase guarantees: mutual exclusion, fair yields, each task reaped
    once, and completion. */
module SchedulerResults {
  import opened Switching
  import opened Scheduler
  import opened SchedulerProof

  // ---- safety --------------------------------------------------------------

  /** At any moment of any run the VM is with exactly one side: in the semaphore, or
      with one thread; and while no task holds it, it is as it was on entry. */
  lemma MutualExclusion(ss: seq<State>, ms: seq<Move>, k: nat)
    requires IsRun(ss, ms) && k < |ss|
    ensures var s := ss[k];
            && s.run + Count(Holding, s.tasks) + MainHolds(s.main) == 1
            && (forall i, j ::
                  && 0 <= i < |s.tasks| && 0 <= j < |s.tasks|
                  && Is(Holding, s.tasks[i].pc) && Is(Holding, s.tasks[j].pc) ==>
                  i == j)
            && ((forall i :: 0 <= i < |s.tasks| ==> !Is(Holding, s.tasks[i].pc)) ==> s.vm == ss[0].vm)
  {
    hide Count;
    InvAlways(ss, ms, k);
    var s := ss[k];
    forall i, j | 0 <= i < |s.tasks| && 0 <= j < |s.tasks| && Is(Holding, s.tasks[i].pc) && Is(Holding, s.tasks[j].pc)
      ensures i == j {
      Alone(s, i, j);
    }
    if forall i :: 0 <= i < |s.tasks| ==> !Is(Holding, s.tasks[i].pc) {
      forall i | 0 <= i < |s.tasks| ensures !Loaded(s.tasks[i].pc) { assert !Is(Holding, s.tasks[i].pc); }
    }
  }

  /** Every task is at any moment in exactly one of: the ready queue, the done queue,
      the main thread's hands, the reaped ones; and only finished ones are reaped. */
  lemma EachTaskOnce(ss: seq<State>, ms: seq<Move>, k: nat, i: nat)
    requires IsRun(ss, ms) && k < |ss| && i < |ss[k].tasks|
    ensures var s := ss[k];
            && multiset(s.ready)[i] + multiset(s.doneQ)[i] + multiset(Taken(s.main))[i] + multiset(s.reaped)[i] == 1
            && (i in s.reaped ==> s.tasks[i].pc == Exited)
  {
    InvAlways(ss, ms, k);
    AllAt(|ss[k].tasks|, i);
    assert Places(ss[k])[i] == 1;
  }

  /** cx_sched_run returns only when every task has exited and was reaped, with the
      VM as it was on entry and back in the caller's hands. */
  lemma ReturnsWhenAllDone(ss: seq<State>, ms: seq<Move>, k: nat)
    requires IsRun(ss, ms) && k < |ss| && ss[k].main == Returned
    ensures var s := ss[k];
            && (forall i :: 0 <= i < |s.tasks| ==> s.tasks[i].pc == Exited && i in s.reaped)
            && multiset(s.reaped) == All(|s.tasks|)
            && s.ready == [] && s.doneQ == [] && s.ntasks == 0 && s.run == 0 && s.vm == ss[0].vm
  {
    InvAlways(ss, ms, k);
    AllReaped(ss[k]);
    MutualExclusion(ss, ms, k);
  }

  lemma AllReaped(s: State)
    requires Counted(s) && Placed(s) && OneOwner(s) && s.main == Returned
    ensures s.ready == [] && multiset(s.reaped) == All(|s.tasks|) && s.run == 0
    ensures forall i :: 0 <= i < |s.tasks| ==> s.tasks[i].pc == Exited && i in s.reaped
  {
    hide Count;
    NoneLive(s);
    if s.ready != [] {
      InRange(s, s.ready[0]);
      assert false;
    }
    assert Places(s) == multiset(s.reaped);
    forall i | 0 <= i < |s.tasks| ensures s.tasks[i].pc == Exited && i in s.reaped {
      AllAt(|s.tasks|, i);
      assert i in multiset(s.reaped);
    }
  }

  lemma NoneLive(s: State)
    requires Counted(s) && s.ntasks == 0
    ensures forall i :: 0 <= i < |s.tasks| ==> s.tasks[i].pc.Reporting? || s.tasks[i].pc.Exited?
  {
    hide Count;
    forall i | 0 <= i < |s.tasks| ensures s.tasks[i].pc.Reporting? || s.tasks[i].pc.Exited? {
      if Is(Live, s.tasks[i].pc) { CountOne(Live, s.tasks, i); }
    }
  }

  lemma InRange(s: State, i: nat)
    requires Placed(s) && (i in s.ready || i in s.doneQ || i in Taken(s.main) || i in s.reaped)
    ensures i < |s.tasks|
  {
    AllAt(|s.tasks|, i);
    assert i in multiset(s.ready) || i in multiset(s.doneQ) || i in multiset(Taken(s.main)) || i in multiset(s.reaped);
    assert Places(s)[i] > 0;
  }

  // ---- yields --------------------------------------------------------------

  /** Task `i` yielded when `n` runs had been counted and has not resumed yet. */
  predicate SinceYield(s: State, i: nat, n: nat, had: Vm) {
    && i < |s.tasks| && Away(s.tasks[i].pc) && s.tasks[i].had == had
    && (if s.tasks[i].pc.Yielding? then s.nruns == n else s.tasks[i].pc.prev == n)
  }

  lemma StillAway(s: State, m: Move, entry: Vm, i: nat, n: nat, had: Vm)
    requires Inv(s, entry) && Enabled(s, m) && SinceYield(s, i, n, had)
    requires s.tasks[i].pc.Resuming? ==> m != Thread(i)
    ensures SinceYield(Next(s, m), i, n, had)
  {
    hide Count, Counted, Locked, Placed, Reported, VmKept, SavedKept, Fair;
    OwnEntry(s, m);
    if !m.Main? && Mover(m) != i {
      assert Next(s, m).tasks[i] == s.tasks[i];
      if Next(s, m).nruns != s.nruns && s.tasks[i].pc.Yielding? { Alone(s, i, Mover(m)); }
    }
  }

  lemma JustYielded(s: State, i: nat)
    requires Enabled(s, Yield(i))
    ensures SinceYield(Next(s, Yield(i)), i, s.nruns, s.vm)
  {
    hide Unload, Suffix;
  }

  lemma {:induction false} AwayUntil(ss: seq<State>, ms: seq<Move>, a: nat, b: nat, i: nat)
    requires IsRun(ss, ms) && a < b < |ss| && ms[a] == Yield(i)
    requires forall k :: a < k < b ==> !(ms[k] == Thread(i) && i < |ss[k].tasks| && ss[k].tasks[i].pc.Resuming?)
    ensures SinceYield(ss[b], i, ss[a].nruns, ss[a].vm)
  {
    hide Inv, Init;
    assert ss[b - 1 + 1] == Next(ss[b - 1], ms[b - 1]);
    if b == a + 1 {
      JustYielded(ss[a], i);
      hide Next, Enabled, SinceYield;
    } else {
      hide Next, Enabled, SinceYield;
      AwayUntil(ss, ms, a, b - 1, i);
      InvAlways(ss, ms, b - 1);
      StillAway(ss[b - 1], ms[b - 1], ss[0].vm, i, ss[a].nruns, ss[a].vm);
    }
  }

  /** A task that yields at step `a` and resumes at step `b`: by then another run has
      been counted or it is the last task; and it finds its stacks, bin and pc on the
      VM as they were. */
  lemma YieldIsFair(ss: seq<State>, ms: seq<Move>, a: nat, b: nat, i: nat)
    requires IsRun(ss, ms) && a < b < |ms| && ms[a] == Yield(i)
    requires ms[b] == Thread(i) && i < |ss[b].tasks| && ss[b].tasks[i].pc.Resuming?
    requires forall k :: a < k < b ==> !(ms[k] == Thread(i) && i < |ss[k].tasks| && ss[k].tasks[i].pc.Resuming?)
    ensures ss[b].nruns > ss[a].nruns || ss[b].ntasks <= 1
    ensures ss[b + 1].vm == ss[a].vm.(task := i, coro := ss[0].vm.coro)
  {
    AwayUntil(ss, ms, a, b, i);
    InvAlways(ss, ms, b);
    assert ss[b + 1] == Next(ss[b], ms[b]);
    Reload(ss[b], i, ss[0].vm);
  }

  lemma Reload(s: State, i: nat, entry: Vm)
    requires Inv(s, entry) && Enabled(s, Thread(i)) && s.tasks[i].pc.Resuming?
    ensures ThreadNext(s, i).vm == s.tasks[i].had.(task := i, coro := entry.coro)
  {
    hide Count;
    LoadedAlone(s, i);
    var (t, e) := (s.tasks[i], BaseOf(entry));
    assert s.vm == entry;
    SuspendResume(t.had, entry, entry);
  }

  /** The first run of a task starts on the stacks the run phase was entered with, with no
      bin and pc, as that task. */
  lemma FirstRun(ss: seq<State>, ms: seq<Move>, b: nat, i: nat)
    requires IsRun(ss, ms) && b < |ms| && ms[b] == Thread(i) && i < |ss[b].tasks| && ss[b].tasks[i].pc.Fresh?
    ensures ss[b + 1].vm == ss[0].vm.(task := i, bin := -1, pc := -1)
  {
    InvAlways(ss, ms, b);
    assert ss[b + 1] == Next(ss[b], ms[b]);
    hide Count;
    LoadedAlone(ss[b], i);
  }

  /** A task that yields offers the VM to the others if there are any, and otherwise keeps
      it; `r` is the state after its next step. */
  lemma YieldOffers(ss: seq<State>, ms: seq<Move>, b: nat, i: nat) returns (r: State)
    requires IsRun(ss, ms) && b < |ms| && ms[b] == Thread(i) && i < |ss[b].tasks| && ss[b].tasks[i].pc.Yielding?
    ensures i < |ss[b + 1].tasks| && Enabled(ss[b + 1], Thread(i)) && r == Next(ss[b + 1], Thread(i))
    ensures ss[b].run == 0 && ss[b + 1].run == 0
    ensures ss[b].ntasks > 1 ==> r.run == 1 && forall j :: 0 <= j < |r.tasks| ==> !Is(Holding, r.tasks[j].pc)
    ensures ss[b].ntasks <= 1 ==> r.run == 0 && r.vm == ss[b].tasks[i].had.(task := i, coro := ss[0].vm.coro)
  {
    InvAlways(ss, ms, b);
    InvAlways(ss, ms, b + 1);
    assert ss[b + 1] == Next(ss[b], ms[b]);
    assert OneOwner(ss[b]);
    hide Inv, Count, Init, OneOwner;
    if ss[b].ntasks > 1 { r := Offered(ss[b], i, ss[0].vm); } else { r := KeptOn(ss[b], i, ss[0].vm); }
  }

  lemma Offered(s: State, i: nat, entry: Vm) returns (r: State)
    requires Inv(s, entry) && Enabled(s, Thread(i)) && s.tasks[i].pc.Yielding? && s.ntasks > 1
    ensures var m := Next(s, Thread(i));
            && Enabled(m, Thread(i)) && r == Next(m, Thread(i)) && |m.tasks| == |s.tasks|
            && s.run == 0 && m.run == 0 && r.run == 1
            && forall j :: 0 <= j < |r.tasks| ==> !Is(Holding, r.tasks[j].pc)
  {
    hide Count, Counted, Locked, Placed, Reported, VmKept, SavedKept, Fair;
    Alone(s, i, i);
    r := Next(Next(s, Thread(i)), Thread(i));
    forall j | 0 <= j < |r.tasks| ensures !Is(Holding, r.tasks[j].pc) {
      if j != i && Is(Holding, s.tasks[j].pc) { Alone(s, i, j); }
    }
  }

  lemma KeptOn(s: State, i: nat, entry: Vm) returns (r: State)
    requires Enabled(s, Thread(i)) && s.tasks[i].pc.Yielding? && s.ntasks <= 1
    requires OneOwner(s) && Inv(Next(s, Thread(i)), entry)
    ensures var m := Next(s, Thread(i));
            && Enabled(m, Thread(i)) && r == Next(m, Thread(i)) && |m.tasks| == |s.tasks|
            && s.run == 0 && m.run == 0 && r.run == 0
            && r.vm == s.tasks[i].had.(task := i, coro := entry.coro)
  {
    var m := Next(s, Thread(i));
    GoesOn(s, i);
    hide Inv, Load, BaseOf, OneOwner;
    Reload(m, i, entry);
    r := Next(m, Thread(i));
  }

  lemma GoesOn(s: State, i: nat)
    requires OneOwner(s) && Enabled(s, Thread(i)) && s.tasks[i].pc.Yielding? && s.ntasks <= 1
    ensures var m := Next(s, Thread(i));
            && Enabled(m, Thread(i)) && m.tasks[i].pc.Resuming? && m.tasks[i].had == s.tasks[i].had
            && |m.tasks| == |s.tasks| && s.run == 0 && m.run == 0 && Next(m, Thread(i)).run == 0
  {
    hide OneOwner, Load, BaseOf;
    Alone(s, i, i);
  }

  /** Whoever gets the VM after a task has yielded or ended finds it as it was on entry. */
  lemma HandsBack(ss: seq<State>, ms: seq<Move>, b: nat, i: nat)
    requires IsRun(ss, ms) && b < |ms| && (ms[b] == Yield(i) || ms[b] == Finish(i))
    ensures ss[b + 1].vm == ss[0].vm
  {
    InvAlways(ss, ms, b);
    InvAlways(ss, ms, b + 1);
    assert ss[b + 1] == Next(ss[b], ms[b]);
    hide Count, Inv;
    NoneLoaded(ss[b], ms[b], i, ss[0].vm);
  }

  lemma NoneLoaded(s: State, m: Move, i: nat, entry: Vm)
    requires Inv(s, entry) && Enabled(s, m) && (m == Yield(i) || m == Finish(i)) && VmKept(Next(s, m), entry)
    ensures Next(s, m).vm == entry
  {
    hide Count, Unload, Suffix;
    LoadedAlone(s, i);
  }

  // ---- completion ----------------------------------------------------------

  /** How far a thread is from its end if it does not yield again. */
  function PcRank(pc: Pc): nat {
    match pc
    case Yielding => 13
    case Posting(_) => 12
    case SpinTasks(_) => 11
    case SpinRuns(_) => 11
    case Parked => 10
    case Waiting(_) => 10
    case Fresh => 9
    case Resuming(_) => 9
    case Starting => 8
    case Resumed => 8
    case Running => 7
    case Ending => 6
    case Locking => 5
    case Moving => 4
    case Unlocking => 3
    case Leaving => 2
    case Reporting => 1
    case Exited => 0
  }

  function MainRank(m: MainPc): nat {
    match m
    case Start => 9
    case Unlock => 9
    case CheckTasks => 8
    case WaitDone => 7
    case CheckAgain => 6
    case Lock => 5
    case Take => 4
    case Join(_) => 3
    case Drain => 2
    case DrainJoin(_) => 1
    case WaitRun => 1
    case Returned => 0
  }

  function TasksRank(ts: seq<Task>): nat {
    if ts == [] then 0 else PcRank(ts[0].pc) + TasksRank(ts[1..])
  }

  function Rank(s: State): int {
    10 * (|s.tasks| - |s.reaped|) + MainRank(s.main) + TasksRank(s.tasks)
  }

  lemma {:induction false} RankUpdate(ts: seq<Task>, i: nat, t: Task)
    requires i < |ts|
    ensures TasksRank(ts[i := t]) == TasksRank(ts) - PcRank(ts[i].pc) + PcRank(t.pc)
  {
    if i == 0 {
      assert ts[i := t][1..] == ts[1..];
    } else {
      assert ts[i := t][1..] == ts[1..][i - 1 := t];
      RankUpdate(ts[1..], i - 1, t);
    }
  }

  /** A step of the spin loop that goes round again. */
  predicate Spins(s: State, m: Move) {
    m.Thread? && m.i < |s.tasks| &&
    match s.tasks[m.i].pc
    case SpinTasks(_) => s.ntasks > 1
    case SpinRuns(prev) => s.nruns % WIDTH == prev % WIDTH
    case _ => false
  }

  /** Between yields every thread takes boundedly many steps: each step but a spin, a
      yield or work on the VM brings the end nearer. */
  lemma StepsDecrease(s: State, m: Move)
    requires Enabled(s, m) && !m.Work? && !m.Yield?
    ensures Rank(Next(s, m)) <= Rank(s)
    ensures !Spins(s, m) ==> Rank(Next(s, m)) < Rank(s)
  {
    hide TasksRank;
    OwnEntry(s, m);
    if !m.Main? { RankUpdate(s.tasks, Mover(m), Next(s, m).tasks[Mover(m)]); }
  }

  lemma RankNat(s: State)
    requires Placed(s)
    ensures Rank(s) >= 0 && |s.reaped| <= |s.tasks|
  {
    AllSize(|s.tasks|);
    var bag: multiset<nat> := multiset(s.reaped);
    assert bag <= Places(s);
    SubSize(bag, All(|s.tasks|));
  }

  /** All that is left spins, level with the run count modulo its width. */
  ghost predicate Stuck(s: State) {
    && s.main == WaitDone && s.done == 0 && s.ntasks > 1
    && forall i :: 0 <= i < |s.tasks| ==> IdleOrLevel(s, s.tasks[i].pc)
  }

  predicate IdleOrLevel(s: State, pc: Pc) {
    pc.Exited? || ((pc.SpinTasks? || pc.SpinRuns?) && pc.prev % WIDTH == s.nruns % WIDTH)
  }

  /** The spin loop compares the counter modulo its width.  If enough runs have gone
      by for two tasks to read the same value, they spin for ever. */
  lemma StuckForever(s: State, m: Move)
    requires Stuck(s) && Enabled(s, m)
    ensures Stuck(Next(s, m)) && Rank(Next(s, m)) == Rank(s)
  {
    hide TasksRank;
    if !m.Main? {
      var i := Mover(m);
      assert IdleOrLevel(s, s.tasks[i].pc);
      RankUpdate(s.tasks, i, Next(s, m).tasks[i]);
    }
  }

  /** It takes a full round of the counter to get there. */
  lemma StuckNeedsWrap(s: State, entry: Vm)
    requires Inv(s, entry) && Stuck(s)
    ensures s.nruns >= 0x1_0000_0000
  {
    hide Count, OneOwner, Locked, Placed, Reported, VmKept, SavedKept;
    TwoLive(s.tasks);
    var i, j :| 0 <= i < j < |s.tasks| && Is(Live, s.tasks[i].pc) && Is(Live, s.tasks[j].pc);
    assert IdleOrLevel(s, s.tasks[i].pc) && IdleOrLevel(s, s.tasks[j].pc);
    var p := if s.tasks[i].pc.prev < s.nruns then s.tasks[i].pc.prev else s.tasks[j].pc.prev;
    LevelGap(p, s.nruns);
  }

  lemma LevelGap(p: nat, n: nat)
    requires p < n && p % WIDTH == n % WIDTH
    ensures n >= WIDTH
  {
  }

  lemma {:induction false} TwoLive(ts: seq<Task>)
    requires Count(Live, ts) > 1
    ensures exists i, j :: 0 <= i < j < |ts| && Is(Live, ts[i].pc) && Is(Live, ts[j].pc)
  {
    if Is(Live, ts[0].pc) {
      LiveSome(ts[1..]);
      var j :| 0 <= j < |ts[1..]| && Is(Live, ts[1..][j].pc);
      assert Is(Live, ts[0].pc) && Is(Live, ts[j + 1].pc);
    } else {
      TwoLive(ts[1..]);
      var i, j :| 0 <= i < j < |ts[1..]| && Is(Live, ts[1..][i].pc) && Is(Live, ts[1..][j].pc);
      assert Is(Live, ts[i + 1].pc) && Is(Live, ts[j + 1].pc);
    }
  }

  /** One or two steps, none of them a yield or work, that bring the end nearer. */
  ghost predicate Advances(s: State, m: Move) {
    Enabled(s, m) && !m.Work? && !m.Yield? && Rank(Next(s, m)) < Rank(s)
  }

  ghost predicate CanAdvance(s: State) {
    || (exists m :: Advances(s, m))
    || (exists m :: Enabled(s, m) && Spins(s, m) && CanAdvanceNow(Next(s, m)))
  }

  ghost predicate CanAdvanceNow(s: State) {
    exists m :: Advances(s, m)
  }

  lemma Advance(s: State, m: Move)
    requires Enabled(s, m) && !m.Work? && !m.Yield? && !Spins(s, m)
    ensures CanAdvance(s) && CanAdvanceNow(s)
  {
    hide Rank, Next, Spins, Enabled;
    StepsDecrease(s, m);
    assert Advances(s, m);
  }

  /** A thread that needs nobody else. */
  predicate Free(pc: Pc) {
    || pc.Fresh? || pc.Starting? || pc.Running? || pc.Yielding? || pc.Posting? || pc.Resuming? || pc.Resumed?
    || pc.Ending? || pc.Moving? || pc.Unlocking? || pc.Leaving? || pc.Reporting?
  }

  /** No thread ever waits for ever while the run is not over, unless the counter has
      gone round: some step brings the end nearer, or what is left spins. */
  lemma AlwaysProgress(s: State, entry: Vm)
    requires Inv(s, entry) && s.main != Returned
    ensures CanAdvance(s) || Stuck(s)
  {
    hide Count, CanAdvance, CanAdvanceNow, VmKept, SavedKept, Fair;
    if i :| 0 <= i < |s.tasks| && Free(s.tasks[i].pc) {
      if s.tasks[i].pc.Running? { RunningCovers(s, i, entry); Advance(s, Finish(i)); } else { Advance(s, Thread(i)); }
    } else if s.main.Start? || s.main.CheckTasks? || s.main.CheckAgain? || s.main.Drain? || s.main.Unlock? {
      Advance(s, Main);
    } else {
      NobodyHolds(s);
      if i :| 0 <= i < |s.tasks| && (s.tasks[i].pc.Parked? || s.tasks[i].pc.Waiting?) {
        Advance(s, Thread(i));
      } else if s.main.Take? || s.main.Join? || s.main.DrainJoin? || s.main.Lock? || s.main.WaitRun? || s.done > 0 {
        MainCanGo(s);
        Advance(s, Main);
      } else if i :| 0 <= i < |s.tasks| && s.tasks[i].pc.Locking? {
        Advance(s, Thread(i));
      } else {
        SpinnersGo(s);
      }
    }
  }

  lemma RunningCovers(s: State, i: nat, entry: Vm)
    requires VmKept(s, entry) && i < |s.tasks| && s.tasks[i].pc.Running?
    ensures Covers(s.vm, s.tasks[i].base)
  {
    assert Loaded(s.tasks[i].pc);
  }

  lemma NobodyHolds(s: State)
    requires OneOwner(s) && Locked(s) && s.main != Start && s.main != Returned
    requires forall i :: 0 <= i < |s.tasks| ==> !Free(s.tasks[i].pc)
    ensures s.run == 1
    ensures !(s.main.Take? || s.main.Join? || s.main.Unlock?) ==> s.lock == Nobody
    ensures s.main.WaitRun? ==> s.run > 0
  {
    hide Count;
    forall i | 0 <= i < |s.tasks| ensures !Is(Holding, s.tasks[i].pc) { assert !Free(s.tasks[i].pc); }
    CountNone(Holding, s.tasks);
    if s.lock.TaskThread? { assert false; }
  }

  /** What the main thread waits for has happened. */
  lemma MainCanGo(s: State)
    requires Counted(s) && Locked(s) && Placed(s) && Reported(s) && s.run == 1
    requires forall i :: 0 <= i < |s.tasks| ==> !Free(s.tasks[i].pc)
    requires !(s.main.Take? || s.main.Join? || s.main.Unlock?) ==> s.lock == Nobody
    requires s.main.Take? || s.main.Join? || s.main.DrainJoin? || s.main.Lock? || s.main.WaitRun?
             || (s.main.WaitDone? && s.done > 0)
    ensures Enabled(s, Main)
  {
    hide Count;
    if s.main.Take? {
      if s.doneQ == [] { QueueFilled(s); }
    } else if s.main.Join? || s.main.DrainJoin? {
      InRange(s, s.main.t);
      AllAt(|s.tasks|, s.main.t);
      assert s.main.t in multiset(Taken(s.main));
      assert s.main.t !in multiset(s.ready);
      assert !Free(s.tasks[s.main.t].pc);
    }
  }

  /** The tasks of a kind, by index. */
  function Indices(k: Kind, ts: seq<Task>, from: nat): multiset<nat> {
    if ts == [] then multiset{}
    else (if Is(k, ts[0].pc) then multiset{from} else multiset{}) + Indices(k, ts[1..], from + 1)
  }

  lemma {:induction false} IndicesCount(k: Kind, ts: seq<Task>, from: nat, i: nat)
    ensures |Indices(k, ts, from)| == Count(k, ts)
    ensures Indices(k, ts, from)[i] == if from <= i < from + |ts| && Is(k, ts[i - from].pc) then 1 else 0
  {
    if ts != [] { IndicesCount(k, ts[1..], from + 1, i); }
  }

  /** If all tasks of a kind are in a queue, there are no more of them than its length. */
  lemma CountInQueue(k: Kind, ts: seq<Task>, q: seq<nat>)
    requires forall i :: 0 <= i < |ts| && Is(k, ts[i].pc) ==> i in q
    ensures Count(k, ts) <= |q|
  {
    forall i: nat ensures Indices(k, ts, 0)[i] <= multiset(q)[i] {
      IndicesCount(k, ts, 0, i);
      assert i in q <==> i in multiset(q);
    }
    IndicesCount(k, ts, 0, 0);
    var bag: multiset<nat> := multiset(q);
    SubSize(Indices(k, ts, 0), bag);
  }

  /** An answered wait means that a task is in the done queue. */
  lemma QueueFilled(s: State)
    requires Placed(s) && Reported(s) && s.main.Take?
    ensures s.doneQ != []
  {
    hide Count;
    if s.doneQ == [] {
      forall i | 0 <= i < |s.tasks| && Is(Posted, s.tasks[i].pc) ensures i in s.reaped {
        AllAt(|s.tasks|, i);
        assert i !in s.ready && i !in multiset(s.ready);
        assert Places(s)[i] == multiset(s.reaped)[i];
      }
      CountInQueue(Posted, s.tasks, s.reaped);
    }
  }

  /** Only finished tasks and spinning ones, and the main thread waits for a report. */
  lemma SpinnersGo(s: State)
    requires Counted(s) && Reported(s) && s.main == WaitDone && s.done == 0
    requires forall i :: 0 <= i < |s.tasks| ==>
             s.tasks[i].pc.Exited? || s.tasks[i].pc.SpinTasks? || s.tasks[i].pc.SpinRuns?
    ensures CanAdvance(s) || Stuck(s)
  {
    hide Count, CanAdvance, CanAdvanceNow;
    CountAll(Posted, s.tasks);
    var i :| 0 <= i < |s.tasks| && s.tasks[i].pc != Exited;
    if s.ntasks <= 1 {
      LastSpins(s, i);
    } else if j :| 0 <= j < |s.tasks| && !IdleOrLevel(s, s.tasks[j].pc) {
      BehindSpins(s, j);
    }
  }

  lemma LastSpins(s: State, i: nat)
    requires s.ntasks <= 1 && i < |s.tasks| && (s.tasks[i].pc.SpinTasks? || s.tasks[i].pc.SpinRuns?)
    ensures CanAdvance(s)
  {
    hide CanAdvanceNow;
    if Spins(s, Thread(i)) {
      Advance(Next(s, Thread(i)), Thread(i));
      assert Enabled(s, Thread(i)) && Spins(s, Thread(i)) && CanAdvanceNow(Next(s, Thread(i)));
    } else {
      Advance(s, Thread(i));
    }
  }

  lemma BehindSpins(s: State, i: nat)
    requires s.ntasks > 1 && i < |s.tasks| && (s.tasks[i].pc.SpinTasks? || s.tasks[i].pc.SpinRuns?)
    requires s.tasks[i].pc.prev % WIDTH != s.nruns % WIDTH
    ensures CanAdvance(s)
  {
    hide CanAdvanceNow;
    if s.tasks[i].pc.SpinTasks? {
      Advance(Next(s, Thread(i)), Thread(i));
      assert Enabled(s, Thread(i)) && Spins(s, Thread(i)) && CanAdvanceNow(Next(s, Thread(i)));
    } else {
      Advance(s, Thread(i));
    }
  }

  /** Deadlock is exactly the counter having gone round. */
  lemma DeadlockIffWrapped(s: State, entry: Vm)
    requires Inv(s, entry) && s.main != Returned
    ensures Stuck(s) <==> !CanAdvance(s)
    ensures Stuck(s) ==> s.nruns >= 0x1_0000_0000
  {
    if Stuck(s) {
      StuckNeedsWrap(s, entry);
      if m :| Advances(s, m) { StuckForever(s, m); }
      if m :| Enabled(s, m) && Spins(s, m) && CanAdvanceNow(Next(s, m)) {
        StuckForever(s, m);
        var m2 :| Advances(Next(s, m), m2);
        StuckForever(Next(s, m), m2);
      }
    } else {
      AlwaysProgress(s, entry);
    }
  }

  /** A run of moves from `s`, none of them a yield or work, that ends with the main
      thread returned. */
  ghost predicate Completes(s: State, ms: seq<Move>)
    decreases |ms|
  {
    if ms == [] then s.main == Returned
    else Enabled(s, ms[0]) && !ms[0].Work? && !ms[0].Yield? && Completes(Next(s, ms[0]), ms[1..])
  }

  /** From every reachable state the run phase can be completed without any further
      yield, as long as the run counter is not about to go round. */
  lemma {:induction false} CanComplete(s: State, entry: Vm)
    requires Inv(s, entry) && s.nruns + Rank(s) < WIDTH
    ensures exists ms :: Completes(s, ms)
    decreases Rank(s), 1
  {
    hide Inv, Rank, Enabled, Next, Stuck;
    InvPlaced(s, entry);
    if s.main == Returned {
      assert Completes(s, []);
    } else {
      DeadlockIffWrapped(s, entry);
      if m :| Advances(s, m) {
        CompleteAfter(s, m, entry);
      } else {
        var m :| Enabled(s, m) && Spins(s, m) && CanAdvanceNow(Next(s, m));
        var s1 := Next(s, m);
        InvKept(s, m, entry);
        SpinKeepsRuns(s, m);
        StepsDecrease(s, m);
        var m2 :| Advances(s1, m2);
        CompleteAfter(s1, m2, entry);
        var ms :| Completes(s1, ms);
        assert [m] + ms != [] && ([m] + ms)[1..] == ms;
        assert Completes(s, [m] + ms);
      }
    }
  }

  lemma {:induction false} CompleteAfter(s: State, m: Move, entry: Vm)
    requires Inv(s, entry) && s.nruns + Rank(s) < WIDTH && Advances(s, m)
    ensures exists ms :: Completes(s, ms)
    decreases Rank(s), 0
  {
    hide Inv, Rank, Enabled, Next;
    InvKept(s, m, entry);
    RunsGrow(s, m);
    InvPlaced(Next(s, m), entry);
    CanComplete(Next(s, m), entry);
    var ms :| Completes(Next(s, m), ms);
    assert ([m] + ms)[1..] == ms;
    assert Completes(s, [m] + ms);
  }

  lemma InvPlaced(s: State, entry: Vm)
    requires Inv(s, entry)
    ensures Rank(s) >= 0
  {
    RankNat(s);
  }

  lemma RunsGrow(s: State, m: Move)
    requires Enabled(s, m)
    ensures Next(s, m).nruns <= s.nruns + 1
  {
  }

  lemma SpinKeepsRuns(s: State, m: Move)
    requires Enabled(s, m) && Spins(s, m)
    ensures Next(s, m).nruns == s.nruns && !m.Work? && !m.Yield?
  {
  }
}
