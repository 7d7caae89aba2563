/** One run phase of the task scheduler as a step system: the thread in
    `cx_sched_run` and one thread per task, with one step per semaphore operation,
    atomic operation or locked queue operation.  Plain code between two such
    operations is part of a step; it only touches what its thread owns.

    At the start every task is in the ready queue and parked before its first wait
    for the VM, and both semaphores are 0. */
module Scheduler {
  import opened Switching

  /** sched->nruns is an unsigned int; the model counts without bound and compares
      modulo its width. */
  const WIDTH: nat := 0x1_0000_0000

  /** Where a task's thread is; `prev` is the number of runs it read at its yield. */
  datatype Pc =
    | Parked
    | Fresh | Starting | Running
    | Yielding | Posting(prev: nat) | SpinTasks(prev: nat) | SpinRuns(prev: nat) | Waiting(prev: nat)
    | Resuming(prev: nat) | Resumed
    | Ending | Locking | Moving | Unlocking | Leaving | Reporting | Exited

  /** `had` is a history variable: the VM at the task's last yield. */
  datatype Task = Task(pc: Pc, base: Base, saved: Saved, had: Vm)

  datatype MainPc =
    | Start | CheckTasks | WaitDone | CheckAgain | Lock | Take | Join(t: nat) | Unlock
    | Drain | DrainJoin(t: nat) | WaitRun | Returned

  datatype Owner = Nobody | MainThread | TaskThread(t: nat)

  datatype State = State(
    run: nat, done: nat, ntasks: int, nruns: nat, lock: Owner,
    ready: seq<nat>, doneQ: seq<nat>, reaped: seq<nat>,
    vm: Vm, tasks: seq<Task>, main: MainPc)

  function Remove(q: seq<nat>, i: nat): seq<nat> {
    if q == [] then [] else if q[0] == i then q[1..] else [q[0]] + Remove(q[1..], i)
  }

  // ---- steps ---------------------------------------------------------------

  /** Which thread moves; a running task chooses what it does next. */
  datatype Move = Main | Thread(i: nat) | Work(i: nat, vm: Vm) | Yield(i: nat) | Finish(i: nat)

  predicate Enabled(s: State, m: Move) {
    match m
    case Main =>
      (match s.main
       case WaitDone => s.done > 0
       case Lock => s.lock == Nobody
       case Take => s.doneQ != []
       case Join(t) => t < |s.tasks| && s.tasks[t].pc == Exited
       case DrainJoin(t) => t < |s.tasks| && s.tasks[t].pc == Exited
       case WaitRun => s.run > 0
       case Returned => false
       case _ => true)
    case Thread(i) =>
      && i < |s.tasks|
      && (match s.tasks[i].pc
          case Parked => s.run > 0
          case Waiting(_) => s.run > 0
          case Running => false
          case Locking => s.lock == Nobody
          case Exited => false
          case _ => true)
    case Work(i, vm) => i < |s.tasks| && s.tasks[i].pc == Running && WorksAbove(s.tasks[i].base, s.vm, vm)
    case Yield(i) => i < |s.tasks| && s.tasks[i].pc == Running && Covers(s.vm, s.tasks[i].base)
    case Finish(i) => i < |s.tasks| && s.tasks[i].pc == Running && Covers(s.vm, s.tasks[i].base)
  }

  function Next(s: State, m: Move): State
    requires Enabled(s, m)
  {
    match m
    case Main => MainNext(s)
    case Thread(i) => ThreadNext(s, i)
    case Work(i, vm) => s.(vm := vm)
    case Yield(i) =>
      var t := s.tasks[i];
      s.(vm := Unload(s.vm, t.base),
         tasks := s.tasks[i := t.(pc := Yielding, saved := Suffix(s.vm, t.base), had := s.vm)])
    case Finish(i) =>
      var t := s.tasks[i];
      s.(vm := Unload(s.vm, t.base), tasks := s.tasks[i := t.(pc := Ending)])
  }

  function Go(s: State, i: nat, pc: Pc): State
    requires i < |s.tasks|
  {
    s.(tasks := s.tasks[i := s.tasks[i].(pc := pc)])
  }

  /** run_next, the rest of cx_task_resched, and on_start */
  function ThreadNext(s: State, i: nat): State
    requires Enabled(s, Thread(i))
  {
    var t := s.tasks[i];
    match t.pc
    case Parked => Go(s.(run := s.run - 1), i, Fresh)
    case Fresh => s.(vm := Load(s.vm, t.saved).(task := i),
                     tasks := s.tasks[i := t.(pc := Starting, base := BaseOf(s.vm))])
    case Starting => Go(s.(nruns := s.nruns + 1), i, Running)
    case Yielding => Go(s, i, if s.ntasks > 1 then Posting(s.nruns) else Resuming(s.nruns))
    case Posting(prev) => Go(s.(run := s.run + 1), i, SpinTasks(prev))
    case SpinTasks(prev) => Go(s, i, if s.ntasks > 1 then SpinRuns(prev) else Waiting(prev))
    case SpinRuns(prev) => Go(s, i, if s.nruns % WIDTH == prev % WIDTH then SpinTasks(prev) else Waiting(prev))
    case Waiting(prev) => Go(s.(run := s.run - 1), i, Resuming(prev))
    case Resuming(prev) => s.(vm := Load(s.vm, t.saved).(task := i),
                              tasks := s.tasks[i := t.(pc := Resumed, base := BaseOf(s.vm))])
    case Resumed => Go(s.(nruns := s.nruns + 1), i, Running)
    case Ending => Go(s.(run := s.run + 1), i, Locking)
    case Locking => Go(s.(lock := TaskThread(i)), i, Moving)
    case Moving => Go(s.(ready := Remove(s.ready, i), doneQ := s.doneQ + [i]), i, Unlocking)
    case Unlocking => Go(s.(lock := Nobody), i, Leaving)
    case Leaving => Go(s.(ntasks := s.ntasks - 1), i, Reporting)
    case Reporting => Go(s.(done := s.done + 1), i, Exited)
    case _ => s
  }

  /** cx_sched_run */
  function MainNext(s: State): State
    requires Enabled(s, Main)
  {
    match s.main
    case Start => s.(run := s.run + 1, main := CheckTasks)
    case CheckTasks => s.(main := if s.ntasks != 0 then WaitDone else Drain)
    case WaitDone => s.(done := s.done - 1, main := CheckAgain)
    case CheckAgain => s.(main := if s.ntasks == 0 then Drain else Lock)
    case Lock => s.(lock := MainThread, main := Take)
    case Take => s.(doneQ := s.doneQ[1..], main := Join(s.doneQ[0]))
    case Join(t) => s.(reaped := s.reaped + [t], main := Unlock)
    case Unlock => s.(lock := Nobody, main := CheckTasks)
    case Drain => if s.doneQ != [] then s.(doneQ := s.doneQ[1..], main := DrainJoin(s.doneQ[0]))
        else s.(main := WaitRun)
    case DrainJoin(t) => s.(reaped := s.reaped + [t], main := Drain)
    case WaitRun => s.(run := s.run - 1, main := Returned)
    case Returned => s
  }

  /** The start of the run phase. */
  predicate Init(s: State) {
    && s.run == 0 && s.done == 0 && s.ntasks == |s.tasks| && s.nruns == 0 && s.lock == Nobody
    && s.doneQ == [] && s.reaped == [] && s.main == Start
    && multiset(s.ready) == All(|s.tasks|)
    && (forall i :: 0 <= i < |s.tasks| ==>
          s.tasks[i].pc == Parked && s.tasks[i].saved == Saved([], [], [], -1, -1))
  }

  /** 0, ..., n - 1, once each. */
  function All(n: nat): multiset<nat> {
    if n == 0 then multiset{} else All(n - 1) + multiset{n - 1}
  }

  /** A run: each state is the next one after a move. */
  ghost predicate IsRun(ss: seq<State>, ms: seq<Move>) {
    && |ss| == |ms| + 1 && Init(ss[0])
    && (forall k :: 0 <= k < |ms| ==> Enabled(ss[k], ms[k]) && ss[k + 1] == Next(ss[k], ms[k]))
  }

  // ---- counting tasks ------------------------------------------------------

  /** Holding: owns the VM.  Live: counted in ntasks.  Moved: in the done queue or
      reaped.  Posted: has reported its end. */
  datatype Kind = Holding | Live | Moved | Posted

  predicate Is(k: Kind, pc: Pc) {
    match k
    case Holding =>
      pc.Fresh? || pc.Starting? || pc.Running? || pc.Yielding? || pc.Posting? || pc.Resuming? || pc.Resumed?
          || pc.Ending?
    case Live => !pc.Reporting? && !pc.Exited?
    case Moved => pc.Unlocking? || pc.Leaving? || pc.Reporting? || pc.Exited?
    case Posted => pc.Exited?
  }

  function One(k: Kind, pc: Pc): nat {
    if Is(k, pc) then 1 else 0
  }

  function Count(k: Kind, ts: seq<Task>): nat {
    if ts == [] then 0 else One(k, ts[0].pc) + Count(k, ts[1..])
  }

  lemma {:induction false} CountUpdate(k: Kind, ts: seq<Task>, i: nat, t: Task)
    requires i < |ts|
    ensures Count(k, ts[i := t]) == Count(k, ts) - One(k, ts[i].pc) + One(k, t.pc)
  {
    if i == 0 {
      assert ts[i := t][1..] == ts[1..];
    } else {
      assert ts[i := t][1..] == ts[1..][i - 1 := t];
      CountUpdate(k, ts[1..], i - 1, t);
    }
  }

  lemma {:induction false} CountOne(k: Kind, ts: seq<Task>, i: nat)
    requires i < |ts| && Is(k, ts[i].pc)
    ensures Count(k, ts) >= 1
  {
    if i > 0 { CountOne(k, ts[1..], i - 1); }
  }

  lemma {:induction false} CountTwo(k: Kind, ts: seq<Task>, i: nat, j: nat)
    requires i < j < |ts| && Is(k, ts[i].pc) && Is(k, ts[j].pc)
    ensures Count(k, ts) >= 2
  {
    if i > 0 { CountTwo(k, ts[1..], i - 1, j - 1); } else { CountOne(k, ts[1..], j - 1); }
  }

  lemma {:induction false} CountNone(k: Kind, ts: seq<Task>)
    requires forall i :: 0 <= i < |ts| ==> !Is(k, ts[i].pc)
    ensures Count(k, ts) == 0
  {
    if ts != [] {
      assert !Is(k, ts[0].pc);
      CountNone(k, ts[1..]);
    }
  }

  lemma {:induction false} CountAll(k: Kind, ts: seq<Task>)
    ensures Count(k, ts) <= |ts|
    ensures (forall i :: 0 <= i < |ts| ==> Is(k, ts[i].pc)) <==> Count(k, ts) == |ts|
  {
    if ts != [] {
      CountAll(k, ts[1..]);
      if forall i :: 0 <= i < |ts| ==> Is(k, ts[i].pc) {
        assert forall i :: 0 <= i < |ts| - 1 ==> ts[1..][i] == ts[i + 1];
      }
      if Count(k, ts) == |ts| {
        forall i | 0 <= i < |ts| ensures Is(k, ts[i].pc) { if i > 0 { assert ts[1..][i - 1] == ts[i]; } }
      }
    }
  }

  /** A kind that implies another is no more frequent. */
  lemma {:induction false} CountLess(k: Kind, l: Kind, ts: seq<Task>)
    requires forall pc :: Is(k, pc) ==> Is(l, pc)
    ensures Count(k, ts) <= Count(l, ts)
  {
    if ts != [] { CountLess(k, l, ts[1..]); }
  }

  // ---- the invariant -------------------------------------------------------

  function MainHolds(m: MainPc): nat {
    if m == Start || m == Returned then 1 else 0
  }

  ghost predicate OneOwner(s: State) {
    s.run + Count(Holding, s.tasks) + MainHolds(s.main) == 1
  }

  /** ntasks counts the live tasks; the main thread drains only when there are none. */
  ghost predicate Counted(s: State) {
    && s.ntasks == Count(Live, s.tasks)
    && (s.main.Drain? || s.main.DrainJoin? || s.main.WaitRun? || s.main.Returned? ==> s.ntasks == 0)
    && (s.main.WaitRun? || s.main.Returned? ==> s.doneQ == [])
  }

  ghost predicate Locked(s: State) {
    && (s.lock == MainThread <==> s.main.Take? || s.main.Join? || s.main.Unlock?)
    && (forall i :: 0 <= i < |s.tasks| ==>
        (s.lock == TaskThread(i) <==> s.tasks[i].pc.Moving? || s.tasks[i].pc.Unlocking?))
    && (s.lock.TaskThread? ==> s.lock.t < |s.tasks|)
  }

  /** The task the main thread has taken off the queue and not joined yet. */
  function Taken(m: MainPc): seq<nat> {
    if m.Join? || m.DrainJoin? then [m.t] else []
  }

  function Places(s: State): multiset<nat> {
    multiset(s.ready) + multiset(s.doneQ) + multiset(Taken(s.main)) + multiset(s.reaped)
  }

  /** Every task is in exactly one place, once; it is ready until it has moved. */
  ghost predicate Placed(s: State) {
    && Places(s) == All(|s.tasks|)
    && (forall i :: 0 <= i < |s.tasks| ==> (i in s.ready <==> !Is(Moved, s.tasks[i].pc)))
    && (forall i :: 0 <= i < |s.tasks| ==> (i in s.reaped ==> s.tasks[i].pc == Exited))
  }

  /** Waits of the main thread that a report has answered. */
  function Waits(s: State): nat {
    |s.reaped| + if s.main.CheckAgain? || s.main.Lock? || s.main.Take? || s.main.Join? then 1 else 0
  }

  predicate Collecting(m: MainPc) {
    !m.Drain? && !m.DrainJoin? && !m.WaitRun? && !m.Returned?
  }

  ghost predicate Reported(s: State) {
    && (Collecting(s.main) ==> s.done + Waits(s) == Count(Posted, s.tasks))
    && (s.main.WaitDone? ==> |s.reaped| < |s.tasks|)
  }

  /** The task's own stacks are on the VM. */
  predicate Loaded(pc: Pc) {
    pc.Starting? || pc.Running? || pc.Resumed?
  }

  ghost predicate VmKept(s: State, entry: Vm) {
    && ((forall i :: 0 <= i < |s.tasks| ==> !Loaded(s.tasks[i].pc)) ==> s.vm == entry)
    && (forall i :: 0 <= i < |s.tasks| && Loaded(s.tasks[i].pc) ==>
        s.tasks[i].base == BaseOf(entry) && OnBase(s.vm, entry))
  }

  predicate Away(pc: Pc) {
    pc.Yielding? || pc.Posting? || pc.SpinTasks? || pc.SpinRuns? || pc.Waiting? || pc.Resuming?
  }

  /** While a task is away its saved suffix is what it had. */
  ghost predicate SavedKept(s: State, entry: Vm) {
    && (forall i :: 0 <= i < |s.tasks| && Away(s.tasks[i].pc) ==>
          var t := s.tasks[i];
          && OnBase(t.had, entry) && t.saved == Suffix(t.had, BaseOf(entry)))
    && (forall i :: 0 <= i < |s.tasks| && (s.tasks[i].pc.Parked? || s.tasks[i].pc.Fresh?) ==>
          s.tasks[i].saved == Saved([], [], [], -1, -1))
  }

  predicate Yielded(pc: Pc) {
    pc.Posting? || pc.SpinTasks? || pc.SpinRuns? || pc.Waiting?
  }

  predicate Busy(pc: Pc) {
    pc.Running? || pc.Yielding? || pc.Posting?
  }

  /** Run numbers: a task that let go of the VM is behind whoever runs now, and only
      one can be level with the count. */
  ghost predicate Fair(s: State) {
    && (forall i :: 0 <= i < |s.tasks| && Yielded(s.tasks[i].pc) ==> s.tasks[i].pc.prev <= s.nruns)
    && (forall i, j ::
          0 <= i < |s.tasks| && 0 <= j < |s.tasks| && i != j && Busy(s.tasks[i].pc) && Yielded(s.tasks[j].pc) ==>
          s.tasks[j].pc.prev < s.nruns)
    && (forall i, j :: 0 <= i < j < |s.tasks| && Yielded(s.tasks[i].pc) && Yielded(s.tasks[j].pc) ==>
          s.tasks[i].pc.prev < s.nruns || s.tasks[j].pc.prev < s.nruns)
    && (forall i :: 0 <= i < |s.tasks| && (s.tasks[i].pc.Waiting? || s.tasks[i].pc.Resuming?) ==>
          s.tasks[i].pc.prev < s.nruns || s.ntasks <= 1)
  }

  ghost predicate Inv(s: State, entry: Vm) {
    && OneOwner(s) && Counted(s) && Locked(s) && Placed(s) && Reported(s)
    && VmKept(s, entry) && SavedKept(s, entry) && Fair(s)
  }
}
