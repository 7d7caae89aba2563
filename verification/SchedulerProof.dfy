/** Every reachable state of the run phase: one owner of the VM, the VM back at its
    entry state between owners, queues that partition the tasks, and reports that
    are neither lost nor counted twice. */
module SchedulerProof {
  import opened Switching
  import opened Scheduler

  /** The thread a move belongs to. */
  function Mover(m: Move): nat {
    match m
    case Main => 0
    case Thread(i) => i
    case Work(i, _) => i
    case Yield(i) => i
    case Finish(i) => i
  }

  /** A task's move changes its own entry only. */
  lemma OwnEntry(s: State, m: Move)
    requires Enabled(s, m)
    ensures m.Main? ==> Next(s, m).tasks == s.tasks
    ensures !m.Main? ==> Mover(m) < |s.tasks| && |Next(s, m).tasks| == |s.tasks| &&
                         Next(s, m).tasks == s.tasks[Mover(m) := Next(s, m).tasks[Mover(m)]]
  {
    if !m.Main? { assert s.tasks == s.tasks[Mover(m) := s.tasks[Mover(m)]]; }
  }

  lemma Recount(k: Kind, s: State, m: Move)
    requires Enabled(s, m)
    ensures m.Main? ==> Count(k, Next(s, m).tasks) == Count(k, s.tasks)
    ensures !m.Main? ==>
              var i := Mover(m);
              i < |s.tasks| && i < |Next(s, m).tasks| &&
              Count(k, Next(s, m).tasks) == Count(k, s.tasks) - One(k, s.tasks[i].pc) + One(k, Next(s, m).tasks[i].pc)
  {
    hide Next, Count, One;
    OwnEntry(s, m);
    if !m.Main? { CountUpdate(k, s.tasks, Mover(m), Next(s, m).tasks[Mover(m)]); }
  }

  lemma OneOwnerKept(s: State, m: Move)
    requires OneOwner(s) && Enabled(s, m)
    ensures OneOwner(Next(s, m))
  {
    hide Count, Load, Unload, Suffix, Remove;
    Recount(Holding, s, m);
  }

  lemma CountedKept(s: State, m: Move)
    requires Counted(s) && Placed(s) && Enabled(s, m)
    ensures Counted(Next(s, m))
  {
    hide Count, Placed;
    Recount(Live, s, m);
    if !m.Main? && s.tasks[Mover(m)].pc.Moving? { CountOne(Live, s.tasks, Mover(m)); }
    if !m.Main? && s.tasks[Mover(m)].pc.Leaving? { CountOne(Live, s.tasks, Mover(m)); }
  }

  lemma LockedKept(s: State, m: Move)
    requires Locked(s) && Enabled(s, m)
    ensures Locked(Next(s, m))
  {
    OwnEntry(s, m);
    var r := Next(s, m);
    forall i | 0 <= i < |r.tasks|
      ensures r.lock == TaskThread(i) <==> r.tasks[i].pc.Moving? || r.tasks[i].pc.Unlocking? {
      assert s.lock == TaskThread(i) <==> s.tasks[i].pc.Moving? || s.tasks[i].pc.Unlocking?;
      if !m.Main? {
        assert s.lock == TaskThread(Mover(m)) <==> s.tasks[Mover(m)].pc.Moving? || s.tasks[Mover(m)].pc.Unlocking?;
      }
    }
  }

  // ---- queues --------------------------------------------------------------

  lemma {:induction false} RemoveOne(q: seq<nat>, i: nat)
    ensures multiset(Remove(q, i)) == multiset(q) - multiset{i}
  {
    if q != [] {
      assert q == [q[0]] + q[1..];
      if q[0] != i { RemoveOne(q[1..], i); }
    }
  }

  lemma PlacedKept(s: State, m: Move)
    requires Placed(s) && Counted(s) && Enabled(s, m)
    ensures Placed(Next(s, m))
  {
    hide Count, All;
    OwnEntry(s, m);
    if m.Main? {
      MainPlaced(s);
    } else {
      TaskPlaced(s, m);
    }
  }

  lemma TakeHead(q: seq<nat>)
    requires q != []
    ensures multiset([q[0]]) + multiset(q[1..]) == multiset(q)
  {
    assert q == [q[0]] + q[1..];
  }

  lemma AddLast(q: seq<nat>, x: nat)
    ensures multiset(q + [x]) == multiset(q) + multiset([x])
  {
  }

  lemma MainPlaced(s: State)
    requires Placed(s) && Enabled(s, Main)
    ensures Placed(MainNext(s))
  {
    hide Count, All, Is, Places, Taken;
    MainPlaces(s);
  }

  lemma MainPlaces(s: State)
    requires Enabled(s, Main)
    ensures Places(MainNext(s)) == Places(s)
  {
    if s.doneQ != [] && (s.main.Take? || s.main.Drain?) {
      TakePlaces(s);
    } else if s.main.Join? || s.main.DrainJoin? {
      JoinPlaces(s);
    } else {
      hide Places;
      var r := MainNext(s);
      SamePlaces(s, r);
    }
  }

  lemma SamePlaces(s: State, r: State)
    requires r.ready == s.ready && r.doneQ == s.doneQ && Taken(r.main) == Taken(s.main) && r.reaped == s.reaped
    ensures Places(r) == Places(s)
  {
  }

  lemma TakePlaces(s: State)
    requires s.doneQ != [] && (s.main.Take? || s.main.Drain?)
    ensures Places(MainNext(s)) == Places(s)
  {
    var r := MainNext(s);
    TakeHead(s.doneQ);
    assert Taken(s.main) == [] && Taken(r.main) == [s.doneQ[0]] && r.doneQ == s.doneQ[1..] && r.ready == s.ready
           && r.reaped == s.reaped;
    hide Taken, MainNext;
    assert Places(s) == multiset(s.ready) + multiset(s.doneQ) + multiset{} + multiset(s.reaped);
    assert Places(r) == multiset(s.ready) + multiset(r.doneQ) + multiset(Taken(r.main)) + multiset(s.reaped);
    hide Places;
    Regroup(multiset(s.ready), multiset(s.doneQ), multiset(r.doneQ), multiset(Taken(r.main)), multiset(s.reaped));
  }

  lemma Regroup(a: multiset<nat>, d: multiset<nat>, e: multiset<nat>, x: multiset<nat>, r: multiset<nat>)
    requires x + e == d
    ensures a + d + multiset{} + r == a + e + x + r
  {
  }

  lemma JoinPlaces(s: State)
    requires s.main.Join? || s.main.DrainJoin?
    requires Enabled(s, Main)
    ensures Places(MainNext(s)) == Places(s)
  {
    var r := MainNext(s);
    AddLast(s.reaped, s.main.t);
    assert Taken(r.main) == [] && Taken(s.main) == [s.main.t] && r.reaped == s.reaped + [s.main.t];
    hide Taken, MainNext;
  }

  lemma TaskPlaced(s: State, m: Move)
    requires Placed(s) && Enabled(s, m) && !m.Main?
    ensures Placed(Next(s, m))
  {
    hide Count, All;
    OwnEntry(s, m);
    var (i, r) := (Mover(m), Next(s, m));
    assert forall j :: 0 <= j < |s.tasks| && j != i ==> r.tasks[j] == s.tasks[j];
    if s.tasks[i].pc.Moving? {
      MovePlaced(s, i);
    } else {
      assert r.ready == s.ready && r.doneQ == s.doneQ && r.reaped == s.reaped && r.main == s.main;
      assert Is(Moved, r.tasks[i].pc) <==> Is(Moved, s.tasks[i].pc);
      assert s.tasks[i].pc != Exited;
    }
  }

  lemma MovePlaced(s: State, i: nat)
    requires Placed(s) && i < |s.tasks| && s.tasks[i].pc.Moving?
    ensures Placed(ThreadNext(s, i))
  {
    hide Count, All, Places;
    var r := ThreadNext(s, i);
    OnePlace(s, i);
    MovePlaces(s, i);
    forall j | 0 <= j < |r.tasks| ensures j in r.ready <==> !Is(Moved, r.tasks[j].pc) {
      if j != i { RemoveOthers(s.ready, i, j); }
    }
  }

  lemma RemoveOthers(q: seq<nat>, i: nat, j: nat)
    requires j != i
    ensures j in Remove(q, i) <==> j in q
  {
    RemoveOne(q, i);
    assert j in Remove(q, i) <==> j in multiset(Remove(q, i));
    assert j in q <==> j in multiset(q);
  }

  lemma MovePlaces(s: State, i: nat)
    requires i < |s.tasks| && s.tasks[i].pc.Moving? && i in s.ready
    ensures Places(ThreadNext(s, i)) == Places(s)
  {
    RemoveOne(s.ready, i);
    AddLast(s.doneQ, i);
    assert i in multiset(s.ready);
    var r := ThreadNext(s, i);
    assert multiset(r.ready) + multiset(r.doneQ) == multiset(s.ready) + multiset(s.doneQ);
  }

  /** A ready task is in the ready queue once and nowhere else. */
  lemma OnePlace(s: State, i: nat)
    requires Placed(s) && i < |s.tasks| && i in s.ready
    ensures multiset(s.ready)[i] == 1
    ensures i !in Remove(s.ready, i)
  {
    assert multiset(s.ready)[i] >= 1;
    AllAt(|s.tasks|, i);
    RemoveOne(s.ready, i);
  }

  lemma ReportedKept(s: State, m: Move)
    requires Reported(s) && Counted(s) && Placed(s) && Enabled(s, m)
    ensures Reported(Next(s, m))
  {
    hide Count, Placed;
    Recount(Posted, s, m);
    OwnEntry(s, m);
    if m.Main? && s.main.CheckTasks? && s.ntasks != 0 { SomeLeft(s); }
  }

  /** While ntasks is not 0 some task has not been reaped. */
  lemma SomeLeft(s: State)
    requires Counted(s) && Placed(s) && s.ntasks != 0 && s.main.CheckTasks?
    ensures |s.reaped| < |s.tasks|
  {
    hide Count;
    LiveSome(s.tasks);
    var i :| 0 <= i < |s.tasks| && Is(Live, s.tasks[i].pc);
    assert i !in s.reaped;
    assert multiset(s.reaped) <= All(|s.tasks|);
    AllAt(|s.tasks|, i);
    var bag: multiset<nat> := multiset(s.reaped);
    assert bag[i] == 0;
    assert bag <= All(|s.tasks|) - multiset{i};
    AllSize(|s.tasks|);
    SubSize(bag, All(|s.tasks|) - multiset{i});
  }

  lemma LiveSome(ts: seq<Task>)
    requires Count(Live, ts) != 0
    ensures exists i :: 0 <= i < |ts| && Is(Live, ts[i].pc)
  {
    if forall i :: 0 <= i < |ts| ==> !Is(Live, ts[i].pc) { CountNone(Live, ts); }
  }

  lemma SubSize(x: multiset<nat>, y: multiset<nat>)
    requires x <= y
    ensures |x| <= |y|
  {
    assert y == x + (y - x);
  }

  lemma {:induction false} AllAt(n: nat, i: nat)
    ensures All(n)[i] == if i < n then 1 else 0
  {
    if n > 0 { AllAt(n - 1, i); }
  }

  lemma {:induction false} AllSize(n: nat)
    ensures |All(n)| == n
  {
    if n > 0 { AllSize(n - 1); }
  }

  // ---- the VM --------------------------------------------------------------

  /** Two threads never both hold the VM. */
  lemma Alone(s: State, i: nat, j: nat)
    requires OneOwner(s) && i < |s.tasks| && j < |s.tasks| && Is(Holding, s.tasks[i].pc) && Is(Holding, s.tasks[j].pc)
    ensures i == j && s.run == 0 && MainHolds(s.main) == 0
  {
    hide Count;
    CountOne(Holding, s.tasks, i);
    if i < j { CountTwo(Holding, s.tasks, i, j); }
    if j < i { CountTwo(Holding, s.tasks, j, i); }
  }

  lemma LoadedAlone(s: State, i: nat)
    requires OneOwner(s) && i < |s.tasks| && Is(Holding, s.tasks[i].pc)
    ensures forall j :: 0 <= j < |s.tasks| && j != i ==> !Loaded(s.tasks[j].pc)
  {
    forall j | 0 <= j < |s.tasks| && j != i ensures !Loaded(s.tasks[j].pc) {
      if Loaded(s.tasks[j].pc) { Alone(s, i, j); }
    }
  }

  lemma VmKeptKept(s: State, m: Move, entry: Vm)
    requires OneOwner(s) && VmKept(s, entry) && SavedKept(s, entry) && Enabled(s, m)
    ensures VmKept(Next(s, m), entry)
  {
    OwnEntry(s, m);
    if !m.Main? {
      var (i, r) := (Mover(m), Next(s, m));
      if Is(Holding, s.tasks[i].pc) { LoadedAlone(s, i); }
      match m
      case Work(_, vm) => WorkStays(entry, s.vm, vm);
      case Yield(_) => UnloadBase(s.vm, entry);
      case Finish(_) => UnloadBase(s.vm, entry);
      case Thread(_) => ThreadVm(s, i, entry);
    }
  }

  lemma ThreadVm(s: State, i: nat, entry: Vm)
    requires OneOwner(s) && VmKept(s, entry) && Enabled(s, Thread(i))
    requires Is(Holding, s.tasks[i].pc) ==> forall j :: 0 <= j < |s.tasks| && j != i ==> !Loaded(s.tasks[j].pc)
    ensures VmKept(ThreadNext(s, i), entry)
  {
    var r := ThreadNext(s, i);
    if s.tasks[i].pc.Fresh? || s.tasks[i].pc.Resuming? {
      assert Loaded(r.tasks[i].pc);
    } else {
      assert r.vm == s.vm && r.tasks[i].base == s.tasks[i].base && (Loaded(r.tasks[i].pc) <==> Loaded(s.tasks[i].pc));
      forall j | 0 <= j < |s.tasks|
        ensures r.tasks[j].base == s.tasks[j].base && (Loaded(r.tasks[j].pc) <==> Loaded(s.tasks[j].pc)) {
      }
    }
  }

  lemma SavedKeptKept(s: State, m: Move, entry: Vm)
    requires VmKept(s, entry) && SavedKept(s, entry) && Enabled(s, m)
    ensures SavedKept(Next(s, m), entry)
  {
    OwnEntry(s, m);
    var r := Next(s, m);
    if !m.Main? {
      var i := Mover(m);
      assert Away(r.tasks[i].pc) && !m.Yield? ==>
             Away(s.tasks[i].pc) && r.tasks[i].saved == s.tasks[i].saved && r.tasks[i].had == s.tasks[i].had;
      forall j | 0 <= j < |r.tasks| && Away(r.tasks[j].pc)
        ensures var t := r.tasks[j]; OnBase(t.had, entry) && t.saved == Suffix(t.had, BaseOf(entry))
      { if j != i { assert r.tasks[j] == s.tasks[j]; } }
    }
  }

  // ---- run numbers ---------------------------------------------------------

  lemma FairKept(s: State, m: Move)
    requires OneOwner(s) && Counted(s) && Fair(s) && Enabled(s, m)
    ensures Fair(Next(s, m))
  {
    hide Count, Placed;
    OwnEntry(s, m);
    if !m.Main? {
      BusyAlone(s, Mover(m));
      match m
      case Thread(i) => ThreadFair(s, i);
      case _ =>
    }
  }

  lemma BusyAlone(s: State, i: nat)
    requires OneOwner(s) && i < |s.tasks|
    ensures Is(Holding, s.tasks[i].pc) || s.run > 0 ==> forall j :: 0 <= j < |s.tasks| && j != i ==>
            !Busy(s.tasks[j].pc)
  {
    hide Count;
    forall j | 0 <= j < |s.tasks| && j != i && (Is(Holding, s.tasks[i].pc) || s.run > 0) ensures !Busy(s.tasks[j].pc) {
      if Busy(s.tasks[j].pc) {
        if Is(Holding, s.tasks[i].pc) { Alone(s, i, j); } else { CountOne(Holding, s.tasks, j); }
      }
    }
  }

  lemma ThreadFair(s: State, i: nat)
    requires Fair(s) && Enabled(s, Thread(i)) && ThreadNext(s, i).ntasks <= s.ntasks
    requires Is(Holding, s.tasks[i].pc) || s.run > 0 ==> forall j :: 0 <= j < |s.tasks| && j != i ==>
             !Busy(s.tasks[j].pc)
    ensures Fair(ThreadNext(s, i))
  {
    var r := ThreadNext(s, i);
    var t := s.tasks[i];
    assert forall j :: 0 <= j < |s.tasks| && j != i ==> r.tasks[j] == s.tasks[j];
    assert Yielded(r.tasks[i].pc) ==> r.tasks[i].pc.prev <= r.nruns && s.nruns <= r.nruns <= s.nruns + 1;
    assert r.nruns > s.nruns ==> Is(Holding, t.pc) && !Yielded(r.tasks[i].pc);
    assert Busy(r.tasks[i].pc) ==> Busy(t.pc) || r.nruns > s.nruns;
    assert Yielded(r.tasks[i].pc) ==> Yielded(t.pc) || (t.pc.Yielding? && r.tasks[i].pc.prev == s.nruns);
    assert Yielded(r.tasks[i].pc) && Yielded(t.pc) ==> r.tasks[i].pc.prev == t.pc.prev;
    ThreadWaits(s, i);
    FairStep(s, r, i);
  }

  /** Any step of one task that keeps to these rules is fair. */
  lemma FairStep(s: State, r: State, i: nat)
    requires Fair(s) && i < |s.tasks| && |r.tasks| == |s.tasks| && r.ntasks <= s.ntasks && s.nruns <= r.nruns
    requires forall j :: 0 <= j < |s.tasks| && j != i ==> r.tasks[j] == s.tasks[j]
    requires var (t, u) := (s.tasks[i].pc, r.tasks[i].pc);
             && (Yielded(u) ==> u.prev <= r.nruns)
             && (r.nruns > s.nruns ==> !Yielded(u))
             && (Busy(u) ==> Busy(t) || r.nruns > s.nruns)
             && (Yielded(u) ==> (Yielded(t) && t.prev == u.prev) || (Busy(t) && u.prev == s.nruns))
             && (u.Waiting? || u.Resuming? ==> u.prev < r.nruns || r.ntasks <= 1)
             && (Busy(t) || r.nruns > s.nruns ==> forall j :: 0 <= j < |s.tasks| && j != i ==> !Busy(s.tasks[j].pc))
    ensures Fair(r)
  {
  }

  lemma ThreadWaits(s: State, i: nat)
    requires Fair(s) && Enabled(s, Thread(i)) && ThreadNext(s, i).ntasks <= s.ntasks
    ensures var r := ThreadNext(s, i);
            (r.tasks[i].pc.Waiting? || r.tasks[i].pc.Resuming?) ==> r.tasks[i].pc.prev < r.nruns || r.ntasks <= 1
  {
  }

  // ---- every reachable state -----------------------------------------------

  lemma InvInit(s: State)
    requires Init(s)
    ensures Inv(s, s.vm)
  {
    assert Places(s) == All(|s.tasks|);
    CountNone(Holding, s.tasks);
    CountNone(Moved, s.tasks);
    CountNone(Posted, s.tasks);
    CountAll(Live, s.tasks);
    forall i | 0 <= i < |s.tasks| ensures i in s.ready {
      AllAt(|s.tasks|, i);
      assert i in multiset(s.ready);
    }
    hide Places, All, Count;
  }

  lemma InvKept(s: State, m: Move, entry: Vm)
    requires Inv(s, entry) && Enabled(s, m)
    ensures Inv(Next(s, m), entry)
  {
    hide OneOwner, Counted, Locked, Placed, Reported, VmKept, SavedKept, Fair, Next;
    OneOwnerKept(s, m);
    CountedKept(s, m);
    LockedKept(s, m);
    PlacedKept(s, m);
    ReportedKept(s, m);
    VmKeptKept(s, m, entry);
    SavedKeptKept(s, m, entry);
    FairKept(s, m);
  }

  /** Every state of every run. */
  lemma {:induction false} InvAlways(ss: seq<State>, ms: seq<Move>, k: nat)
    requires IsRun(ss, ms) && k < |ss|
    ensures Inv(ss[k], ss[0].vm)
  {
    hide Inv, Init;
    if k == 0 {
      InvInit(ss[0]);
    } else {
      InvAlways(ss, ms, k - 1);
      assert ss[k - 1 + 1] == Next(ss[k - 1], ms[k - 1]);
      InvKept(ss[k - 1], ms[k - 1], ss[0].vm);
    }
  }
}
