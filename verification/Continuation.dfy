/** cont.c: a continuation moves its part of the VM's stacks into its own vectors and
    back, in place.  The calls stack is a fixed array, so resuming needs room there. */
module Continuation {
  import opened Basics
  import opened Switching

  /** The parts of struct cx that a continuation moves. */
  class Stacks {
    var libs: seq<nat>
    var scopes: seq<nat>
    const calls: array<nat>
    var ncalls: nat
    var bin: int
    var pc: int
    var task: int
    var coro: int

    constructor ()
      ensures Valid() && fresh(calls) && View() == Vm([0], [0], [], -1, -1, -1, -1)
    {
      libs, scopes, ncalls, bin, pc, task, coro := [0], [0], 0, -1, -1, -1, -1;
      calls := new nat[MAX_CALLS];
    }

    ghost predicate Valid()
      reads this
    {
      calls.Length == MAX_CALLS && ncalls <= MAX_CALLS
    }

    ghost function View(): Vm
      reads this, calls
      requires Valid()
    {
      Vm(libs, scopes, calls[..ncalls], bin, pc, task, coro)
    }

    /** cx_pop_lib */
    method PopLib()
      requires Valid() && |libs| > 1
      modifies this`libs
      ensures Valid() && libs == old(libs[..|libs| - 1])
    {
      libs := libs[..|libs| - 1];
    }

    /** cx_pop_scope; the last scope stays.  What the popped scope holds is not part
        of this view. */
    method PopScope()
      requires Valid()
      modifies this`scopes
      ensures Valid() && scopes == if |old(scopes)| <= 1 then old(scopes) else old(scopes[..|scopes| - 1])
    {
      if |scopes| > 1 { scopes := scopes[..|scopes| - 1]; }
    }

    /** cx_pop_call */
    method PopCall() returns (ok: bool)
      requires Valid()
      modifies this`ncalls
      ensures Valid() && ok == (old(ncalls) > 0) && ncalls == if ok then old(ncalls) - 1 else 0
    {
      ok := ncalls > 0;
      if ok { ncalls := ncalls - 1; }
    }
  }

  class Cont {
    var prevCoro: int
    var prevTask: int
    var prevBin: int
    var prevPc: int
    var prevNlibs: nat
    var prevNscopes: nat
    var prevNcalls: nat
    var bin: int
    var pc: int
    var libs: seq<nat>
    var scopes: seq<nat>
    var calls: seq<nat>

    constructor ()
      ensures Empty() && Kept() == Saved([], [], [], -1, -1)
    {
      prevCoro, prevTask, prevBin, prevPc, bin, pc := -1, -1, -1, -1, -1, -1;
      prevNlibs, prevNscopes, prevNcalls := 0, 0, 0;
      libs, scopes, calls := [], [], [];
    }

    ghost function From(): Base
      reads this
    {
      Base(prevNlibs, prevNscopes, prevNcalls, prevBin, prevPc, prevTask, prevCoro)
    }

    ghost function Kept(): Saved
      reads this
    {
      Saved(libs, scopes, calls, bin, pc)
    }

    /** Nothing is set aside: the continuation's stacks are on the VM. */
    predicate Empty()
      reads this
    {
      libs == [] && scopes == [] && calls == []
    }

    /** cx_cont_reset */
    method Reset(cx: Stacks)
      requires cx.Valid()
      modifies this
      ensures From() == BaseOf(cx.View()) && Kept() == old(Kept())
    {
      prevCoro, prevTask, prevBin, prevPc := cx.coro, cx.task, cx.bin, cx.pc;
      prevNlibs, prevNscopes, prevNcalls := |cx.libs|, |cx.scopes|, cx.ncalls;
    }

    /** cx_cont_suspend: what lies above the base moves here. */
    method Suspend(cx: Stacks)
      requires cx.Valid() && Empty() && Covers(cx.View(), From())
      modifies this, cx
      ensures cx.Valid() && From() == old(From())
      ensures cx.View() == Unload(old(cx.View()), old(From()))
      ensures Kept() == Suffix(old(cx.View()), old(From()))
    {
      cx.coro, cx.task := prevCoro, prevTask;
      bin, cx.bin := cx.bin, prevBin;
      pc, cx.pc := cx.pc, prevPc;
      TakeLibs(cx);
      TakeScopes(cx);
      TakeCalls(cx);
    }

    method TakeLibs(cx: Stacks)
      requires prevNlibs <= |cx.libs| && libs == []
      modifies this`libs, cx`libs
      ensures cx.libs == old(cx.libs)[..prevNlibs] && libs == old(cx.libs)[prevNlibs..]
    {
      if |cx.libs| != prevNlibs {
        libs := cx.libs[prevNlibs..];
        cx.libs := cx.libs[..prevNlibs];
      }
    }

    method TakeScopes(cx: Stacks)
      requires prevNscopes <= |cx.scopes| && scopes == []
      modifies this`scopes, cx`scopes
      ensures cx.scopes == old(cx.scopes)[..prevNscopes] && scopes == old(cx.scopes)[prevNscopes..]
    {
      if |cx.scopes| != prevNscopes {
        scopes := cx.scopes[prevNscopes..];
        cx.scopes := cx.scopes[..prevNscopes];
      }
    }

    method TakeCalls(cx: Stacks)
      requires cx.Valid() && calls == [] && prevNcalls <= cx.ncalls
      modifies this`calls, cx`ncalls
      ensures cx.Valid() && cx.ncalls == prevNcalls
      ensures cx.calls[..cx.ncalls] == old(cx.calls[..cx.ncalls])[..prevNcalls]
      ensures calls == old(cx.calls[..cx.ncalls])[prevNcalls..]
    {
      if cx.ncalls != prevNcalls {
        calls := cx.calls[prevNcalls..cx.ncalls];
        cx.ncalls := prevNcalls;
      }
    }

    /** cx_cont_resume: on whatever the VM holds now. */
    method Resume(cx: Stacks)
      requires cx.Valid() && cx.ncalls + |calls| <= MAX_CALLS
      modifies this, cx, cx.calls
      ensures cx.Valid() && Empty() && From() == BaseOf(old(cx.View()))
      ensures cx.View() == Load(old(cx.View()), old(Kept()))
    {
      Reset(cx);
      cx.bin, cx.pc := bin, pc;
      cx.libs, libs := cx.libs + libs, [];
      cx.scopes, scopes := cx.scopes + scopes, [];
      PutCalls(cx);
    }

    /** The saved calls go behind the ones in the array. */
    method PutCalls(cx: Stacks)
      requires cx.Valid() && cx.ncalls + |calls| <= MAX_CALLS
      modifies this`calls, cx`ncalls, cx.calls
      ensures cx.Valid() && calls == [] && cx.ncalls == old(cx.ncalls) + |old(calls)|
      ensures cx.calls[..cx.ncalls] == old(cx.calls[..cx.ncalls]) + old(calls)
    {
      ghost var below := cx.calls[..cx.ncalls];
      var i := 0;
      while i < |calls|
        invariant i <= |calls| && calls == old(calls)
        invariant cx.calls[..cx.ncalls] == below
        invariant cx.calls[cx.ncalls..cx.ncalls + i] == calls[..i]
        modifies cx.calls
      {
        cx.calls[cx.ncalls + i] := calls[i];
        i := i + 1;
      }
      cx.ncalls := cx.ncalls + |calls|;
      calls := [];
    }

    /** cx_cont_finish: whatever is left above the base is popped. */
    method Finish(cx: Stacks)
      requires cx.Valid() && Covers(cx.View(), From()) && prevNlibs >= 1 && prevNscopes >= 1
      modifies cx
      ensures cx.Valid() && cx.View() == Unload(old(cx.View()), From())
    {
      ghost var was := cx.View();
      cx.coro, cx.task, cx.bin, cx.pc := prevCoro, prevTask, prevBin, prevPc;
      while |cx.libs| > prevNlibs
        invariant prevNlibs <= |cx.libs| && cx.libs <= was.libs
        modifies cx`libs
      {
        cx.PopLib();
      }
      while |cx.scopes| > prevNscopes
        invariant prevNscopes <= |cx.scopes| && cx.scopes <= was.scopes
        modifies cx`scopes
      {
        cx.PopScope();
      }
      while cx.ncalls > prevNcalls
        invariant prevNcalls <= cx.ncalls <= |was.calls|
        modifies cx`ncalls
      {
        var ok := cx.PopCall();
      }
    }
  }
}
