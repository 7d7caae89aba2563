/** The plain code with which tasks and continuations take their part of the VM's
    stacks away and put it back.  task.c and cont.c share it line by line. */
module Switching {

  /** What threads take turns on: the stacks of cx by element, and its current bin,
      pc, task and coroutine.  -1 stands for none. */
  datatype Vm = Vm(libs: seq<nat>, scopes: seq<nat>, calls: seq<nat>, bin: int, pc: int, task: int, coro: int)

  /** The prev_* fields: what the VM looked like to the side that gives it up. */
  datatype Base = Base(nlibs: nat, nscopes: nat, ncalls: nat, bin: int, pc: int, task: int, coro: int)

  /** What is kept while the other side runs. */
  datatype Saved = Saved(libs: seq<nat>, scopes: seq<nat>, calls: seq<nat>, bin: int, pc: int)

  /** cx_cont_reset, and most of before_run */
  function BaseOf(vm: Vm): Base {
    Base(|vm.libs|, |vm.scopes|, |vm.calls|, vm.bin, vm.pc, vm.task, vm.coro)
  }

  /** cx_cont_resume, and before_resume */
  function Load(vm: Vm, s: Saved): Vm {
    Vm(vm.libs + s.libs, vm.scopes + s.scopes, vm.calls + s.calls, s.bin, s.pc, vm.task, vm.coro)
  }

  predicate Covers(vm: Vm, b: Base) {
    b.nlibs <= |vm.libs| && b.nscopes <= |vm.scopes| && b.ncalls <= |vm.calls|
  }

  /** What is left on the VM after a suspension or at the end. */
  function Unload(vm: Vm, b: Base): Vm
    requires Covers(vm, b)
  {
    Vm(vm.libs[..b.nlibs], vm.scopes[..b.nscopes], vm.calls[..b.ncalls], b.bin, b.pc, b.task, b.coro)
  }

  function Suffix(vm: Vm, b: Base): Saved
    requires Covers(vm, b)
  {
    Saved(vm.libs[b.nlibs..], vm.scopes[b.nscopes..], vm.calls[b.ncalls..], vm.bin, vm.pc)
  }

  /** Running code may do anything to the VM above its base. */
  predicate WorksAbove(b: Base, vm: Vm, r: Vm) {
    && Covers(vm, b) && Covers(r, b)
    && r.libs[..b.nlibs] == vm.libs[..b.nlibs]
    && r.scopes[..b.nscopes] == vm.scopes[..b.nscopes]
    && r.calls[..b.ncalls] == vm.calls[..b.ncalls]
  }

  predicate OnBase(vm: Vm, entry: Vm) {
    entry.libs <= vm.libs && entry.scopes <= vm.scopes && entry.calls <= vm.calls
  }

  /** Taking the suffix away leaves exactly what was there before. */
  lemma UnloadBase(vm: Vm, entry: Vm)
    requires OnBase(vm, entry)
    ensures Covers(vm, BaseOf(entry)) && Unload(vm, BaseOf(entry)) == entry
  {
  }

  /** Suspend on one base, resume on any other: the other base, then the suffix in
      order, with the suspended side's bin and pc. */
  lemma SuspendResume(vm: Vm, entry: Vm, other: Vm)
    requires OnBase(vm, entry)
    ensures Covers(vm, BaseOf(entry))
    ensures var r := Load(other, Suffix(vm, BaseOf(entry)));
            && r.libs == other.libs + vm.libs[|entry.libs|..]
            && r.scopes == other.scopes + vm.scopes[|entry.scopes|..]
            && r.calls == other.calls + vm.calls[|entry.calls|..]
            && r.bin == vm.bin && r.pc == vm.pc && OnBase(r, other)
            && Unload(r, BaseOf(other)) == other
            && Suffix(r, BaseOf(other)) == Suffix(vm, BaseOf(entry))
    ensures Load(entry, Suffix(vm, BaseOf(entry))) == vm.(task := entry.task, coro := entry.coro)
  {
    var s := Suffix(vm, BaseOf(entry));
    var r := Load(other, s);
    assert r.libs[|other.libs|..] == s.libs && r.scopes[|other.scopes|..] == s.scopes
           && r.calls[|other.calls|..] == s.calls;
    assert r.libs[..|other.libs|] == other.libs && r.scopes[..|other.scopes|] == other.scopes
           && r.calls[..|other.calls|] == other.calls;
  }

  lemma WorkStays(b: Vm, vm: Vm, r: Vm)
    requires OnBase(vm, b) && WorksAbove(BaseOf(b), vm, r)
    ensures OnBase(r, b)
  {
  }
}
