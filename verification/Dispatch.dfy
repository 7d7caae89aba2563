/** Multiple dispatch: the search for the best implementation with a running bound
    refines plain search by full score. */
module Dispatch {
  import opened Basics

  type Type = nat
  datatype Box = Box(ty: Type, v: int)

  /** An argument of an implementation: any value of a type, or one given value. */
  datatype Arg = OfType(ty: Type) | Exactly(v: Box)

  /** Type levels, the subtype test, equality of values, and how an argument's type is
      resolved against the stack, all taken as given. */
  datatype Rules = Rules(
    level: Type -> nat,
    isA: (Type, Type) -> bool,
    eqval: (Box, Box) -> bool,
    resolve: (seq<Arg>, nat, seq<Box>) -> Option<Type>)

  // ---- what an implementation scores ---------------------------------------

  function Abs(x: int): nat {
    if x < 0 then -x else x
  }

  /** The value that argument `k` of `args` meets. */
  function Met(args: seq<Arg>, stack: seq<Box>, k: nat): Box
    requires |args| <= |stack| && k < |args|
  {
    stack[|stack| - |args| + k]
  }

  predicate Accepts(r: Rules, args: seq<Arg>, stack: seq<Box>, k: nat)
    requires |args| <= |stack| && k < |args|
  {
    var b := Met(args, stack, k);
    match args[k]
    case Exactly(v) => b.ty == v.ty && r.eqval(v, b)
    case OfType(_) => var t := r.resolve(args, k, stack); t.Some? && r.isA(b.ty, t.value)
  }

  predicate Applies(r: Rules, args: seq<Arg>, stack: seq<Box>) {
    |args| <= |stack| && forall k :: 0 <= k < |args| ==> Accepts(r, args, stack, k)
  }

  function Distance(r: Rules, args: seq<Arg>, stack: seq<Box>, k: nat): nat
    requires |args| <= |stack| && k < |args|
  {
    match args[k]
    case Exactly(_) => 0
    case OfType(_) =>
      var t := r.resolve(args, k, stack);
      if t.None? then 0 else Abs(r.level(Met(args, stack, k).ty) - r.level(t.value))
  }

  /** Distances of the arguments from `k` on. */
  function DistanceFrom(r: Rules, args: seq<Arg>, stack: seq<Box>, k: nat): nat
    requires |args| <= |stack| && k <= |args|
    decreases |args| - k
  {
    if k == |args| then 0 else Distance(r, args, stack, k) + DistanceFrom(r, args, stack, k + 1)
  }

  lemma {:induction false} DistanceShrinks(r: Rules, args: seq<Arg>, stack: seq<Box>, j: nat, k: nat)
    requires |args| <= |stack| && j <= k <= |args|
    ensures DistanceFrom(r, args, stack, k) <= DistanceFrom(r, args, stack, j)
    decreases k - j
  {
    if j < k { DistanceShrinks(r, args, stack, j + 1, k); }
  }

  function Total(r: Rules, args: seq<Arg>, stack: seq<Box>): nat
    requires |args| <= |stack|
  {
    DistanceFrom(r, args, stack, 0)
  }

  // ---- the same, position by position --------------------------------------

  /** An implementation applies exactly if there are enough values and each literal
      argument meets a value of its type that equals it, each typed one a value of its
      type; argument `k` of `n` meets the `n - k`-th value from the top. */
  lemma AppliesMeans(r: Rules, args: seq<Arg>, stack: seq<Box>)
    ensures Applies(r, args, stack) <==>
            && |args| <= |stack|
            && (forall k, v :: 0 <= k < |args| && args[k] == Exactly(v) ==>
                  stack[|stack| - |args| + k].ty == v.ty && r.eqval(v, stack[|stack| - |args| + k]))
            && (forall k, t :: 0 <= k < |args| && args[k] == OfType(t) ==>
                  && r.resolve(args, k, stack).Some?
                  && r.isA(stack[|stack| - |args| + k].ty, r.resolve(args, k, stack).value))
  {
    if |args| <= |stack| {
      forall k | 0 <= k < |args|
        ensures Accepts(r, args, stack, k) <==>
                var b := stack[|stack| - |args| + k];
                match args[k]
                case Exactly(v) => b.ty == v.ty && r.eqval(v, b)
                case OfType(_) => r.resolve(args, k, stack).Some? && r.isA(b.ty, r.resolve(args, k, stack).value)
      {
        var b := stack[|stack| - |args| + k];
      }
    }
  }

  function Sum(d: seq<int>): int {
    if d == [] then 0 else Sum(d[..|d| - 1]) + d[|d| - 1]
  }

  lemma {:induction false} SumFirst(d: seq<int>)
    requires d != []
    ensures Sum(d) == d[0] + Sum(d[1..])
  {
    if |d| > 1 {
      SumFirst(d[..|d| - 1]);
      assert d[..|d| - 1][1..] == d[1..][..|d| - 2];
    }
  }

  /** The score is the sum of how many levels each typed argument's value lies from the
      argument's type, in either direction; literals add nothing. */
  lemma TotalMeans(r: Rules, args: seq<Arg>, stack: seq<Box>, d: seq<int>)
    requires Applies(r, args, stack) && |d| == |args|
    requires forall k :: 0 <= k < |d| && args[k].Exactly? ==> d[k] == 0
    requires forall k :: 0 <= k < |d| && args[k].OfType? && r.resolve(args, k, stack).Some? ==>
               d[k] == var (x, y) := (r.level(stack[|stack| - |args| + k].ty),
                                      r.level(r.resolve(args, k, stack).value));
                       if x < y then y - x else x - y
    ensures Total(r, args, stack) == Sum(d)
  {
    SumsFrom(r, args, stack, d, 0);
    assert d[0..] == d;
  }

  lemma {:induction false} SumsFrom(r: Rules, args: seq<Arg>, stack: seq<Box>, d: seq<int>, k: nat)
    requires Applies(r, args, stack) && |d| == |args| && k <= |d|
    requires forall j :: 0 <= j < |d| ==> Accepts(r, args, stack, j) && d[j] == Distance(r, args, stack, j)
    ensures DistanceFrom(r, args, stack, k) == Sum(d[k..])
    decreases |d| - k
  {
    if k < |d| {
      SumsFrom(r, args, stack, d, k + 1);
      SumFirst(d[k..]);
      assert d[k..][1..] == d[k + 1..];
    }
  }

  // ---- scoring with a bound ------------------------------------------------

  /** cx_fimp_score, from the last argument to the first.  -1 means that the
      implementation does not apply, or scores no less than the bound. */
  method Score(r: Rules, args: seq<Arg>, stack: seq<Box>, max: int) returns (score: int)
    requires max == -1 || max > 0
    ensures score == if Applies(r, args, stack) && (max == -1 || Total(r, args, stack) < max)
            then Total(r, args, stack) else -1
  {
    if |stack| < |args| { return -1; }
    if args == [] { return 0; }
    score := 0;
    var i, j := |args|, |stack|;
    while i > 0 && j > 0
      invariant 0 <= i <= |args| && j == |stack| - |args| + i
      invariant score == DistanceFrom(r, args, stack, i) && (max == -1 || score < max)
      invariant forall k :: i <= k < |args| ==> Accepts(r, args, stack, k)
    {
      i, j := i - 1, j - 1;
      match args[i] {
        case Exactly(v) =>
          if stack[j].ty != v.ty || !r.eqval(v, stack[j]) {
            assert !Accepts(r, args, stack, i);
            return -1;
          }
        case OfType(_) =>
          var t := r.resolve(args, i, stack);
          if t.None? {
            assert !Accepts(r, args, stack, i);
            return -1;
          }
          score := score + Abs(r.level(stack[j].ty) - r.level(t.value));
          if max > -1 && score >= max {
            DistanceShrinks(r, args, stack, 0, i);
            return -1;
          }
          if !r.isA(stack[j].ty, t.value) {
            assert !Accepts(r, args, stack, i);
            return -1;
          }
      }
    }
  }

  /** cx_fimp_match */
  method Matches(r: Rules, args: seq<Arg>, stack: seq<Box>) returns (ok: bool)
    ensures ok == Applies(r, args, stack)
  {
    var s := Score(r, args, stack, -1);
    ok := s > -1;
  }

  // ---- the search ----------------------------------------------------------

  /** The earliest of the implementations with the least total distance. */
  predicate IsBest(r: Rules, imps: seq<seq<Arg>>, stack: seq<Box>, b: nat) {
    && b < |imps| && Applies(r, imps[b], stack)
    && (forall i :: 0 <= i < |imps| && Applies(r, imps[i], stack) ==>
          Total(r, imps[b], stack) <= Total(r, imps[i], stack))
    && (forall i :: 0 <= i < b && Applies(r, imps[i], stack) ==>
          Total(r, imps[b], stack) < Total(r, imps[i], stack))
  }

  /** cx_func_match.  What is found is the best, and its arguments meet the values on the
      stack: a literal one that equals it, a typed one a value of that type.  Nothing is
      found exactly if each implementation is too long or has an argument that fails. */
  method Match(r: Rules, imps: seq<seq<Arg>>, stack: seq<Box>) returns (best: Option<nat>)
    ensures best.Some? ==> IsBest(r, imps, stack, best.value)
    ensures best.Some? ==>
              var args := imps[best.value];
              && |args| <= |stack|
              && (forall k, v :: 0 <= k < |args| && args[k] == Exactly(v) ==>
                    stack[|stack| - |args| + k].ty == v.ty && r.eqval(v, stack[|stack| - |args| + k]))
              && (forall k, t :: 0 <= k < |args| && args[k] == OfType(t) ==>
                    && r.resolve(args, k, stack).Some?
                    && r.isA(stack[|stack| - |args| + k].ty, r.resolve(args, k, stack).value))
    ensures best.None? ==> forall i :: 0 <= i < |imps| && |imps[i]| <= |stack| ==>
              exists k :: 0 <= k < |imps[i]| &&
                var b := stack[|stack| - |imps[i]| + k];
                match imps[i][k]
                case Exactly(v) => b.ty != v.ty || !r.eqval(v, b)
                case OfType(_) =>
                  var t := r.resolve(imps[i], k, stack);
                  t.None? || !r.isA(b.ty, t.value)
  {
    best := None;
    var bestScore, i := -1, 0;
    while i < |imps|
      invariant 0 <= i <= |imps|
      invariant best.None? <==> bestScore == -1
      invariant best.None? ==> forall k :: 0 <= k < i ==> !Applies(r, imps[k], stack)
      invariant best.Some? ==>
                IsBest(r, imps[..i], stack, best.value) && bestScore == Total(r, imps[best.value], stack)
                    && bestScore > 0
    {
      assert imps[..i + 1][i] == imps[i] && forall k :: 0 <= k < i ==> imps[..i + 1][k] == imps[..i][k];
      var s := Score(r, imps[i], stack, bestScore);
      if s == 0 {
        PerfectIsBest(r, imps, stack, i, if best.Some? then best.value else 0, best.Some?);
        AppliesMeans(r, imps[i], stack);
        return Some(i);
      }
      if s > -1 && (bestScore == -1 || bestScore > s) {
        best, bestScore := Some(i), s;
      }
      i := i + 1;
    }
    assert imps[..i] == imps;
    if best.Some? { AppliesMeans(r, imps[best.value], stack); }
  }

  /** The first implementation at distance 0 cannot be beaten. */
  lemma PerfectIsBest(r: Rules, imps: seq<seq<Arg>>, stack: seq<Box>, i: nat, b: nat, some: bool)
    requires i < |imps| && Applies(r, imps[i], stack) && Total(r, imps[i], stack) == 0
    requires some ==> IsBest(r, imps[..i], stack, b) && Total(r, imps[b], stack) > 0
    requires !some ==> forall k :: 0 <= k < i ==> !Applies(r, imps[k], stack)
    ensures IsBest(r, imps, stack, i)
  {
    forall k | 0 <= k < i && Applies(r, imps[k], stack) ensures Total(r, imps[i], stack) < Total(r, imps[k], stack) {
      assert imps[..i][k] == imps[k];
    }
  }
}
