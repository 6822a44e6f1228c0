/**
 * Left folds: the shape of every loop that walks a list of jobs or rows
 * and threads the table and its counters through one step per item.
 */
module Folds {
  /** Apply `step` to each item in turn, starting from `acc`. */
  function Fold<A, X>(step: (A, X) -> A, acc: A, xs: seq<X>): A
    decreases |xs|
  {
    if xs == [] then acc else Fold(step, step(acc, xs[0]), xs[1..])
  }

  /** Peeling the first item off. */
  lemma FoldStep<A, X>(step: (A, X) -> A, acc: A, xs: seq<X>, i: nat)
    requires i < |xs|
    ensures Fold(step, acc, xs[i..]) == Fold(step, step(acc, xs[i]), xs[i + 1..])
  {
    assert xs[i..][0] == xs[i] && xs[i..][1..] == xs[i + 1..];
  }

  /** Nothing is left to fold at the end. */
  lemma FoldDone<A, X>(step: (A, X) -> A, acc: A, xs: seq<X>)
    ensures Fold(step, acc, xs[|xs|..]) == acc
  {
    assert xs[|xs|..] == [];
  }

  /** When no step decreases `f`, neither does the fold. */
  lemma {:induction false} FoldMonotone<A, X>(step: (A, X) -> A, f: A -> int, acc: A, xs: seq<X>)
    requires forall a, x :: f(a) <= f(step(a, x))
    ensures f(acc) <= f(Fold(step, acc, xs))
    decreases |xs|
  {
    if xs != [] {
      FoldMonotone(step, f, step(acc, xs[0]), xs[1..]);
    }
  }

  /** When each step adds at most one to `f`, the fold adds at most one per item. */
  lemma {:induction false} FoldGrowth<A, X>(step: (A, X) -> A, f: A -> int, acc: A, xs: seq<X>)
    requires forall a, x :: f(step(a, x)) <= f(a) + 1
    ensures f(Fold(step, acc, xs)) <= f(acc) + |xs|
    decreases |xs|
  {
    if xs != [] {
      FoldGrowth(step, f, step(acc, xs[0]), xs[1..]);
    }
  }

  /** Items on which the step does nothing leave the fold where it started. */
  lemma {:induction false} FoldFixed<A, X>(step: (A, X) -> A, acc: A, xs: seq<X>)
    requires forall i :: 0 <= i < |xs| ==> step(acc, xs[i]) == acc
    ensures Fold(step, acc, xs) == acc
    decreases |xs|
  {
    if xs != [] {
      FoldFixed(step, acc, xs[1..]);
    }
  }

  /** A state the step never leaves is kept to the end. */
  lemma {:induction false} FoldAbsorbing<A, X>(step: (A, X) -> A, acc: A, xs: seq<X>)
    requires forall x :: step(acc, x) == acc
    ensures Fold(step, acc, xs) == acc
    decreases |xs|
  {
    if xs != [] {
      FoldAbsorbing(step, acc, xs[1..]);
    }
  }

  /** When every step adds exactly one to `f`, the fold adds one per item. */
  lemma {:induction false} FoldCount<A, X>(step: (A, X) -> A, f: A -> int, acc: A, xs: seq<X>)
    requires forall a, x :: f(step(a, x)) == f(a) + 1
    ensures f(Fold(step, acc, xs)) == f(acc) + |xs|
    decreases |xs|
  {
    if xs != [] {
      FoldCount(step, f, step(acc, xs[0]), xs[1..]);
    }
  }

  /**
   * When `inv` holds at the start and every step from a state satisfying it
   * keeps it and adds exactly one to `f`, the fold adds one per item.
   */
  lemma {:induction false} FoldCountWhile<A, X>(step: (A, X) -> A, f: A -> int, inv: A -> bool, acc: A, xs: seq<X>)
    requires inv(acc)
    requires forall a, i :: 0 <= i < |xs| && inv(a) ==> inv(step(a, xs[i])) && f(step(a, xs[i])) == f(a) + 1
    ensures inv(Fold(step, acc, xs)) && f(Fold(step, acc, xs)) == f(acc) + |xs|
    decreases |xs|
  {
    if xs != [] {
      assert forall i :: 0 <= i < |xs[1..]| ==> xs[1..][i] == xs[i + 1];
      FoldCountWhile(step, f, inv, step(acc, xs[0]), xs[1..]);
    }
  }

  /**
   * When `inv` holds at the start and every step from a state satisfying it
   * keeps it and adds at least one to `f`, the fold adds at least one per item.
   */
  lemma {:induction false} FoldAtLeastWhile<A, X>(step: (A, X) -> A, f: A -> int, inv: A -> bool, acc: A, xs: seq<X>)
    requires inv(acc)
    requires forall a, i :: 0 <= i < |xs| && inv(a) ==> inv(step(a, xs[i])) && f(step(a, xs[i])) >= f(a) + 1
    ensures inv(Fold(step, acc, xs)) && f(Fold(step, acc, xs)) >= f(acc) + |xs|
    decreases |xs|
  {
    if xs != [] {
      assert forall i :: 0 <= i < |xs[1..]| ==> xs[1..][i] == xs[i + 1];
      FoldAtLeastWhile(step, f, inv, step(acc, xs[0]), xs[1..]);
    }
  }

  /** An invariant every step keeps holds after the whole fold. */
  lemma {:induction false} FoldKeeps<A, X>(step: (A, X) -> A, inv: A -> bool, acc: A, xs: seq<X>)
    requires inv(acc)
    requires forall a, x :: inv(a) ==> inv(step(a, x))
    ensures inv(Fold(step, acc, xs))
    decreases |xs|
  {
    if xs != [] {
      FoldKeeps(step, inv, step(acc, xs[0]), xs[1..]);
    }
  }
}
