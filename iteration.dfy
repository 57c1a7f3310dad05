/** Repeating a step function: the n-fold application and how counts add up. */
module Iteration {
  function Iterate<T>(f: T -> T, x: T, n: nat): T
    decreases n
  {
    if n == 0 then x else Iterate(f, f(x), n - 1)
  }

  lemma {:induction false} IterateAdds<T>(f: T -> T, x: T, a: nat, b: nat)
    ensures Iterate(f, Iterate(f, x, a), b) == Iterate(f, x, a + b)
    decreases a
  {
    if a > 0 {
      IterateAdds(f, f(x), a - 1, b);
    }
  }

  lemma {:induction false} IterateStep<T>(f: T -> T, x: T, k: nat)
    ensures f(Iterate(f, x, k)) == Iterate(f, x, k + 1)
    decreases k
  {
    if k > 0 {
      IterateStep(f, f(x), k - 1);
    }
  }

  /** A view that moves one place along per step moves `k` places along in `k` steps. */
  lemma {:induction false} IterateShifts<T, U>(f: T -> T, view: (T, nat) -> U, x: T, k: nat, n: nat)
    requires forall y, m: nat :: view(f(y), m) == view(y, m + 1)
    ensures view(Iterate(f, x, k), n) == view(x, n + k)
    decreases k
  {
    if k > 0 {
      IterateShifts(f, view, f(x), k - 1, n);
    }
  }
}
