/** Runs that come nearer to their end with every step. */
module Descent {

  /** From a good state of rank 0 nothing is left to do, and from any other a step leads to a good state of
      smaller rank; so as many steps as the rank says suffice. */
  lemma {:induction false} ReachesEnd<S(!new)>(x: S, good: S -> bool, next: (S, S) -> bool, rank: S -> nat, ends: (S, nat) -> bool)
    returns (n: nat)
    requires good(x)
    requires forall y :: good(y) && rank(y) == 0 ==> ends(y, 0)
    requires forall y :: good(y) && rank(y) > 0 ==> exists z :: next(y, z) && good(z) && rank(z) < rank(y)
    requires forall y, z, m: nat :: good(y) && next(y, z) && ends(z, m) ==> ends(y, m + 1)
    ensures n <= rank(x) && ends(x, n)
    decreases rank(x)
  {
    if rank(x) == 0 {
      n := 0;
    } else {
      var z :| next(x, z) && good(z) && rank(z) < rank(x);
      var m := ReachesEnd(z, good, next, rank, ends);
      n := m + 1;
    }
  }
}
