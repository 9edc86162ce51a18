/** Steps with nothing in between: as many as are given, or as many as there are. */
module Undisturbed {
  import opened Api

  function Go<S>(next: S -> Option<S>, s: S, n: nat): S
    decreases n
  {
    if n == 0 || next(s).None? then s else Go(next, next(s).value, n - 1)
  }

  /** What every step keeps holds where they lead. */
  lemma {:induction false} GoKeeps<S>(next: S -> Option<S>, keeps: S -> bool, s: S, n: nat)
    requires keeps(s)
    requires forall u {:trigger next(u)} :: keeps(u) && next(u).Some? ==> keeps(next(u).value)
    ensures keeps(Go(next, s, n))
    decreases n
  {
    if n > 0 && next(s).Some? {
      GoKeeps(next, keeps, next(s).value, n - 1);
    }
  }

  /** And they end, if each leaves less to do. */
  lemma {:induction false} GoEnds<S>(next: S -> Option<S>, keeps: S -> bool, left: S -> nat, s: S, n: nat)
    requires keeps(s) && left(s) <= n
    requires forall u {:trigger next(u)} ::
               keeps(u) && next(u).Some? ==> keeps(next(u).value) && left(next(u).value) < left(u)
    ensures next(Go(next, s, n)).None?
    decreases n
  {
    if next(s).Some? {
      GoEnds(next, keeps, left, next(s).value, n - 1);
    }
  }
}
