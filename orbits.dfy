/**
 * Orbits of a discrete map started from a seed: the recorded points of the
 * Henon and de Jong attractors are f(seed), f(f(seed)), ... in that order.
 */
module Orbits {

  /** f applied k times to seed. */
  function Iterate<T>(f: T -> T, seed: T, k: nat): T {
    if k == 0 then seed else f(Iterate(f, seed, k - 1))
  }

  /** The first n iterates after the seed (the seed itself is not recorded). */
  function Orbit<T>(f: T -> T, seed: T, n: nat): (r: seq<T>)
    ensures |r| == n
  {
    if n == 0 then [] else Orbit(f, seed, n - 1) + [Iterate(f, seed, n)]
  }

  lemma {:induction false} OrbitAt<T>(f: T -> T, seed: T, n: nat, i: nat)
    requires i < n
    ensures Orbit(f, seed, n)[i] == Iterate(f, seed, i + 1)
  {
    if i < n - 1 {
      OrbitAt(f, seed, n - 1, i);
    }
  }

  /**
   * The recorded sequence starts with the image of the seed and each point is
   * the image of the one before it.
   */
  lemma OrbitRecurrence<T>(f: T -> T, seed: T, n: nat)
    ensures n > 0 ==> Orbit(f, seed, n)[0] == f(seed)
    ensures forall i :: 0 <= i < n - 1 ==> Orbit(f, seed, n)[i + 1] == f(Orbit(f, seed, n)[i])
  {
    if n > 0 {
      OrbitAt(f, seed, n, 0);
    }
    forall i | 0 <= i < n - 1 ensures Orbit(f, seed, n)[i + 1] == f(Orbit(f, seed, n)[i]) {
      OrbitAt(f, seed, n, i);
      OrbitAt(f, seed, n, i + 1);
    }
  }
}
