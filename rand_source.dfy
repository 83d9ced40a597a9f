/**
 * A math/rand Source seen from outside: each call of Int63 hands out the
 * next number of a fixed stream of non-negative 63-bit integers.
 */
module RandSource {

  const Int63Limit: int := 0x8000_0000_0000_0000

  type Int63 = x: int | 0 <= x < Int63Limit

  class Source {
    /** The numbers the source will ever produce, in order. */
    const draw: nat -> Int63
    /** How many numbers have been handed out so far. */
    var next: nat

    constructor (stream: nat -> Int63)
      ensures draw == stream && next == 0
    {
      draw := stream;
      next := 0;
    }

    method Int63() returns (r: Int63)
      modifies this
      ensures r == draw(old(next))
      ensures next == old(next) + 1
    {
      r := draw(next);
      next := next + 1;
    }
  }

  /**
   * What the package-level rand.Intn of math/rand hands out: call k with
   * bound n gives intn(k, n), a number below n. How the global generator
   * gets there (rejection sampling over its own source) is not modelled.
   */
  type IntnStream = f: (nat, nat) -> nat | forall k: nat, n: nat :: 0 < n ==> f(k, n) < n
    witness (k: nat, n: nat) => 0

  /** The global generator of math/rand, seen through rand.Intn. */
  class GlobalRand {
    /** The answers rand.Intn will give, call by call. */
    const intn: IntnStream
    /** How many times rand.Intn has been called. */
    var calls: nat

    constructor (stream: IntnStream)
      ensures intn == stream && calls == 0
    {
      intn := stream;
      calls := 0;
    }

    /** rand.Intn(n): it panics for n <= 0. */
    method Intn(n: nat) returns (r: nat)
      requires n > 0
      modifies this
      ensures r == intn(old(calls), n) && r < n
      ensures calls == old(calls) + 1
    {
      r := intn(calls, n);
      calls := calls + 1;
    }
  }

  /** The source actually drawn from: a nil source stands for the default one. */
  function Choose(source: Source?, default: Source): (s: Source)
    ensures source != null ==> s == source
    ensures source == null ==> s == default
  {
    if source == null then default else source
  }
}
