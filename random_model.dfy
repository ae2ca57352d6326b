/** The parts of Python's `random` module the generator uses. The module's
    hidden generator state is a class: a fixed stream of raw draws (what the
    seed determines) and the number of draws taken so far. Every random index
    is the next raw draw reduced below its bound; choices, shuffle and sample
    follow CPython's algorithms on top of that. */
module RandomModel {

  class RandomSource {
    const stream: nat -> nat
    var calls: nat

    constructor (stream: nat -> nat)
      ensures this.stream == stream && calls == 0
    {
      this.stream := stream;
      calls := 0;
    }

    /** _randbelow(n): the next draw, an index below n. */
    method RandBelow(n: nat) returns (r: nat)
      requires n > 0
      modifies this
      ensures r < n && r == stream(old(calls)) % n
      ensures calls == old(calls) + 1
    {
      r := stream(calls) % n;
      calls := calls + 1;
    }
  }

  /** random.choices(population, k=k): k independent picks. */
  method Choices(population: string, k: nat, rng: RandomSource) returns (s: string)
    requires |population| > 0
    modifies rng
    ensures |s| == k
    ensures forall i :: 0 <= i < k ==> s[i] in population
  {
    s := [];
    for i := 0 to k
      invariant |s| == i
      invariant forall j :: 0 <= j < i ==> s[j] in population
    {
      var index := rng.RandBelow(|population|);
      s := s + [population[index]];
    }
  }

  /** random.shuffle(a): Fisher-Yates from the back, in place. For i from
      len - 1 down to 1 it swaps a[i] with a[j] for a random j <= i. */
  method Shuffle(a: array<char>, rng: RandomSource)
    modifies a, rng
    ensures multiset(a[..]) == old(multiset(a[..]))
  {
    var i := a.Length;
    while i > 1
      invariant 0 <= i <= a.Length
      invariant multiset(a[..]) == old(multiset(a[..]))
    {
      i := i - 1;
      var j := rng.RandBelow(i + 1);
      a[i], a[j] := a[j], a[i];
    }
  }

  /** Taking pool[j] out and moving the last element into its place leaves
      the rest of the pool. */
  lemma {:induction false} TakeFromPool(pool: seq<char>, m: nat, j: nat)
    requires j < m <= |pool|
    ensures multiset(pool[j := pool[m - 1]][..m - 1]) + multiset{pool[j]} == multiset(pool[..m])
  {
    var q := pool[..m];
    var u := q[j := pool[m - 1]];
    assert pool[j := pool[m - 1]][..m - 1] == u[..m - 1];
    assert u == u[..m - 1] + [pool[m - 1]];
    assert multiset(u) == multiset(q) - multiset{pool[j]} + multiset{pool[m - 1]};
  }

  /** random.sample(population, len(population)): CPython's pool algorithm.
      Position i takes a random element of the pool of the len - i elements
      not yet taken; the pool's last element fills the hole and the pool
      shrinks by one. */
  method Sample(population: string, rng: RandomSource) returns (result: string)
    modifies rng
    ensures multiset(result) == multiset(population)
  {
    var n := |population|;
    var pool := population;
    result := [];
    for i := 0 to n
      invariant |pool| == n - i
      invariant multiset(result) + multiset(pool) == multiset(population)
    {
      var j := rng.RandBelow(n - i);
      TakeFromPool(pool, n - i, j);
      assert pool[..n - i] == pool;
      result := result + [pool[j]];
      pool := pool[j := pool[n - i - 1]][..n - i - 1];
    }
  }
}
