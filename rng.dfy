/** Python's `random.Random`, seen from outside: a deterministic stream of raw
    draws. The generator's algorithm (Mersenne Twister, seeded through SHA-256
    by `config.child_rng`) is not modelled: the stream is an arbitrary function,
    and each library call maps the next draw into its documented range. */
module Rng {
  import opened Common

  /** `random()` yields a multiple of 2^-53 in [0, 1). */
  const UnitDenominator: nat := 0x20_0000_0000_0000

  /** `randint(lo, hi)` for raw draw `d`: an integer of [lo, hi]. */
  function IntIn(lo: int, hi: int, d: nat): (r: int)
    requires lo <= hi
    ensures lo <= r <= hi
  {
    lo + d % (hi - lo + 1)
  }

  /** Every integer of [lo, hi] is the outcome of some draw. */
  lemma IntInCovers(lo: int, hi: int, r: int)
    requires lo <= r <= hi
    ensures exists d: nat :: IntIn(lo, hi, d) == r
  {
    assert IntIn(lo, hi, r - lo) == r;
  }

  /** `randbelow(n)` (and so `choice` over n elements) for raw draw `d`. */
  function IndexBelow(n: nat, d: nat): (i: nat)
    requires n > 0
    ensures i < n
  {
    d % n
  }

  /** `random()` for raw draw `d`: a value of [0, 1). */
  function UnitOf(d: nat): (u: real)
    ensures 0.0 <= u < 1.0
  {
    (d % UnitDenominator) as real / UnitDenominator as real
  }

  /** Sum of the first `k` weights, as `itertools.accumulate` builds it. */
  function PrefixTotal(ws: seq<real>, k: nat): real
    requires k <= |ws|
  {
    if k == 0 then 0.0 else PrefixTotal(ws, k - 1) + ws[k - 1]
  }

  /** The index `bisect(cum_weights, x, 0, n - 1)` selects, scanning from
      position `i` where `acc` is the total of the weights before `i`: the first
      index whose cumulative weight exceeds `x`, the last index at the latest. */
  function FirstAbove(ws: seq<real>, x: real, i: nat, acc: real): (k: nat)
    requires i < |ws|
    ensures i <= k < |ws|
    decreases |ws| - i
  {
    if i == |ws| - 1 || x < acc + ws[i] then i else FirstAbove(ws, x, i + 1, acc + ws[i])
  }

  /** The index `choices(population, weights)` picks when `random()` gives `u`. */
  function WeightedChoice(ws: seq<real>, u: real): (r: Result<nat>)
    ensures r.Ok? <==> |ws| > 0 && PrefixTotal(ws, |ws|) > 0.0
    ensures r.Ok? ==> r.value < |ws|
  {
    if |ws| == 0 then Err("IndexError: list index out of range")
    else if PrefixTotal(ws, |ws|) <= 0.0 then Err("ValueError: Total of weights must be greater than zero")
    else Ok(FirstAbove(ws, u * PrefixTotal(ws, |ws|), 0, 0.0))
  }

  lemma {:induction false} FirstAbovePositive(ws: seq<real>, x: real, i: nat, acc: real)
    requires i < |ws|
    requires forall j :: 0 <= j < |ws| ==> ws[j] >= 0.0
    requires acc == PrefixTotal(ws, i) && acc <= x < PrefixTotal(ws, |ws|)
    ensures ws[FirstAbove(ws, x, i, acc)] > 0.0
    decreases |ws| - i
  {
    if i == |ws| - 1 {
      assert PrefixTotal(ws, |ws|) == acc + ws[i];
    } else if x < acc + ws[i] {
    } else {
      FirstAbovePositive(ws, x, i + 1, acc + ws[i]);
    }
  }

  /** A weighted choice over non-negative weights never picks an entry of weight zero. */
  lemma WeightedChoicePositive(ws: seq<real>, u: real)
    requires forall j :: 0 <= j < |ws| ==> ws[j] >= 0.0
    requires 0.0 <= u < 1.0
    requires WeightedChoice(ws, u).Ok?
    ensures ws[WeightedChoice(ws, u).value] > 0.0
  {
    var total := PrefixTotal(ws, |ws|);
    assert total > 0.0;
    var x := u * total;
    ScaledBelowAt(u, total, x);
    assert WeightedChoice(ws, u) == Ok(FirstAbove(ws, x, 0, 0.0));
    FirstAbovePositive(ws, x, 0, 0.0);
  }

  lemma ScaledBelowAt(u: real, t: real, x: real)
    requires 0.0 <= u < 1.0 && t > 0.0 && x == u * t
    ensures 0.0 <= x < t
  {
    ScaledBelow(u, t);
  }

  /** `u * t < t` for `u` in [0, 1) and a positive `t`. */
  lemma ScaledBelow(u: real, t: real)
    requires 0.0 <= u < 1.0 && t > 0.0
    ensures 0.0 <= u * t < t
  {
    assert t - u * t == (1.0 - u) * t;
  }

  /** Moving the last live element of a pool into the place of the taken one
      keeps every other element of the pool. */
  lemma TakeFromPool<T>(pool: seq<T>, j: nat, m: nat)
    requires j < m <= |pool|
    ensures multiset(pool[j := pool[m - 1]][..m - 1]) + multiset{pool[j]} == multiset(pool[..m])
  {
    var after := pool[j := pool[m - 1]];
    assert pool[..m] == pool[..j] + [pool[j]] + pool[j + 1..m];
    if j < m - 1 {
      assert after[..m - 1] == pool[..j] + [pool[m - 1]] + pool[j + 1..m - 1];
      assert pool[j + 1..m] == pool[j + 1..m - 1] + [pool[m - 1]];
    } else {
      assert after[..m - 1] == pool[..j];
    }
  }

  /** A stream of raw draws, consumed one per library call. */
  class Random {
    const source: nat -> nat
    var pos: nat

    constructor (source: nat -> nat)
      ensures this.source == source && pos == 0
    {
      this.source := source;
      pos := 0;
    }

    /** The next raw draw. */
    method Next() returns (d: nat)
      modifies this
      ensures d == source(old(pos)) && pos == old(pos) + 1
    {
      d := source(pos);
      pos := pos + 1;
    }

    /** Skips `k` draws consumed by a pure computation over the stream. */
    method Skip(k: nat)
      modifies this
      ensures pos == old(pos) + k
    {
      pos := pos + k;
    }

    /** `randint(lo, hi)`. */
    method RandInt(lo: int, hi: int) returns (r: int)
      requires lo <= hi
      modifies this
      ensures r == IntIn(lo, hi, source(old(pos))) && pos == old(pos) + 1
      ensures lo <= r <= hi
    {
      var d := Next();
      r := IntIn(lo, hi, d);
    }

    /** The index `choice` picks among `n` elements. */
    method Choice(n: nat) returns (i: nat)
      requires n > 0
      modifies this
      ensures i == IndexBelow(n, source(old(pos))) && pos == old(pos) + 1
      ensures i < n
    {
      var d := Next();
      i := IndexBelow(n, d);
    }

    /** `random()`. */
    method RandomUnit() returns (u: real)
      modifies this
      ensures u == UnitOf(source(old(pos))) && pos == old(pos) + 1
      ensures 0.0 <= u < 1.0
    {
      var d := Next();
      u := UnitOf(d);
    }

    /** `shuffle(x)`: the Fisher-Yates exchange from the last position down,
        on a sequence value instead of the list object. */
    method Shuffle<T>(s: seq<T>) returns (r: seq<T>)
      modifies this
      ensures multiset(r) == multiset(s) && |r| == |s|
      ensures pos >= old(pos)
    {
      r := s;
      var i := |s|;
      while i > 1
        invariant 0 <= i <= |s|
        invariant |r| == |s| && multiset(r) == multiset(s)
        invariant pos >= old(pos)
      {
        i := i - 1;
        var j := Choice(i + 1);
        r := r[i := r[j]][j := r[i]];
      }
    }

    /** `sample(population, k)`: `k` elements taken at distinct positions,
        the pool variant of the library's algorithm. */
    method Sample<T>(population: seq<T>, k: nat) returns (r: seq<T>)
      requires k <= |population|
      modifies this
      ensures |r| == k && multiset(r) <= multiset(population)
      ensures pos >= old(pos)
    {
      var n := |population|;
      var pool := population;
      r := [];
      var i := 0;
      assert pool[..n] == pool;
      while i < k
        invariant 0 <= i <= k && |r| == i && |pool| == n
        invariant multiset(r) + multiset(pool[..n - i]) == multiset(population)
        invariant pos >= old(pos)
      {
        var j := Choice(n - i);
        TakeFromPool(pool, j, n - i);
        r := r + [pool[j]];
        pool := pool[j := pool[n - i - 1]];
        i := i + 1;
      }
    }
  }
}
