/** Shared value types of the simulator model: optional values (Python's
    `None`), results that carry a raised exception, positive integers and a few
    sequence helpers. */
module Common {

  /** A value that may be absent, as Python's `None`. */
  datatype Option<+T> = None | Some(value: T)

  /** The outcome of an operation that may raise: `Err` carries the exception's message. */
  datatype Result<+T> = Ok(value: T) | Err(error: string)

  /** Strictly positive integers (speeds, cycle lengths, divisors). */
  type Pos = n: int | n > 0 witness 1

  /** Raw bytes, as Python's `bytes`. */
  type Bytes = seq<bv8>

  /** No element occurs twice. */
  predicate Distinct<T(==)>(s: seq<T>) {
    forall i, j :: 0 <= i < j < |s| ==> s[i] != s[j]
  }

  /** The set of elements of a sequence. */
  function Elems<T>(s: seq<T>): set<T>
  {
    set x | x in s
  }

  /** Python's `max(1, n)`. */
  function AtLeastOne(n: int): (r: int)
    ensures r >= 1 && r >= n
    ensures n >= 1 ==> r == n
  {
    if n < 1 then 1 else n
  }

  /** Python's `min(a, b)`. */
  function Min(a: int, b: int): (r: int)
    ensures r <= a && r <= b && (r == a || r == b)
  {
    if a <= b then a else b
  }

  /** A prefix holds no element more often than the whole sequence. */
  lemma PrefixSubMultiset<T>(s: seq<T>, k: nat)
    requires k <= |s|
    ensures multiset(s[..k]) <= multiset(s)
  {
    assert s == s[..k] + s[k..];
  }

  /** A sequence drawn without repetition from a repetition-free one has none either. */
  lemma SubMultisetDistinct<T>(r: seq<T>, s: seq<T>)
    requires Distinct(s) && multiset(r) <= multiset(s)
    ensures Distinct(r)
  {
    forall x | x in multiset(s)
      ensures multiset(s)[x] == 1
    {
      var i :| 0 <= i < |s| && s[i] == x;
      assert s == s[..i] + [x] + s[i + 1..];
      assert x !in s[..i] && x !in s[i + 1..];
      assert x !in multiset(s[..i]) && x !in multiset(s[i + 1..]);
    }
    forall i, j | 0 <= i < j < |r|
      ensures r[i] != r[j]
    {
      var x := r[i];
      assert r == r[..i] + [x] + r[i + 1..j] + [r[j]] + r[j + 1..];
      assert multiset(r)[x] >= 1 + (if r[j] == x then 1 else 0);
      assert x in multiset(s);
    }
  }

  /** Sequences with the same elements, counted, have the same element set. */
  lemma SameElems<T>(a: seq<T>, b: seq<T>)
    requires multiset(a) == multiset(b)
    ensures Elems(a) == Elems(b)
  {
    assert forall x :: x in a <==> x in multiset(a);
    assert forall x :: x in b <==> x in multiset(b);
  }
}
