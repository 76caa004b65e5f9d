/** Optional values, error results and the few sequence facts every component uses. */
module Wrappers {
  datatype Option<+T> = None | Some(value: T)

  datatype Result<+T, +E> = Ok(value: T) | Err(error: E)

  function Abs(n: int): (r: nat)
    ensures r == n || r == -n
  {
    if n < 0 then -n else n
  }

  function Max(a: int, b: int): int {
    if a < b then b else a
  }

  /** All elements but the last; the empty sequence stays empty, like Python's `s[:-1]`. */
  function DropLast<T>(s: seq<T>): seq<T> {
    if s == [] then [] else s[..|s| - 1]
  }

  function Map<A, B>(f: A -> B, s: seq<A>): (r: seq<B>)
    ensures |r| == |s|
    ensures forall i | 0 <= i < |s| :: r[i] == f(s[i])
  {
    seq(|s|, i requires 0 <= i < |s| => f(s[i]))
  }

  /** `n * r` as a repeated sum, for proofs that should meet no product. */
  function Repeat(n: nat, r: real): real {
    if n == 0 then 0.0 else r + Repeat(n - 1, r)
  }

  lemma {:induction false} RepeatIsProduct(n: nat, r: real)
    ensures Repeat(n, r) == n as real * r
  {
    if n == 0 {
      assert 0.0 * r == 0.0;
    } else {
      RepeatIsProduct(n - 1, r);
      var m := (n - 1) as real;
      assert n as real == m + 1.0;
      assert (m + 1.0) * r == m * r + r;
    }
  }

  predicate Distinct<T(==)>(s: seq<T>) {
    forall i, j | 0 <= i < j < |s| :: s[i] != s[j]
  }

  /** A sequence without repetition has as many members as positions. */
  lemma {:induction false} DistinctCardinality<T>(s: seq<T>)
    requires Distinct(s)
    ensures |set x | x in s| == |s|
  {
    if s != [] {
      var rest := s[1..];
      DistinctCardinality(rest);
      assert s[0] !in rest;
      assert (set x | x in s) == {s[0]} + (set x | x in rest);
    }
  }
}
