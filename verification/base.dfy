/** Small shared vocabulary: optional values, results with an error side,
    bytes, and prefix/suffix predicates on sequences. */
module Base {

  datatype Option<+T> = None | Some(value: T)

  /** Either a value or the error that a Python `except` clause would catch. */
  datatype Result<+T, +E> = Success(value: T) | Failure(error: E)

  newtype byte = x: int | 0 <= x < 256

  function Min(a: int, b: int): int {
    if a <= b then a else b
  }

  predicate StartsWith<T(==)>(s: seq<T>, p: seq<T>) {
    |p| <= |s| && s[..|p|] == p
  }

  predicate EndsWith<T(==)>(s: seq<T>, p: seq<T>) {
    |p| <= |s| && s[|s| - |p|..] == p
  }

  lemma StartsWithConcat<T>(p: seq<T>, rest: seq<T>)
    ensures StartsWith(p + rest, p)
  {
    assert (p + rest)[..|p|] == p;
  }

  lemma EndsWithConcat<T>(rest: seq<T>, p: seq<T>)
    ensures EndsWith(rest + p, p)
  {
    assert (rest + p)[|rest + p| - |p|..] == p;
  }

  /** One position where `s` and `p` differ rules out `p` as a prefix of `s`. */
  lemma NotStartsWithAt<T>(s: seq<T>, p: seq<T>, k: nat)
    requires k < |p| && k < |s| && s[k] != p[k]
    ensures !StartsWith(s, p)
  {
  }
}
