/**
  What the other modules share.
 */
module Basics {

  datatype Option<+T> = None | Some(value: T)

  type Byte = b: int | 0 <= b < 256
  type Bytes = seq<Byte>

  function Zeros(key: Bytes): (zeros: Bytes)
    ensures |zeros| == |key| && forall i :: 0 <= i < |key| ==> zeros[i] == 0
  {
    seq(|key|, i => 0)
  }

  lemma Subset<T>(a: set<T>, b: set<T>)
    requires a <= b
    ensures |a| <= |b|
  {
    assert b == a + (b - a);
  }

  // Decimal digits and the number they stand for.
  predicate IsDigit(c: char) { '0' <= c <= '9' }

  function Value(s: string): Option<nat> {
    if s == [] then Some(0)
    else
      var last := s[|s| - 1];
      match Value(s[..|s| - 1])
      case None => None
      case Some(v) => if IsDigit(last) then Some(10 * v + (last as nat - '0' as nat)) else None
  }
}
