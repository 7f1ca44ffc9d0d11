/** Small datatypes shared by every module of the model. */
module Common {

  datatype Option<+T> = None | Some(value: T)

  function Min(a: int, b: int): (m: int)
    ensures m <= a && m <= b && (m == a || m == b)
  {
    if a <= b then a else b
  }

  predicate IsDigit(c: char) { '0' <= c <= '9' }

  predicate Decimal(s: string) { forall i :: 0 <= i < |s| ==> IsDigit(s[i]) }
}
