/** Small datatypes shared by every component. */
module Common {
  datatype Option<+T> = None | Some(value: T)

  datatype Result<+T, +E> = Ok(value: T) | Err(error: E)

  /** Integer division as Go does it, toward zero. */
  function Quo(a: int, b: int): int
    requires b > 0
  {
    if a >= 0 then a / b else -((-a) / b)
  }

  /** What is left over has the dividend's sign. */
  lemma QuoRounds(a: int, b: int)
    requires b > 0
    ensures a >= 0 ==> 0 <= a - b * Quo(a, b) < b
    ensures a <= 0 ==> -b < a - b * Quo(a, b) <= 0
  {
  }
}
