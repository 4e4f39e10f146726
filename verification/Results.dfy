/** Option and Result: Python's `None` and a raised `FleetError`. */
module Results {

  datatype Option<+T> = None | Some(value: T)

  /** `Rejected` stands for an operation that raised and changed nothing. */
  datatype Result<+T> = Ok(value: T) | Rejected

  function Min(a: int, b: int): (r: int)
    ensures r <= a && r <= b && (r == a || r == b)
  {
    if a < b then a else b
  }
}
