/** Small concepts that several components share. */
module Basics {

  datatype Option<T> = None | Some(value: T)

  lemma UnitProduct(a: real, b: real)
    requires 0.0 <= a <= 1.0 && 0.0 <= b <= 1.0
    ensures 0.0 <= a * b <= 1.0 && a * b <= a && a * b <= b
  {
  }
}
