/** The arithmetic both copies delegate to CPython's number protocol
    (`PyNumber_Power`, `PyNumber_Multiply`, ...), kept abstract: the value
    type `V` and the operations on it are supplied by the caller, and each
    operation may fail the way a Python call raises. */
module Numbers {
  import opened Common

  datatype BinaryOp = Power | Multiply | TrueDivide | Add | Subtract

  datatype UnaryOp = Positive | Negative

  datatype Arithmetic<!V> = Arithmetic(binary: (BinaryOp, V, V) -> Result<V>, unary: (UnaryOp, V) -> Result<V>)

  /** Arithmetic that never raises. */
  ghost predicate NeverFails<V(!new)>(arith: Arithmetic<V>) {
    (forall op, a, b :: arith.binary(op, a, b).Ok?) && (forall op, a :: arith.unary(op, a).Ok?)
  }
}
