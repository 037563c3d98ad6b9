/** The failure types shared by the modules of the model. */
module Wrappers {

  /** A pointer or lookup that may be absent. */
  datatype Option<+T> = None | Some(value: T)

  /** The outcome of a call that returns a value or throws. */
  datatype Result<+T, +E> = Success(value: T) | Failure(error: E)

  /** A cast to a 32-bit int. */
  function ToInt32(x: int): int {
    (x + 0x8000_0000) % 0x1_0000_0000 - 0x8000_0000
  }

  /** The cast keeps what fits and is otherwise the same number modulo 2^32. */
  lemma ToInt32Exactly(x: int)
    ensures -0x8000_0000 <= ToInt32(x) <= 0x7fff_ffff && (x - ToInt32(x)) % 0x1_0000_0000 == 0
    ensures -0x8000_0000 <= x <= 0x7fff_ffff ==> ToInt32(x) == x
  {
    var q := (x + 0x8000_0000) / 0x1_0000_0000;
    assert x - ToInt32(x) == q * 0x1_0000_0000;
  }
}
