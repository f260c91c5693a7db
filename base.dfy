/** Fixed-width integers of the C++ source and the usual Option/Result wrappers. */
module Base {

  const TWO_TO_32: int := 0x1_0000_0000

  /** `uint32_t`, as a subset of the unbounded integers. */
  type u32 = x: int | 0 <= x < 0x1_0000_0000

  /** `int32_t`, as a subset of the unbounded integers. */
  type i32 = x: int | -0x8000_0000 <= x < 0x8000_0000

  /** Conversion to `uint32_t` (a `static_cast`, an implicit conversion, or an
      unsigned subtraction): the value modulo 2^32. */
  function Wrap32(x: int): (r: u32)
    ensures 0 <= x < TWO_TO_32 ==> r == x
    ensures -TWO_TO_32 <= x < 0 ==> r == x + TWO_TO_32
    ensures (x - r) % TWO_TO_32 == 0
  {
    x % TWO_TO_32
  }

  datatype Option<+T> = None | Some(value: T)

  datatype Result<+R, +E> = Success(value: R) | Failure(error: E)
}
