/**
 * Scalar types, an Option wrapper and the error codes shared by every part
 * of the hardware abstraction layer.
 *
 * The error codes come from the utility library the layer is built on; that
 * library is not part of this model, so only the facts the layer relies on are
 * fixed here: success is 0, the generic failure is -1, and the named errors are
 * distinct positive codes.
 */
module Common {

  const U16_LIMIT: int := 0x1_0000
  const U32_LIMIT: int := 0x1_0000_0000

  /** Unsigned 8-, 16- and 32-bit values. */
  type u8 = x: int | 0 <= x < 0x100
  type u16 = x: int | 0 <= x < 0x1_0000
  type u32 = x: int | 0 <= x < 0x1_0000_0000

  datatype Option<T> = None | Some(value: T)

  const XF_OK: int := 0
  const XF_FAIL: int := -1
  const XF_ERR_INVALID_ARG: int := 0x102
  const XF_ERR_NOT_FOUND: int := 0x105
  const XF_ERR_NOT_SUPPORTED: int := 0x106
  const XF_ERR_UNINIT: int := 0x10E

  /** The value a store into an unsigned bit-field of `width` bits keeps. */
  function Bits(v: nat, width: nat): (r: nat)
    ensures r < Pow2(width)
    ensures v < Pow2(width) ==> r == v
  {
    var m := Pow2(width);
    if v < m then v else v % m
  }

  function Pow2(n: nat): (r: nat)
    ensures r >= 1
  {
    if n == 0 then 1 else 2 * Pow2(n - 1)
  }

  lemma {:induction false} Pow2Add(a: nat, b: nat)
    ensures Pow2(a + b) == Pow2(a) * Pow2(b)
  {
    if a > 0 {
      Pow2Add(a - 1, b);
      assert Pow2(a + b) == 2 * Pow2(a - 1 + b);
    }
  }

  /** The capacities of the five- and twenty-six-bit fields of the converter records. */
  lemma Pow2Widths()
    ensures Pow2(5) == 32 && Pow2(26) == 0x400_0000
  {
    Pow2Add(5, 5);
    Pow2Add(10, 10);
    Pow2Add(20, 5);
    Pow2Add(25, 1);
  }

  /** A C conversion of an int to uint32_t: reduction modulo 2^32. */
  function ToU32(v: int): (r: u32)
    ensures 0 <= v < U32_LIMIT ==> r == v
    ensures v < 0 && v >= -U32_LIMIT ==> r == v + U32_LIMIT
  {
    v % U32_LIMIT
  }
}
