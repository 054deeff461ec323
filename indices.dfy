/** Index widths, 32-bit unsigned arithmetic and the draw record shared by the modules. */
module Indices {

  /** 2^32: the modulus of C's `unsigned` arithmetic. */
  const U32: nat := 0x1_0000_0000

  /** UINT32_MAX. */
  const U32Max: nat := 0xffff_ffff

  /** The three index widths (in bytes) the restart helper handles. */
  predicate ValidIndexSize(size: nat)
  {
    size == 1 || size == 2 || size == 4
  }

  /** 2^(8 * size): every index of that width is strictly below this bound. */
  function IndexLimit(size: nat): (limit: nat)
    requires ValidIndexSize(size)
    ensures limit > 0xff
  {
    if size == 1 then 0x100 else if size == 2 then 0x1_0000 else U32
  }

  /** Every element of `s` is representable in `size` bytes. */
  predicate FitsWidth(s: seq<nat>, size: nat)
    requires ValidIndexSize(size)
  {
    forall k :: 0 <= k < |s| ==> s[k] < IndexLimit(size)
  }

  /** `unsigned` addition: the sum wraps around modulo 2^32. */
  function AddU32(a: nat, b: nat): (r: nat)
    ensures r < U32
    ensures a + b < U32 ==> r == a + b
    ensures (a + b) % U32 == r
  {
    (a + b) % U32
  }

  function Min(a: nat, b: nat): nat { if a <= b then a else b }

  function Max(a: nat, b: nat): nat { if a >= b then a else b }

  datatype Option<T> = None | Some(value: T)

  /** struct pipe_draw_start_count_bias: one contiguous sub-draw. */
  datatype DrawRange = DrawRange(start: nat, count: nat, indexBias: int)
}
