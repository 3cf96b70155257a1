/**
 * Fixed-width integer helpers and constants shared by the model.
 *
 * The driver stores ring indices in u16 variables and header lengths in u8
 * variables; Dafny integers are unbounded, so every truncating assignment of
 * the driver is written out with Wrap16 or Wrap8.
 */
module Base {

  datatype Option<T> = None | Some(value: T)

  const U16_MOD: int := 0x1_0000
  const U8_MOD: int := 0x100

  /** ETH_HLEN, IEEE 802.3 clause 3: destination, source and length/type fields. */
  const ETH_HLEN: int := 14

  type U16 = x: int | 0 <= x < 0x1_0000
  type U8 = x: int | 0 <= x < 0x100

  /** Assignment of an int to a u16 variable. */
  function Wrap16(x: int): (r: U16)
    ensures (r - x) % U16_MOD == 0
    ensures 0 <= x < U16_MOD ==> r == x
  {
    x % U16_MOD
  }

  /** Assignment of an int to a u8 variable. */
  function Wrap8(x: int): (r: U8)
    ensures (r - x) % U8_MOD == 0
    ensures 0 <= x < U8_MOD ==> r == x
  {
    x % U8_MOD
  }

  /**
   * SUB_S16(a, b): the difference of two u16 indices read as a signed 16-bit
   * number, so that an index just past the wrap point still compares as
   * "ahead".
   */
  function SubS16(a: U16, b: U16): (r: int)
    ensures -0x8000 <= r < 0x8000
    ensures (r - (a - b)) % U16_MOD == 0
  {
    var d := (a - b) % U16_MOD;
    if d >= 0x8000 then d - U16_MOD else d
  }

  /** a is ahead of b exactly when it is less than half the index space further on. */
  lemma SubS16Ahead(a: U16, b: U16)
    ensures SubS16(a, b) > 0 <==> 0 < Wrap16(a - b) < 0x8000
    ensures SubS16(a, b) == 0 <==> a == b
  {
  }

  /** Incrementing a u16 variable one step at a time agrees with one wrap of the sum. */
  lemma Wrap16Succ(x: int)
    ensures Wrap16(Wrap16(x) + 1) == Wrap16(x + 1)
  {
    var q := x / U16_MOD;
    var r := x % U16_MOD;
    assert x == U16_MOD * q + r;
    if r == U16_MOD - 1 {
      ModOf65536(x + 1, q + 1, 0);
    } else {
      ModOf65536(x + 1, q, r + 1);
    }
  }

  lemma ModOf65536(x: int, q: int, r: int)
    requires 0 <= r < U16_MOD && x == U16_MOD * q + r
    ensures x % U16_MOD == r
  {
  }
}
