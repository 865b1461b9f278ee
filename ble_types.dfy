/** Fixed-width integers of the C++ source and the option type the model uses for nullable pointers. */
module BleTypes {

  /** `uint8_t`: bytes of attribute values, connection ids, client ids. */
  newtype uint8 = x: int | 0 <= x < 0x100

  /** `uint16_t`: attribute handles and 16-bit UUIDs. */
  newtype uint16 = x: int | 0 <= x < 0x1_0000

  /** A nullable pointer: `None` is `nullptr`. */
  datatype Option<+T> = None | Some(value: T)

  /**
   * `strlen` applied to `s.c_str()`: the number of bytes before the first NUL,
   * or all of `s` when it holds none (`c_str()` adds the terminating NUL).
   */
  function StrLen(s: seq<uint8>): (r: nat)
    ensures r <= |s|
    ensures forall i :: 0 <= i < r ==> s[i] != 0
    ensures r < |s| ==> s[r] == 0
  {
    if s == [] then 0
    else if s[0] == 0 then 0
    else 1 + StrLen(s[1..])
  }
}
