/** Bytes and the little-endian integers of the wire. The readers take a slice that starts
    with the integer. Signed integers are kept as
    their two's complement bit pattern. */
module Bytes {
  type byte = x: int | 0 <= x < 0x100
  type u16 = x: int | 0 <= x < 0x1_0000
  type u32 = x: int | 0 <= x < 0x1_0000_0000

  function ToLe16(x: u16): seq<byte> {
    [x % 0x100, x / 0x100]
  }

  function FromLe16(s: seq<byte>): u16
    requires |s| >= 2
  {
    s[0] as int + 0x100 * s[1] as int
  }

  function ToLe32(x: u32): seq<byte> {
    ToLe16(x % 0x1_0000) + ToLe16(x / 0x1_0000)
  }

  function FromLe32(s: seq<byte>): u32
    requires |s| >= 4
  {
    s[0] as int + 0x100 * s[1] as int + 0x1_0000 * s[2] as int + 0x100_0000 * s[3] as int
  }

  lemma Le32RoundTrip(x: u32, tail: seq<byte>)
    ensures |ToLe32(x)| == 4 && FromLe32(ToLe32(x) + tail) == x
  {
    var lo, hi := x % 0x1_0000, x / 0x1_0000;
    assert (ToLe32(x) + tail)[..4] == ToLe16(lo) + ToLe16(hi);
  }

  lemma Le32Injective(s: seq<byte>)
    requires |s| == 4
    ensures ToLe32(FromLe32(s)) == s
  {
    var x := FromLe32(s);
    assert x % 0x1_0000 == s[0] as int + 0x100 * s[1] as int;
  }

  /** The value of a 32-bit pattern read as `i32`. */
  function Signed32(x: u32): int {
    if x < 0x8000_0000 then x else x - 0x1_0000_0000
  }
}
