/** Game objects: the bit fields of their ids, and their two byte forms. */
module Vanjects {
  import opened Wrappers
  import opened Bytes

  type Bits4 = x: int | 0 <= x < 16
  type Bits5 = x: int | 0 <= x < 32
  type Bits6 = x: int | 0 <= x < 64

  // The bit fields of a raw id: `(id >> n) & (2^k - 1)` is `id / 2^n % 2^k`.

  function GetStation(raw: u32): Bits5 { raw / 0x400_0000 % 32 }

  function GetWorld(raw: u32): Bits4 { raw / 0x40_0000 % 16 }

  function GetTypeId(raw: u32): Bits6 { raw / 0x1_0000 % 64 }

  function GetCounter(raw: u32): u16 { raw % 0x1_0000 }

  /** `id & (63 << 16)`. */
  function GetVanjectType(raw: u32): u32 { raw / 0x1_0000 % 64 * 0x1_0000 }

  predicate IsNonStatic(raw: u32) { raw / 0x8000_0000 == 0 }

  /** `id & (7 << 16 + 3) == 0`; in Rust `+` binds tighter than `<<`. */
  predicate IsPlayersVanject(raw: u32) { raw / 0x8_0000 % 8 == 0 }

  predicate IsPrivateVanject(raw: u32) { 8 <= raw / 0x1_0000 % 64 <= 10 }

  predicate IsNonGlobalVanject(raw: u32) { raw / 0x1_0000 % 64 != 0 }

  /** A decoded id. */
  datatype Id = Id(isStatic: bool, station: Bits5, world: Bits4, kind: Bits6, counter: u16)

  function FromRaw(raw: u32): Id {
    Id(!IsNonStatic(raw), GetStation(raw), GetWorld(raw), GetTypeId(raw), GetCounter(raw))
  }

  function ToRaw(id: Id): u32 {
    (if id.isStatic then 0x8000_0000 else 0) + id.station * 0x400_0000 + id.world * 0x40_0000
    + id.kind * 0x1_0000 + id.counter
  }

  /** The five fields cover all 32 bits: decoding is a bijection, so a table keyed by raw
      ids may be keyed by decoded ones. */
  lemma RawToIdToRaw(raw: u32)
    ensures ToRaw(FromRaw(raw)) == raw
  {
    RawFields(raw);
  }

  lemma IdToRawToId(id: Id)
    ensures FromRaw(ToRaw(id)) == id
  {
    var raw := ToRaw(id);
    assert raw / 0x1_0000 == (if id.isStatic then 0x8000 else 0) + id.station * 0x400 + id.world * 0x40 + id.kind;
    assert raw / 0x40_0000 == (if id.isStatic then 0x200 else 0) + id.station * 0x10 + id.world;
    assert raw / 0x400_0000 == (if id.isStatic then 0x20 else 0) + id.station;
    assert raw / 0x8000_0000 == if id.isStatic then 1 else 0;
  }

  // A wider shift is a narrower one and then the rest.

  lemma Shift19(raw: u32)
    ensures raw / 0x8_0000 == raw / 0x1_0000 / 8
  {
  }

  lemma Shift22(raw: u32)
    ensures raw / 0x40_0000 == raw / 0x1_0000 / 64
  {
  }

  lemma Shift26(raw: u32)
    ensures raw / 0x400_0000 == raw / 0x40_0000 / 16
  {
  }

  lemma Shift31(raw: u32)
    ensures raw / 0x8000_0000 == raw / 0x400_0000 / 32
  {
  }

  lemma UpperThreeBits(q: nat)
    ensures q / 8 % 8 == q % 64 / 8
  {
    assert q == 64 * (q / 64) + q % 64;
    assert q / 8 == 8 * (q / 64) + q % 64 / 8;
  }

  lemma FieldSum(raw: u32)
    ensures raw == raw / 0x8000_0000 * 0x8000_0000 + GetStation(raw) * 0x400_0000
                   + GetWorld(raw) * 0x40_0000 + GetTypeId(raw) * 0x1_0000 + GetCounter(raw)
  {
    Shift22(raw);
    Shift26(raw);
    Shift31(raw);
    var a, b, c, d := raw / 0x1_0000, raw / 0x40_0000, raw / 0x400_0000, raw / 0x8000_0000;
    assert c == 32 * d + c % 32;
    assert b == 16 * c + b % 16;
    assert a == 64 * b + a % 64;
    assert raw == 0x1_0000 * a + raw % 0x1_0000;
  }

  lemma RawFields(raw: u32)
    ensures raw == raw / 0x8000_0000 * 0x8000_0000 + GetStation(raw) * 0x400_0000
                   + GetWorld(raw) * 0x40_0000 + GetTypeId(raw) * 0x1_0000 + GetCounter(raw)
    ensures 0 <= raw / 0x8000_0000 <= 1
    ensures raw / 0x8_0000 % 8 == GetTypeId(raw) / 8
  {
    FieldSum(raw);
    Shift19(raw);
    UpperThreeBits(raw / 0x1_0000);
  }

  const GLOBAL: Bits6 := 0
  const DEVICE: Bits6 := 1
  const SLOT: Bits6 := 2
  const SHELL: Bits6 := 3
  const VANGER: Bits6 := 9
  const STUFF: Bits6 := 11

  /** Every classifier is a test of one decoded field. */
  lemma Classifiers(raw: u32)
    ensures IsPlayersVanject(raw) <==> FromRaw(raw).kind < 8
    ensures IsPrivateVanject(raw) <==> 8 <= FromRaw(raw).kind <= 10
    ensures IsNonGlobalVanject(raw) <==> FromRaw(raw).kind != GLOBAL
    ensures IsNonStatic(raw) <==> !FromRaw(raw).isStatic
    ensures forall kind: Bits6 {:trigger kind * 0x1_0000} ::
              GetVanjectType(raw) == kind * 0x1_0000 <==> FromRaw(raw).kind == kind
  {
    RawFields(raw);
  }

  /** `i32` order of raw ids: static ids are negative and come first. */
  function SignedRank(id: Id): int {
    (if id.isStatic then 0 else 0x8000_0000) + id.station * 0x400_0000 + id.world * 0x40_0000
    + id.kind * 0x1_0000 + id.counter
  }

  lemma SignedOrder(raw: u32)
    ensures SignedRank(FromRaw(raw)) == Signed32(raw) + 0x8000_0000
  {
    RawFields(raw);
  }

  lemma SignedRankInjective(a: Id, b: Id)
    requires SignedRank(a) == SignedRank(b)
    ensures a == b
  {
    var ra, rb := ToRaw(a), ToRaw(b);
    IdToRawToId(a);
    IdToRawToId(b);
    SignedOrder(ra);
    SignedOrder(rb);
    assert Signed32(ra) == Signed32(rb);
  }

  datatype Vanject = Vanject(
    id: Id, owner: byte, time: u32, x: u16, y: u16, radius: u16, body: seq<byte>)

  datatype VanjectError = SliceTooSmall | MismatchedId(expected: Id, given: Id)

  function CreateFromSlice(slice: seq<byte>): (r: Result<Vanject, VanjectError>) {
    if |slice| < 14 then Err(SliceTooSmall)
    else
      var id := FromRaw(FromLe32(slice));
      if id.kind == VANGER && |slice| < 16 then Err(SliceTooSmall)
      else Ok(Vanject(id, 0, FromLe32(slice[4..]), FromLe16(slice[8..]), FromLe16(slice[10..]),
                      FromLe16(slice[12..]), if id.kind == VANGER then slice[16..] else slice[14..]))
  }

  function UpdateFromSlice(v: Vanject, slice: seq<byte>): (r: Result<Vanject, VanjectError>) {
    if |slice| < 12 then Err(SliceTooSmall)
    else
      var id := FromRaw(FromLe32(slice));
      if id != v.id then Err(MismatchedId(v.id, id))
      else if id.kind == VANGER && |slice| < 14 then Err(SliceTooSmall)
      else Ok(v.(time := FromLe32(slice[4..]), x := FromLe16(slice[8..]), y := FromLe16(slice[10..]),
                 body := if id.kind == VANGER then slice[14..] else slice[12..]))
  }

  /** The form broadcast to clients; it leaves out the radius. */
  function ToVangersByte(v: Vanject): seq<byte> {
    ToLe32(ToRaw(v.id)) + [v.owner] + ToLe32(v.time) + ToLe16(v.x) + ToLe16(v.y) + v.body
  }

  /** How a client reads the broadcast form. */
  function FromVangersByte(s: seq<byte>): Vanject
    requires |s| >= 13
  {
    Vanject(FromRaw(FromLe32(s)), s[4], FromLe32(s[5..]), FromLe16(s[9..]), FromLe16(s[11..]), 0, s[13..])
  }

  /** What the broadcast form carries. */
  function AsSent(v: Vanject): Vanject {
    v.(radius := 0)
  }

  lemma BroadcastRoundTrip(v: Vanject)
    ensures |ToVangersByte(v)| == 13 + |v.body|
    ensures FromVangersByte(ToVangersByte(v)) == AsSent(v)
  {
    var s := ToVangersByte(v);
    var place := ToLe16(v.x) + ToLe16(v.y) + v.body;
    assert s[5..] == ToLe32(v.time) + place;
    assert s == ToLe32(ToRaw(v.id)) + ([v.owner] + ToLe32(v.time) + place);
    Le32RoundTrip(ToRaw(v.id), [v.owner] + ToLe32(v.time) + place);
    Le32RoundTrip(v.time, place);
    IdToRawToId(v.id);
    assert s[9..] == place && s[11..] == ToLe16(v.y) + v.body && s[13..] == v.body;
  }

  lemma IdBytes(s: seq<byte>)
    requires |s| >= 4
    ensures ToLe32(ToRaw(FromRaw(FromLe32(s)))) == s[..4]
  {
    RawToIdToRaw(FromLe32(s));
    Le32Injective(s[..4]);
  }

  lemma TimeAndPlaceBytes(s: seq<byte>)
    requires |s| >= 12
    ensures ToLe32(FromLe32(s[4..])) + ToLe16(FromLe16(s[8..])) + ToLe16(FromLe16(s[10..])) == s[4..12]
  {
    Le32Injective(s[4..8]);
    assert s[4..12] == s[4..8] + [s[8], s[9]] + [s[10], s[11]];
  }

  /** What is broadcast of a new object is what its creator sent, with the owner put in and the
      radius, and a vanger's two bytes behind it, left out. */
  lemma CreationIsRelayed(slice: seq<byte>, owner: byte)
    requires CreateFromSlice(slice).Ok?
    ensures var v := CreateFromSlice(slice).value;
            && v.radius == FromLe16(slice[12..])
            && ToVangersByte(v.(owner := owner))
               == slice[..4] + [owner] + slice[4..12] + slice[if v.id.kind == VANGER then 16 else 14..]
  {
    IdBytes(slice);
    TimeAndPlaceBytes(slice);
  }

  /** And of an update, what the sender sent, without a vanger's two bytes. */
  lemma UpdateIsRelayed(v: Vanject, slice: seq<byte>, owner: byte)
    requires UpdateFromSlice(v, slice).Ok?
    ensures var v' := UpdateFromSlice(v, slice).value;
            && v'.radius == v.radius
            && ToVangersByte(v'.(owner := owner))
               == slice[..4] + [owner] + slice[4..12] + slice[if v.id.kind == VANGER then 14 else 12..]
  {
    IdBytes(slice);
    TimeAndPlaceBytes(slice);
  }
}
