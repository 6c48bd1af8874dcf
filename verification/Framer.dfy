/** The inbound packet framer of a connection: an in-place buffer that is filled by reads
    and emptied frame by frame. */
module Framer {
  import opened Wrappers
  import opened Bytes
  import opened Protocol

  /** The length of the read buffer. */
  const BUFFER_SIZE := 0x7FFF

  // ---- what the stream means ----

  /** A size field and as many bytes as it says. */
  type Frame = f: seq<byte> | IsFrame(f) witness [0, 0]

  /** A byte stream cut into complete frames and an incomplete tail. */
  datatype Cut = Cut(frames: seq<Frame>, tail: seq<byte>)

  /** The little-endian size field at an offset. */
  function SizeAt(s: seq<byte>, at: nat): u16
    requires at + 1 < |s|
  {
    s[at] as int + 0x100 * s[at + 1] as int
  }

  /** The largest size field for which `2 + size` is still an `i16`. */
  const MAX_SIZE_FIELD := I16_MAX - 2

  predicate IsFrame(f: seq<byte>) {
    2 <= |f| <= BUFFER_SIZE && |f| == 2 + SizeAt(f, 0)
  }

  function CutStream(s: seq<byte>): Cut {
    if |s| < 2 then Cut([], s)
    else
      var size := 2 + SizeAt(s, 0);
      if size > 2 + MAX_SIZE_FIELD || |s| < size then Cut([], s)
      else
        Prepended(s[..size], CutStream(s[size..]))
  }

  function Prepended(first: Frame, c: Cut): Cut {
    Cut([first] + c.frames, c.tail)
  }

  /** The frames of both, and the tail of the second. */
  function Joined(c: Cut, d: Cut): Cut {
    Cut(c.frames + d.frames, d.tail)
  }

  /** Every size field that the stream shows in full is at most `MAX_SIZE_FIELD`. */
  predicate WellFormed(s: seq<byte>) {
    |s| < 2 ||
    var size := 2 + SizeAt(s, 0);
    size <= 2 + MAX_SIZE_FIELD && (|s| < size || WellFormed(s[size..]))
  }

  function Concat(parts: seq<seq<byte>>): seq<byte> {
    if parts == [] then [] else parts[0] + Concat(parts[1..])
  }

  /** What a frame is delivered as. */
  function Deliver(frames: seq<Frame>): seq<Packet> {
    if frames == [] then [] else [FromSlice(frames[0])] + Deliver(frames[1..])
  }

  lemma DeliverCons(frame: Frame, frames: seq<Frame>)
    ensures Deliver([frame] + frames) == [FromSlice(frame)] + Deliver(frames)
  {
    assert ([frame] + frames)[1..] == frames;
  }

  lemma ConcatCons(part: seq<byte>, parts: seq<seq<byte>>)
    ensures Concat([part] + parts) == part + Concat(parts)
  {
    assert ([part] + parts)[1..] == parts;
  }

  /** The frames and then the tail are all the bytes of the stream. */
  lemma {:induction false} CutCovers(s: seq<byte>)
    ensures Concat(CutStream(s).frames) + CutStream(s).tail == s
  {
    if |s| >= 2 {
      var size := 2 + SizeAt(s, 0);
      if size <= 2 + MAX_SIZE_FIELD && size <= |s| {
        CutCovers(s[size..]);
        ConcatCons(s[..size], CutStream(s[size..]).frames);
      }
    }
  }

  /** The tail of a well-formed stream never fills the buffer, so a read always has room. */
  lemma {:induction false} TailFits(s: seq<byte>)
    requires WellFormed(s)
    ensures |CutStream(s).tail| < BUFFER_SIZE
    ensures CutStream(CutStream(s).tail) == Cut([], CutStream(s).tail)
  {
    if |s| >= 2 {
      var size := 2 + SizeAt(s, 0);
      if size <= |s| {
        TailFits(s[size..]);
      }
    }
  }

  predicate StartsWithFrame(s: seq<byte>) {
    2 <= |s| && SizeAt(s, 0) <= MAX_SIZE_FIELD && 2 + SizeAt(s, 0) <= |s|
  }

  lemma CutFirst(s: seq<byte>)
    requires StartsWithFrame(s)
    ensures var size := 2 + SizeAt(s, 0);
            CutStream(s) == Prepended(s[..size], CutStream(s[size..]))
  {
  }

  lemma WellFormedFirst(s: seq<byte>)
    requires StartsWithFrame(s)
    ensures WellFormed(s) <==> WellFormed(s[2 + SizeAt(s, 0)..])
  {
  }

  /** Cutting `a + b` is cutting `a`, and then what is left of it with `b`. */
  ghost predicate CutsInParts(a: seq<byte>, b: seq<byte>) {
    && WellFormed(a) && WellFormed(CutStream(a).tail + b)
    && CutStream(a + b) == Joined(CutStream(a), CutStream(CutStream(a).tail + b))
  }

  lemma PrependJoined(first: Frame, c: Cut, d: Cut)
    ensures Prepended(first, Joined(c, d)) == Joined(Prepended(first, c), d)
  {
  }

  lemma SameStart(a: seq<byte>, b: seq<byte>)
    requires StartsWithFrame(a)
    ensures var s, size := a + b, 2 + SizeAt(a, 0);
            StartsWithFrame(s) && SizeAt(s, 0) == SizeAt(a, 0) && s[..size] == a[..size] && s[size..] == a[size..] + b
  {
  }

  lemma CutAppendStep(a: seq<byte>, b: seq<byte>)
    requires StartsWithFrame(a) && CutsInParts(a[2 + SizeAt(a, 0)..], b)
    ensures CutsInParts(a, b)
  {
    var size := 2 + SizeAt(a, 0);
    var rest := CutStream(a[size..]);
    SameStart(a, b);
    CutFirst(a);
    CutFirst(a + b);
    WellFormedFirst(a);
    PrependJoined(a[..size], rest, CutStream(rest.tail + b));
  }

  /** Cutting a stream that arrives in two parts. */
  lemma {:induction false} CutAppend(a: seq<byte>, b: seq<byte>)
    requires WellFormed(a + b)
    ensures CutsInParts(a, b)
  {
    if StartsWithFrame(a) {
      SameStart(a, b);
      WellFormedFirst(a + b);
      CutAppend(a[2 + SizeAt(a, 0)..], b);
      CutAppendStep(a, b);
    } else {
      Uncut(a, b);
    }
  }

  lemma Uncut(a: seq<byte>, b: seq<byte>)
    requires WellFormed(a + b) && !StartsWithFrame(a)
    ensures CutsInParts(a, b)
  {
    NoFrameYet(a, b);
    JoinedToNone(a, CutStream(a + b));
  }

  lemma NoFrameYet(a: seq<byte>, b: seq<byte>)
    requires WellFormed(a + b) && !StartsWithFrame(a)
    ensures WellFormed(a) && CutStream(a) == Cut([], a)
  {
    assert |a| >= 2 ==> SizeAt(a + b, 0) == SizeAt(a, 0);
  }

  lemma JoinedToNone(tail: seq<byte>, c: Cut)
    ensures Joined(Cut([], tail), c) == c
  {
  }

  // ---- what the code does ----

  /** `2 + (lo as i16 | (hi as i16) << 8)`, wrapping as a release build does. */
  function HeaderSize(lo: byte, hi: byte): int {
    var v := 2 + lo as int + 0x100 * hi as int;
    if v <= I16_MAX then v else v - 0x1_0000
  }

  datatype Parsed = Parsed(packets: seq<Packet>, buff: seq<byte>, offset: nat)

  function Zeros(n: nat): (z: seq<byte>)
    ensures |z| == n && forall i :: 0 <= i < n ==> z[i] == 0
  {
    seq(n, _ => 0)
  }

  /** The inner loop from `offset`. `None`: it indexes past the buffer, or spins forever on a
      frame of computed size 0. */
  function Parse(buff: seq<byte>, readable: nat, offset: nat): (r: Option<Parsed>)
    requires offset <= readable <= |buff| == BUFFER_SIZE
    ensures r.Some? ==> |r.value.buff| == BUFFER_SIZE && offset <= r.value.offset <= readable
    decreases readable - offset
  {
    if offset == readable then Some(Parsed([], buff, offset))
    else if offset + 1 == |buff| then None
    else
      var size := HeaderSize(buff[offset], buff[offset + 1]);
      if size < 0 then Some(Parsed([], buff, offset))
      else if size > readable - offset then
        Some(Parsed([], buff[offset..readable] + Zeros(BUFFER_SIZE - (readable - offset)), offset))
      else if size == 0 then None
      else
        match Parse(buff, readable, offset + size)
        case None => None
        case Some(rest) => Some(rest.(packets := [FromSliceAt(buff, offset, size)] + rest.packets))
  }

  function FromSliceAt(buff: seq<byte>, offset: nat, size: nat): Packet
    requires offset + 1 < |buff| && 0 < size == HeaderSize(buff[offset], buff[offset + 1]) <= |buff| - offset
  {
    if size < 3 then DEFAULT_PACKET
    else
      FromSlice(buff[offset..offset + size])
  }

  /** When a read ends between the two bytes of a header, whatever the buffer holds behind
      the first byte is taken for the second. */
  function StaleSize(buff: seq<byte>, readable: nat): (v: u16)
    requires 0 < readable < |buff|
  {
    SizeAt(buff, readable - 1)
  }

  /** The result of a parse that delivers exactly the frames of a cut and saves its tail. */
  ghost predicate ParsesTo(r: Option<Parsed>, c: Cut, readable: nat)
    requires r.Some? ==> r.value.offset <= readable && readable - r.value.offset <= |r.value.buff|
  {
    r.Some? && r.value.packets == Deliver(c.frames) && r.value.buff[..readable - r.value.offset] == c.tail
  }

  // The loop walks over complete frames; where it ends up, and what it delivers on the way.

  predicate FrameAt(buff: seq<byte>, readable: nat, offset: nat)
    requires offset <= readable <= |buff|
  {
    offset + 2 <= readable && SizeAt(buff, offset) <= MAX_SIZE_FIELD && offset + 2 + SizeAt(buff, offset) <= readable
  }

  function EndOfFrames(buff: seq<byte>, readable: nat, offset: nat): (e: nat)
    requires offset <= readable <= |buff|
    ensures offset <= e <= readable && !FrameAt(buff, readable, e)
    decreases readable - offset
  {
    if FrameAt(buff, readable, offset) then EndOfFrames(buff, readable, offset + 2 + SizeAt(buff, offset)) else offset
  }

  function FramePackets(buff: seq<byte>, readable: nat, offset: nat): seq<Packet>
    requires offset <= readable <= |buff|
    decreases readable - offset
  {
    if FrameAt(buff, readable, offset) then
      var size := 2 + SizeAt(buff, offset);
      [FromSliceAt(buff, offset, size)] + FramePackets(buff, readable, offset + size)
    else []
  }

  function Preceded(packets: seq<Packet>, r: Option<Parsed>): Option<Parsed> {
    match r
    case None => None
    case Some(rest) => Some(rest.(packets := packets + rest.packets))
  }

  lemma PrecededTwice(first: Packet, packets: seq<Packet>, r: Option<Parsed>)
    ensures Preceded([first], Preceded(packets, r)) == Preceded([first] + packets, r)
  {
    if r.Some? {
      assert [first] + (packets + r.value.packets) == [first] + packets + r.value.packets;
    }
  }

  lemma PrecededByNone(r: Option<Parsed>)
    ensures Preceded([], r) == r
  {
    if r.Some? {
      assert [] + r.value.packets == r.value.packets;
    }
  }

  lemma ParseStep(buff: seq<byte>, readable: nat, offset: nat)
    requires offset + 2 <= readable <= |buff| == BUFFER_SIZE
    requires 0 < HeaderSize(buff[offset], buff[offset + 1]) <= readable - offset
    ensures var size := HeaderSize(buff[offset], buff[offset + 1]);
            Parse(buff, readable, offset)
            == Preceded([FromSliceAt(buff, offset, size)], Parse(buff, readable, offset + size))
  {
  }

  lemma FrameStep(buff: seq<byte>, readable: nat, offset: nat)
    requires offset <= readable <= |buff| == BUFFER_SIZE && FrameAt(buff, readable, offset)
    ensures var size := 2 + SizeAt(buff, offset);
            && Parse(buff, readable, offset)
               == Preceded([FromSliceAt(buff, offset, size)], Parse(buff, readable, offset + size))
            && FramePackets(buff, readable, offset)
               == [FromSliceAt(buff, offset, size)] + FramePackets(buff, readable, offset + size)
            && EndOfFrames(buff, readable, offset) == EndOfFrames(buff, readable, offset + size)
  {
    ParseStep(buff, readable, offset);
  }

  lemma PrecededStep(whole: Option<Parsed>, next: Option<Parsed>, end: Option<Parsed>, first: Packet,
                     packets: seq<Packet>)
    requires whole == Preceded([first], next) && next == Preceded(packets, end)
    ensures whole == Preceded([first] + packets, end)
  {
    PrecededTwice(first, packets, end);
  }

  /** The loop delivers the complete frames and goes on behind them. */
  lemma {:induction false} ParseFrames(buff: seq<byte>, readable: nat, offset: nat)
    requires offset <= readable <= |buff| == BUFFER_SIZE
    ensures Parse(buff, readable, offset)
            == Preceded(FramePackets(buff, readable, offset),
                        Parse(buff, readable, EndOfFrames(buff, readable, offset)))
    decreases readable - offset
  {
    if FrameAt(buff, readable, offset) {
      var next := offset + 2 + SizeAt(buff, offset);
      FrameStep(buff, readable, offset);
      ParseFrames(buff, readable, next);
      PrecededStep(Parse(buff, readable, offset), Parse(buff, readable, next),
                   Parse(buff, readable, EndOfFrames(buff, readable, next)),
                   FromSliceAt(buff, offset, next - offset), FramePackets(buff, readable, next));
    } else {
      PrecededByNone(Parse(buff, readable, offset));
    }
  }

  lemma Slices(buff: seq<byte>, offset: nat, middle: nat, readable: nat)
    requires offset + 2 <= middle <= readable <= |buff|
    ensures buff[offset..readable][..middle - offset] == buff[offset..middle]
    ensures buff[offset..readable][middle - offset..] == buff[middle..readable]
    ensures SizeAt(buff[offset..readable], 0) == SizeAt(buff, offset)
  {
  }

  lemma NoFirstFrame(s: seq<byte>)
    requires !StartsWithFrame(s)
    ensures CutStream(s) == Cut([], s)
    ensures WellFormed(s) ==> |s| < 2 || |s| < 2 + SizeAt(s, 0) <= 2 + MAX_SIZE_FIELD
  {
  }

  /** What the loop delivers is what the stream is cut into, and it ends up in front of the tail. */
  ghost predicate WalksFrames(buff: seq<byte>, readable: nat, offset: nat, c: Cut)
    requires offset <= readable <= |buff|
  {
    && c.tail == buff[EndOfFrames(buff, readable, offset)..readable]
    && Deliver(c.frames) == FramePackets(buff, readable, offset)
  }

  lemma WalksStep(buff: seq<byte>, readable: nat, offset: nat, first: Frame, rest: Cut)
    requires offset <= readable <= |buff| && FrameAt(buff, readable, offset)
    requires first == buff[offset..offset + 2 + SizeAt(buff, offset)]
    requires WalksFrames(buff, readable, offset + 2 + SizeAt(buff, offset), rest)
    ensures WalksFrames(buff, readable, offset, Prepended(first, rest))
  {
    DeliverCons(first, rest.frames);
  }

  lemma CutBehind(s: seq<byte>, size: nat, first: seq<byte>, rest: seq<byte>)
    requires StartsWithFrame(s) && size == 2 + SizeAt(s, 0) && first == s[..size] && rest == s[size..]
    ensures IsFrame(first) && CutStream(s) == Prepended(first, CutStream(rest))
    ensures WellFormed(s) <==> WellFormed(rest)
  {
    CutFirst(s);
    WellFormedFirst(s);
  }

  lemma FirstSlice(buff: seq<byte>, readable: nat, offset: nat)
    requires offset <= readable <= |buff| && FrameAt(buff, readable, offset)
    ensures var size := 2 + SizeAt(buff, offset);
            && IsFrame(buff[offset..offset + size])
            && CutStream(buff[offset..readable])
               == Prepended(buff[offset..offset + size], CutStream(buff[offset + size..readable]))
            && (WellFormed(buff[offset..readable]) <==> WellFormed(buff[offset + size..readable]))
  {
    var size := 2 + SizeAt(buff, offset);
    Slices(buff, offset, offset + size, readable);
    CutBehind(buff[offset..readable], size, buff[offset..offset + size], buff[offset + size..readable]);
  }

  lemma LastSlice(buff: seq<byte>, readable: nat, offset: nat)
    requires offset <= readable <= |buff| && !FrameAt(buff, readable, offset)
    ensures CutStream(buff[offset..readable]) == Cut([], buff[offset..readable])
    ensures WellFormed(buff[offset..readable]) ==> readable - offset < 2 || SizeAt(buff, offset) <= MAX_SIZE_FIELD
  {
    if offset + 2 <= readable {
      Slices(buff, offset, readable, readable);
    }
    NoFirstFrame(buff[offset..readable]);
  }

  lemma CutFramesStep(buff: seq<byte>, readable: nat, offset: nat, next: nat)
    requires offset <= readable <= |buff| && FrameAt(buff, readable, offset)
    requires next == offset + 2 + SizeAt(buff, offset)
    requires WalksFrames(buff, readable, next, CutStream(buff[next..readable]))
    ensures WalksFrames(buff, readable, offset, CutStream(buff[offset..readable]))
  {
    FirstSlice(buff, readable, offset);
    WalksStep(buff, readable, offset, buff[offset..next], CutStream(buff[next..readable]));
  }

  lemma {:induction false} CutFrames(buff: seq<byte>, readable: nat, offset: nat)
    requires offset <= readable <= |buff|
    ensures WalksFrames(buff, readable, offset, CutStream(buff[offset..readable]))
    decreases readable - offset
  {
    if FrameAt(buff, readable, offset) {
      var next := offset + 2 + SizeAt(buff, offset);
      CutFrames(buff, readable, next);
      CutFramesStep(buff, readable, offset, next);
    } else {
      LastSlice(buff, readable, offset);
    }
  }

  lemma WellFormedBehind(buff: seq<byte>, readable: nat, offset: nat, next: nat)
    requires offset <= readable <= |buff| && FrameAt(buff, readable, offset)
    requires next == offset + 2 + SizeAt(buff, offset) && WellFormed(buff[offset..readable])
    ensures WellFormed(buff[next..readable])
  {
    FirstSlice(buff, readable, offset);
  }

  /** In a well-formed stream the loop ends up in front of a split header or of a frame to wait for. */
  lemma {:induction false} WellFormedEnd(buff: seq<byte>, readable: nat, offset: nat)
    requires offset <= readable <= |buff| && WellFormed(buff[offset..readable])
    ensures var e := EndOfFrames(buff, readable, offset);
            readable - e < 2 || readable - e < 2 + SizeAt(buff, e) <= 2 + MAX_SIZE_FIELD
    decreases readable - offset
  {
    if FrameAt(buff, readable, offset) {
      var next := offset + 2 + SizeAt(buff, offset);
      WellFormedBehind(buff, readable, offset, next);
      WellFormedEnd(buff, readable, next);
    } else {
      LastSlice(buff, readable, offset);
    }
  }

  /** The loop stops in front of a frame that is not complete and moves it to the front. */
  lemma ParseTail(buff: seq<byte>, readable: nat, offset: nat)
    requires offset <= readable <= |buff| == BUFFER_SIZE && readable - offset != 1
    requires offset == readable || readable - offset < 2 + SizeAt(buff, offset) <= 2 + MAX_SIZE_FIELD
    ensures var r := Parse(buff, readable, offset);
            r.Some? && r.value.packets == [] && r.value.buff[..readable - r.value.offset] == buff[offset..readable]
  {
  }

  /** How the loop ends on a split header that reads as `v`. */
  function SplitOutcome(buff: seq<byte>, readable: nat, v: u16): (r: Option<Parsed>)
    requires 0 < readable < |buff| == BUFFER_SIZE
  {
    if v <= MAX_SIZE_FIELD then Some(Parsed([], [buff[readable - 1]] + Zeros(BUFFER_SIZE - 1), readable - 1))
    else if v == 0xFFFE then None
    else if v == 0xFFFF then Some(Parsed([DEFAULT_PACKET], buff, readable))
    else Some(Parsed([], buff, readable - 1))
  }

  lemma ParseSplitHeader(buff: seq<byte>, readable: nat)
    requires 0 < readable <= |buff| == BUFFER_SIZE
    ensures Parse(buff, readable, readable - 1)
            == if readable == BUFFER_SIZE then None else SplitOutcome(buff, readable, StaleSize(buff, readable))
  {
    assert buff[readable - 1..readable] == [buff[readable - 1]];
    assert Parse(buff, readable, readable) == Some(Parsed([], buff, readable));
    assert [DEFAULT_PACKET] + [] == [DEFAULT_PACKET];
  }

  /** When a read that ends inside a header does no harm: the stale byte makes a size that
      still means "wait for more", or it makes a negative one and the unmoved first byte of
      the buffer happens to be the byte that should have been moved there. */
  ghost predicate SplitIsHarmless(buff: seq<byte>, readable: nat)
    requires readable <= |buff| == BUFFER_SIZE
  {
    |CutStream(buff[..readable]).tail| == 1 ==> StaleByteIsHarmless(buff, readable)
  }

  predicate StaleByteIsHarmless(buff: seq<byte>, readable: nat)
    requires readable <= |buff| == BUFFER_SIZE
  {
    && 0 < readable < BUFFER_SIZE
    && (StaleSize(buff, readable) <= MAX_SIZE_FIELD
        || (StaleSize(buff, readable) < 0xFFFE && buff[0] == buff[readable - 1]))
  }

  /** Reading a well-formed stream: a read delivers exactly the new complete frames and keeps
      exactly the tail, if and only if it does not end in a harmful way inside a header. */
  lemma ReadIsFaithful(buff: seq<byte>, readable: nat)
    requires readable <= |buff| == BUFFER_SIZE
    requires WellFormed(buff[..readable])
    ensures ParsesTo(Parse(buff, readable, 0), CutStream(buff[..readable]), readable)
            <==> SplitIsHarmless(buff, readable)
  {
    assert buff[0..readable] == buff[..readable];
    CutFrames(buff, readable, 0);
    WellFormedEnd(buff, readable, 0);
    WalkIsFaithful(buff, readable, CutStream(buff[..readable]));
  }

  lemma WalkIsFaithful(buff: seq<byte>, readable: nat, c: Cut)
    requires readable <= |buff| == BUFFER_SIZE && WalksFrames(buff, readable, 0, c)
    requires var e := EndOfFrames(buff, readable, 0);
             readable - e < 2 || readable - e < 2 + SizeAt(buff, e) <= 2 + MAX_SIZE_FIELD
    ensures ParsesTo(Parse(buff, readable, 0), c, readable)
            <==> (|c.tail| == 1 ==> StaleByteIsHarmless(buff, readable))
  {
    ParseFrames(buff, readable, 0);
    if readable - EndOfFrames(buff, readable, 0) == 1 {
      SplitWalkIsFaithful(buff, readable, c, FramePackets(buff, readable, 0));
    } else {
      TailWalkIsFaithful(buff, readable, EndOfFrames(buff, readable, 0), c, FramePackets(buff, readable, 0));
    }
  }

  lemma TailWalkIsFaithful(buff: seq<byte>, readable: nat, e: nat, c: Cut, packets: seq<Packet>)
    requires e <= readable <= |buff| == BUFFER_SIZE && readable - e != 1
    requires e == readable || readable - e < 2 + SizeAt(buff, e) <= 2 + MAX_SIZE_FIELD
    requires c.tail == buff[e..readable] && Deliver(c.frames) == packets
    ensures ParsesTo(Preceded(packets, Parse(buff, readable, e)), c, readable)
  {
    ParseTail(buff, readable, e);
  }

  lemma SplitWalkIsFaithful(buff: seq<byte>, readable: nat, c: Cut, packets: seq<Packet>)
    requires 0 < readable <= |buff| == BUFFER_SIZE
    requires c.tail == [buff[readable - 1]] && Deliver(c.frames) == packets
    ensures ParsesTo(Preceded(packets, Parse(buff, readable, readable - 1)), c, readable)
            <==> StaleByteIsHarmless(buff, readable)
  {
    ParseSplitHeader(buff, readable);
    if readable < BUFFER_SIZE {
      SplitOutcomeIsFaithful(buff, readable, packets);
    }
  }

  lemma SplitOutcomeIsFaithful(buff: seq<byte>, readable: nat, packets: seq<Packet>)
    requires 0 < readable < |buff| == BUFFER_SIZE
    ensures var v := StaleSize(buff, readable); var r := Preceded(packets, SplitOutcome(buff, readable, v));
            r.Some? && r.value.packets == packets && r.value.buff[..readable - r.value.offset] == [buff[readable - 1]]
            <==> v <= MAX_SIZE_FIELD || (v < 0xFFFE && buff[0] == buff[readable - 1])
  {
    assert buff[..1] == [buff[0]];
    assert |packets + [DEFAULT_PACKET]| == |packets| + 1;
  }

  // ---- whole connections ----

  lemma {:induction false} ConcatSnoc(parts: seq<seq<byte>>, part: seq<byte>)
    ensures Concat(parts + [part]) == Concat(parts) + part
  {
    if parts == [] {
      assert [] + [part] == [part];
      assert Concat([part]) == part + Concat([]);
    } else {
      ConcatSnoc(parts[1..], part);
      assert parts + [part] == [parts[0]] + (parts[1..] + [part]);
      ConcatCons(parts[0], parts[1..] + [part]);
    }
  }

  lemma DeliverAppendStep(first: Frame, rest: seq<Frame>, b: seq<Frame>)
    requires Deliver(rest + b) == Deliver(rest) + Deliver(b)
    ensures Deliver([first] + (rest + b)) == Deliver([first] + rest) + Deliver(b)
  {
    DeliverCons(first, rest);
    DeliverCons(first, rest + b);
  }

  lemma {:induction false} DeliverAppend(a: seq<Frame>, b: seq<Frame>)
    ensures Deliver(a + b) == Deliver(a) + Deliver(b)
  {
    if a == [] {
      assert a + b == b;
    } else {
      DeliverAppend(a[1..], b);
      DeliverAppendStep(a[0], a[1..], b);
      assert a == [a[0]] + a[1..] && a + b == [a[0]] + (a[1..] + b);
    }
  }

  // ---- packets through the framer ----

  /** The largest payload whose frame a reader takes. */
  const MAX_DATA := MAX_SIZE_FIELD - 1

  ghost predicate Sendable(p: Packet) {
    Consistent(p) && |p.data| <= MAX_DATA
  }

  function Write(packets: seq<Packet>): seq<byte>
    requires forall i :: 0 <= i < |packets| ==> Sendable(packets[i])
  {
    if packets == [] then []
    else
      assert Sendable(packets[0]);
      AsBytes(packets[0]) + Write(packets[1..])
  }

  /** Packets written one after the other are framed and delivered unchanged, in order. */
  lemma {:induction false} WireRoundTrip(packets: seq<Packet>)
    requires forall i :: 0 <= i < |packets| ==> Sendable(packets[i])
    ensures WellFormed(Write(packets))
    ensures CutStream(Write(packets)).tail == []
    ensures Deliver(CutStream(Write(packets)).frames) == packets
  {
    if packets != [] {
      assert Sendable(packets[0]);
      WireRoundTrip(packets[1..]);
      FirstFrame(packets[0], Write(packets[1..]));
      assert packets == [packets[0]] + packets[1..];
    }
  }

  lemma FirstFrame(p: Packet, rest: seq<byte>)
    requires Sendable(p) && WellFormed(rest)
    ensures WellFormed(AsBytes(p) + rest)
    ensures CutStream(AsBytes(p) + rest).tail == CutStream(rest).tail
    ensures Deliver(CutStream(AsBytes(p) + rest).frames) == [p] + Deliver(CutStream(rest).frames)
  {
    PacketRoundTrip(p);
    var frame := AsBytes(p);
    var s := frame + rest;
    assert SizeAt(s, 0) == p.eventSize && s[..|frame|] == frame && s[|frame|..] == rest;
    DeliverCons(frame, CutStream(rest).frames);
  }

  function Fill(buff: seq<byte>, at: nat, chunk: seq<byte>): seq<byte>
    requires at + |chunk| <= |buff|
  {
    buff[..at] + chunk + buff[at + |chunk|..]
  }

  lemma Filled(buff: seq<byte>, at: nat, chunk: seq<byte>)
    requires at + |chunk| <= |buff|
    ensures |Fill(buff, at, chunk)| == |buff| && Fill(buff, at, chunk)[..at + |chunk|] == buff[..at] + chunk
  {
  }

  /** One read of a well-formed stream, into a buffer that holds the tail so far. */
  lemma ReadFrom(buff: seq<byte>, at: nat, chunk: seq<byte>, s: seq<byte>)
    requires at + |chunk| <= |buff| == BUFFER_SIZE && s == buff[..at] + chunk && WellFormed(s)
    ensures |Fill(buff, at, chunk)| == BUFFER_SIZE
    ensures ParsesTo(Parse(Fill(buff, at, chunk), at + |chunk|, 0), CutStream(s), at + |chunk|)
            <==> SplitIsHarmless(Fill(buff, at, chunk), at + |chunk|)
  {
    Filled(buff, at, chunk);
    ReadIsFaithful(Fill(buff, at, chunk), at + |chunk|);
  }

  /** A parse, as it leaves the buffer for the next read. */
  function Reading(buff: seq<byte>, at: nat, chunk: seq<byte>): Option<Parsed>
    requires at + |chunk| <= |buff| == BUFFER_SIZE
  {
    Parse(Fill(buff, at, chunk), at + |chunk|, 0)
  }

  /** Reads that bring something and fit the buffer, each of which delivers exactly the new frames and
      keeps exactly the tail. */
  ghost predicate Faithful(buff: seq<byte>, at: nat, chunks: seq<seq<byte>>)
    requires at <= |buff| == BUFFER_SIZE
    decreases chunks
  {
    chunks == []
    || (&& 0 < |chunks[0]| <= BUFFER_SIZE - at
        && var r := Reading(buff, at, chunks[0]);
           && ParsesTo(r, CutStream(buff[..at] + chunks[0]), at + |chunks[0]|)
           && Faithful(r.value.buff, at + |chunks[0]| - r.value.offset, chunks[1..]))
  }

  /** Reads that bring something and fit the buffer, none of which ends harmfully inside a header. */
  ghost predicate Harmless(buff: seq<byte>, at: nat, chunks: seq<seq<byte>>)
    requires at <= |buff| == BUFFER_SIZE
    decreases chunks
  {
    chunks == []
    || (&& 0 < |chunks[0]| <= BUFFER_SIZE - at
        && SplitIsHarmless(Fill(buff, at, chunks[0]), at + |chunks[0]|)
        && var r := Reading(buff, at, chunks[0]);
           r.Some? ==> Harmless(r.value.buff, at + |chunks[0]| - r.value.offset, chunks[1..]))
  }

  /** Reads none of which ends inside a header, whatever the buffer holds behind its tail. */
  ghost predicate CleanReads(tail: seq<byte>, chunks: seq<seq<byte>>)
    decreases chunks
  {
    chunks == []
    || (&& 0 < |chunks[0]| <= BUFFER_SIZE - |tail|
        && |CutStream(tail + chunks[0]).tail| != 1
        && CleanReads(CutStream(tail + chunks[0]).tail, chunks[1..]))
  }

  lemma CutInTwo(s: seq<byte>, a: seq<byte>, b: seq<byte>)
    requires s == a + b && WellFormed(s)
    ensures var c := CutStream(a);
            && WellFormed(a) && WellFormed(c.tail + b) && |c.tail| < BUFFER_SIZE
            && CutStream(s) == Joined(c, CutStream(c.tail + b)) && CutStream(c.tail) == Cut([], c.tail)
  {
    CutAppend(a, b);
    TailFits(a);
  }

  lemma ReadsInTurn(tail: seq<byte>, chunks: seq<seq<byte>>)
    requires chunks != []
    ensures tail + Concat(chunks) == tail + chunks[0] + Concat(chunks[1..])
  {
    assert tail + (chunks[0] + Concat(chunks[1..])) == tail + chunks[0] + Concat(chunks[1..]);
  }

  /** What is left of a well-formed stream after its first read. */
  lemma NextRead(tail: seq<byte>, chunks: seq<seq<byte>>)
    requires chunks != [] && WellFormed(tail + Concat(chunks))
    ensures var c := CutStream(tail + chunks[0]);
            && WellFormed(tail + chunks[0]) && WellFormed(c.tail + Concat(chunks[1..])) && |c.tail| < BUFFER_SIZE
            && CutStream(tail + Concat(chunks)) == Joined(c, CutStream(c.tail + Concat(chunks[1..])))
            && CutStream(c.tail) == Cut([], c.tail)
  {
    ReadsInTurn(tail, chunks);
    CutInTwo(tail + Concat(chunks), tail + chunks[0], Concat(chunks[1..]));
  }

  /** A read that keeps the tail leaves a well-formed rest. */
  lemma RestAfterRead(tail: seq<byte>, chunks: seq<seq<byte>>, kept: seq<byte>)
    requires chunks != [] && WellFormed(tail + Concat(chunks)) && kept == CutStream(tail + chunks[0]).tail
    ensures WellFormed(tail + chunks[0]) && WellFormed(kept + Concat(chunks[1..]))
  {
    NextRead(tail, chunks);
  }

  lemma FaithfulStep(buff: seq<byte>, at: nat, chunks: seq<seq<byte>>)
    requires at <= |buff| == BUFFER_SIZE && chunks != [] && at + |chunks[0]| <= BUFFER_SIZE
    requires WellFormed(buff[..at] + Concat(chunks))
    ensures var r, c := Reading(buff, at, chunks[0]), CutStream(buff[..at] + chunks[0]);
            var faithful := ParsesTo(r, c, at + |chunks[0]|);
            && (faithful <==> SplitIsHarmless(Fill(buff, at, chunks[0]), at + |chunks[0]|))
            && (faithful ==> WellFormed(r.value.buff[..at + |chunks[0]| - r.value.offset] + Concat(chunks[1..])))
  {
    RestAfterRead(buff[..at], chunks, CutStream(buff[..at] + chunks[0]).tail);
    ReadFrom(buff, at, chunks[0], buff[..at] + chunks[0]);
  }

  /** Over a whole connection, every read is faithful if and only if none ends harmfully inside a header. */
  lemma {:induction false} FaithfulReads(buff: seq<byte>, at: nat, chunks: seq<seq<byte>>)
    requires at <= |buff| == BUFFER_SIZE && WellFormed(buff[..at] + Concat(chunks))
    ensures Faithful(buff, at, chunks) <==> Harmless(buff, at, chunks)
    decreases chunks
  {
    if chunks != [] && 0 < |chunks[0]| <= BUFFER_SIZE - at {
      FaithfulStep(buff, at, chunks);
      var r := Reading(buff, at, chunks[0]);
      if ParsesTo(r, CutStream(buff[..at] + chunks[0]), at + |chunks[0]|) {
        FaithfulReads(r.value.buff, at + |chunks[0]| - r.value.offset, chunks[1..]);
      }
    }
  }

  lemma CleanStep(buff: seq<byte>, at: nat, chunks: seq<seq<byte>>)
    requires at <= |buff| == BUFFER_SIZE && chunks != [] && at + |chunks[0]| <= BUFFER_SIZE
    requires WellFormed(buff[..at] + Concat(chunks)) && |CutStream(buff[..at] + chunks[0]).tail| != 1
    ensures SplitIsHarmless(Fill(buff, at, chunks[0]), at + |chunks[0]|)
    ensures ParsesTo(Reading(buff, at, chunks[0]), CutStream(buff[..at] + chunks[0]), at + |chunks[0]|)
  {
    Filled(buff, at, chunks[0]);
    FaithfulStep(buff, at, chunks);
  }

  /** In particular when no read ends inside a header at all. */
  lemma {:induction false} CleanReadsAreHarmless(buff: seq<byte>, at: nat, chunks: seq<seq<byte>>)
    requires at <= |buff| == BUFFER_SIZE && WellFormed(buff[..at] + Concat(chunks)) && CleanReads(buff[..at], chunks)
    ensures Harmless(buff, at, chunks)
    decreases chunks
  {
    if chunks != [] {
      CleanStep(buff, at, chunks);
      FaithfulStep(buff, at, chunks);
      var r := Reading(buff, at, chunks[0]).value;
      CleanReadsAreHarmless(r.buff, at + |chunks[0]| - r.offset, chunks[1..]);
    }
  }

  /** A connection whose second read ends inside a header: its first byte is 5, and behind it the buffer
      still holds the byte 200 of the first read. The parse forgets to move the tail `[5]`. */
  lemma SplitHeaderCanHarm()
    ensures var first, second: seq<byte> := [3, 0, 0x88, 9, 200], [1, 0, 0x86, 5];
            var r := Reading(Zeros(BUFFER_SIZE), 0, first);
            && WellFormed(first + second)
            && ParsesTo(r, CutStream(first), 5) && r.value.offset == 5
            && var r' := Reading(r.value.buff, 0, second);
               r'.Some? && !ParsesTo(r', CutStream(second), 4)
  {
    var first: seq<byte> := [3, 0, 0x88, 9, 200];
    OneFrameRead(first);
    var buff := Reading(Zeros(BUFFER_SIZE), 0, first).value.buff;
    StaleRead(buff);
    var second: seq<byte> := [1, 0, 0x86, 5];
    assert (first + second)[5..] == second;
    WellFormedFirst(first + second);
  }

  lemma OneFrameRead(first: seq<byte>)
    requires |first| == 5 && SizeAt(first, 0) == 3
    ensures var r := Reading(Zeros(BUFFER_SIZE), 0, first);
            ParsesTo(r, CutStream(first), 5) && r.value.offset == 5
            && r.value.buff == Fill(Zeros(BUFFER_SIZE), 0, first)
  {
    OneFrameParse(Fill(Zeros(BUFFER_SIZE), 0, first));
    assert Zeros(BUFFER_SIZE)[..0] + first == first;
    OneFrameCut(first);
    ReadFrom(Zeros(BUFFER_SIZE), 0, first, first);
    Filled(Zeros(BUFFER_SIZE), 0, first);
  }

  lemma OneFrameParse(buff: seq<byte>)
    requires |buff| == BUFFER_SIZE && SizeAt(buff, 0) == 3
    ensures var r := Parse(buff, 5, 0); r.Some? && r.value.offset == 5 && r.value.buff == buff
  {
    ParseStep(buff, 5, 0);
    assert Parse(buff, 5, 5) == Some(Parsed([], buff, 5));
  }

  lemma OneFrameCut(first: seq<byte>)
    requires |first| == 5 && SizeAt(first, 0) == 3
    ensures CutStream(first).tail == [] && WellFormed(first)
  {
    assert first[5..] == [] && CutStream([]) == Cut([], []);
    CutFirst(first);
    WellFormedFirst(first);
  }

  lemma StaleRead(buff: seq<byte>)
    requires |buff| == BUFFER_SIZE && buff[4] == 200
    ensures var second: seq<byte> := [1, 0, 0x86, 5];
            && WellFormed(second)
            && var r := Reading(buff, 0, second);
               r.Some? && !ParsesTo(r, CutStream(second), 4)
  {
    var second: seq<byte> := [1, 0, 0x86, 5];
    assert buff[..0] + second == second;
    StaleCut(second);
    StaleParse(Fill(buff, 0, second));
    ReadFrom(buff, 0, second, second);
    Filled(buff, 0, second);
  }

  lemma StaleCut(second: seq<byte>)
    requires second == [1, 0, 0x86, 5]
    ensures CutStream(second).tail == [5] && WellFormed(second)
  {
    assert second[3..] == [5];
    assert CutStream([5]) == Cut([], [5]) && WellFormed([5]);
    CutFirst(second);
    WellFormedFirst(second);
  }

  lemma StaleParse(filled: seq<byte>)
    requires |filled| == BUFFER_SIZE && filled[..4] == [1, 0, 0x86, 5] && filled[4] == 200
    ensures Parse(filled, 4, 0).Some?
  {
    assert filled[0] == filled[..4][0] && filled[1] == filled[..4][1] && filled[3] == filled[..4][3];
    ParseStep(filled, 4, 0);
    ParseSplitHeader(filled, 4);
  }

  /** What has been delivered and what is kept, of a stream that is cut so. */
  predicate Delivered(c: Cut, packets: seq<Packet>, tail: seq<byte>) {
    packets == Deliver(c.frames) && tail == c.tail
  }

  /** A read that cuts what follows a tail as `c` continues a stream cut as `before`. */
  lemma ReadStep(before: Cut, c: Cut, packets: seq<Packet>, r: Option<Parsed>, readable: nat)
    requires packets == Deliver(before.frames)
    requires r.Some? && r.value.offset <= readable && readable - r.value.offset <= |r.value.buff|
    requires ParsesTo(r, c, readable)
    ensures Delivered(Joined(before, c), packets + r.value.packets, r.value.buff[..readable - r.value.offset])
  {
    DeliverAppend(before.frames, c.frames);
  }

  lemma JoinedTwice(a: Cut, b: Cut, c: Cut)
    ensures Joined(Joined(a, b), c) == Joined(a, Joined(b, c))
  {
    assert a.frames + (b.frames + c.frames) == a.frames + b.frames + c.frames;
  }

  /** The whole parse is what has been delivered and then the rest of the parse. */
  ghost predicate Continues(r: Parsed, packets: seq<Packet>, rest: Option<Parsed>) {
    rest.Some? && r == rest.value.(packets := packets + rest.value.packets)
  }

  lemma ContinuesStep(r: Parsed, packets: seq<Packet>, packet: Packet, rest: Option<Parsed>)
    requires rest.Some? && Continues(r, packets, Some(rest.value.(packets := [packet] + rest.value.packets)))
    ensures Continues(r, packets + [packet], rest)
  {
    assert packets + ([packet] + rest.value.packets) == packets + [packet] + rest.value.packets;
  }

  class Framer {
    const buff: array<byte>
    var buffOffset: nat

    ghost predicate Valid()
      reads this, buff
    {
      buff.Length == BUFFER_SIZE && buffOffset <= BUFFER_SIZE
    }

    constructor ()
      ensures Valid() && fresh(buff)
      ensures buff[..] == Zeros(BUFFER_SIZE) && buffOffset == 0
    {
      buff := new byte[BUFFER_SIZE](_ => 0);
      buffOffset := 0;
      new;
      assert buff[..] == Zeros(BUFFER_SIZE);
    }

    /** One read of `chunk` bytes and the parsing that follows it. */
    method OnRead(chunk: seq<byte>) returns (packets: seq<Packet>)
      requires Valid() && buffOffset + |chunk| <= BUFFER_SIZE
      requires Parse(Fill(buff[..], buffOffset, chunk), buffOffset + |chunk|, 0).Some?
      modifies this`buffOffset, buff
      ensures Valid()
      ensures var r := Parse(Fill(old(buff[..]), old(buffOffset), chunk), old(buffOffset) + |chunk|, 0).value;
              packets == r.packets && buff[..] == r.buff && buffOffset == old(buffOffset) + |chunk| - r.offset
    {
      var readable := buffOffset + |chunk|;
      forall i | 0 <= i < |chunk| {
        buff[buffOffset + i] := chunk[i];
      }
      assert buff[..] == Fill(old(buff[..]), buffOffset, chunk);
      packets := TakeFrames(readable);
    }

    /** The inner loop. */
    method TakeFrames(readable: nat) returns (packets: seq<Packet>)
      requires Valid() && readable <= BUFFER_SIZE
      requires Parse(buff[..], readable, 0).Some?
      modifies this`buffOffset, buff
      ensures Valid()
      ensures var r := Parse(old(buff[..]), readable, 0).value;
              packets == r.packets && buff[..] == r.buff && buffOffset == readable - r.offset
    {
      ghost var filled := buff[..];
      ghost var r := Parse(filled, readable, 0).value;
      packets := [];
      var offset := 0;
      while offset < readable
        invariant Valid() && 0 <= offset <= readable
        invariant buff[..] == filled
        invariant Continues(r, packets, Parse(filled, readable, offset))
        decreases readable - offset
      {
        var size := HeaderSize(buff[offset], buff[offset + 1]);
        if size < 0 {
          break;
        }
        if size > readable - offset {
          SaveTail(offset, readable);
          break;
        }
        if offset + 2 <= readable {
          ParseStep(filled, readable, offset);
        }
        var packet := FromSliceAt(buff[..], offset, size);
        ContinuesStep(r, packets, packet, Parse(filled, readable, offset + size));
        packets := packets + [packet];
        offset := offset + size;
      }
      buffOffset := readable - offset;
    }

    /** `copy_within` and the zeroing that follows it. */
    method SaveTail(offset: nat, readable: nat)
      requires Valid() && offset <= readable <= BUFFER_SIZE
      modifies buff
      ensures buff[..] == old(buff[..])[offset..readable] + Zeros(BUFFER_SIZE - (readable - offset))
    {
      forall i | 0 <= i < readable - offset {
        buff[i] := buff[offset + i];
      }
      for i := readable - offset to buff.Length
        invariant buff[..readable - offset] == old(buff[..])[offset..readable]
        invariant forall j :: readable - offset <= j < i ==> buff[j] == 0
      {
        buff[i] := 0;
      }
    }

    /** One turn of the read loop: a read that fits what is left of the buffer and is parsed as a
        continuation `c` of the stream. */
    method ReadNext(ghost before: Cut, ghost c: Cut, chunk: seq<byte>, packets: seq<Packet>) returns (all: seq<Packet>)
      requires Valid() && Delivered(before, packets, buff[..buffOffset]) && buffOffset + |chunk| <= BUFFER_SIZE
      requires ParsesTo(Reading(buff[..], buffOffset, chunk), c, buffOffset + |chunk|)
      modifies this`buffOffset, buff
      ensures Valid() && Delivered(Joined(before, c), all, buff[..buffOffset])
      ensures var r := Reading(old(buff[..]), old(buffOffset), chunk).value;
              buff[..] == r.buff && buffOffset == old(buffOffset) + |chunk| - r.offset
    {
      ReadStep(before, c, packets, Reading(buff[..], buffOffset, chunk), buffOffset + |chunk|);
      var more := OnRead(chunk);
      all := packets + more;
    }

    method ReadOn(ghost chunks: seq<seq<byte>>, ghost before: Cut, chunk: seq<byte>, ghost rest: seq<seq<byte>>,
                  packets: seq<Packet>) returns (all: seq<Packet>, ghost after: Cut)
      requires Valid() && Delivered(before, packets, buff[..buffOffset])
      requires rest != [] && chunk == rest[0] && Remains(chunks, before, rest) && Faithful(buff[..], buffOffset, rest)
      modifies this`buffOffset, buff
      ensures Valid() && Delivered(after, all, buff[..buffOffset]) && buffOffset < BUFFER_SIZE
      ensures Remains(chunks, after, rest[1..]) && Faithful(buff[..], buffOffset, rest[1..])
    {
      ghost var c := RemainsNext(chunks, before, rest, buff[..], buffOffset);
      all := ReadNext(before, c, chunk, packets);
      after := Joined(before, c);
    }

    /** The read loop of a connection. Every read has room, and what has been delivered is the
        stream cut into frames, however the reads cut it. */
    method OnStream(chunks: seq<seq<byte>>) returns (packets: seq<Packet>)
      requires Valid() && buffOffset == 0 && WellFormed(Concat(chunks)) && Harmless(buff[..], 0, chunks)
      modifies this`buffOffset, buff
      ensures Valid() && buffOffset < BUFFER_SIZE
      ensures packets == Deliver(CutStream(Concat(chunks)).frames)
      ensures buff[..buffOffset] == CutStream(Concat(chunks)).tail
    {
      Starts(chunks, buff[..]);
      packets := ReadAll(chunks);
    }

    method ReadAll(chunks: seq<seq<byte>>) returns (packets: seq<Packet>)
      requires Valid() && buffOffset == 0 && Remains(chunks, Cut([], []), chunks) && Faithful(buff[..], 0, chunks)
      modifies this`buffOffset, buff
      ensures Valid() && buffOffset < BUFFER_SIZE && Delivered(CutStream(Concat(chunks)), packets, buff[..buffOffset])
    {
      packets := [];
      ghost var before := Cut([], []);
      for k := 0 to |chunks|
        invariant Valid() && buffOffset < BUFFER_SIZE && Delivered(before, packets, buff[..buffOffset])
        invariant Remains(chunks, before, chunks[k..]) && Faithful(buff[..], buffOffset, chunks[k..])
      {
        assert buffOffset < buff.Length;  // the slice read into is not empty
        assert chunks[k..][1..] == chunks[k + 1..];
        packets, before := ReadOn(chunks, before, chunks[k], chunks[k..], packets);
      }
      RemainsNothing(chunks, before);
    }
  }

  /** The stream is what has been cut so far and then its tail with the rest of the reads. */
  ghost predicate Remains(chunks: seq<seq<byte>>, before: Cut, rest: seq<seq<byte>>) {
    && WellFormed(before.tail + Concat(rest)) && |before.tail| < BUFFER_SIZE
    && CutStream(Concat(chunks)) == Joined(before, CutStream(before.tail + Concat(rest)))
    && CutStream(before.tail) == Cut([], before.tail)
  }

  lemma Starts(chunks: seq<seq<byte>>, buff: seq<byte>)
    requires |buff| == BUFFER_SIZE && WellFormed(Concat(chunks)) && Harmless(buff, 0, chunks)
    ensures Remains(chunks, Cut([], []), chunks) && Faithful(buff, 0, chunks)
  {
    assert buff[..0] + Concat(chunks) == [] + Concat(chunks) == Concat(chunks);
    JoinedToNone([], CutStream(Concat(chunks)));
    FaithfulReads(buff, 0, chunks);
  }

  lemma RemainsNext(chunks: seq<seq<byte>>, before: Cut, rest: seq<seq<byte>>, buff: seq<byte>, at: nat)
    returns (c: Cut)
    requires rest != [] && Remains(chunks, before, rest)
    requires at <= |buff| == BUFFER_SIZE && buff[..at] == before.tail && Faithful(buff, at, rest)
    ensures Remains(chunks, Joined(before, c), rest[1..])
    ensures at + |rest[0]| <= BUFFER_SIZE && ParsesTo(Reading(buff, at, rest[0]), c, at + |rest[0]|)
    ensures var r := Reading(buff, at, rest[0]).value;
            Faithful(r.buff, at + |rest[0]| - r.offset, rest[1..])
  {
    c := CutStream(before.tail + rest[0]);
    NextRead(before.tail, rest);
    JoinedTwice(before, c, CutStream(c.tail + Concat(rest[1..])));
  }

  lemma RemainsNothing(chunks: seq<seq<byte>>, before: Cut)
    requires Remains(chunks, before, [])
    ensures CutStream(Concat(chunks)) == before
  {
    assert before.tail + Concat([]) == before.tail;
    assert before.frames + [] == before.frames;
  }
}
