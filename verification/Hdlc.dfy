/** HDLC-like framing (RFC 1662, section 4): byte stuffing, the frame encoder,
    and the byte-at-a-time decoder that checks the residue of a running FCS. */
module Hdlc {
  import opened Bytes
  import opened Fcs16

  const PADDING: byte := 0x7e
  const ESCAPE_CHAR: byte := 0x7d
  const XOR_BYTE: bv8 := 0x20

  function Flip(b: byte): byte {
    Value(Octet(b) ^ XOR_BYTE)
  }

  predicate Special(b: byte) {
    b == PADDING || b == ESCAPE_CHAR
  }

  /** Flipping the two special bytes gives two ordinary ones, and flipping
      those gives the special bytes back. */
  lemma FlipSpecials()
    ensures Flip(PADDING) == 0x5e && Flip(0x5e) == PADDING
    ensures Flip(ESCAPE_CHAR) == 0x5d && Flip(0x5d) == ESCAPE_CHAR
  {
  }

  // ---------------------------------------------------------------
  // Encoding.

  function StuffByte(b: byte): ByteVector {
    if Special(b) then [ESCAPE_CHAR, Flip(b)] else [b]
  }

  function Stuff(s: ByteVector): ByteVector {
    if |s| == 0 then [] else StuffByte(s[0]) + Stuff(s[1..])
  }

  function Encode(p: ByteVector): ByteVector {
    [PADDING] + Stuff(p) + Stuff(FcsBytes(p)) + [PADDING]
  }

  lemma {:induction false} StuffAppend(a: ByteVector, b: ByteVector)
    ensures Stuff(a + b) == Stuff(a) + Stuff(b)
  {
    if |a| == 0 {
      assert a + b == b;
    } else {
      assert (a + b)[0] == a[0] && (a + b)[1..] == a[1..] + b;
      StuffAppend(a[1..], b);
    }
  }

  /** No flag appears between the two that delimit a frame. */
  lemma {:induction false} StuffHidesFlags(s: ByteVector)
    ensures PADDING !in Stuff(s)
  {
    FlipSpecials();
    hide Flip;
    if |s| > 0 {
      StuffHidesFlags(s[1..]);
    }
  }

  method AppendHDLC(dst: ByteVector, src: ByteVector) returns (out: ByteVector)
    ensures out == dst + Stuff(src)
  {
    hide Flip;
    out := dst;
    assert src[..0] == [];
    for i := 0 to |src|
      invariant out == dst + Stuff(src[..i])
    {
      StuffAppend(src[..i], [src[i]]);
      assert src[..i] + [src[i]] == src[..i + 1];
      assert Stuff([src[i]]) == StuffByte(src[i]) by { assert [src[i]][1..] == []; }
      if src[i] == PADDING || src[i] == ESCAPE_CHAR {
        out := out + [ESCAPE_CHAR];
        out := out + [Flip(src[i])];
      } else {
        out := out + [src[i]];
      }
    }
    assert src[..|src|] == src;
  }

  method EncodeHDLC(src: ByteVector) returns (out: ByteVector)
    ensures out == Encode(src)
  {
    hide Fcs, Low8, High8, Stuff;
    var fcs := ComputeFCS16(src);
    var fcsbuf := [Value(Low8(fcs)), Value(High8(fcs))];
    out := [PADDING];
    out := AppendHDLC(out, src);
    out := AppendHDLC(out, fcsbuf);
    out := out + [PADDING];
  }

  // ---------------------------------------------------------------
  // The encoding, byte by byte.

  lemma FlipOctet(x: bv8)
    ensures Value(x ^ 0x20) == if Value(x) / 32 % 2 == 1 then Value(x) - 32 else Value(x) + 32
  {
  }

  /** Escaping moves a byte by 32, back if it is already there. */
  lemma FlipMoves(b: byte)
    ensures Flip(b) == if b / 32 % 2 == 1 then b - 32 else b + 32
  {
    hide Octet, Value;
    FlipOctet(Octet(b));
    ValueOfOctet(b);
  }

  /** Only 0x7E and 0x7D are escaped; every other byte is sent as it is. */
  lemma StuffedByte(b: byte)
    ensures StuffByte(b) == if b == 0x7e then [0x7d, 0x5e] else if b == 0x7d then [0x7d, 0x5d] else [b]
  {
    FlipSpecials();
    hide Flip;
  }

  /** What becomes of one byte anywhere in a string. */
  lemma StuffedAt(a: ByteVector, b: byte, c: ByteVector)
    ensures Stuff(a + [b] + c) ==
            Stuff(a) + (if b == 0x7e then [0x7d, 0x5e] else if b == 0x7d then [0x7d, 0x5d] else [b]) + Stuff(c)
  {
    hide StuffByte;
    StuffedByte(b);
    StuffAppend(a + [b], c);
    StuffAppend(a, [b]);
    assert [b][1..] == [];
  }

  /** How many bytes of a string are 0x7E or 0x7D. */
  function Escapes(s: ByteVector): nat {
    if |s| == 0 then 0 else (if s[0] == 0x7e || s[0] == 0x7d then 1 else 0) + Escapes(s[1..])
  }

  /** Stuffing adds one byte for each of those, and nothing else changes. */
  lemma {:induction false} StuffAddsEscapes(s: ByteVector)
    ensures |Stuff(s)| == |s| + Escapes(s)
    ensures Stuff(s) == s <==> 0x7e !in s && 0x7d !in s
    ensures Escapes(s) == 0 <==> 0x7e !in s && 0x7d !in s
  {
    hide StuffByte;
    if |s| > 0 {
      StuffAddsEscapes(s[1..]);
      StuffedByte(s[0]);
      assert s == [s[0]] + s[1..];
    }
  }

  /** A frame is a flag, the stuffed payload with its checksum, and a flag. */
  lemma EncodedForm(p: ByteVector)
    ensures Encode(p) == [0x7e] + Stuff(p + FcsBytes(p)) + [0x7e]
    ensures |Encode(p)| == 4 + |p| + Escapes(p + FcsBytes(p))
  {
    hide FcsBytes, Stuff;
    StuffAppend(p, FcsBytes(p));
    StuffAddsEscapes(p + FcsBytes(p));
  }

  // ---------------------------------------------------------------
  // The decoder's specification: no running value, the checksum of the
  // buffered bytes is compared with the two bytes that follow them.

  datatype Mode = PacketComplete | Data | Escape

  /** `frames` is what the handler has been given, in order. */
  datatype Decoder = Decoder(mode: Mode, buffer: ByteVector, frames: seq<ByteVector>)

  function Fresh(): Decoder {
    Decoder(PacketComplete, [], [])
  }

  /** The payload of a complete body, if it is long enough and ends in its
      payload's checksum. */
  function Payload(body: ByteVector): (p: Option<ByteVector>)
    ensures p.Some? ==> body == p.value + FcsBytes(p.value) && |p.value| > 0
  {
    var n := |body| - 2;
    if n > 0 && body[n..] == FcsBytes(body[..n]) then
      assert body == body[..n] + body[n..];
      Some(body[..n])
    else None
  }

  lemma PayloadOfFrame(p: ByteVector)
    requires |p| > 0
    ensures Payload(p + FcsBytes(p)) == Some(p)
  {
    var body := p + FcsBytes(p);
    assert body[..|body| - 2] == p && body[|body| - 2..] == FcsBytes(p);
  }

  function Delivered(frames: seq<ByteVector>, body: ByteVector): seq<ByteVector> {
    match Payload(body)
    case Some(p) => frames + [p]
    case None => frames
  }

  function Step(d: Decoder, b: byte): Decoder {
    if d.mode == Escape then Decoder(Data, d.buffer + [Flip(b)], d.frames)
    else if b == ESCAPE_CHAR then d.(mode := Escape)
    else if b == PADDING then Decoder(PacketComplete, [], Delivered(d.frames, d.buffer))
    else d.(buffer := d.buffer + [b])
  }

  /** At a flag outside an escape the decoder delivers a payload exactly if its
      buffer is that payload, not empty, and its checksum; it is reset either
      way. */
  lemma FlagDeliversIff(d: Decoder, p: ByteVector)
    requires d.mode != Escape
    ensures var e := Step(d, 0x7e);
            && e.mode == PacketComplete && e.buffer == []
            && (e.frames == d.frames + [p] <==> |p| > 0 && d.buffer == p + FcsBytes(p))
            && (e.frames == d.frames || exists q :: e.frames == d.frames + [q])
  {
    hide FcsBytes;
    if |p| > 0 && d.buffer == p + FcsBytes(p) {
      PayloadOfFrame(p);
    }
    var e := Step(d, 0x7e);
    if e.frames == d.frames + [p] {
      assert e.frames[|d.frames|] == p;
    }
  }

  /** Other bytes deliver nothing: after an escape a byte is stored moved by 32,
      0x7D begins an escape, and any other byte is stored as it is. */
  lemma ByteStored(d: Decoder, b: byte)
    requires d.mode == Escape || b != 0x7e
    ensures var e := Step(d, b);
            && e.frames == d.frames
            && (d.mode == Escape ==>
                  e.mode == Data && e.buffer == d.buffer + [if b / 32 % 2 == 1 then b - 32 else b + 32])
            && (d.mode != Escape && b == 0x7d ==> e.mode == Escape && e.buffer == d.buffer)
            && (d.mode != Escape && b != 0x7d ==> e.mode == d.mode && e.buffer == d.buffer + [b])
  {
    FlipMoves(b);
    hide Flip;
  }

  function Feed(d: Decoder, s: ByteVector): Decoder
    decreases |s|
  {
    if |s| == 0 then d else Feed(Step(d, s[0]), s[1..])
  }

  lemma {:induction false} FeedAppend(d: Decoder, a: ByteVector, b: ByteVector)
    ensures Feed(d, a + b) == Feed(Feed(d, a), b)
    decreases |a|
  {
    hide Step;
    if |a| == 0 {
      assert a + b == b;
    } else {
      assert (a + b)[0] == a[0] && (a + b)[1..] == a[1..] + b;
      FeedAppend(Step(d, a[0]), a[1..], b);
    }
  }

  // ---------------------------------------------------------------
  // The decoder as the source runs it.

  class CHDLC {
    var state: Mode
    var buffer: ByteVector
    var runningFCS: bv32
    var frames: seq<ByteVector>

    ghost predicate Valid()
      reads this
    {
      runningFCS == Wide32(Fold(buffer))
    }

    ghost function View(): Decoder
      reads this
    {
      Decoder(state, buffer, frames)
    }

    constructor ()
      ensures Valid() && View() == Fresh()
    {
      state := PacketComplete;
      buffer := [];
      runningFCS := InitFcs16();
      frames := [];
      FoldOfNothing();
    }

    method Append(b: byte)
      requires Valid()
      modifies this`buffer, this`runningFCS
      ensures Valid() && buffer == old(buffer) + [b]
    {
      hide AddOneByteToFcs16, Fold, Wide32;
      FoldIsRunningValue(buffer, b);
      buffer := buffer + [b];
      runningFCS := AddOneByteToFcs16(runningFCS, b);
    }

    method ValidateChecksum() returns (ok: bool)
      ensures ok == (CloseFcs16(runningFCS) == CLOSED_RESIDUE)
    {
      var computed := CloseFcs16(runningFCS);
      ok := computed == 0x0f47;
    }

    method Callback()
      modifies this`frames
      ensures frames == if |buffer| > 0 then old(frames) + [buffer] else old(frames)
    {
      if |buffer| > 0 {
        frames := frames + [buffer];
      }
    }

    method Reset()
      modifies this`state, this`buffer, this`runningFCS
      ensures Valid() && state == PacketComplete && buffer == []
    {
      state := PacketComplete;
      buffer := [];
      runningFCS := InitFcs16();
      FoldOfNothing();
    }

    /** The residue test delivers exactly what comparing checksums would. */
    method AddByte(b: byte)
      requires Valid()
      modifies this
      ensures Valid() && View() == Step(old(View()), b)
    {
      hide Fold, Wide32, CloseFcs16, Flip, FcsBytes;
      if state == Escape {
        var translated := Flip(b);
        Append(translated);
        state := Data;
      } else if b == ESCAPE_CHAR {
        state := Escape;
      } else if b == PADDING {
        var len := |buffer|;
        if len > 2 {
          ghost var body := buffer;
          assert body == body[..len - 2] + [body[len - 2], body[len - 1]];
          AcceptsIffChecksum(body[..len - 2], body[len - 2], body[len - 1]);
          assert body[len - 2..] == [body[len - 2], body[len - 1]];
          buffer := buffer[..len - 1];
          buffer := buffer[..len - 2];
          assert buffer == body[..len - 2];
          var ok := ValidateChecksum();
          if ok {
            Callback();
          }
        }
        Reset();
      } else {
        Append(b);
      }
    }
  }

  // ---------------------------------------------------------------
  // What the decoder makes of encoded frames.

  /** Outside an escape, stuffed bytes arrive in the buffer unchanged. */
  lemma {:induction false} FeedStuffed(d: Decoder, s: ByteVector)
    requires d.mode != Escape
    ensures var e := Feed(d, Stuff(s));
            e.mode != Escape && e.buffer == d.buffer + s && e.frames == d.frames
    decreases |s|
  {
    hide Flip;
    if |s| == 0 {
      assert Stuff(s) == [] && d.buffer + s == d.buffer;
    } else {
      var e := Feed(d, StuffByte(s[0]));
      FeedStuffedByte(d, s[0]);
      FeedAppend(d, StuffByte(s[0]), Stuff(s[1..]));
      FeedStuffed(e, s[1..]);
      assert d.buffer + [s[0]] + s[1..] == d.buffer + s;
    }
  }

  lemma FeedStuffedByte(d: Decoder, b: byte)
    requires d.mode != Escape
    ensures var e := Feed(d, StuffByte(b));
            e.mode != Escape && e.buffer == d.buffer + [b] && e.frames == d.frames
  {
    FlipSpecials();
    hide Flip;
    if Special(b) {
      var e := Step(d, ESCAPE_CHAR);
      var s := StuffByte(b);
      assert s[1..] == [Flip(b)] && s[1..][1..] == [];
      assert Feed(d, s) == Feed(e, s[1..]) == Feed(Step(e, Flip(b)), s[1..][1..]);
    } else {
      var s := [b];
      assert s[1..] == [];
      assert Feed(d, s) == Feed(Step(d, b), s[1..]);
    }
  }

  /** A frame's bytes after the opening flag. */
  lemma FeedBody(d: Decoder, p: ByteVector)
    requires d.mode != Escape
    ensures Feed(d, Stuff(p) + Stuff(FcsBytes(p)) + [PADDING])
            == Decoder(PacketComplete, [], Delivered(d.frames, d.buffer + p + FcsBytes(p)))
  {
    hide FcsBytes, Flip, Stuff;
    var e := Feed(d, Stuff(p));
    FeedStuffed(d, p);
    var f := Feed(e, Stuff(FcsBytes(p)));
    FeedStuffed(e, FcsBytes(p));
    FeedAppend(d, Stuff(p), Stuff(FcsBytes(p)));
    FeedAppend(d, Stuff(p) + Stuff(FcsBytes(p)), [PADDING]);
    FeedOne(f, PADDING);
  }

  lemma FeedOne(d: Decoder, b: byte)
    ensures Feed(d, [b]) == Step(d, b)
  {
    assert [b][1..] == [];
  }

  lemma EncodeParts(d: Decoder, p: ByteVector)
    ensures Feed(d, Encode(p)) == Feed(Step(d, PADDING), Stuff(p) + Stuff(FcsBytes(p)) + [PADDING])
  {
    hide FcsBytes, Stuff, Step;
    var rest := Stuff(p) + Stuff(FcsBytes(p)) + [PADDING];
    assert Encode(p) == [PADDING] + rest;
    FeedAppend(d, [PADDING], rest);
    FeedOne(d, PADDING);
  }

  /** Resynchronisation: outside an escape, whatever was buffered, an encoded
      frame is the last one delivered and leaves the decoder reset. */
  lemma FrameDelivered(d: Decoder, p: ByteVector)
    requires d.mode != Escape && |p| > 0
    ensures Feed(d, Encode(p)) == Decoder(PacketComplete, [], Delivered(d.frames, d.buffer) + [p])
  {
    hide FcsBytes, Stuff, Feed, Delivered;
    EncodeParts(d, p);
    var e := Step(d, PADDING);
    FeedBody(e, p);
    assert [] + p + FcsBytes(p) == p + FcsBytes(p);
    PayloadOfFrame(p);
    DeliveredFrame(e.frames, p);
  }

  lemma DeliveredFrame(frames: seq<ByteVector>, p: ByteVector)
    requires |p| > 0
    ensures Delivered(frames, p + FcsBytes(p)) == frames + [p]
  {
    hide FcsBytes;
    PayloadOfFrame(p);
  }

  /** In an escape the opening flag becomes data 0x5E: the frame is merged with
      what was buffered, and the closing flag resets the decoder. The merged
      frame is delivered exactly when the bytes before it fold back to the
      initial value; `p` itself is lost in every case. */
  lemma FrameAfterEscape(d: Decoder, p: ByteVector)
    requires d.mode == Escape && |p| > 0
    ensures var before := d.buffer + [0x5e];
            Feed(d, Encode(p)) == Decoder(PacketComplete, [],
              if Fold(before) == INITIAL then d.frames + [before + p] else d.frames)
  {
    hide FcsBytes, Stuff, Feed, Fold, Flip;
    FlipSpecials();
    EncodeParts(d, p);
    var e := Step(d, PADDING);
    FeedBody(e, p);
    var before := d.buffer + [0x5e];
    var body := before + p + FcsBytes(p);
    var fcs := FcsBytes(p);
    assert body == (before + p) + [fcs[0], fcs[1]];
    assert body[..|body| - 2] == before + p && body[|body| - 2..] == fcs;
    SameChecksum(before, p);
  }

  /** A frame is what a decoder delivers next after whatever it had buffered
      exactly when the decoder is not in an escape. */
  lemma DeliveredIffNotEscape(d: Decoder, p: ByteVector)
    requires |p| > 0
    ensures Feed(d, Encode(p)).frames == Delivered(d.frames, d.buffer) + [p] <==> d.mode != Escape
  {
    hide Encode, Feed, Fold;
    if d.mode == Escape {
      FrameAfterEscape(d, p);
      var before, frames := d.buffer + [0x5e], Feed(d, Encode(p)).frames;
      var wanted := Delivered(d.frames, d.buffer) + [p];
      assert wanted[|wanted| - 1] == p && |before + p| > |p|;
      assert frames == d.frames || frames[|frames| - 1] == before + p;
    } else {
      FrameDelivered(d, p);
    }
  }

  /** A prefix leaves the checksum of what follows unchanged only if it folds
      back to the initial value. */
  lemma SameChecksum(a: ByteVector, p: ByteVector)
    ensures FcsBytes(a + p) == FcsBytes(p) <==> Fold(a) == INITIAL
  {
    hide Register, Bits;
    FoldAppend(a, p);
    assert [] + p == p;
    FoldAppend([], p);
    FoldOfNothing();
    if Fold(a) != INITIAL && Fold(a + p) == Fold(p) {
      RegisterInjective(Fold(a), INITIAL, Bits(p));
    }
    ChecksumDeterminesFold(a + p, p);
  }

  lemma ChecksumDeterminesFold(a: ByteVector, b: ByteVector)
    ensures FcsBytes(a) == FcsBytes(b) <==> Fold(a) == Fold(b)
  {
    hide Fold, Xor, Value, Low8, High8;
    if FcsBytes(a) == FcsBytes(b) {
      assert FcsBytes(a)[0] == FcsBytes(b)[0] && FcsBytes(a)[1] == FcsBytes(b)[1];
      OctetOfValue(Low8(Fcs(a)));
      OctetOfValue(Low8(Fcs(b)));
      OctetOfValue(High8(Fcs(a)));
      OctetOfValue(High8(Fcs(b)));
      SameBytes(Fold(a), Fold(b));
    }
  }

  lemma SameBytes(r: bv16, s: bv16)
    requires Low8(Xor(r, 0xffff)) == Low8(Xor(s, 0xffff)) && High8(Xor(r, 0xffff)) == High8(Xor(s, 0xffff))
    ensures r == s
  {
  }

  /** From any state at most one encoded frame is lost: the second of two is
      delivered last. */
  lemma Resynchronises(d: Decoder, p: ByteVector, q: ByteVector)
    requires |p| > 0 && |q| > 0
    ensures exists before ::
              Feed(d, Encode(p) + Encode(q)) == Decoder(PacketComplete, [], before + [q])
  {
    hide Encode, Feed, Fold;
    var e := Feed(d, Encode(p));
    FeedAppend(d, Encode(p), Encode(q));
    if d.mode == Escape {
      FrameAfterEscape(d, p);
    } else {
      FrameDelivered(d, p);
    }
    FrameDelivered(e, q);
    assert Feed(d, Encode(p) + Encode(q)) == Decoder(PacketComplete, [], Delivered(e.frames, e.buffer) + [q]);
  }

  function EncodeAll(ps: seq<ByteVector>): ByteVector {
    if |ps| == 0 then [] else Encode(ps[0]) + EncodeAll(ps[1..])
  }

  function NonEmpty(ps: seq<ByteVector>): seq<ByteVector> {
    if |ps| == 0 then [] else (if |ps[0]| > 0 then [ps[0]] else []) + NonEmpty(ps[1..])
  }

  lemma {:induction false} RoundTripFrom(frames: seq<ByteVector>, ps: seq<ByteVector>)
    ensures Feed(Decoder(PacketComplete, [], frames), EncodeAll(ps)) == Decoder(PacketComplete, [], frames + NonEmpty(ps))
    decreases |ps|
  {
    hide Encode;
    var d := Decoder(PacketComplete, [], frames);
    if |ps| == 0 {
      assert frames + NonEmpty(ps) == frames;
    } else {
      FeedAppend(d, Encode(ps[0]), EncodeAll(ps[1..]));
      if |ps[0]| > 0 {
        FrameDelivered(d, ps[0]);
        RoundTripFrom(frames + [ps[0]], ps[1..]);
        assert frames + [ps[0]] + NonEmpty(ps[1..]) == frames + NonEmpty(ps);
      } else {
        EmptyPayloadDropped(frames, ps[0]);
        RoundTripFrom(frames, ps[1..]);
        assert NonEmpty(ps) == NonEmpty(ps[1..]);
      }
    }
  }

  /** An empty payload is encoded, but not delivered. */
  lemma EmptyPayloadDropped(frames: seq<ByteVector>, p: ByteVector)
    requires |p| == 0
    ensures var d := Decoder(PacketComplete, [], frames);
            Feed(d, Encode(p)) == d
  {
    hide FcsBytes, Stuff, Feed;
    var d := Decoder(PacketComplete, [], frames);
    EncodeParts(d, p);
    FeedBody(Step(d, PADDING), p);
    assert |[] + p + FcsBytes(p)| == 2;
  }

  /** The nonempty payloads of any list come back, in order. The list comes back
      exactly if and only if none of its payloads is empty. */
  lemma RoundTrip(ps: seq<ByteVector>)
    ensures Feed(Fresh(), EncodeAll(ps)).frames == NonEmpty(ps)
    ensures Feed(Fresh(), EncodeAll(ps)).frames == ps <==> forall i :: 0 <= i < |ps| ==> |ps[i]| > 0
  {
    RoundTripFrom([], ps);
    assert [] + NonEmpty(ps) == NonEmpty(ps);
    NonEmptyIsAll(ps);
  }

  lemma {:induction false} NonEmptyIsAll(ps: seq<ByteVector>)
    ensures |NonEmpty(ps)| <= |ps|
    ensures NonEmpty(ps) == ps <==> forall i :: 0 <= i < |ps| ==> |ps[i]| > 0
  {
    if |ps| > 0 {
      NonEmptyIsAll(ps[1..]);
      if |ps[0]| > 0 {
        assert NonEmpty(ps)[1..] == NonEmpty(ps[1..]);
        assert ps == [ps[0]] + ps[1..];
        assert forall i :: 1 <= i < |ps| ==> ps[i] == ps[1..][i - 1];
      }
    }
  }

  /** A burst of at most 16 consecutive bits in the unescaped content of a frame
      is never delivered. */
  lemma CorruptionNotDelivered(p: ByteVector, body: ByteVector, k: nat)
    requires AgreeOutside(Bits(p + FcsBytes(p)), Bits(body), k)
    requires body != p + FcsBytes(p)
    ensures Payload(body) == None
  {
    hide FcsBytes, Bits, AgreeOutside, Accepts;
    var q := Payload(body);
    if q.Some? {
      FrameAccepted(p);
      FrameAccepted(q.value);
      BurstDetected(p + FcsBytes(p), body, k);
    }
  }

  /** A decoder outside an escape that is fed such a corrupted frame, between its
      flags, delivers what its buffer already held and nothing more. */
  lemma CorruptFrameDropped(d: Decoder, p: ByteVector, body: ByteVector, k: nat)
    requires d.mode != Escape
    requires AgreeOutside(Bits(p + FcsBytes(p)), Bits(body), k)
    requires body != p + FcsBytes(p)
    ensures Feed(d, [PADDING] + Stuff(body) + [PADDING]) == Decoder(PacketComplete, [], Delivered(d.frames, d.buffer))
  {
    CorruptionNotDelivered(p, body, k);
    hide FcsBytes, Bits, AgreeOutside, Stuff, Payload;
    var e := Step(d, PADDING);
    FeedAppend(d, [PADDING] + Stuff(body), [PADDING]);
    FeedAppend(d, [PADDING], Stuff(body));
    FeedOne(d, PADDING);
    FeedStuffed(e, body);
    FeedOne(Feed(e, Stuff(body)), PADDING);
    assert [] + body == body;
  }

  lemma FrameAccepted(p: ByteVector)
    ensures Accepts(p + FcsBytes(p))
  {
    hide Accepts;
    var f := FcsBytes(p);
    AcceptsIffChecksum(p, f[0], f[1]);
    assert f == [f[0], f[1]];
  }
}
