/**
  Envelopes on the wire, and the chunks they travel in over a peer-to-peer data channel.
 */
module Frames {
  import opened Basics

  // ---------------------------------------------------------------- numbers in big-endian

  function U16(n: nat): Bytes
    requires n < 0x1_0000
  {
    [n / 0x100, n % 0x100]
  }

  function U32(n: nat): Bytes
    requires n < 0x1_0000_0000
  {
    U16(n / 0x1_0000) + U16(n % 0x1_0000)
  }

  function FromU16(b: Bytes): nat
    requires |b| == 2
  {
    var hi: int, lo: int := b[0], b[1];
    hi * 0x100 + lo
  }

  function FromU32(b: Bytes): (n: nat)
    requires |b| == 4
    ensures n < 0x1_0000_0000
  {
    FromU16(b[..2]) * 0x1_0000 + FromU16(b[2..])
  }

  lemma U16Back(n: nat)
    requires n < 0x1_0000
    ensures FromU16(U16(n)) == n
  {
  }

  lemma U16Forth(b: Bytes)
    requires |b| == 2
    ensures FromU16(b) < 0x1_0000 && U16(FromU16(b)) == b
  {
  }

  lemma U32Back(n: nat)
    requires n < 0x1_0000_0000
    ensures |U32(n)| == 4 && FromU32(U32(n)) == n
  {
    U16Back(n / 0x1_0000);
    U16Back(n % 0x1_0000);
    assert U32(n)[..2] == U16(n / 0x1_0000) && U32(n)[2..] == U16(n % 0x1_0000);
  }

  lemma U32Forth(b: Bytes)
    requires |b| == 4
    ensures U32(FromU32(b)) == b
  {
    U16Forth(b[..2]);
    U16Forth(b[2..]);
    var n := FromU32(b);
    assert n / 0x1_0000 == FromU16(b[..2]) && n % 0x1_0000 == FromU16(b[2..]);
    assert b == b[..2] + b[2..];
  }

  // ---------------------------------------------------------------- envelopes

  const VERSION: Byte := 1
  const HEADER := 24
  const MAX_PAYLOAD := 262144

  datatype Frame = Frame(version: Byte, typ: Byte, flags: nat, route: Bytes, payload: Bytes)

  predicate KnownType(typ: Byte) { typ in {1, 2, 3, 4, 5, 6, 7, 8, 9, 11, 12, 13, 14, 15} }

  predicate Valid(f: Frame) {
    f.version == VERSION && f.flags == 0 && |f.payload| <= MAX_PAYLOAD && KnownType(f.typ)
  }

  // A frame of the source's type: sixteen route bytes and sixteen bits of flags.
  predicate Typed(f: Frame) { |f.route| == 16 && f.flags < 0x1_0000 }

  function Stamped(f: Frame): Frame { if f.version == 0 then f.(version := VERSION) else f }

  function Encode(f: Frame): (r: Option<Bytes>)
    requires Typed(f)
    ensures r.Some? <==> Valid(Stamped(f))
    ensures r.Some? ==> |r.value| == HEADER + |f.payload|
  {
    var g := Stamped(f);
    if !Valid(g) then None
    else Some([g.version, g.typ] + U16(g.flags) + U32(|g.payload|) + g.route + g.payload)
  }

  function Decode(b: Bytes): (r: Option<Frame>)
    ensures r.Some? ==> Typed(r.value) && Valid(r.value)
  {
    if |b| < HEADER then None
    else
      var n := FromU32(b[4..8]);
      if n > MAX_PAYLOAD || n + HEADER != |b| then None
      else
        var f := Frame(b[0], b[1], FromU16(b[2..4]), b[8..24], b[24..]);
        if Valid(f) then Some(f) else None
  }

  // Whatever is encoded decodes to the same frame with its version filled in.
  lemma DecodeEncode(f: Frame)
    requires Typed(f) && Encode(f).Some?
    ensures Decode(Encode(f).value) == Some(Stamped(f))
  {
    var g, b := Stamped(f), Encode(f).value;
    U32Back(|g.payload|);
    U16Back(g.flags);
    assert b[2..4] == U16(g.flags) && b[4..8] == U32(|g.payload|);
    assert b[8..24] == g.route && b[24..] == g.payload;
  }

  // And whatever decodes is what its frame encodes to: there is one form of every frame.
  lemma EncodeDecode(b: Bytes)
    requires Decode(b).Some?
    ensures Encode(Decode(b).value) == Some(b)
  {
    var f := Decode(b).value;
    U32Forth(b[4..8]);
    U16Forth(b[2..4]);
    assert b == [b[0], b[1]] + b[2..4] + b[4..8] + b[8..24] + b[24..];
  }

  // ---------------------------------------------------------------- chunks

  const CHUNK_HEADER := 12
  const CHUNK_DATA := 16372
  const MAX_FRAME := 262168
  const MAGIC: Bytes := [0x50, 0x46, 0x50, 0x32]

  predicate Splittable(frame: Bytes) { HEADER <= |frame| <= MAX_FRAME }

  lemma EncodableIsSplittable(f: Frame)
    requires Typed(f) && Encode(f).Some?
    ensures Splittable(Encode(f).value)
  {
  }

  function Min(a: nat, b: nat): nat { if a <= b then a else b }

  function ChunkAt(frame: Bytes, offset: nat): Bytes
    requires Splittable(frame) && offset < |frame|
  {
    MAGIC + U32(|frame|) + U32(offset) + frame[offset..Min(offset + CHUNK_DATA, |frame|)]
  }

  // The chunks of a frame from an offset on.
  ghost function Chunks(frame: Bytes, offset: nat): seq<Bytes>
    requires Splittable(frame)
    decreases |frame| - offset
  {
    if offset >= |frame| then []
    else [ChunkAt(frame, offset)] + Chunks(frame, offset + CHUNK_DATA)
  }

  method Split(frame: Bytes) returns (chunks: Option<seq<Bytes>>)
    ensures chunks.Some? <==> Splittable(frame)
    ensures chunks.Some? ==> chunks.value == Chunks(frame, 0)
  {
    if |frame| < HEADER || |frame| > MAX_FRAME { return None; }
    var made, offset := [], 0;
    while offset < |frame|
      invariant offset >= 0 && made + Chunks(frame, offset) == Chunks(frame, 0)
    {
      var end := if offset + CHUNK_DATA < |frame| then offset + CHUNK_DATA else |frame|;
      var chunk := MAGIC + U32(|frame|) + U32(offset) + frame[offset..end];
      assert made + ([chunk] + Chunks(frame, offset + CHUNK_DATA))
          == (made + [chunk]) + Chunks(frame, offset + CHUNK_DATA);
      made := made + [chunk];
      offset := offset + CHUNK_DATA;
    }
    assert made + [] == made;
    chunks := Some(made);
  }

  // ---------------------------------------------------------------- the assembler

  datatype Assembler = Assembler(total: nat, data: Bytes)
  datatype Pushed = Refused | More | Whole(frame: Bytes)

  const EMPTY := Assembler(0, [])

  function Total(chunk: Bytes): nat
    requires |chunk| >= CHUNK_HEADER
  {
    FromU32(chunk[4..8])
  }

  function Offset(chunk: Bytes): nat
    requires |chunk| >= CHUNK_HEADER
  {
    FromU32(chunk[8..12])
  }

  // What is wrong with a chunk by itself.
  predicate WellFormed(chunk: Bytes) {
    && CHUNK_HEADER < |chunk| <= CHUNK_HEADER + CHUNK_DATA && chunk[..4] == MAGIC
    && HEADER <= Total(chunk) <= MAX_FRAME
    && Offset(chunk) < Total(chunk) && Offset(chunk) + |chunk| - CHUNK_HEADER <= Total(chunk)
  }

  // Whether it continues what the assembler has.
  predicate Fits(a: Assembler, chunk: Bytes)
    requires WellFormed(chunk)
  {
    if Offset(chunk) == 0 then a.data == [] else a.total == Total(chunk) && Offset(chunk) == |a.data|
  }

  predicate Accepted(a: Assembler, chunk: Bytes) { WellFormed(chunk) && Fits(a, chunk) }

  function Push(a: Assembler, chunk: Bytes): (Assembler, Pushed) {
    if !Accepted(a, chunk) then (a, Refused)
    else
      var data := (if Offset(chunk) == 0 then [] else a.data) + chunk[CHUNK_HEADER..];
      if |data| != Total(chunk) then (Assembler(Total(chunk), data), More) else (EMPTY, Whole(data))
  }

  // A buffer in use is shorter than the frame it was announced as, which is bounded.
  ghost predicate Bounded(a: Assembler) {
    a == EMPTY || (0 < |a.data| < a.total && HEADER <= a.total <= MAX_FRAME)
  }

  lemma PushKeeps(a: Assembler, chunk: Bytes)
    requires Bounded(a)
    ensures Bounded(Push(a, chunk).0)
    ensures Push(a, chunk).1.Whole? ==> Splittable(Push(a, chunk).1.frame) && |Push(a, chunk).1.frame| == Total(chunk)
  {
  }

  ghost function Assembled(a: Assembler, chunks: seq<Bytes>): Assembler
    decreases |chunks|
  {
    if chunks == [] then a else Assembled(Push(a, chunks[0]).0, chunks[1..])
  }

  ghost function Emitted(a: Assembler, chunks: seq<Bytes>): seq<Bytes>
    decreases |chunks|
  {
    if chunks == [] then []
    else
      var r := Push(a, chunks[0]);
      (if r.1.Whole? then [r.1.frame] else []) + Emitted(r.0, chunks[1..])
  }

  ghost predicate AllAccepted(a: Assembler, chunks: seq<Bytes>)
    decreases |chunks|
  {
    chunks == [] || (Accepted(a, chunks[0]) && AllAccepted(Push(a, chunks[0]).0, chunks[1..]))
  }

  ghost function Concat(parts: seq<Bytes>): Bytes {
    if parts == [] then [] else parts[0] + Concat(parts[1..])
  }

  ghost function Payloads(chunks: seq<Bytes>): Bytes {
    if chunks == [] then []
    else (if |chunks[0]| >= CHUNK_HEADER then chunks[0][CHUNK_HEADER..] else []) + Payloads(chunks[1..])
  }

  // Over any accepted stream nothing is lost, added or reordered, and the buffer stays in
  // its bounds.
  lemma {:induction false} AssemblyConserves(a: Assembler, chunks: seq<Bytes>)
    requires Bounded(a) && AllAccepted(a, chunks)
    ensures a.data + Payloads(chunks) == Concat(Emitted(a, chunks)) + Assembled(a, chunks).data
    ensures Bounded(Assembled(a, chunks))
    ensures forall i :: 0 <= i < |Emitted(a, chunks)| ==> Splittable(Emitted(a, chunks)[i])
    decreases |chunks|
  {
    hide Push, Bounded, Splittable, Accepted;
    if chunks == [] {
      assert a.data + [] == [] + a.data;
    } else {
      PushKeeps(a, chunks[0]);
      PushData(a, chunks[0]);
      var r := Push(a, chunks[0]);
      AssemblyConserves(r.0, chunks[1..]);
      ConserveOne(a.data, chunks[0][CHUNK_HEADER..], r, Payloads(chunks[1..]),
                  Emitted(r.0, chunks[1..]), Assembled(r.0, chunks[1..]).data);
    }
  }

  // One push moves its payload into the buffer or, with the buffer, out as a frame.
  lemma ConserveOne(data: Bytes, piece: Bytes, r: (Assembler, Pushed), rest: Bytes, later: seq<Bytes>, end: Bytes)
    requires r.0.data + rest == Concat(later) + end
    requires if r.1.Whole? then r.1.frame == data + piece && r.0.data == [] else r.0.data == data + piece
    ensures data + (piece + rest) == Concat((if r.1.Whole? then [r.1.frame] else []) + later) + end
  {
    assert data + (piece + rest) == (data + piece) + rest;
    if r.1.Whole? {
      ConcatCons(r.1.frame, later);
      assert [] + rest == rest;
      assert r.1.frame + (Concat(later) + end) == (r.1.frame + Concat(later)) + end;
    } else {
      assert [] + later == later;
    }
  }

  lemma ConcatCons(part: Bytes, parts: seq<Bytes>)
    ensures Concat([part] + parts) == part + Concat(parts)
  {
    assert ([part] + parts)[1..] == parts;
  }

  lemma PushData(a: Assembler, chunk: Bytes)
    requires Bounded(a) && Accepted(a, chunk)
    ensures var r := Push(a, chunk);
      && (r.1 == More ==> r.0.data == a.data + chunk[CHUNK_HEADER..])
      && (r.1.Whole? ==> r.1.frame == a.data + chunk[CHUNK_HEADER..] && r.0.data == [])
      && r.1 != Refused && |chunk| >= CHUNK_HEADER
  {
    assert [] + chunk[CHUNK_HEADER..] == chunk[CHUNK_HEADER..];
  }

  // ---------------------------------------------------------------- splitting and assembling

  // Halfway through a frame.
  ghost function Partial(frame: Bytes, offset: nat): Assembler
    requires offset <= |frame|
  {
    if offset == 0 then EMPTY else Assembler(|frame|, frame[..offset])
  }

  lemma ChunkIs(frame: Bytes, offset: nat)
    requires Splittable(frame) && offset < |frame|
    ensures var c := ChunkAt(frame, offset);
      WellFormed(c) && Total(c) == |frame| && Offset(c) == offset
      && c[CHUNK_HEADER..] == frame[offset..Min(offset + CHUNK_DATA, |frame|)]
  {
    var c := ChunkAt(frame, offset);
    U32Back(|frame|);
    U32Back(offset);
    assert c[..4] == MAGIC && c[4..8] == U32(|frame|) && c[8..12] == U32(offset);
  }

  lemma PushChunk(frame: Bytes, offset: nat)
    requires Splittable(frame) && offset < |frame|
    ensures var r, end := Push(Partial(frame, offset), ChunkAt(frame, offset)), offset + CHUNK_DATA;
      if end < |frame| then r == (Partial(frame, end), More) else r == (EMPTY, Whole(frame))
  {
    hide FromU32, U32;
    ChunkIs(frame, offset);
    var end := Min(offset + CHUNK_DATA, |frame|);
    assert frame[..offset] + frame[offset..end] == frame[..end];
    assert frame[..|frame|] == frame && [] + frame[0..Min(CHUNK_DATA, |frame|)] == frame[..Min(CHUNK_DATA, |frame|)];
  }

  lemma {:induction false} FrameRoundTrip(frame: Bytes, offset: nat)
    requires Splittable(frame) && offset < |frame|
    ensures Assembled(Partial(frame, offset), Chunks(frame, offset)) == EMPTY
    ensures Emitted(Partial(frame, offset), Chunks(frame, offset)) == [frame]
    decreases |frame| - offset
  {
    hide Push, ChunkAt;
    PushChunk(frame, offset);
    var rest := Chunks(frame, offset + CHUNK_DATA);
    assert Chunks(frame, offset)[1..] == rest && Chunks(frame, offset)[0] == ChunkAt(frame, offset);
    if offset + CHUNK_DATA < |frame| {
      FrameRoundTrip(frame, offset + CHUNK_DATA);
    } else {
      assert rest == [];
    }
  }

  ghost function AllChunks(frames: seq<Bytes>): seq<Bytes>
    requires forall i :: 0 <= i < |frames| ==> Splittable(frames[i])
  {
    if frames == [] then [] else Chunks(frames[0], 0) + AllChunks(frames[1..])
  }

  lemma {:induction false} AssembleConcat(a: Assembler, x: seq<Bytes>, y: seq<Bytes>)
    ensures Assembled(a, x + y) == Assembled(Assembled(a, x), y)
    ensures Emitted(a, x + y) == Emitted(a, x) + Emitted(Assembled(a, x), y)
    decreases |x|
  {
    hide Push;
    if x == [] {
      assert x + y == y;
    } else {
      assert (x + y)[1..] == x[1..] + y;
      AssembleConcat(Push(a, x[0]).0, x[1..], y);
    }
  }

  lemma SplittableIsLong(frame: Bytes)
    requires Splittable(frame)
    ensures |frame| >= HEADER
  {
  }

  // The chunks of any frames, one after the other, yield those frames and an empty assembler.
  lemma {:induction false} StreamRoundTrip(frames: seq<Bytes>)
    requires forall i :: 0 <= i < |frames| ==> Splittable(frames[i])
    ensures Assembled(EMPTY, AllChunks(frames)) == EMPTY && Emitted(EMPTY, AllChunks(frames)) == frames
    decreases |frames|
  {
    hide Push, Chunks, Splittable;
    if frames != [] {
      assert frames[0] != [] by { SplittableIsLong(frames[0]); }
      FrameRoundTrip(frames[0], 0);
      StreamRoundTrip(frames[1..]);
      AssembleConcat(EMPTY, Chunks(frames[0], 0), AllChunks(frames[1..]));
    }
  }

  class FrameAssembler {
    var total: nat
    var data: Bytes

    ghost function Abs(): Assembler
      reads this
    {
      Assembler(total, data)
    }

    constructor ()
      ensures Abs() == EMPTY
    {
      total, data := 0, [];
    }

    method PushChunk(chunk: Bytes) returns (r: Pushed)
      requires Bounded(Abs())
      modifies this
      ensures (Abs(), r) == Push(old(Abs()), chunk)
    {
      if |chunk| <= CHUNK_HEADER || |chunk| > CHUNK_HEADER + CHUNK_DATA || chunk[..4] != MAGIC { return Refused; }
      var all, offset := FromU32(chunk[4..8]), FromU32(chunk[8..12]);
      if all < HEADER || all > MAX_FRAME || offset >= all || offset + |chunk| - CHUNK_HEADER > all { return Refused; }
      if offset == 0 {
        if |data| != 0 { return Refused; }
        total, data := all, [];
      }
      if total != all || offset != |data| { return Refused; }
      data := data + chunk[CHUNK_HEADER..];
      if |data| != total { return More; }
      var frame := data;
      total, data := 0, [];
      r := Whole(frame);
    }
  }
}
