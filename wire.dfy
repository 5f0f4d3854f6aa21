/**
 * The OpenIMU binary log format: a stream of chunks, each one ASCII tag byte
 * followed by a fixed-size payload laid out with the native `struct` rules
 * of the logger (little-endian, natural alignment).
 *
 *   'h'  new log stream, no payload
 *   't'  timestamp, one signed 32-bit integer             (calcsize("i")  = 4)
 *   'i'  IMU sample, nine 32-bit floats                   (calcsize("9f") = 36)
 *   'g'  GPS sample, a bool, 3 padding bytes, three floats (calcsize("?3f") = 16)
 *   'p'  power sample, two floats                         (calcsize("2f") = 8)
 *   'b'  barometer sample, two floats                     (calcsize("2f") = 8)
 *
 * Float payloads are kept as opaque byte strings of the right length.
 */
module Wire {
  import opened Util

  const TagStream: byte := 104  // 'h'
  const TagTime: byte := 116    // 't'
  const TagImu: byte := 105     // 'i'
  const TagGps: byte := 103     // 'g'
  const TagPower: byte := 112   // 'p'
  const TagBaro: byte := 98     // 'b'

  /** calcsize("i") */
  const TimeSize: nat := 4

  /** The four sample streams of a log; the order is the source's dictionary order. */
  datatype Kind = Gps | Power | Imu | Baro

  function Tag(k: Kind): byte
  {
    match k
    case Gps => TagGps
    case Power => TagPower
    case Imu => TagImu
    case Baro => TagBaro
  }

  /** A `struct` format code: `?`, `i` or `f`. */
  datatype Code = Bool | Int | Float

  /** The size, and under native rules the alignment, of one item. */
  function CodeSize(c: Code): nat
  {
    match c
    case Bool => 1
    case Int => 4
    case Float => 4
  }

  /** `off` rounded up to a multiple of `a`. */
  function AlignUp(off: nat, a: nat): (r: nat)
    requires a > 0
    ensures off <= r < off + a
  {
    off + (a - off % a) % a
  }

  /** `struct.calcsize` under native rules: each item aligned to its own size, no trailing padding. */
  function CalcSize(fmt: seq<Code>): nat
  {
    if fmt == [] then 0
    else
      var last := fmt[|fmt| - 1];
      AlignUp(CalcSize(fmt[..|fmt| - 1]), CodeSize(last)) + CodeSize(last)
  }

  /** The byte offset at which item `i` of `fmt` is stored. */
  function Offset(fmt: seq<Code>, i: nat): nat
    requires i < |fmt|
  {
    AlignUp(CalcSize(fmt[..i]), CodeSize(fmt[i]))
  }

  /** The format string each sample kind is unpacked with (OpenIMUImporter.py lines 336-364). */
  function Format(k: Kind): seq<Code>
  {
    match k
    case Imu => [Float, Float, Float, Float, Float, Float, Float, Float, Float]
    case Gps => [Bool, Float, Float, Float]
    case Power => [Float, Float]
    case Baro => [Float, Float]
  }

  /** Payload size of a sample chunk, as `struct.calcsize` gives it natively. */
  function PayloadSize(k: Kind): nat
  {
    match k
    case Imu => 36    // "9f"
    case Gps => 16    // "?3f": 1 + 3 (alignment) + 12
    case Power => 8   // "2f"
    case Baro => 8    // "2f"
  }

  /** The payload sizes are the native `struct.calcsize` of the sample formats. */
  lemma PayloadSizeCalcsize(k: Kind)
    ensures PayloadSize(k) == CalcSize(Format(k))
  {
    if k == Gps {
      GpsLayout();
    } else {
      FloatsSize(Format(k));
    }
  }

  /** Every float of a sample format, numbered from 0 after the GPS bool, is stored at byte `4 * c`. */
  lemma FloatOffsets(k: Kind, c: nat)
    requires c < |Format(k)| && Format(k)[c] == Float
    ensures Offset(Format(k), c) == 4 * c
  {
    var fmt := Format(k);
    var before := CalcSize(fmt[..c]);
    if k != Gps {
      FloatsSize(fmt[..c]);
      assert before == 4 * c;
    } else {
      GpsLayout();
      assert before == if c == 1 then 1 else 4 * c;
    }
    FloatAligned(before, c);
  }

  /** An offset of at most `4 * c` above `4 * c - 4` rounds up to `4 * c`. */
  lemma FloatAligned(off: nat, c: nat)
    requires c > 0 ==> 4 * c - 4 < off <= 4 * c
    requires c == 0 ==> off == 0
    ensures AlignUp(off, 4) == 4 * c
  {
    var q := if c == 0 then 0 else c - 1;
    var r := off - 4 * q;
    assert off == 4 * q + r && 0 <= r <= 4;
    if r == 4 {
      assert off % 4 == 0;
    } else {
      assert off % 4 == r;
    }
  }

  /** The sizes of the prefixes of the GPS format: the bool, then three floats after 3 padding bytes. */
  lemma GpsLayout()
    ensures var fmt := Format(Gps);
      && CalcSize(fmt[..1]) == 1 && CalcSize(fmt[..2]) == 8
      && CalcSize(fmt[..3]) == 12 && CalcSize(fmt) == 16
  {
    var fmt := Format(Gps);
    assert fmt[..1] == [Bool] && [Bool][..0] == [];
    assert fmt[..2][..1] == fmt[..1];
    assert fmt[..3][..2] == fmt[..2];
    assert fmt[..3] == fmt[..|fmt| - 1];
  }

  /** A run of `n` floats takes `4 * n` bytes. */
  lemma {:induction false} FloatsSize(fmt: seq<Code>)
    requires forall i :: 0 <= i < |fmt| ==> fmt[i] == Float
    ensures CalcSize(fmt) == 4 * |fmt|
  {
    if fmt != [] {
      FloatsSize(fmt[..|fmt| - 1]);
    }
  }

  /** The timestamp payload is one native `i`. */
  lemma TimeSizeCalcsize()
    ensures TimeSize == CalcSize([Int])
  {
    assert [Int][..0] == [];
  }

  /** The sample kind announced by a tag byte, if it announces one. */
  function KindOf(tag: byte): (k: Option<Kind>)
    ensures k.Some? ==> Tag(k.value) == tag
    ensures k.None? ==> forall kind: Kind :: Tag(kind) != tag
  {
    if tag == TagImu then Some(Imu)
    else if tag == TagGps then Some(Gps)
    else if tag == TagPower then Some(Power)
    else if tag == TagBaro then Some(Baro)
    else None
  }

  /** Tags 'h' and 't' are not sample tags, and each sample tag names its own kind. */
  lemma KindOfTag(k: Kind)
    ensures KindOf(Tag(k)) == Some(k)
    ensures Tag(k) != TagStream && Tag(k) != TagTime
  {
  }

  // ---------------------------------------------------------------------------
  // Timestamps: a signed 32-bit little-endian integer

  const Two32: int := 0x1_0000_0000
  const Two31: int := 0x8000_0000

  predicate IsInt32(v: int)
  {
    -Two31 <= v < Two31
  }

  /** Little-endian two's-complement decoding of four bytes. */
  function DecodeInt32(b: seq<byte>): (v: int)
    requires |b| == TimeSize
    ensures IsInt32(v)
    ensures (v < 0) == (b[3] >= 128)
  {
    var b0: int, b1: int, b2: int, b3: int := b[0], b[1], b[2], b[3];
    var u := b0 + 256 * (b1 + 256 * (b2 + 256 * b3));
    if u >= Two31 then u - Two32 else u
  }

  /** The bytes a logger writes for a 32-bit timestamp. */
  function EncodeInt32(v: int): (b: seq<byte>)
    requires IsInt32(v)
    ensures |b| == TimeSize
  {
    var u := if v < 0 then v + Two32 else v;
    [u % 256, (u / 256) % 256, (u / 65536) % 256, u / 16777216]
  }

  lemma DecodeEncodeInt32(v: int)
    requires IsInt32(v)
    ensures DecodeInt32(EncodeInt32(v)) == v
  {
    var u := if v < 0 then v + Two32 else v;
    var b := EncodeInt32(v);
    var q1 := u / 256;
    var q2 := q1 / 256;
    assert u == b[0] + 256 * q1;
    assert q1 == b[1] + 256 * q2;
    assert u / 65536 == q2;
    var b0: int, b1: int, b2: int, b3: int := b[0], b[1], b[2], b[3];
    assert q2 == b2 + 256 * b3;
    assert b0 + 256 * (b1 + 256 * (b2 + 256 * b3)) == u;
  }

  lemma EncodeDecodeInt32(b: seq<byte>)
    requires |b| == TimeSize
    ensures EncodeInt32(DecodeInt32(b)) == b
  {
    var b0: int, b1: int, b2: int, b3: int := b[0], b[1], b[2], b[3];
    var h := b2 + 256 * b3;
    var q := b1 + 256 * h;
    var u := b0 + 256 * q;
    assert u / 256 == q && u % 256 == b0;
    assert q / 256 == h && q % 256 == b1;
    assert u / 65536 == h by {
      assert u == b0 + b1 * 256 + h * 65536;
    }
    assert u / 16777216 == b3 by {
      assert u == (b0 + b1 * 256 + b2 * 65536) + b3 * 16777216;
    }
  }

  // ---------------------------------------------------------------------------
  // Chunks

  datatype Chunk = NewStream | Time(ts: int) | Sample(kind: Kind, payload: seq<byte>)

  /** A chunk that some log bytes can carry. */
  predicate ValidChunk(c: Chunk)
  {
    match c
    case NewStream => true
    case Time(ts) => IsInt32(ts)
    case Sample(k, p) => |p| == PayloadSize(k)
  }

  predicate ValidChunks(cs: seq<Chunk>)
  {
    forall i :: 0 <= i < |cs| ==> ValidChunk(cs[i])
  }

  function Encode(c: Chunk): (b: seq<byte>)
    requires ValidChunk(c)
    ensures |b| > 0
  {
    match c
    case NewStream => [TagStream]
    case Time(ts) => [TagTime] + EncodeInt32(ts)
    case Sample(k, p) => [Tag(k)] + p
  }

  function Serialize(cs: seq<Chunk>): (b: seq<byte>)
    requires ValidChunks(cs)
  {
    if cs == [] then [] else Encode(cs[0]) + Serialize(cs[1..])
  }

  /** What one read at a tag boundary yields. */
  datatype ChunkRead =
    | Unknown(tag: byte)          // unrecognised tag: the parse stops
    | Short(tag: byte)            // payload cut off by the end of the file
    | Next(chunk: Chunk, size: nat)

  /** Reads the chunk that starts at the head of `data`. */
  function ReadChunk(data: seq<byte>): (r: ChunkRead)
    requires |data| > 0
    ensures r.Unknown? <==> data[0] != TagStream && data[0] != TagTime && KindOf(data[0]).None?
    ensures r.Unknown? || r.Short? ==> r.tag == data[0]
    ensures r.Short? ==>
              || (data[0] == TagTime && |data| < 1 + TimeSize)
              || (KindOf(data[0]).Some? && |data| < 1 + PayloadSize(KindOf(data[0]).value))
    ensures r.Next? ==> ValidChunk(r.chunk) && r.size == |Encode(r.chunk)| && r.size <= |data|
  {
    var tag := data[0];
    if tag == TagStream then Next(NewStream, 1)
    else if tag == TagTime then
      if |data| < 1 + TimeSize then Short(tag)
      else
        Next(Time(DecodeInt32(data[1..1 + TimeSize])), 1 + TimeSize)
    else match KindOf(tag)
      case None => Unknown(tag)
      case Some(k) =>
        if |data| < 1 + PayloadSize(k) then Short(tag)
        else Next(Sample(k, data[1..1 + PayloadSize(k)]), 1 + PayloadSize(k))
  }

  /** A chunk read whole is exactly the bytes it was read from. */
  lemma ReadChunkBytes(data: seq<byte>)
    requires |data| > 0 && ReadChunk(data).Next?
    ensures data[..ReadChunk(data).size] == Encode(ReadChunk(data).chunk)
  {
    var tag := data[0];
    if tag == TagTime {
      var b := data[1..1 + TimeSize];
      EncodeDecodeInt32(b);
      assert data[..1 + TimeSize] == [tag] + b;
    } else if tag != TagStream {
      var k := KindOf(tag).value;
      assert data[..1 + PayloadSize(k)] == [tag] + data[1..1 + PayloadSize(k)];
    }
  }

  /** Why framing stopped. */
  datatype Stop = EndOfInput | UnknownTag(tag: byte) | Truncated(tag: byte)

  /** The chunks read from a file, why reading stopped, and the bytes left unread. */
  datatype Framing = Framing(chunks: seq<Chunk>, stop: Stop, rest: seq<byte>)

  /**
   * Splits a log into chunks, as the read loop of `readDataFile` does: the end
   * of input at a tag boundary ends normally, an unknown tag stops, and a
   * payload cut short by the end of input is reported as truncated.
   */
  function Frame(data: seq<byte>): (f: Framing)
    ensures ValidChunks(f.chunks)
    decreases |data|
  {
    if |data| == 0 then Framing([], EndOfInput, [])
    else match ReadChunk(data)
      case Unknown(t) => Framing([], UnknownTag(t), data)
      case Short(t) => Framing([], Truncated(t), data)
      case Next(c, n) =>
        var f := Frame(data[n..]);
        SerializeCons(c, f.chunks);
        Framing([c] + f.chunks, f.stop, f.rest)
  }

  lemma SplitAt(data: seq<byte>, n: nat, head: seq<byte>, body: seq<byte>, rest: seq<byte>)
    requires n <= |data| && data[..n] == head && body + rest == data[n..]
    ensures (head + body) + rest == data
  {
    assert data == data[..n] + data[n..];
  }

  lemma SerializeCons(c: Chunk, cs: seq<Chunk>)
    requires ValidChunk(c) && ValidChunks(cs)
    ensures ValidChunks([c] + cs)
    ensures Serialize([c] + cs) == Encode(c) + Serialize(cs)
  {
    assert ([c] + cs)[1..] == cs;
  }

  /**
   * Framing consumes the input exactly: the chunks it returns, written back,
   * followed by the unread rest, are the input. It stops only at the end of
   * input (nothing left), at a tag that is not one of the six, or at a chunk
   * whose payload the input cuts off.
   */
  lemma {:induction false} FrameConsumes(data: seq<byte>)
    ensures var f := Frame(data);
      && Serialize(f.chunks) + f.rest == data
      && (f.stop.EndOfInput? <==> f.rest == [])
      && (f.stop.UnknownTag? ==> f.rest != [] && ReadChunk(f.rest) == Unknown(f.stop.tag))
      && (f.stop.Truncated? ==> f.rest != [] && ReadChunk(f.rest) == Short(f.stop.tag))
    decreases |data|
  {
    if |data| > 0 {
      match ReadChunk(data)
      case Unknown(t) =>
      case Short(t) =>
      case Next(c, n) =>
        var f := Frame(data[n..]);
        FrameConsumes(data[n..]);
        ReadChunkBytes(data);
        SerializeCons(c, f.chunks);
        SplitAt(data, n, Encode(c), Serialize(f.chunks), f.rest);
    }
  }

  /** A well-formed chunk is read back as itself, whatever follows it. */
  lemma ReadEncoded(c: Chunk, tail: seq<byte>)
    requires ValidChunk(c)
    ensures ReadChunk(Encode(c) + tail) == Next(c, |Encode(c)|)
  {
    var data := Encode(c) + tail;
    match c
    case NewStream =>
    case Time(ts) =>
      assert data[1..1 + TimeSize] == EncodeInt32(ts);
      DecodeEncodeInt32(ts);
    case Sample(k, p) =>
      KindOfTag(k);
      assert data[1..1 + PayloadSize(k)] == p;
  }

  /** Framing a whole chunk reads it and continues with the bytes that follow it. */
  lemma FrameEncoded(c: Chunk, after: seq<byte>)
    requires ValidChunk(c)
    ensures var f := Frame(after); Frame(Encode(c) + after) == Framing([c] + f.chunks, f.stop, f.rest)
  {
    var data := Encode(c) + after;
    ReadEncoded(c, after);
    assert data[|Encode(c)|..] == after;
  }

  /** Framing the serialization of chunks gives those chunks back, then frames what follows. */
  lemma {:induction false} FrameSerialize(cs: seq<Chunk>, tail: seq<byte>)
    requires ValidChunks(cs)
    ensures Frame(Serialize(cs) + tail) == Framing(cs + Frame(tail).chunks, Frame(tail).stop, Frame(tail).rest)
  {
    if cs == [] {
      assert Serialize(cs) + tail == tail;
    } else {
      var more := cs[1..];
      assert ValidChunks(more) by {
        forall i | 0 <= i < |more| ensures ValidChunk(more[i]) { assert more[i] == cs[i + 1]; }
      }
      FrameSerialize(more, tail);
      FrameSerializeStep(cs, tail);
    }
  }

  /** The inductive step of FrameSerialize, given its hypothesis for the shorter list. */
  lemma FrameSerializeStep(cs: seq<Chunk>, tail: seq<byte>)
    requires |cs| > 0 && ValidChunks(cs) && ValidChunks(cs[1..])
    requires var f := Frame(tail); Frame(Serialize(cs[1..]) + tail) == Framing(cs[1..] + f.chunks, f.stop, f.rest)
    ensures var f := Frame(tail); Frame(Serialize(cs) + tail) == Framing(cs + f.chunks, f.stop, f.rest)
  {
    var c, more := cs[0], cs[1..];
    var after := Serialize(more) + tail;
    assert Serialize(cs) == Encode(c) + Serialize(more);
    AppendAssoc(Encode(c), Serialize(more), tail);
    FrameEncoded(c, after);
    ConsAppend(cs, Frame(tail).chunks);
  }

  lemma ConsAppend<T>(xs: seq<T>, ys: seq<T>)
    requires |xs| > 0
    ensures xs + ys == [xs[0]] + (xs[1..] + ys)
  {
    assert xs == [xs[0]] + xs[1..];
  }

  /** Serializing one more chunk appends its bytes. */
  lemma {:induction false} SerializeSnoc(cs: seq<Chunk>, c: Chunk)
    requires ValidChunks(cs) && ValidChunk(c)
    ensures ValidChunks(cs + [c]) && Serialize(cs + [c]) == Serialize(cs) + Encode(c)
  {
    assert ValidChunks(cs + [c]) by {
      forall i | 0 <= i < |cs + [c]| ensures ValidChunk((cs + [c])[i]) {
        if i < |cs| { assert (cs + [c])[i] == cs[i]; }
      }
    }
    if cs == [] {
      assert cs + [c] == [c];
    } else {
      var more := cs[1..];
      assert ValidChunks(more) by {
        forall i | 0 <= i < |more| ensures ValidChunk(more[i]) { assert more[i] == cs[i + 1]; }
      }
      SerializeSnoc(more, c);
      assert (cs + [c])[0] == cs[0] && (cs + [c])[1..] == more + [c];
      AppendAssoc(Encode(cs[0]), Serialize(more), Encode(c));
    }
  }

  /** Round trip: a log written as whole chunks is framed into exactly those chunks. */
  lemma FrameRoundTrip(cs: seq<Chunk>)
    requires ValidChunks(cs)
    ensures Frame(Serialize(cs)) == Framing(cs, EndOfInput, [])
  {
    FrameSerialize(cs, []);
    assert Serialize(cs) + [] == Serialize(cs);
    assert cs + [] == cs;
  }
}
