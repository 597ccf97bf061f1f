/**
  Byte layouts: the binary chunk frame of the data channel, and the nonce a relay part is sealed
  under. Numbers wider than their field lose their high bytes, as a DataView drops them.
 */
module Wire {
  import opened Common

  const FRAME_VERSION: Byte := 1
  const HEADER_BYTES: nat := 7
  const U16: nat := 0x1_0000
  const U32: nat := 0x1_0000_0000

  datatype Frame =
    | Frame(streamId: nat, sequence: nat, payload: Bytes)
    | Truncated
    | UnsupportedVersion(version: Byte)

  /** The byte at a place, counted from the lowest. */
  function ByteOf(n: nat, place: nat): Byte {
    if place == 0 then n % 256 else ByteOf(n / 256, place - 1)
  }

  /** Version, then stream id and sequence, both little-endian. */
  function Header(streamId: nat, sequence: nat): (h: Bytes)
    ensures |h| == HEADER_BYTES
  {
    [FRAME_VERSION, ByteOf(streamId, 0), ByteOf(streamId, 1),
     ByteOf(sequence, 0), ByteOf(sequence, 1), ByteOf(sequence, 2), ByteOf(sequence, 3)]
  }

  function ChunkFrame(streamId: nat, sequence: nat, payload: Bytes): Bytes {
    Header(streamId, sequence) + payload
  }

  /** Fills one buffer: the header byte by byte, the payload behind it. */
  method EncodeChunk(streamId: nat, sequence: nat, payload: Bytes) returns (frame: array<Byte>)
    ensures fresh(frame) && frame[..] == ChunkFrame(streamId, sequence, payload)
  {
    frame := new Byte[HEADER_BYTES + |payload|];
    frame[0] := FRAME_VERSION;
    frame[1], frame[2] := ByteOf(streamId, 0), ByteOf(streamId, 1);
    frame[3], frame[4] := ByteOf(sequence, 0), ByteOf(sequence, 1);
    frame[5], frame[6] := ByteOf(sequence, 2), ByteOf(sequence, 3);
    forall i | 0 <= i < |payload| {
      frame[HEADER_BYTES + i] := payload[i];
    }
    assert frame[..HEADER_BYTES] == Header(streamId, sequence);
    assert frame[HEADER_BYTES..] == payload;
    assert frame[..] == frame[..HEADER_BYTES] + frame[HEADER_BYTES..];
  }

  function FromTwo(a: Byte, b: Byte): nat {
    a as int + 0x100 * b as int
  }

  function FromFour(a: Byte, b: Byte, c: Byte, d: Byte): nat {
    a as int + 0x100 * (b as int + 0x100 * FromTwo(c, d))
  }

  function DecodeChunk(bytes: Bytes): Frame {
    if |bytes| < HEADER_BYTES then Truncated
    else if bytes[0] != FRAME_VERSION then UnsupportedVersion(bytes[0])
    else Frame(FromTwo(bytes[1], bytes[2]), FromFour(bytes[3], bytes[4], bytes[5], bytes[6]), bytes[HEADER_BYTES..])
  }

  /** The layout to the byte: version 1, stream id and sequence with their lowest bytes first, then the payload. */
  lemma FrameLayout(streamId: nat, sequence: nat, payload: Bytes)
    requires streamId < U16 && sequence < U32
    ensures ChunkFrame(streamId, sequence, payload) ==
            [1, streamId % 256, streamId / 256,
             sequence % 256, sequence / 256 % 256, sequence / 65536 % 256, sequence / 16777216] + payload
  {
    assert ByteOf(streamId, 1) == ByteOf(streamId / 256, 0);
    assert ByteOf(sequence, 1) == ByteOf(sequence / 256, 0);
    assert ByteOf(sequence, 2) == ByteOf(sequence / 256, 1) == ByteOf(sequence / 256 / 256, 0);
    assert ByteOf(sequence, 3) == ByteOf(sequence / 256, 2) == ByteOf(sequence / 256 / 256, 1)
        == ByteOf(sequence / 256 / 256 / 256, 0);
    assert sequence / 256 / 256 == sequence / 65536 && sequence / 256 / 256 / 256 == sequence / 16777216;
  }

  lemma TwoBytes(n: nat)
    ensures FromTwo(ByteOf(n, 0), ByteOf(n, 1)) == n % U16
  {
    assert ByteOf(n, 1) == ByteOf(n / 256, 0);
  }

  lemma FourBytes(n: nat)
    ensures FromFour(ByteOf(n, 0), ByteOf(n, 1), ByteOf(n, 2), ByteOf(n, 3)) == n % U32
  {
    var m := n / 256;
    var k := m / 256;
    TwoBytes(k);
    assert ByteOf(n, 1) == m % 256;
    assert ByteOf(n, 2) == ByteOf(m, 1) == ByteOf(k, 0);
    assert ByteOf(n, 3) == ByteOf(m, 2) == ByteOf(k, 1);
    LowBytes(n, m, U16 * 256);
    LowBytes(m, k, U16);
  }

  lemma LowBytes(n: nat, m: nat, width: nat)
    requires m == n / 256 && (width == U16 || width == U16 * 256)
    ensures n % 256 + 256 * (m % width) == n % (256 * width)
  {
  }

  /** What the receiver reads is what the sender wrote, up to the width of each field. */
  lemma DecodeEncoded(streamId: nat, sequence: nat, payload: Bytes)
    ensures DecodeChunk(ChunkFrame(streamId, sequence, payload)) == Frame(streamId % U16, sequence % U32, payload)
  {
    TwoBytes(streamId);
    FourBytes(sequence);
    assert ChunkFrame(streamId, sequence, payload)[HEADER_BYTES..] == payload;
  }

  lemma BytesOfTwo(a: Byte, b: Byte)
    ensures ByteOf(FromTwo(a, b), 0) == a && ByteOf(FromTwo(a, b), 1) == b
  {
    assert ByteOf(FromTwo(a, b), 1) == ByteOf(b, 0);
  }

  lemma BytesOfFour(a: Byte, b: Byte, c: Byte, d: Byte)
    ensures var n := FromFour(a, b, c, d);
            ByteOf(n, 0) == a && ByteOf(n, 1) == b && ByteOf(n, 2) == c && ByteOf(n, 3) == d
  {
    var k := FromTwo(c, d);
    var m := b as int + 0x100 * k;
    var n := FromFour(a, b, c, d);
    BytesOfTwo(c, d);
    assert n / 256 == m && m / 256 == k;
    assert ByteOf(n, 1) == ByteOf(m, 0);
    assert ByteOf(n, 2) == ByteOf(m, 1) == ByteOf(k, 0);
    assert ByteOf(n, 3) == ByteOf(m, 2) == ByteOf(k, 1);
  }

  /** Every frame the receiver accepts is the encoding of what it read: nothing is ambiguous. */
  lemma EncodeDecoded(bytes: Bytes)
    requires DecodeChunk(bytes).Frame?
    ensures var f := DecodeChunk(bytes); ChunkFrame(f.streamId, f.sequence, f.payload) == bytes
    ensures DecodeChunk(bytes).streamId < U16 && DecodeChunk(bytes).sequence < U32
  {
    BytesOfTwo(bytes[1], bytes[2]);
    BytesOfFour(bytes[3], bytes[4], bytes[5], bytes[6]);
    var f := DecodeChunk(bytes);
    assert Header(f.streamId, f.sequence) == bytes[..HEADER_BYTES];
    assert bytes == bytes[..HEADER_BYTES] + bytes[HEADER_BYTES..];
  }

  // ---- part nonces ----

  const NONCE_BYTES: nat := 12

  /** The stream prefix, then the part's index as a big-endian counter; None when the prefix has the wrong length. */
  function PartNonce(prefix: Bytes, index: nat): Option<Bytes> {
    if |prefix| != NONCE_BYTES - 4 then None
    else Some(prefix + [ByteOf(index, 3), ByteOf(index, 2), ByteOf(index, 1), ByteOf(index, 0)])
  }

  lemma Counter(prefix: Bytes, i: nat)
    requires |prefix| == NONCE_BYTES - 4 && i < U32
    ensures var n := PartNonce(prefix, i);
            && n.Some? && |n.value| == NONCE_BYTES
            && FromFour(n.value[11], n.value[10], n.value[9], n.value[8]) == i
  {
    FourBytes(i);
    assert i % U32 == i;
  }

  /** Within one transfer no two parts share a nonce, as long as the counter fits its four bytes. */
  lemma PartNoncesDistinct(prefix: Bytes, i: nat, j: nat)
    requires |prefix| == NONCE_BYTES - 4 && i < U32 && j < U32
    ensures PartNonce(prefix, i) == PartNonce(prefix, j) <==> i == j
  {
    hide *;
    Counter(prefix, i);
    Counter(prefix, j);
  }
}
