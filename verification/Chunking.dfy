/** Slicing of files into chunks and the binary frame that carries one chunk. */
module Chunking {
  import opened Basics
  import opened JsStrings

  type byte = x: nat | x < 256
  type Bytes = seq<byte>

  const CHUNK_MAGIC: Bytes := [0x46, 0x43, 0x4b, 0x01]
  const HEADER: nat := 48
  const ID_WIDTH: nat := 36
  const U32: nat := 0x1_0000_0000

  datatype Chunk = Chunk(transferId: string, chunkIndex: nat, totalChunks: nat, data: Bytes)

  // Slicing.

  function TotalChunks(size: nat, chunkSize: nat): (n: nat)
    requires chunkSize > 0
    ensures n >= 1
    ensures (n - 1) * chunkSize <= size <= n * chunkSize
    ensures size > 0 ==> (n - 1) * chunkSize < size
  {
    if size == 0 then 1 else
      CeilBounds(size, chunkSize);
      (size + chunkSize - 1) / chunkSize
  }

  lemma CeilBounds(size: nat, chunkSize: nat)
    requires chunkSize > 0 && size > 0
    ensures var n := (size + chunkSize - 1) / chunkSize;
      n >= 1 && (n - 1) * chunkSize < size <= n * chunkSize
  {
    var top := size + chunkSize - 1;
    var n := top / chunkSize;
    DivDefinition(top, chunkSize);
    assert (n - 1) * chunkSize == n * chunkSize - chunkSize;
    assert n == 0 ==> n * chunkSize == 0;
  }

  lemma DivDefinition(a: nat, b: nat)
    requires b > 0
    ensures a / b * b <= a < a / b * b + b && a / b >= 0
  {
  }

  function SliceFile(file: Bytes, index: nat, chunkSize: nat): Bytes
  {
    var start := index * chunkSize;
    var end := Min(start + chunkSize, |file|);
    if start < end then file[start..end] else []
  }

  /** The bytes from chunk `index` on. */
  function Rest(file: Bytes, index: nat, chunkSize: nat): Bytes
  {
    if index * chunkSize <= |file| then file[index * chunkSize..] else []
  }

  function Flatten(chunks: seq<Bytes>): Bytes
  {
    if chunks == [] then [] else Flatten(chunks[..|chunks| - 1]) + chunks[|chunks| - 1]
  }

  /** The slices of chunks `lo` to `hi - 1`. */
  function Slices(file: Bytes, lo: nat, hi: nat, chunkSize: nat): (s: seq<Bytes>)
    requires lo <= hi
    ensures |s| == hi - lo
  {
    seq(hi - lo, i requires 0 <= i < hi - lo => SliceFile(file, lo + i, chunkSize))
  }

  lemma SplitRest(file: Bytes, index: nat, chunkSize: nat)
    ensures Rest(file, index, chunkSize) == SliceFile(file, index, chunkSize) + Rest(file, index + 1, chunkSize)
  {
    assert (index + 1) * chunkSize == index * chunkSize + chunkSize;
  }

  lemma SlicesSnoc(file: Bytes, lo: nat, hi: nat, chunkSize: nat)
    requires lo <= hi
    ensures Slices(file, lo, hi + 1, chunkSize) == Slices(file, lo, hi, chunkSize) + [SliceFile(file, hi, chunkSize)]
  {
  }

  lemma NoSlices(file: Bytes, at: nat, chunkSize: nat)
    ensures Slices(file, at, at, chunkSize) == [] && Flatten(Slices(file, at, at, chunkSize)) == []
  {
  }

  lemma {:induction false} SlicesAndRest(file: Bytes, lo: nat, hi: nat, chunkSize: nat)
    requires lo <= hi
    ensures Flatten(Slices(file, lo, hi, chunkSize)) + Rest(file, hi, chunkSize) == Rest(file, lo, chunkSize)
    decreases hi
  {
    hide *;
    if lo < hi {
      SlicesAndRest(file, lo, hi - 1, chunkSize);
      SlicesSnoc(file, lo, hi - 1, chunkSize);
      SplitRest(file, hi - 1, chunkSize);
      FlattenSnoc(Slices(file, lo, hi - 1, chunkSize), SliceFile(file, hi - 1, chunkSize), Rest(file, hi, chunkSize));
    } else {
      NoSlices(file, lo, chunkSize);
    }
  }

  lemma {:induction false} FlattenSnoc(front: seq<Bytes>, last: Bytes, rest: Bytes)
    ensures Flatten(front + [last]) == Flatten(front) + last
    ensures Flatten(front + [last]) + rest == Flatten(front) + (last + rest)
  {
    assert (front + [last])[..|front|] == front;
  }

  /** The chunks of a file are its bytes, for every size including zero. */
  lemma ChunksMakeFile(file: Bytes, chunkSize: nat)
    requires chunkSize > 0
    ensures Flatten(Slices(file, 0, TotalChunks(|file|, chunkSize), chunkSize)) == file
  {
    var n := TotalChunks(|file|, chunkSize);
    SlicesAndRest(file, 0, n, chunkSize);
    assert Rest(file, n, chunkSize) == [] && Rest(file, 0, chunkSize) == file;
  }

  /** Every chunk but the last is full, and the last is empty only for the empty file. */
  lemma ChunkSizes(file: Bytes, index: nat, chunkSize: nat)
    requires chunkSize > 0 && index < TotalChunks(|file|, chunkSize)
    ensures var n := TotalChunks(|file|, chunkSize);
      |SliceFile(file, index, chunkSize)| ==
        if index + 1 < n then chunkSize else |file| - (n - 1) * chunkSize
    ensures file != [] ==> 0 < |SliceFile(file, index, chunkSize)| <= chunkSize
  {
    var n := TotalChunks(|file|, chunkSize);
    if index + 1 < n {
      Below(index + 1, n - 1, chunkSize);
      assert (index + 1) * chunkSize == index * chunkSize + chunkSize;
    } else {
      assert n * chunkSize == (n - 1) * chunkSize + chunkSize;
    }
  }

  lemma Below(a: nat, b: nat, c: nat)
    requires a <= b
    ensures a * c <= b * c
  {
  }

  // Framing.

  ghost predicate IsAscii(s: string)
  {
    forall i :: 0 <= i < |s| ==> s[i] as int < 128
  }

  /** UTF-8 of ASCII text. */
  function EncodeAscii(s: string): (b: Bytes)
    requires IsAscii(s)
    ensures |b| == |s|
  {
    seq(|s|, i requires 0 <= i < |s| => s[i] as int as byte)
  }

  /** Bytes above 127 are shown as the replacement character. */
  function DecodeAscii(b: Bytes): (s: string)
    ensures |s| == |b|
  {
    seq(|b|, i requires 0 <= i < |b| => if b[i] < 128 then b[i] as char else 0xfffd as char)
  }

  /** The id as the frame holds it: padded with blanks or cut to the width of the field. */
  function IdField(id: string): (f: string)
    ensures |f| == ID_WIDTH
    ensures IsAscii(id) ==> IsAscii(f)
  {
    PadEnd(id, ID_WIDTH)[..ID_WIDTH]
  }

  function U32BigEndian(n: nat): (b: Bytes)
    ensures |b| == 4
  {
    var m := n % U32;
    [m / 0x100_0000, m / 0x1_0000 % 256, m / 0x100 % 256, m % 256]
  }

  function ReadU32(b: Bytes, at: nat): nat
    requires at + 4 <= |b|
  {
    var b3: nat, b2: nat, b1: nat, b0: nat := b[at], b[at + 1], b[at + 2], b[at + 3];
    b3 * 0x100_0000 + b2 * 0x1_0000 + b1 * 0x100 + b0
  }

  function Packet(c: Chunk): Bytes
    requires IsAscii(c.transferId)
  {
    CHUNK_MAGIC + EncodeAscii(IdField(c.transferId)) + U32BigEndian(c.chunkIndex) + U32BigEndian(c.totalChunks) + c.data
  }

  predicate IsFileChunkPacket(b: Bytes)
  {
    |b| >= HEADER && b[0] == CHUNK_MAGIC[0] && b[1] == CHUNK_MAGIC[1] && b[2] == CHUNK_MAGIC[2] && b[3] == CHUNK_MAGIC[3]
  }

  function ParsePacket(b: Bytes): Option<Chunk>
  {
    if !IsFileChunkPacket(b) then None
    else Some(Chunk(Trim(DecodeAscii(b[4..40])), ReadU32(b, 40), ReadU32(b, 44), b[HEADER..]))
  }

  lemma FourBytes(m: nat)
    ensures m / 0x100_0000 * 0x100_0000 + m / 0x1_0000 % 256 * 0x1_0000 + m / 0x100 % 256 * 0x100 + m % 256 == m
  {
    var a := m / 256;
    var c := a / 256;
    assert m / 0x1_0000 == c && m / 0x100_0000 == c / 256;
    assert m == 256 * a + m % 256 && a == 256 * c + a % 256 && c == 256 * (c / 256) + c % 256;
  }

  lemma U32RoundTrip(n: nat, b: Bytes, at: nat)
    requires at + 4 <= |b| && b[at..at + 4] == U32BigEndian(n)
    ensures ReadU32(b, at) == n % U32
  {
    var w := b[at..at + 4];
    assert w[0] == b[at] && w[1] == b[at + 1] && w[2] == b[at + 2] && w[3] == b[at + 3];
    FourBytes(n % U32);
  }

  lemma DecodeEncodeAscii(s: string)
    requires IsAscii(s)
    ensures DecodeAscii(EncodeAscii(s)) == s
  {
  }

  /** What any frame parses to. */
  lemma ParseOfPacket(c: Chunk)
    requires IsAscii(c.transferId)
    ensures ParsePacket(Packet(c))
         == Some(Chunk(Trim(IdField(c.transferId)), c.chunkIndex % U32, c.totalChunks % U32, c.data))
  {
    var b := Packet(c);
    var id := EncodeAscii(IdField(c.transferId));
    assert b[4..40] == id;
    assert b[40..44] == U32BigEndian(c.chunkIndex);
    assert b[44..48] == U32BigEndian(c.totalChunks);
    assert b[48..] == c.data;
    U32RoundTrip(c.chunkIndex, b, 40);
    U32RoundTrip(c.totalChunks, b, 44);
    DecodeEncodeAscii(IdField(c.transferId));
  }

  /** An id the frame can carry: it fits the field and has no blanks at its ends. */
  ghost predicate CarriedId(id: string)
  {
    |id| <= ID_WIDTH && Trimmed(id)
  }

  lemma IdFieldIff(id: string)
    ensures Trim(IdField(id)) == id <==> CarriedId(id)
  {
    TrimIsTrimmed(IdField(id));
    if CarriedId(id) {
      TrimPadded(id, ID_WIDTH - |id|);
      assert IdField(id) == id + seq(ID_WIDTH - |id|, _ => ' ');
    }
  }

  /** A chunk survives framing exactly when its id is carried and its numbers fit 32 bits. */
  lemma FramingRoundTripIff(c: Chunk)
    requires IsAscii(c.transferId)
    ensures ParsePacket(Packet(c)) == Some(c)
       <==> CarriedId(c.transferId) && c.chunkIndex < U32 && c.totalChunks < U32
  {
    hide Packet, ParsePacket, CarriedId, IdField, Trim;
    ParseOfPacket(c);
    IdFieldIff(c.transferId);
  }

  method WriteBytes(target: array<byte>, source: Bytes, at: nat)
    requires at + |source| <= target.Length
    modifies target
    ensures target[..] == old(target[..at]) + source + old(target[at + |source|..])
  {
    for i := 0 to |source|
      invariant target[..at] == old(target[..at])
      invariant forall j :: 0 <= j < i ==> target[at + j] == source[j]
      invariant target[at + i..] == old(target[at + i..])
    {
      target[at + i] := source[i];
      assert target[at + i + 1..] == old(target[at + i + 1..]);
    }
    assert target[..] == target[..at] + target[at..at + |source|] + target[at + |source|..];
    assert target[at..at + |source|] == source;
  }

  method CreateFileChunkPacket(c: Chunk) returns (packet: array<byte>)
    requires IsAscii(c.transferId)
    ensures fresh(packet) && packet[..] == Packet(c)
  {
    packet := new byte[HEADER + |c.data|](_ => 0);
    var id := EncodeAscii(IdField(c.transferId));
    WriteBytes(packet, CHUNK_MAGIC, 0);
    WriteBytes(packet, id, 4);
    assert packet[..40] == CHUNK_MAGIC + id;
    WriteBytes(packet, U32BigEndian(c.chunkIndex), 40);
    assert packet[..44] == CHUNK_MAGIC + id + U32BigEndian(c.chunkIndex);
    WriteBytes(packet, U32BigEndian(c.totalChunks), 44);
    assert packet[..48] == CHUNK_MAGIC + id + U32BigEndian(c.chunkIndex) + U32BigEndian(c.totalChunks);
    WriteBytes(packet, c.data, HEADER);
    assert packet[..] == packet[..48] + c.data;
  }
}
