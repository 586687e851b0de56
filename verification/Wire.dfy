/** The 12-byte big-endian packet header and its codec.

    Layout: kind (1) | totalLen (3) | chunkSeq (2) | chunkCount (2) | msgSeq (4).
    The fields of `Header` are unbounded; their C++ widths show up in what the
    codec keeps of them (`Reduce`). An arithmetic shift right by 8 is a floored
    division by 256, and `|` of byte lanes that do not overlap is a sum.
*/
module Wire {

  newtype byte = b: int | 0 <= b < 256

  const PREFIX_SIZE: int := 12

  datatype Header = Header(
    kind: int,        // short, 1 byte on the wire
    totalLen: int,    // size_t, 3 bytes on the wire
    chunkSeq: int,    // short
    chunkCount: int,  // short
    msgSeq: int       // long, 4 bytes on the wire
  )

  /** Conversion to a signed 16-bit integer: the representative of `x` modulo 2^16. */
  function Int16(x: int): (r: int)
    ensures -0x8000 <= r < 0x8000 && r % 0x1_0000 == x % 0x1_0000
  {
    (x + 0x8000) % 0x1_0000 - 0x8000
  }

  /** Conversion to a signed 32-bit integer. */
  function Int32(x: int): (r: int)
    ensures -0x8000_0000 <= r < 0x8000_0000 && r % 0x1_0000_0000 == x % 0x1_0000_0000
  {
    (x + 0x8000_0000) % 0x1_0000_0000 - 0x8000_0000
  }

  /** The value an atomic 64-bit `long` shows after it was counted up to `x`. */
  function Int64(x: int): (r: int)
    ensures -0x8000_0000_0000_0000 <= r < 0x8000_0000_0000_0000
    ensures r % 0x1_0000_0000_0000_0000 == x % 0x1_0000_0000_0000_0000
  {
    (x + 0x8000_0000_0000_0000) % 0x1_0000_0000_0000_0000 - 0x8000_0000_0000_0000
  }

  function Octet(x: int): byte { (x % 256) as byte }

  function Encode(h: Header): (r: seq<byte>)
    ensures |r| == 12
  {
    [ Octet(h.kind),
      Octet(h.totalLen / 0x1_0000), Octet(h.totalLen / 0x100), Octet(h.totalLen),
      Octet(h.chunkSeq / 0x100), Octet(h.chunkSeq),
      Octet(h.chunkCount / 0x100), Octet(h.chunkCount),
      Octet(h.msgSeq / 0x100_0000), Octet(h.msgSeq / 0x1_0000), Octet(h.msgSeq / 0x100), Octet(h.msgSeq) ]
  }

  function Decode(b: seq<byte>): (h: Header)
    requires |b| >= 12
    ensures Fits(h)
  {
    Header(
      b[0] as int,
      b[1] as int * 0x1_0000 + b[2] as int * 0x100 + b[3] as int,
      Int16(b[4] as int * 0x100 + b[5] as int),
      Int16(b[6] as int * 0x100 + b[7] as int),
      Int32(b[8] as int * 0x100_0000 + b[9] as int * 0x1_0000 + b[10] as int * 0x100 + b[11] as int))
  }

  /** What is left of a header once each field is cut to its width on the wire. */
  function Reduce(h: Header): Header {
    Header(h.kind % 0x100, h.totalLen % 0x100_0000, Int16(h.chunkSeq), Int16(h.chunkCount), Int32(h.msgSeq))
  }

  /** The headers that lose nothing. */
  predicate Fits(h: Header) {
    && 0 <= h.kind < 0x100
    && 0 <= h.totalLen < 0x100_0000
    && -0x8000 <= h.chunkSeq < 0x8000
    && -0x8000 <= h.chunkCount < 0x8000
    && -0x8000_0000 <= h.msgSeq < 0x8000_0000
  }

  lemma Lanes16(x: int)
    ensures (x / 0x100 % 0x100) * 0x100 + x % 0x100 == x % 0x1_0000
  {
  }

  lemma Lanes24(x: int)
    ensures (x / 0x1_0000 % 0x100) * 0x1_0000 + (x / 0x100 % 0x100) * 0x100 + x % 0x100 == x % 0x100_0000
  {
    Lanes16(x);
    Lanes24Top(x, x / 0x1_0000, x % 0x1_0000);
  }

  lemma Lanes24Top(x: int, q: int, r: int)
    requires x == q * 0x1_0000 + r && 0 <= r < 0x1_0000
    ensures (q % 0x100) * 0x1_0000 + r == x % 0x100_0000
  {
    assert x == q / 0x100 * 0x100_0000 + ((q % 0x100) * 0x1_0000 + r);
  }

  lemma Lanes32(x: int)
    ensures (x / 0x100_0000 % 0x100) * 0x100_0000 + (x / 0x1_0000 % 0x100) * 0x1_0000
            + (x / 0x100 % 0x100) * 0x100 + x % 0x100 == x % 0x1_0000_0000
  {
    Lanes24(x);
    Lanes32Top(x, x / 0x100_0000, x % 0x100_0000);
  }

  lemma Lanes32Top(x: int, q: int, r: int)
    requires x == q * 0x100_0000 + r && 0 <= r < 0x100_0000
    ensures (q % 0x100) * 0x100_0000 + r == x % 0x1_0000_0000
  {
    assert x == q / 0x100 * 0x1_0000_0000 + ((q % 0x100) * 0x100_0000 + r);
  }

  lemma ReducedModulus(x: int)
    ensures Int16(x % 0x1_0000) == Int16(x)
    ensures Int32(x % 0x1_0000_0000) == Int32(x)
  {
    Int16Shift(x, -(x / 0x1_0000));
    Int32Shift(x, -(x / 0x1_0000_0000));
  }

  lemma Remainder16(x: int, q: int, r: int)
    requires x == q * 0x1_0000 + r && 0 <= r < 0x1_0000
    ensures x / 0x1_0000 == q && x % 0x1_0000 == r
  {
  }

  lemma Remainder32(x: int, q: int, r: int)
    requires x == q * 0x1_0000_0000 + r && 0 <= r < 0x1_0000_0000
    ensures x / 0x1_0000_0000 == q && x % 0x1_0000_0000 == r
  {
  }

  lemma Int16Shift(x: int, m: int)
    ensures Int16(x + m * 0x1_0000) == Int16(x)
  {
    var u := x + 0x8000;
    Remainder16(u + m * 0x1_0000, u / 0x1_0000 + m, u % 0x1_0000);
  }

  lemma Int32Shift(x: int, m: int)
    ensures Int32(x + m * 0x1_0000_0000) == Int32(x)
  {
    var u := x + 0x8000_0000;
    Remainder32(u + m * 0x1_0000_0000, u / 0x1_0000_0000 + m, u % 0x1_0000_0000);
  }

  /** Encoding then decoding cuts each field to its width on the wire and nothing else. */
  lemma DecodeEncode(h: Header)
    ensures Decode(Encode(h)) == Reduce(h)
  {
    Lanes24(h.totalLen);
    Lanes16(h.chunkSeq);
    Lanes16(h.chunkCount);
    Lanes32(h.msgSeq);
    ReducedModulus(h.chunkSeq);
    ReducedModulus(h.chunkCount);
    ReducedModulus(h.msgSeq);
  }

  /** A header survives the wire exactly when every field fits its width. */
  lemma SurvivesIffFits(h: Header)
    ensures Decode(Encode(h)) == h <==> Fits(h)
  {
    DecodeEncode(h);
    ReducedFixpoints(h);
  }

  lemma ReducedFixpoints(h: Header)
    ensures h.kind % 0x100 == h.kind <==> 0 <= h.kind < 0x100
    ensures h.totalLen % 0x100_0000 == h.totalLen <==> 0 <= h.totalLen < 0x100_0000
    ensures Int16(h.chunkSeq) == h.chunkSeq <==> -0x8000 <= h.chunkSeq < 0x8000
    ensures Int16(h.chunkCount) == h.chunkCount <==> -0x8000 <= h.chunkCount < 0x8000
    ensures Int32(h.msgSeq) == h.msgSeq <==> -0x8000_0000 <= h.msgSeq < 0x8000_0000
  {
  }

  lemma Recode16(hi: byte, lo: byte, x: int)
    requires x == Int16(hi as int * 0x100 + lo as int)
    ensures Octet(x / 0x100) == hi && Octet(x) == lo
  {
    var k := (hi as int * 0x100 + lo as int + 0x8000) / 0x1_0000;
    QuotientBy8(x, hi as int - k * 0x100, lo as int);
    RemainderBy8(-k, hi as int);
  }

  lemma Recode24(b2: byte, b1: byte, b0: byte, x: int)
    requires x == b2 as int * 0x1_0000 + b1 as int * 0x100 + b0 as int
    ensures Octet(x / 0x1_0000) == b2 && Octet(x / 0x100) == b1 && Octet(x) == b0
  {
    Remainder16(x, b2 as int, b1 as int * 0x100 + b0 as int);
    QuotientBy8(x, b2 as int * 0x100 + b1 as int, b0 as int);
    QuotientBy8(b2 as int * 0x100 + b1 as int, b2 as int, b1 as int);
  }

  lemma Recode32(b3: byte, b2: byte, b1: byte, b0: byte, x: int)
    requires x == Int32(b3 as int * 0x100_0000 + b2 as int * 0x1_0000 + b1 as int * 0x100 + b0 as int)
    ensures Octet(x / 0x100_0000) == b3 && Octet(x / 0x1_0000) == b2
    ensures Octet(x / 0x100) == b1 && Octet(x) == b0
  {
    var low := b2 as int * 0x1_0000 + b1 as int * 0x100 + b0 as int;
    var k := (b3 as int * 0x100_0000 + low + 0x8000_0000) / 0x1_0000_0000;
    SplitAt24(b3 as int - k * 0x100, low, x);
    RemainderBy8(-k, b3 as int);
    Recode24(b2, b1, b0, low);
  }

  lemma SplitAt24(q: int, low: int, x: int)
    requires 0 <= low < 0x100_0000 && x == q * 0x100_0000 + low
    ensures x / 0x100_0000 == q
    ensures x / 0x1_0000 % 0x100 == low / 0x1_0000
    ensures x / 0x100 % 0x100 == low / 0x100 % 0x100
    ensures x % 0x100 == low % 0x100
  {
    var hi, mid := low / 0x1_0000, low / 0x100;
    Remainder16(x, q * 0x100 + hi, low % 0x1_0000);
    QuotientBy8(x, q * 0x1_0000 + mid, low % 0x100);
    RemainderBy8(q, hi);
    RemainderBy8(q * 0x100, mid);
  }

  lemma QuotientBy8(x: int, q: int, r: int)
    requires x == q * 0x100 + r && 0 <= r < 0x100
    ensures x / 0x100 == q && x % 0x100 == r
  {
  }

  lemma RemainderBy8(q: int, t: int)
    ensures (q * 0x100 + t) % 0x100 == t % 0x100
  {
    QuotientBy8(q * 0x100 + t, q + t / 0x100, t % 0x100);
  }

  /** A header whose fields re-encode lane by lane re-encodes as a whole. */
  lemma Assemble(h: Header, b: seq<byte>)
    requires |b| == 12
    requires Octet(h.kind) == b[0]
    requires Octet(h.totalLen / 0x1_0000) == b[1] && Octet(h.totalLen / 0x100) == b[2] && Octet(h.totalLen) == b[3]
    requires Octet(h.chunkSeq / 0x100) == b[4] && Octet(h.chunkSeq) == b[5]
    requires Octet(h.chunkCount / 0x100) == b[6] && Octet(h.chunkCount) == b[7]
    requires Octet(h.msgSeq / 0x100_0000) == b[8] && Octet(h.msgSeq / 0x1_0000) == b[9]
    requires Octet(h.msgSeq / 0x100) == b[10] && Octet(h.msgSeq) == b[11]
    ensures Encode(h) == b
  {
  }

  /** Decoding any 12 bytes and encoding the result gives the same bytes back. */
  lemma EncodeDecode(b: seq<byte>)
    requires |b| == 12
    ensures Encode(Decode(b)) == b
  {
    hide Fits;
    var h := Decode(b);
    assert Octet(h.kind) == b[0];
    Recode24(b[1], b[2], b[3], h.totalLen);
    Recode16(b[4], b[5], h.chunkSeq);
    Recode16(b[6], b[7], h.chunkCount);
    Recode32(b[8], b[9], b[10], b[11], h.msgSeq);
    Assemble(h, b);
  }

  /** The reassembly key of the `j`-th number drawn from a picker that started at `first`. */
  function Key(first: int, j: int): int {
    Int32(Int64(first + j))
  }

  /** Two draws get the same reassembly key exactly when they are a multiple of 2^32 apart,
      whatever value the picker started from. */
  lemma KeysCollideIff(first: int, a: int, b: int)
    ensures Key(first, a) == Key(first, b) <==> (a - b) % 0x1_0000_0000 == 0
  {
    KeyResidue(first, a);
    KeyResidue(first, b);
    Int32Equal(first + a, first + b);
  }

  lemma Int32Equal(x: int, y: int)
    ensures Int32(x) == Int32(y) <==> (x - y) % 0x1_0000_0000 == 0
  {
    if (x - y) % 0x1_0000_0000 == 0 {
      Int32Shift(y, (x - y) / 0x1_0000_0000);
    }
    if Int32(x) == Int32(y) {
      Remainder32(x - y, (x + 0x8000_0000) / 0x1_0000_0000 - (y + 0x8000_0000) / 0x1_0000_0000, 0);
    }
  }

  lemma KeyResidue(first: int, a: int)
    ensures Key(first, a) == Int32(first + a)
  {
    var x := first + a;
    var q := (x + 0x8000_0000_0000_0000) / 0x1_0000_0000_0000_0000;
    assert Int64(x) == x + (-q * 0x1_0000_0000) * 0x1_0000_0000;
    Int32Shift(x, -q * 0x1_0000_0000);
  }

  /** `DataPacketHeader::SetHeader`, byte by byte in place. */
  method SetHeader(h: Header, buffer: array<byte>)
    requires buffer.Length >= 12
    modifies buffer
    ensures buffer[..12] == Encode(h) && buffer[12..] == old(buffer[12..])
  {
    buffer[0] := Octet(h.kind);
    buffer[1] := Octet(h.totalLen / 0x1_0000);
    buffer[2] := Octet(h.totalLen / 0x100);
    buffer[3] := Octet(h.totalLen);
    buffer[4] := Octet(h.chunkSeq / 0x100);
    buffer[5] := Octet(h.chunkSeq);
    buffer[6] := Octet(h.chunkCount / 0x100);
    buffer[7] := Octet(h.chunkCount);
    buffer[8] := Octet(h.msgSeq / 0x100_0000);
    buffer[9] := Octet(h.msgSeq / 0x1_0000);
    buffer[10] := Octet(h.msgSeq / 0x100);
    buffer[11] := Octet(h.msgSeq);
  }

  /** `DataPacketHeader::GetHeader`. */
  method GetHeader(buffer: array<byte>) returns (h: Header)
    requires buffer.Length >= 12
    ensures h == Decode(buffer[..12])
  {
    var kind := buffer[0] as int;
    var totalLen := buffer[1] as int * 0x1_0000 + buffer[2] as int * 0x100 + buffer[3] as int;
    var chunkSeq := Int16(buffer[4] as int * 0x100 + buffer[5] as int);
    var chunkCount := Int16(buffer[6] as int * 0x100 + buffer[7] as int);
    var msgSeq := Int32(buffer[8] as int * 0x100_0000 + buffer[9] as int * 0x1_0000
                        + buffer[10] as int * 0x100 + buffer[11] as int);
    h := Header(kind, totalLen, chunkSeq, chunkCount, msgSeq);
  }
}
