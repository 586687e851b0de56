/** Messages, and how `post` cuts one into packets. */
module Chunking {
  import opened Wire

  const CAP: int := 32768              // DEFULT_BUFFER_CAP
  const MAX_SIZE: int := 0x100_0000    // the wire keeps 3 bytes of the total length

  // IpcShmChannel::EventType
  const START_LISTEN: int := 1
  const STOP_LISTEN: int := 2
  const CLIENT_HELLO: int := 3
  const SERVER_HELLO: int := 4
  const CLIENT_BYEBYE: int := 5
  const SERVER_BYEBYE: int := 6
  const PING: int := 7
  const PONG: int := 8
  const MSG_DATA: int := 9

  predicate IsBye(evt: int) { evt == CLIENT_BYEBYE || evt == SERVER_BYEBYE }

  /** One number drawn from the picker: a posted payload, or a control event with no payload. */
  datatype Message = Message(evt: int, data: seq<byte>)

  predicate IsData(m: Message) { m.evt == MSG_DATA && |m.data| < MAX_SIZE }

  predicate IsControl(m: Message) { CLIENT_HELLO <= m.evt <= PONG && m.data == [] }

  predicate IsMessage(m: Message) { IsData(m) || IsControl(m) }

  datatype Packet = Packet(evt: int, header: Header, data: seq<byte>)

  function ChunkCount(size: nat): (n: nat)
    ensures n >= 1
  {
    if size > CAP then (size + CAP - 1) / CAP else 1
  }

  function ChunkLen(size: nat, i: nat): int {
    var left := size - i * CAP;
    if CAP < left then CAP else left
  }

  /** Every packet but the last is full, the last ends the message, and none is empty
      unless the message is. */
  lemma ChunkShape(size: nat, i: nat)
    requires i < ChunkCount(size)
    ensures 0 <= i * CAP && i * CAP + ChunkLen(size, i) <= size
    ensures 0 <= ChunkLen(size, i) <= CAP
    ensures i + 1 < ChunkCount(size) ==> ChunkLen(size, i) == CAP
    ensures i + 1 == ChunkCount(size) ==> i * CAP + ChunkLen(size, i) == size
    ensures size > 0 ==> ChunkLen(size, i) > 0
  {
  }

  /** The number of packets is the rounded-up quotient, at most 512, so count and index
      fit the signed 16-bit fields. */
  lemma ChunkCountShape(size: nat)
    requires size < MAX_SIZE
    ensures 1 <= ChunkCount(size) <= 512
    ensures size > CAP ==> (ChunkCount(size) - 1) * CAP < size <= ChunkCount(size) * CAP
    ensures Int16(ChunkCount(size)) == ChunkCount(size)
  {
  }

  /** The `i`-th packet of message `m` under sequence number `msgSeq`. */
  function Chunk(msgSeq: int, m: Message, i: nat): Packet
    requires i < ChunkCount(|m.data|)
  {
    ChunkShape(|m.data|, i);
    Packet(m.evt, Header(m.evt, |m.data|, i, ChunkCount(|m.data|), msgSeq),
           m.data[i * CAP..i * CAP + ChunkLen(|m.data|, i)])
  }

  function Chunks(msgSeq: int, m: Message): seq<Packet> {
    seq(ChunkCount(|m.data|), i requires 0 <= i < ChunkCount(|m.data|) => Chunk(msgSeq, m, i))
  }

  function Payloads(ps: seq<Packet>): seq<byte> {
    if ps == [] then [] else Payloads(ps[..|ps| - 1]) + ps[|ps| - 1].data
  }

  /** The packets of a message concatenate to the message. */
  lemma ChunksPartition(msgSeq: int, m: Message)
    ensures Payloads(Chunks(msgSeq, m)) == m.data
  {
    var n := ChunkCount(|m.data|);
    ChunkShape(|m.data|, n - 1);
    PrefixPayloads(msgSeq, m, n);
    assert Chunks(msgSeq, m)[..n] == Chunks(msgSeq, m);
  }

  lemma {:induction false} PrefixPayloads(msgSeq: int, m: Message, k: nat)
    requires k <= ChunkCount(|m.data|)
    ensures var cut := if k == 0 then 0 else (k - 1) * CAP + ChunkLen(|m.data|, k - 1);
            0 <= cut <= |m.data| && Payloads(Chunks(msgSeq, m)[..k]) == m.data[..cut]
  {
    if k > 0 {
      var ps := Chunks(msgSeq, m)[..k];
      assert ps[..k - 1] == Chunks(msgSeq, m)[..k - 1];
      PrefixPayloads(msgSeq, m, k - 1);
      ChunkShape(|m.data|, k - 1);
      if k > 1 { ChunkShape(|m.data|, k - 2); }
    }
  }

  /** The wire keeps every field of a packet header but the width of its sequence number. */
  lemma ChunkHeaderOnWire(msgSeq: int, m: Message, i: nat)
    requires IsMessage(m) && i < ChunkCount(|m.data|)
    ensures Reduce(Chunk(msgSeq, m, i).header) == Chunk(msgSeq, m, i).header.(msgSeq := Int32(msgSeq))
  {
    ChunkCountShape(|m.data|);
  }

  /** Why a message must stay below 2^24 bytes: exactly then its packets carry its length. */
  lemma LengthSurvivesIff(msgSeq: int, m: Message, i: nat)
    requires i < ChunkCount(|m.data|)
    ensures Decode(Encode(Chunk(msgSeq, m, i).header)).totalLen == |m.data| <==> |m.data| < MAX_SIZE
  {
    hide Decode, Encode, Int16, Int32;
    DecodeEncode(Chunk(msgSeq, m, i).header);
  }
}
