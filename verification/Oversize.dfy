/** What becomes of a message of 2^24 bytes or more. Its packets announce its length modulo 2^24,
    so `recv` allocates too small a buffer, or none. */
module Oversize {
  import opened Wire
  import opened Chunking
  import opened Mailbox
  import opened Reassembly
  import opened Posting

  /** The first `k` packets of a message as `recv` sees them, in order. */
  function Stream(msgSeq: int, m: Message, k: nat): seq<Frame>
    requires k <= ChunkCount(|m.data|)
  {
    seq(k, i requires 0 <= i < k => FrameOf(Chunk(msgSeq, m, i)))
  }

  /** The length on the wire. */
  function WireLen(m: Message): nat { |m.data| % MAX_SIZE }

  lemma StreamHeader(msgSeq: int, m: Message, i: nat)
    requires i < ChunkCount(|m.data|) <= 32767
    ensures FrameOf(Chunk(msgSeq, m, i)).header
            == Header(m.evt % 0x100, WireLen(m), i, ChunkCount(|m.data|), Int32(msgSeq))
  {
    hide Int32;
    ShortOf(i);
    ShortOf(ChunkCount(|m.data|));
  }

  lemma StreamSnoc(msgSeq: int, m: Message, k: nat)
    requires 0 < k <= ChunkCount(|m.data|)
    ensures Stream(msgSeq, m, k) == Stream(msgSeq, m, k - 1) + [FrameOf(Chunk(msgSeq, m, k - 1))]
  {
  }

  /** Up to the packet that leaves the buffer, the message is only collected. */
  lemma {:induction false} Collected(msgSeq: int, m: Message, k: nat)
    requires |m.data| >= MAX_SIZE && ChunkCount(|m.data|) <= 32767 && WireLen(m) > 0
    requires k <= WireLen(m) / CAP
    ensures k <= ChunkCount(|m.data|) - 1
    ensures var r := Run(Stream(msgSeq, m, k));
            if k == 0 then r == map[] else r.Keys == {Int32(msgSeq)} && |r[Int32(msgSeq)].buf| == WireLen(m)
    ensures forall i :: 0 <= i < k ==> Outcomes(Stream(msgSeq, m, k))[i] == Waiting
  {
    hide Int32, FrameOf, Chunk, Feed;
    InsideWire(m, k);
    if k > 0 {
      Collected(msgSeq, m, k - 1);
      StreamSnoc(msgSeq, m, k);
      StreamHeader(msgSeq, m, k - 1);
      InsideWire(m, k - 1);
      BodyLen(msgSeq, m, k - 1);
      CollectOne(Run(Stream(msgSeq, m, k - 1)), FrameOf(Chunk(msgSeq, m, k - 1)));
      RunSnoc(Stream(msgSeq, m, k - 1), FrameOf(Chunk(msgSeq, m, k - 1)));
    }
  }

  /** The entry that the packets before `f` have left. */
  predicate Follows(r: RecvMap, h: Header) {
    h.chunkSeq >= 0 && h.totalLen > 0
    && if h.chunkSeq == 0 then r == map[] else r.Keys == {h.msgSeq} && |r[h.msgSeq].buf| == h.totalLen
  }

  lemma CollectOne(r: RecvMap, f: Frame)
    requires Follows(r, f.header) && f.header.chunkSeq + 1 < f.header.chunkCount
    requires f.header.chunkSeq * CAP + |f.body| <= f.header.totalLen
    ensures var (r2, o) := Feed(r, f);
            o == Waiting && r2.Keys == {f.header.msgSeq} && |r2[f.header.msgSeq].buf| == f.header.totalLen
  {
    hide Copy;
  }

  lemma OverrunOne(r: RecvMap, f: Frame)
    requires Follows(r, f.header) && f.header.chunkSeq * CAP + |f.body| > f.header.totalLen
    ensures Feed(r, f).1 == Fault
  {
    hide Copy;
  }

  /** There is a packet at every multiple of the packet size up to the announced length. */
  lemma InsideWire(m: Message, k: nat)
    requires |m.data| >= MAX_SIZE && k <= WireLen(m) / CAP
    ensures k * CAP <= WireLen(m) < |m.data| && k < ChunkCount(|m.data|)
    ensures k < WireLen(m) / CAP ==> (k + 1) * CAP <= WireLen(m) && k + 1 < ChunkCount(|m.data|)
  {
    CountFieldShape(|m.data|);
    assert WireLen(m) / CAP * CAP <= WireLen(m) < WireLen(m) / CAP * CAP + CAP;
  }

  lemma BodyLen(msgSeq: int, m: Message, i: nat)
    requires i < ChunkCount(|m.data|)
    ensures |FrameOf(Chunk(msgSeq, m, i)).body| == ChunkLen(|m.data|, i)
  {
    ChunkShape(|m.data|, i);
  }

  /** If a message of 2^24 bytes or more announces a length above 0, its packets, received in
      order, are collected until one of them is copied behind the end of the buffer. */
  lemma LongMessageOverruns(msgSeq: int, m: Message)
    requires |m.data| >= MAX_SIZE && ChunkCount(|m.data|) <= 32767 && WireLen(m) > 0
    ensures WireLen(m) / CAP < ChunkCount(|m.data|)
    ensures var c := WireLen(m) / CAP;
            var os := Outcomes(Stream(msgSeq, m, c + 1));
            os[c] == Fault && forall i :: 0 <= i < c ==> os[i] == Waiting
  {
    hide Int32, FrameOf, Chunk, Feed;
    var c := WireLen(m) / CAP;
    Collected(msgSeq, m, c);
    InsideWire(m, c);
    StreamSnoc(msgSeq, m, c + 1);
    StreamHeader(msgSeq, m, c);
    BodyLen(msgSeq, m, c);
    LeavesBuffer(m, c);
    OverrunOne(Run(Stream(msgSeq, m, c)), FrameOf(Chunk(msgSeq, m, c)));
    RunSnoc(Stream(msgSeq, m, c), FrameOf(Chunk(msgSeq, m, c)));
  }

  lemma LeavesBuffer(m: Message, c: nat)
    requires |m.data| >= MAX_SIZE && c == WireLen(m) / CAP
    ensures c * CAP + ChunkLen(|m.data|, c) > WireLen(m)
  {
    assert WireLen(m) < c * CAP + CAP;
  }

  /** If it announces length 0, no buffer is made at all: every packet is thrown away, and the
      last is announced as an empty message. */
  lemma {:induction false} LongMessageVanishes(msgSeq: int, m: Message, k: nat)
    requires |m.data| >= MAX_SIZE && ChunkCount(|m.data|) <= 32767 && WireLen(m) == 0
    requires k <= ChunkCount(|m.data|)
    ensures Run(Stream(msgSeq, m, k)) == map[]
    ensures forall i :: 0 <= i < k ==>
              Outcomes(Stream(msgSeq, m, k))[i]
              == if i + 1 < ChunkCount(|m.data|) then Waiting else Notified(m.evt, None, 0)
  {
    hide Int32, Chunk, FrameOf, Feed;
    if k > 0 {
      LongMessageVanishes(msgSeq, m, k - 1);
      StreamSnoc(msgSeq, m, k);
      StreamHeader(msgSeq, m, k - 1);
      EventOfChunk(msgSeq, m, k - 1);
      FedNothing(FrameOf(Chunk(msgSeq, m, k - 1)));
      RunSnoc(Stream(msgSeq, m, k - 1), FrameOf(Chunk(msgSeq, m, k - 1)));
    }
  }

  lemma FedNothing(f: Frame)
    requires f.header.totalLen == 0
    ensures Feed(map[], f)
            == (map[], if f.header.chunkSeq + 1 < f.header.chunkCount then Waiting else Notified(f.evt, None, 0))
  {
  }

  lemma EventOfChunk(msgSeq: int, m: Message, i: nat)
    requires i < ChunkCount(|m.data|)
    ensures FrameOf(Chunk(msgSeq, m, i)).evt == m.evt
  {
  }

  /** So a copy leaves its buffer exactly when the length is no multiple of 2^24. */
  lemma LongMessageFaultsIff(msgSeq: int, m: Message)
    requires |m.data| >= MAX_SIZE && ChunkCount(|m.data|) <= 32767
    ensures Fault in Outcomes(Stream(msgSeq, m, ChunkCount(|m.data|))) <==> |m.data| % MAX_SIZE != 0
  {
    hide Chunk, FrameOf, Int32;
    var n := ChunkCount(|m.data|);
    var os := Outcomes(Stream(msgSeq, m, n));
    if WireLen(m) == 0 {
      LongMessageVanishes(msgSeq, m, n);
    } else {
      var c := WireLen(m) / CAP;
      LongMessageOverruns(msgSeq, m);
      assert Stream(msgSeq, m, n)[..c + 1] == Stream(msgSeq, m, c + 1);
      OutcomesPrefix(Stream(msgSeq, m, n), c + 1);
      assert os[c] == os[..c + 1][c];
    }
  }
}
