/** The loop of `post`: a 64-bit index is compared with a 16-bit count, and the remaining length
    is an unsigned difference. */
module Posting {
  import opened Wire
  import opened Chunking

  const WORD: int := 0x1_0000_0000_0000_0000     // values of a 64-bit size_t
  const MAX_OBJECT: int := 0x8000_0000_0000_0000 // no object is larger than PTRDIFF_MAX

  predicate IsCut(evt: int, size: nat) { evt == MSG_DATA && size > CAP }

  /** `header.chunkTotalCount`: the rounded-up quotient, converted to a `short`. */
  function CountField(size: nat): int { Int16((size + CAP - 1) / CAP) }

  /** The same as the loop condition sees it, converted to a `size_t`. */
  function LoopBound(size: nat): nat {
    if CountField(size) < 0 then CountField(size) + WORD else CountField(size)
  }

  /** `chunk_size` of round `i`. */
  function PieceSize(size: nat, i: nat): nat {
    var leftSize := (size - i * CAP) % WORD;
    if CAP < leftSize then CAP else leftSize
  }

  /** Where round `i` stops reading. */
  function ReadEnd(size: nat, i: nat): nat { i * CAP + PieceSize(size, i) }

  /** No round of the loop reads past the data. */
  ghost predicate StaysInside(size: nat) {
    forall i: nat :: i < LoopBound(size) ==> ReadEnd(size, i) <= size
  }

  lemma CountFieldShape(size: nat)
    requires CAP < size
    ensures ChunkCount(size) == (size + CAP - 1) / CAP && (ChunkCount(size) - 1) * CAP < size <= ChunkCount(size) * CAP
    ensures CountField(size) <= ChunkCount(size)
    ensures -32768 <= CountField(size) <= 32767
    ensures CountField(size) == ChunkCount(size) <==> ChunkCount(size) <= 32767
    ensures CountField(size) >= 0 <==> ChunkCount(size) % 0x1_0000 < 0x8000
    ensures CountField(size) >= 0 ==> CountField(size) == ChunkCount(size) % 0x1_0000
  {
    ShortOf(ChunkCount(size));
  }

  lemma ShortOf(x: nat)
    ensures -32768 <= Int16(x) <= 32767 && Int16(x) <= x && (Int16(x) == x <==> x <= 32767)
    ensures Int16(x) >= 0 <==> x % 0x1_0000 < 0x8000
    ensures Int16(x) >= 0 ==> Int16(x) == x % 0x1_0000
  {
    var q, r := x / 0x1_0000, x % 0x1_0000;
    assert x == q * 0x1_0000 + r;
    Int16Shift(r, q);
  }

  /** Up to the last full packet each round reads what it should. */
  lemma RoundInside(size: nat, i: nat)
    requires CAP < size < MAX_OBJECT && i <= size / CAP
    ensures ReadEnd(size, i) == (if (i + 1) * CAP < size then (i + 1) * CAP else size)
  {
    var left := size - i * CAP;
    assert i * CAP <= size / CAP * CAP <= size;
    assert left % WORD == left;
  }

  /** The round after that takes a difference below zero for a huge rest. */
  lemma RoundOutside(size: nat)
    requires CAP < size < MAX_OBJECT
    ensures ReadEnd(size, size / CAP + 1) > size
  {
    var left := size - (size / CAP + 1) * CAP;
    assert -CAP <= left < 0;
    assert left % WORD == left + WORD;
  }

  /** `post` never reads past its data if and only if its number of packets, modulo 2^16, is
      below 2^15: exactly when the count has not become negative. */
  lemma StaysInsideIff(size: nat)
    requires CAP < size < MAX_OBJECT
    ensures StaysInside(size) <==> CountField(size) >= 0
    ensures StaysInside(size) <==> ChunkCount(size) % 0x1_0000 < 0x8000
  {
    CountFieldShape(size);
    if CountField(size) >= 0 {
      forall i: nat | i < LoopBound(size) ensures ReadEnd(size, i) <= size {
        assert i * CAP <= (ChunkCount(size) - 1) * CAP < size;
        RoundInside(size, i);
      }
    } else {
      RoundOutside(size);
      assert size / CAP + 1 < LoopBound(size);
    }
  }

  /** Every length of at most 32767 packets is safe; 1 GiB is the first multiple of the packet
      size that makes the loop read on behind the data. */
  lemma OneGibibyteReadsOutside()
    ensures CountField(0x4000_0000) == -32768
    ensures !StaysInside(0x4000_0000)
    ensures forall size: nat :: CAP < size <= 0x4000_0000 - CAP ==> StaysInside(size)
  {
    StaysInsideIff(0x4000_0000);
    forall size: nat | CAP < size <= 0x4000_0000 - CAP ensures StaysInside(size) {
      CountFieldShape(size);
      StaysInsideIff(size);
    }
  }

  // ---- The packets ----

  /** How many packets a loop pushes that is not stopped: all it asks for, or all up to the first
      read past the data. */
  function Pieces(size: nat): nat {
    if CountField(size) < 0 then size / CAP + 1 else CountField(size)
  }

  lemma PiecesInside(size: nat, i: nat)
    requires CAP < size < MAX_OBJECT && i < Pieces(size)
    ensures i < LoopBound(size) && i * CAP <= ReadEnd(size, i) <= size
  {
    CountFieldShape(size);
    AtMostPieces(size, i);
    RoundInside(size, i);
  }

  /** The loop ends after its pieces, or reads past the data in the next round. */
  lemma EndOfPieces(size: nat)
    requires CAP < size < MAX_OBJECT
    ensures Pieces(size) < LoopBound(size) <==> CountField(size) < 0
    ensures Pieces(size) <= LoopBound(size)
    ensures CountField(size) < 0 ==> ReadEnd(size, Pieces(size)) > size
    ensures Pieces(size) == 0 <==> CountField(size) == 0
  {
    CountFieldShape(size);
    RoundOutside(size);
  }

  /** The round that reads past the data is the one after the last piece. */
  lemma RoundStays(size: nat, i: nat)
    requires CAP < size < MAX_OBJECT && i <= Pieces(size) && i < LoopBound(size)
    ensures ReadEnd(size, i) <= size <==> i < Pieces(size)
    ensures i == Pieces(size) ==> i > 0 && CountField(size) < 0
  {
    EndOfPieces(size);
    if i < Pieces(size) { PiecesInside(size, i); }
  }

  function Piece(msgSeq: int, data: seq<byte>, i: nat): Packet
    requires CAP < |data| < MAX_OBJECT && i < Pieces(|data|)
  {
    PiecesInside(|data|, i);
    Packet(MSG_DATA, Header(MSG_DATA, |data|, Int16(i), CountField(|data|), msgSeq), data[i * CAP..ReadEnd(|data|, i)])
  }

  /** The packets of one `post`: only payload messages are cut up. */
  function PostPackets(msgSeq: int, evt: int, data: seq<byte>): seq<Packet>
    requires |data| < MAX_OBJECT
  {
    if IsCut(evt, |data|) then seq(Pieces(|data|), i requires 0 <= i < Pieces(|data|) => Piece(msgSeq, data, i))
    else [Packet(evt, Header(evt, |data|, 0, 1, msgSeq), data)]
  }

  lemma AllPieces(msgSeq: int, data: seq<byte>)
    requires CAP < |data| < MAX_OBJECT
    ensures |PostPackets(msgSeq, MSG_DATA, data)| == Pieces(|data|)
  {
  }

  lemma NextPiece(msgSeq: int, data: seq<byte>, i: nat)
    requires CAP < |data| < MAX_OBJECT && i < Pieces(|data|)
    ensures i < LoopBound(|data|) && i * CAP <= ReadEnd(|data|, i) <= |data|
    ensures PostPackets(msgSeq, MSG_DATA, data)[..i + 1] == PostPackets(msgSeq, MSG_DATA, data)[..i]
              + [Packet(MSG_DATA, Header(MSG_DATA, |data|, Int16(i), CountField(|data|), msgSeq),
                        data[i * CAP..ReadEnd(|data|, i)])]
  {
    hide Int16, CountField, Pieces, ReadEnd;
    PiecesInside(|data|, i);
  }

  /** At every length, what is released is the front of the message, piece by piece: as many
      packets as the 16-bit count says if it is not negative, and else all that can be read. */
  lemma PostedFront(msgSeq: int, data: seq<byte>)
    requires CAP < |data| < MAX_OBJECT
    ensures var ps, n := PostPackets(msgSeq, MSG_DATA, data), ChunkCount(|data|);
            && |ps| == (if n % 0x1_0000 < 0x8000 then n % 0x1_0000 else |data| / CAP + 1)
            && forall i :: 0 <= i < |ps| ==>
                 && 0 <= i * CAP <= |data|
                 && ps[i].data == data[i * CAP..if (i + 1) * CAP < |data| then (i + 1) * CAP else |data|]
                 && ps[i].evt == MSG_DATA && ps[i].header == Header(MSG_DATA, |data|, Int16(i), Int16(n), msgSeq)
  {
    hide Int16, PieceSize, ReadEnd;
    CountFieldShape(|data|);
    AllPieces(msgSeq, data);
    var ps := PostPackets(msgSeq, MSG_DATA, data);
    forall i | 0 <= i < |ps|
      ensures 0 <= i * CAP <= |data|
      ensures ps[i].data == data[i * CAP..if (i + 1) * CAP < |data| then (i + 1) * CAP else |data|]
    {
      PiecesInside(|data|, i);
      AtMostPieces(|data|, i);
      RoundInside(|data|, i);
    }
  }

  lemma AtMostPieces(size: nat, i: nat)
    requires CAP < size && i < Pieces(size)
    ensures i <= size / CAP
  {
    CountFieldShape(size);
    if CountField(size) >= 0 { assert i * CAP <= (ChunkCount(size) - 1) * CAP < size; }
  }

  /** `post` releases the packets of the whole message exactly when there are at most 32767,
      at every length. */
  lemma PostIsWholeIff(msgSeq: int, m: Message)
    requires m.evt == MSG_DATA && |m.data| < MAX_OBJECT
    ensures PostPackets(msgSeq, m.evt, m.data) == Chunks(msgSeq, m) <==> ChunkCount(|m.data|) <= 32767
  {
    hide Int16;
    var size, n := |m.data|, ChunkCount(|m.data|);
    if size <= CAP {
      assert m.data[0..size] == m.data;
    } else {
      CountFieldShape(size);
      if n <= 32767 {
        forall i | 0 <= i < n ensures Piece(msgSeq, m.data, i) == Chunk(msgSeq, m, i) {
          SamePiece(msgSeq, m, i);
        }
      } else if Pieces(size) == n {
        var ps, cs := PostPackets(msgSeq, m.evt, m.data), Chunks(msgSeq, m);
        assert ps[0].header.chunkCount == CountField(size) && cs[0].header.chunkCount == n;
      }
    }
  }

  lemma SamePiece(msgSeq: int, m: Message, i: nat)
    requires m.evt == MSG_DATA && CAP < |m.data| < MAX_OBJECT && i < ChunkCount(|m.data|) <= 32767
    ensures i < Pieces(|m.data|) && Piece(msgSeq, m.data, i) == Chunk(msgSeq, m, i)
  {
    CountFieldShape(|m.data|);
    ShortOf(i);
    PiecesInside(|m.data|, i);
    assert i * CAP <= (ChunkCount(|m.data|) - 1) * CAP < |m.data|;
    RoundInside(|m.data|, i);
    assert ReadEnd(|m.data|, i) == i * CAP + ChunkLen(|m.data|, i);
  }

  /** A message of 65536 full packets is posted as no packet at all. */
  lemma NothingIsPosted(msgSeq: int, data: seq<byte>)
    requires |data| == 0x1_0000 * CAP
    ensures PostPackets(msgSeq, MSG_DATA, data) == []
  {
    assert (|data| + CAP - 1) / CAP == 0x1_0000;
  }
}
