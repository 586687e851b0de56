/** What the receiver does with each packet, in every reachable state. */
module Delivery {
  import opened Wire
  import opened Chunking
  import opened Mailbox
  import opened Reassembly
  import opened Orders
  import opened Protocol
  import opened Conservation
  import opened Sequencing
  import opened Transfer

  /** Few enough numbers were drawn that the 4 bytes on the wire tell them apart. */
  ghost predicate FewDraws(s: State) { |s.book.msgs| <= 0x1_0000_0000 }

  lemma KeysDiffer(first: int, a: nat, b: nat)
    requires a < 0x1_0000_0000 && b < 0x1_0000_0000 && a != b
    ensures Key(first, a) != Key(first, b)
  {
    KeysCollideIff(first, a, b);
  }

  /** The chunk indices of message `j` in `ps`, in order. */
  function OrderOf(ps: seq<Ptr>, j: nat): seq<nat> {
    var own := Of(ps, j);
    seq(|own|, i requires 0 <= i < |own| => own[i].chunk)
  }

  ghost predicate NoRepeats(ps: seq<Ptr>) {
    forall i, k :: 0 <= i < k < |ps| ==> ps[i] != ps[k]
  }

  lemma SingleMeansNoRepeats(ps: seq<Ptr>)
    requires forall p :: multiset(ps)[p] <= 1
    ensures NoRepeats(ps)
  {
    forall i, k | 0 <= i < k < |ps| ensures ps[i] != ps[k] {
      assert ps == ps[..k] + ps[k..];
      assert ps[i] in ps[..k] && ps[k] in ps[k..];
      assert multiset(ps) == multiset(ps[..k]) + multiset(ps[k..]);
      assert multiset(ps[..k])[ps[i]] >= 1 && multiset(ps[k..])[ps[k]] >= 1;
      assert multiset(ps)[ps[k]] <= 1;
    }
  }

  lemma {:induction false} OfElements(ps: seq<Ptr>, j: nat)
    requires NoRepeats(ps)
    ensures NoRepeats(Of(ps, j)) && forall p :: p in Of(ps, j) <==> p in ps && p.msg == j
  {
    if ps != [] { OfElements(ps[..|ps| - 1], j); }
  }

  /** Packets of the line that are issued, none twice. */
  ghost predicate Clean(s: State, ps: seq<Ptr>) {
    NoRepeats(ps) && forall p :: p in ps ==> Valid(s, p) && IsMessage(s.book.msgs[p.msg])
  }

  lemma LineClean(s: State)
    requires Shape(s) && IssuedOnce(s) && Conserved(s)
    ensures Clean(s, Line(s)) && Clean(s, s.rcv.consumed)
  {
    hide Line, Mail;
    LineIssued(s);
    forall p ensures multiset(Line(s))[p] <= 1 {
      assert multiset(s.book.issued)[p] <= 1;
    }
    SingleMeansNoRepeats(Line(s));
    ConsumedFirst(s);
    assert forall i :: 0 <= i < |s.rcv.consumed| ==> s.rcv.consumed[i] == Line(s)[i];
  }

  lemma ConsumedFirst(s: State)
    ensures s.rcv.consumed <= Line(s)
  {
  }

  lemma CleanOrder(s: State, ps: seq<Ptr>, j: nat)
    requires Clean(s, ps) && j < |s.book.msgs|
    ensures Distinct(OrderOf(ps, j), ChunkCount(|s.book.msgs[j].data|))
  {
    OfElements(ps, j);
    var own := Of(ps, j);
    forall i | 0 <= i < |own| ensures own[i].msg == j && Valid(s, own[i]) { assert own[i] in own; }
  }

  lemma FrameKey(s: State, p: Ptr)
    requires Valid(s, p) && IsMessage(s.book.msgs[p.msg])
    ensures FrameAt(s, p).header.msgSeq == Key(s.first, p.msg)
  {
    ChunkHeaderOnWire(SeqNo(s, p.msg), s.book.msgs[p.msg], p.chunk);
  }

  /** The packets that carry the key of message `j` are the packets of message `j`. */
  lemma {:induction false} OnlyMessage(s: State, ps: seq<Ptr>, j: nat)
    requires FewDraws(s) && Clean(s, ps) && j < |s.book.msgs|
    requires Distinct(OrderOf(ps, j), ChunkCount(|s.book.msgs[j].data|))
    ensures Only(FramesAt(s, ps), Key(s.first, j)) == FramesOf(SeqNo(s, j), s.book.msgs[j], OrderOf(ps, j))
  {
    hide FrameOf, Chunk;
    if ps != [] {
      var front, p := ps[..|ps| - 1], ps[|ps| - 1];
      assert FramesAt(s, ps)[..|ps| - 1] == FramesAt(s, front);
      assert p in ps;
      CleanOrder(s, front, j);
      OnlyMessage(s, front, j);
      FrameKey(s, p);
      if p.msg == j {
        assert OrderOf(ps, j) == OrderOf(front, j) + [p.chunk];
      } else {
        KeysDiffer(s.first, p.msg, j);
      }
    }
  }

  /** `recv` run on issued packets holds, for message `j`, the message's chunks since chunk 0. */
  lemma EntryInStream(s: State, ps: seq<Ptr>, j: nat)
    requires FewDraws(s) && Clean(s, ps) && j < |s.book.msgs| && IsMessage(s.book.msgs[j])
    ensures Get(Run(FramesAt(s, ps)), Key(s.first, j))
            == EntryOf(s.book.msgs[j], Held(|s.book.msgs[j].data|, OrderOf(ps, j)))
  {
    CleanOrder(s, ps, j);
    OnlyMessage(s, ps, j);
    Demultiplex(FramesAt(s, ps), Key(s.first, j));
    TrackedExactly(SeqNo(s, j), s.book.msgs[j], OrderOf(ps, j));
  }

  lemma EntryOfMessage(s: State, j: nat)
    requires FewDraws(s) && Clean(s, s.rcv.consumed) && Reassembled(s) && j < |s.book.msgs|
    requires IsMessage(s.book.msgs[j])
    ensures Get(s.rcv.rx, Key(s.first, j))
            == EntryOf(s.book.msgs[j], Held(|s.book.msgs[j].data|, OrderOf(s.rcv.consumed, j)))
  {
    EntryInStream(s, s.rcv.consumed, j);
  }

  /** A key that no message has stays out of the map. */
  lemma {:induction false} NoStrangers(s: State, ps: seq<Ptr>, k: int)
    requires Clean(s, ps) && forall j :: 0 <= j < |s.book.msgs| ==> Key(s.first, j) != k
    ensures Only(FramesAt(s, ps), k) == []
  {
    hide FrameAt;
    if ps != [] {
      var front := ps[..|ps| - 1];
      assert FramesAt(s, ps)[..|ps| - 1] == FramesAt(s, front);
      CleanPrefix(s, ps, |ps| - 1);
      CleanMember(s, ps, |ps| - 1);
      NoStrangers(s, front, k);
      FrameKey(s, ps[|ps| - 1]);
    }
  }

  /** The outcome of every packet ever consumed is the verdict on the order in which the
      packets of its own message were consumed up to it. */
  lemma OutcomeOfPacket(s: State, i: nat)
    requires FewDraws(s) && Clean(s, s.rcv.consumed) && Reassembled(s) && i < |s.rcv.consumed|
    ensures |s.rcv.outcomes| == |s.rcv.consumed|
    ensures var j := s.rcv.consumed[i].msg;
            var order := OrderOf(s.rcv.consumed[..i + 1], j);
            j < |s.book.msgs| && order != [] && order[|order| - 1] == s.rcv.consumed[i].chunk
            && s.rcv.outcomes[i] == Verdict(s.book.msgs[j], order)
  {
    hide FrameOf, Chunk, Feed, FeedOne, Verdict, Clean;
    var ps := s.rcv.consumed[..i + 1];
    var p := s.rcv.consumed[i];
    CleanPrefix(s, s.rcv.consumed, i + 1);
    CleanMember(s, s.rcv.consumed, i);
    CleanOrder(s, ps, p.msg);
    OnlyMessage(s, ps, p.msg);
    var fs := FramesAt(s, ps);
    assert fs == FramesAt(s, s.rcv.consumed)[..i + 1];
    OutcomesPrefix(FramesAt(s, s.rcv.consumed), i + 1);
    FrameKey(s, p);
    Demultiplex(fs, Key(s.first, p.msg));
    TrackedExactly(SeqNo(s, p.msg), s.book.msgs[p.msg], OrderOf(ps, p.msg));
    LastOfOrder(ps);
    LastOutcome(fs);
  }

  lemma CleanPrefix(s: State, ps: seq<Ptr>, n: nat)
    requires Clean(s, ps) && n <= |ps|
    ensures Clean(s, ps[..n])
  {
    forall p | p in ps[..n] ensures p in ps {}
  }

  lemma CleanMember(s: State, ps: seq<Ptr>, i: nat)
    requires Clean(s, ps) && i < |ps|
    ensures Valid(s, ps[i]) && IsMessage(s.book.msgs[ps[i].msg])
  {
    assert ps[i] in ps;
  }

  lemma LastOfOrder(ps: seq<Ptr>)
    requires ps != []
    ensures var order := OrderOf(ps, ps[|ps| - 1].msg);
            order != [] && order[|order| - 1] == ps[|ps| - 1].chunk
  {
  }

  lemma LastOutcome(fs: seq<Frame>)
    requires fs != []
    ensures var own := OutcomesFor(fs, fs[|fs| - 1].header.msgSeq);
            own != [] && own[|own| - 1] == Outcomes(fs)[|fs| - 1]
  {
  }
}
