/** What holds of the channel in every reachable state: for any interleaving of posts, control
    packets, successful and failed sends, disconnects and reconnects. */
module Theorems {
  import opened Wire
  import opened Chunking
  import opened Mailbox
  import opened Reassembly
  import opened Orders
  import opened Protocol
  import opened Conservation
  import opened Sequencing
  import opened Transfer
  import opened Delivery
  import opened Loss
  import opened Shutdown
  import opened Reachability

  /** The notification that hands a message over as it was posted. */
  function Intact(m: Message): Outcome {
    Notified(m.evt, if m.data == [] then None else Some(Lift(m.data)), |m.data|)
  }

  // ---- Delivery ----

  lemma Facts(s: State)
    requires Reachable(s)
    ensures Inv(s) && Clean(s, Line(s)) && Clean(s, s.rcv.consumed) && Known(s)
  {
    hide Shape, Queued, IssuedOnce, Conserved, InOrder, Fifo, Mailed, Reassembled, Losses, Claims, Working;
    hide Clean, Known, Line;
    ReachableInv(s);
    LineClean(s);
    KnownInLine(s);
  }

  /** End-to-end integrity: no call of `recv` leaves its buffer, and whatever is announced with
      a payload is, byte for byte and in length, what was posted under that number. */
  lemma Integrity(s: State, i: nat)
    requires Reachable(s) && FewDraws(s) && i < |s.rcv.outcomes|
    ensures |s.rcv.consumed| == |s.rcv.outcomes| && s.rcv.consumed[i].msg < |s.book.msgs|
    ensures var m, o := s.book.msgs[s.rcv.consumed[i].msg], s.rcv.outcomes[i];
            && !o.Fault?
            && (o.Notified? ==> o.evt == m.evt && o.len == |m.data|)
            && (o.Notified? && o.payload.Some? ==> o.payload == Some(Lift(m.data)))
  {
    hide Inv, Clean, Line, Held, Lift, Full;
    Facts(s);
    OutcomesMatch(s);
    OutcomeOfPacket(s, i);
  }

  lemma OutcomesMatch(s: State)
    requires Inv(s)
    ensures |s.rcv.consumed| == |s.rcv.outcomes| && Reassembled(s) && Shape(s)
  {
  }

  /** What becomes of packet `i` of a run depends only on the packets of its own message, and
      on those in one way only: the last chunk is delivered intact exactly when chunk 0 came
      first and none is missing, announced without payload exactly when chunk 0 did not come. */
  lemma ExactOutcome(s: State, i: nat)
    requires Reachable(s) && FewDraws(s) && i < |s.rcv.consumed| && i < |s.rcv.outcomes|
    ensures s.rcv.consumed[i].msg < |s.book.msgs|
    ensures var p, o := s.rcv.consumed[i], s.rcv.outcomes[i];
            var m := s.book.msgs[p.msg];
            var n := ChunkCount(|m.data|);
            var order := OrderOf(s.rcv.consumed[..i + 1], p.msg);
            && order != []
            && (p.chunk + 1 < n <==> o == Waiting)
            && (n == 1 ==> o == Intact(m))
            && (n > 1 && p.chunk + 1 == n ==>
                  && (o == Intact(m) <==> |order| == n && order[0] == 0)
                  && (o == Notified(m.evt, None, |m.data|) <==> 0 !in order)
                  && (o == Discarded <==> 0 in order && (|order| < n || order[0] != 0)))
  {
    hide Inv, Line, Held, Lift, Full, Verdict, OrderOf;
    Facts(s);
    OutcomesMatch(s);
    OutcomeOfPacket(s, i);
    var p := s.rcv.consumed[i];
    var m := s.book.msgs[p.msg];
    var order := OrderOf(s.rcv.consumed[..i + 1], p.msg);
    CleanPrefix(s, s.rcv.consumed, i + 1);
    CleanMember(s, s.rcv.consumed, i);
    CleanOrder(s, s.rcv.consumed[..i + 1], p.msg);
    VerdictShape(m, order);
    if ChunkCount(|m.data|) > 1 {
      if p.chunk + 1 == ChunkCount(|m.data|) { VerdictOfLastChunk(m, ChunkCount(|m.data|), order); }
    } else {
      VerdictOfSingle(m, order);
    }
  }

  lemma VerdictShape(m: Message, order: seq<nat>)
    requires order != []
    ensures order[|order| - 1] + 1 < ChunkCount(|m.data|) <==> Verdict(m, order) == Waiting
  {
  }

  lemma VerdictOfSingle(m: Message, order: seq<nat>)
    requires Distinct(order, 1) && ChunkCount(|m.data|) == 1 && order != []
    ensures Verdict(m, order) == Intact(m)
  {
    Pigeonhole(order, 1);
    assert order[..|order| - 1] == [];
    assert Full({} + {0}, 1);
    assert {} + {0} == {0};
  }

  /** At most one notification for every number drawn. */
  lemma AtMostOnce(s: State, i: nat, k: nat)
    requires Reachable(s) && FewDraws(s)
    requires |s.rcv.consumed| == |s.rcv.outcomes| && i < |s.rcv.outcomes| && k < |s.rcv.outcomes|
    requires s.rcv.outcomes[i].Notified? && s.rcv.outcomes[k].Notified?
    requires s.rcv.consumed[i].msg == s.rcv.consumed[k].msg
    ensures i == k
  {
    hide Inv, Line, OrderOf;
    Facts(s);
    ExactOutcome(s, i);
    ExactOutcome(s, k);
    CleanMember(s, s.rcv.consumed, i);
    CleanMember(s, s.rcv.consumed, k);
    assert s.rcv.consumed[i] == s.rcv.consumed[k];
  }

  /** Isolation: a message none of whose packets failed a send, was lost or was cleared is
      delivered intact when its last packet is consumed, and it is announced only then,
      whatever happened to the packets of other messages. */
  lemma Isolation(s: State, j: nat, i: nat)
    requires Reachable(s) && FewDraws(s) && j < |s.book.msgs| && !Disturbed(s, j)
    requires i < |s.rcv.consumed| && s.rcv.consumed[i] == Ptr(j, ChunkCount(|s.book.msgs[j].data|) - 1)
    ensures |s.rcv.consumed| == |s.rcv.outcomes| && s.rcv.outcomes[i] == Intact(s.book.msgs[j])
    ensures forall k :: 0 <= k < |s.rcv.consumed| && s.rcv.consumed[k].msg == j && k != i ==>
              s.rcv.outcomes[k] == Waiting
  {
    hide Inv, Line, OrderOf, Disturbed, Lift;
    Facts(s);
    OutcomesMatch(s);
    var n := ChunkCount(|s.book.msgs[j].data|);
    UndisturbedOrder(s, j, i);
    ExactOutcome(s, i);
    forall k | 0 <= k < |s.rcv.consumed| && s.rcv.consumed[k].msg == j && k != i
      ensures s.rcv.outcomes[k] == Waiting
    {
      CleanMember(s, s.rcv.consumed, k);
      ExactOutcome(s, k);
    }
  }

  /** The packets of an undisturbed message are consumed in order, from chunk 0 on. */
  lemma UndisturbedOrder(s: State, j: nat, i: nat)
    requires Reachable(s) && j < |s.book.msgs| && !Disturbed(s, j)
    requires i < |s.rcv.consumed| && s.rcv.consumed[i].msg == j
    ensures var order := OrderOf(s.rcv.consumed[..i + 1], j);
            |order| == s.rcv.consumed[i].chunk + 1 && forall c :: 0 <= c < |order| ==> order[c] == c
  {
    hide Line, Disturbed, Of, OrderOf, FirstChunks;
    hide Shape, Queued, IssuedOnce, Conserved, Fifo, Mailed, Reassembled, Losses, Claims, Working, Clean, Known;
    Facts(s);
    ConsumedFirst(s);
    SentPerMessage(s);
    assert Of(Line(s), j) == FirstChunks(j, s.book.sent[j]);
    assert Line(s) == s.rcv.consumed[..i + 1] + Line(s)[i + 1..];
    FrontOfFirstChunks(s.rcv.consumed[..i + 1], Line(s)[i + 1..], j, s.book.sent[j]);
  }

  lemma SentPerMessage(s: State)
    requires Shape(s)
    ensures |s.book.sent| == |s.book.msgs|
  {
  }

  lemma FrontOfFirstChunks(ps: seq<Ptr>, rest: seq<Ptr>, j: nat, n: nat)
    requires Of(ps + rest, j) == FirstChunks(j, n)
    requires ps != [] && ps[|ps| - 1].msg == j
    ensures var order := OrderOf(ps, j);
            |order| == ps[|ps| - 1].chunk + 1 && forall c :: 0 <= c < |order| ==> order[c] == c
  {
    OfConcat(ps, rest, j);
    LastOfOrder(ps);
    var own := Of(ps, j);
    assert forall c :: 0 <= c < |own| ==> own[c] == FirstChunks(j, n)[c];
  }

  // ---- Conservation ----

  /** Every packet released is in exactly one place: consumed, unread in the mailbox, in the
      send loop's hand, queued, lost or cleared by `Stop`. A retry never duplicates one. */
  lemma ExactlyOnePlace(s: State, p: Ptr)
    requires Reachable(s)
    ensures |s.book.sent| == |s.book.msgs|
    ensures multiset(s.rcv.consumed)[p] + multiset(Unread(s))[p] + multiset(InHand(s))[p] + multiset(s.snd.queue)[p]
            + multiset(s.gone.lost)[p] + multiset(s.gone.cleared)[p]
            == if p.msg < |s.book.sent| && p.chunk < s.book.sent[p.msg] then 1 else 0
  {
    hide Unread, InHand;
    Facts(s);
    LineBag(s);
    assert multiset(s.book.issued)[p] <= 1;
    assert p in s.book.issued <==> p in multiset(s.book.issued);
  }

  lemma LineBag(s: State)
    ensures multiset(Line(s))
            == multiset(s.rcv.consumed) + multiset(Unread(s)) + multiset(InHand(s)) + multiset(s.snd.queue)
  {
  }

  /** A connection loses at most two packets, the one in the send loop's hand and the one left
      unread in its mailbox, and none while both sides are on it. Besides, each fall of the
      connection flag costs at most one packet that is overwritten before it is read. */
  lemma LossPerConnection(s: State, conn: nat)
    requires Reachable(s)
    ensures |s.gone.lossAt| == |s.gone.lost|
    ensures CountOn(s.gone.lossAt, conn) <= 2
    ensures CountOn(s.gone.lossAt, conn) > 0 ==> 1 <= conn <= s.snd.opens
    ensures s.snd.link == OnLive && s.snd.hand != Leaving ==> CountOn(s.gone.lossAt, s.snd.opens) == 0
    ensures Overwrites(s.gone.lossAt) <= s.snd.falls
    ensures |s.gone.lost| <= 2 * s.snd.opens + s.snd.falls
  {
    Facts(s);
    AtMostTwo(s.gone.lossAt, conn);
    AtMostTwo(s.gone.lossAt, s.snd.opens);
    TotalLoss(s.gone.lossAt, s.snd.opens);
  }

  function SumOn(l: seq<LossAt>, n: nat): nat {
    if n == 0 then 0 else SumOn(l, n - 1) + CountOn(l, n)
  }

  lemma {:induction false} TotalLoss(l: seq<LossAt>, n: nat)
    requires NoTwice(l) && forall w :: w in l ==> 1 <= w.conn <= n
    ensures |l| <= 2 * n + Overwrites(l)
  {
    SumCounts(l, n);
    SumBound(l, n);
  }

  lemma {:induction false} SumCounts(l: seq<LossAt>, n: nat)
    requires forall w :: w in l ==> 1 <= w.conn <= n
    ensures SumOn(l, n) + Overwrites(l) == |l|
  {
    if l == [] {
      SumEmpty(n);
    } else {
      var w := l[|l| - 1];
      assert w in l;
      SumCounts(l[..|l| - 1], n);
      SumStep(l, n);
    }
  }

  lemma {:induction false} SumEmpty(n: nat)
    ensures SumOn([], n) == 0
  {
    if n > 0 { SumEmpty(n - 1); }
  }

  lemma {:induction false} SumStep(l: seq<LossAt>, n: nat)
    requires l != []
    ensures var w := l[|l| - 1];
            SumOn(l, n) == SumOn(l[..|l| - 1], n) + if 1 <= w.conn <= n && w.how != Overwritten then 1 else 0
  {
    if n > 0 { SumStep(l, n - 1); }
  }

  lemma {:induction false} SumBound(l: seq<LossAt>, n: nat)
    requires NoTwice(l)
    ensures SumOn(l, n) <= 2 * n
  {
    if n > 0 {
      SumBound(l, n - 1);
      AtMostTwo(l, n);
    }
  }

  // ---- The mailbox ----

  /** With several writers, the packets read on a connection are a prefix of those written, at
      most one behind, each read whole and once, and an unread one is never overwritten. */
  lemma MailboxIsFifo(s: State)
    requires Reachable(s)
    ensures |s.mail.readings| <= |s.mail.written| <= |s.mail.readings| + 1
    ensures s.mail.live.newMsg <==> |s.mail.written| == |s.mail.readings| + 1
    ensures forall i :: 0 <= i < |s.mail.readings| ==> s.mail.readings[i].frame == FrameOf(Deref(s, s.mail.written[i]))
    ensures s.mail.live.newMsg ==> ReadFrame(s.mail.live) == FrameOf(Deref(s, s.mail.written[|s.mail.readings|]))
  {
    hide FrameOf, Deref, ReadFrame;
    Facts(s);
  }

  // ---- Reassembly ----

  /** Every entry of the receiver's map belongs to one message. Its buffer agrees with the
      message on the chunks consumed since chunk 0 and is untouched elsewhere, its count is the
      number of bytes in those chunks, and the count equals the length of the message exactly
      when all chunks have arrived. */
  lemma EntryExplained(s: State, k: int) returns (j: nat, held: set<nat>)
    requires Reachable(s) && FewDraws(s) && k in s.rcv.rx
    ensures j < |s.book.msgs| && Key(s.first, j) == k && |s.book.msgs[j].data| > CAP
    ensures var size := |s.book.msgs[j].data|;
            var order := OrderOf(s.rcv.consumed, j);
            && s.rcv.rx[k] == Entry(Covered(s.book.msgs[j], held), Bytes(size, held, ChunkCount(size)))
            && (forall c: nat :: c in held <==> Pos(order, 0) <= Pos(order, c) < |order|)
            && (s.rcv.rx[k].got == size <==> Full(held, ChunkCount(size)))
  {
    hide Line, FrameAt, Bytes, Covered;
    Facts(s);
    if forall i :: 0 <= i < |s.book.msgs| ==> Key(s.first, i) != k {
      NoStrangers(s, s.rcv.consumed, k);
      Demultiplex(FramesAt(s, s.rcv.consumed), k);
      assert false;
    }
    j :| j < |s.book.msgs| && Key(s.first, j) == k;
    EntryOfMessage(s, j);
    var m := s.book.msgs[j];
    var order := OrderOf(s.rcv.consumed, j);
    held := Held(|m.data|, order).value;
    CleanOrder(s, s.rcv.consumed, j);
    HeldMeansSeveral(|m.data|, order);
    HeldClosedForm(|m.data|, ChunkCount(|m.data|), order);
    CountTellsAll(|m.data|, held);
  }

  lemma {:induction false} HeldMeansSeveral(size: nat, order: seq<nat>)
    requires Distinct(order, ChunkCount(size)) && Held(size, order).Some?
    ensures size > CAP
  {
    if order[|order| - 1] + 1 >= ChunkCount(size) {
      assert false;
    }
  }

  /** Once every packet of a message of several chunks was consumed, its entry remains in the
      map exactly when chunk 0 was consumed after the last chunk. */
  lemma EntryRemains(s: State, j: nat)
    requires Reachable(s) && FewDraws(s) && j < |s.book.msgs| && |s.book.msgs[j].data| > CAP
    requires forall c: nat :: c < ChunkCount(|s.book.msgs[j].data|) ==> Ptr(j, c) in s.rcv.consumed
    ensures var order := OrderOf(s.rcv.consumed, j);
            Key(s.first, j) in s.rcv.rx <==> Pos(order, ChunkCount(|s.book.msgs[j].data|) - 1) < Pos(order, 0)
  {
    hide Line, FrameAt, OrderOf, Held;
    Facts(s);
    var size := |s.book.msgs[j].data|;
    var n := ChunkCount(size);
    var order := OrderOf(s.rcv.consumed, j);
    CleanOrder(s, s.rcv.consumed, j);
    forall c: nat | c < n ensures c in order { InOrderOf(s.rcv.consumed, j, c); }
    Pigeonhole(order, n);
    HeldAfterPermutation(size, n, order);
    EntryOfMessage(s, j);
    assert Get(s.rcv.rx, Key(s.first, j)).Some? <==> Key(s.first, j) in s.rcv.rx;
  }

  lemma InOrderOf(ps: seq<Ptr>, j: nat, c: nat)
    requires NoRepeats(ps) && Ptr(j, c) in ps
    ensures c in OrderOf(ps, j)
  {
    OfElements(ps, j);
    var own := Of(ps, j);
    var i :| 0 <= i < |own| && own[i] == Ptr(j, c);
    assert OrderOf(ps, j)[i] == c;
  }

  /** Every copy that a reachable state can come to make falls inside the message's buffer. */
  lemma CopyInBounds(s: State)
    requires Reachable(s) && FewDraws(s) && Enabled(s, Recv)
    ensures InBounds(s.rcv.rx, ReadFrame(s.mail.live))
    ensures var f := ReadFrame(s.mail.live);
            0 <= f.header.chunkSeq * CAP && f.header.chunkSeq * CAP + |f.body| <= f.header.totalLen
  {
    hide Line, Feed, ReadFrame, InBounds, Inv, FrameOf;
    var t := Next(s, Recv);
    assert Legal(s, [Recv]) && Exec(s, [Recv]) == t by { OneStep(s, Recv); }
    ReachableOn(s, [Recv]);
    Facts(s);
    Facts(t);
    OutcomesMatch(t);
    Integrity(t, |t.rcv.outcomes| - 1);
    FaultMeansOutside(s.rcv.rx, ReadFrame(s.mail.live));
    MailboxIsFifo(s);
    var p := s.mail.written[|s.mail.readings|];
    assert p in s.mail.written;
    FrameInBounds(s, p);
  }

  lemma OneStep(s: State, a: Action)
    requires Enabled(s, a)
    ensures Legal(s, [a]) && Exec(s, [a]) == Next(s, a)
  {
    hide Next, Enabled;
    var t := Next(s, a);
    assert [a][1..] == [];
    assert Legal(t, []) && Exec(t, []) == t;
  }

  lemma FaultMeansOutside(m: RecvMap, f: Frame)
    ensures Feed(m, f).1 == Fault <==> !InBounds(m, f)
  {
  }

  lemma FrameInBounds(s: State, p: Ptr)
    requires Valid(s, p) && IsMessage(s.book.msgs[p.msg])
    ensures var f := FrameOf(Deref(s, p));
            0 <= f.header.chunkSeq * CAP && f.header.chunkSeq * CAP + |f.body| <= f.header.totalLen
  {
    var m := s.book.msgs[p.msg];
    ChunkHeaderOnWire(SeqNo(s, p.msg), m, p.chunk);
    ChunkShape(|m.data|, p.chunk);
  }

  /** The buffers that `recv` allocated are the freed ones and those of the map: none leaks. */
  lemma NoBufferLeaks(s: State)
    requires Reachable(s) && FewDraws(s)
    ensures var fs := FramesAt(s, s.rcv.consumed);
            Leaked(fs) == 0 && Allocated(fs) == Freed(fs) + |s.rcv.rx|
  {
    hide Line, FrameAt, FramesAt;
    Facts(s);
    Ledger(FramesAt(s, s.rcv.consumed));
    NoLeaksIn(s, s.rcv.consumed);
  }

  lemma {:induction false} NoLeaksIn(s: State, ps: seq<Ptr>)
    requires FewDraws(s) && Clean(s, ps)
    ensures Leaked(FramesAt(s, ps)) == 0
  {
    hide FrameAt, EntryOf, Clean;
    if ps != [] {
      var front, p := ps[..|ps| - 1], ps[|ps| - 1];
      assert FramesAt(s, ps)[..|ps| - 1] == FramesAt(s, front);
      CleanPrefix(s, ps, |ps| - 1);
      CleanMember(s, ps, |ps| - 1);
      LastIsNew(s, ps);
      NoLeaksIn(s, front);
      FrameKey(s, p);
      FirstChunkFindsNoEntry(s, front, p);
    }
  }

  lemma LastIsNew(s: State, ps: seq<Ptr>)
    requires Clean(s, ps) && ps != []
    ensures ps[|ps| - 1] !in ps[..|ps| - 1]
  {
  }

  lemma FirstChunkFindsNoEntry(s: State, front: seq<Ptr>, p: Ptr)
    requires FewDraws(s) && Clean(s, front) && p !in front && Valid(s, p) && IsMessage(s.book.msgs[p.msg])
    ensures Allocates(FrameAt(s, p).header) ==> Key(s.first, p.msg) !in Run(FramesAt(s, front))
  {
    hide Run, FramesAt, Bytes, Covered;
    var m := s.book.msgs[p.msg];
    ChunkHeaderOnWire(SeqNo(s, p.msg), m, p.chunk);
    EntryInStream(s, front, p.msg);
    if p.chunk == 0 {
      OfElements(front, p.msg);
      var order := OrderOf(front, p.msg);
      forall i | 0 <= i < |order| ensures order[i] != 0 {
        assert Of(front, p.msg)[i] in Of(front, p.msg);
      }
      HeldNeedsFirst(|m.data|, order);
      assert Get(Run(FramesAt(s, front)), Key(s.first, p.msg)) == None;
    }
  }

  lemma {:induction false} HeldNeedsFirst(size: nat, order: seq<nat>)
    requires forall i :: 0 <= i < |order| ==> order[i] != 0
    ensures Held(size, order) == None
  {
    if order != [] { HeldNeedsFirst(size, order[..|order| - 1]); }
  }

  // ---- Shutdown ----

  /** A call of `recv` ends the receiver's loop exactly when it announces something and the
      sender has not claimed the mailbox yet, or has written a bye to it since. */
  lemma LoopEndsIff(s: State)
    requires Reachable(s) && Enabled(s, Recv)
    ensures !Next(s, Recv).rcv.listening
            <==> Feed(s.rcv.rx, ReadFrame(s.mail.live)).1.Notified? && (s.snd.hand == Opening || s.mail.parted)
  {
    hide Line, Feed, ReadFrame, FrameAt, InOrder, Fifo, Counters, Losses, Working;
    Facts(s);
  }

  /** Something was overwritten on the connection in use exactly when that is among its losses;
      without a fall of the connection flag that never happens. */
  lemma SmudgedIff(s: State)
    requires Reachable(s)
    ensures s.mail.smudged <==> s.mail.liveOpened && LossAt(s.snd.opens, Overwritten) in s.gone.lossAt
    ensures s.snd.falls == 0 ==> !s.mail.smudged
  {
    hide Line;
    Facts(s);
    OverwritesCounted(s.gone.lossAt, LossAt(s.snd.opens, Overwritten));
  }

  lemma {:induction false} OverwritesCounted(l: seq<LossAt>, at: LossAt)
    ensures at in l && at.how == Overwritten ==> Overwrites(l) > 0
  {
    if l != [] { OverwritesCounted(l[..|l| - 1], at); }
  }

  /** While nothing was overwritten on the connection, this means: exactly when it reads a bye
      that was written after the sender claimed the mailbox, or any control packet that got in
      before the claim. A bye written before the claim and read after it does not end the loop. */
  lemma RecvEndsLoopIff(s: State)
    requires Reachable(s) && FewDraws(s) && Enabled(s, Recv)
    requires s.mail.liveOpened ==> LossAt(s.snd.opens, Overwritten) !in s.gone.lossAt
    ensures s.mail.written != []
    ensures !Next(s, Recv).rcv.listening
            <==> s.snd.hand == Opening || (IsBye(EventOf(s, LastWrite(s))) && !s.mail.early)
  {
    hide Line, Feed, ReadFrame, FrameAt, InOrder, Fifo, Counters, Losses;
    Facts(s);
    SmudgedIff(s);
    var p := LastWrite(s);
    assert Unread(s) == [p] && p in s.mail.written;
    if !s.mail.live.senderWorking { ControlAnnounced(s, p); }
  }

  /** Orderly shutdown: when a call of `recv` found the sender not working, it was the last call
      on that connection and read a bye, or a control packet before the sender's claim; every
      packet written before was read first and in order, each with the sender still working, and
      the loop has ended. */
  lemma NothingAfterBye(s: State, i: nat)
    requires Reachable(s) && FewDraws(s)
    requires s.mail.liveOpened ==> LossAt(s.snd.opens, Overwritten) !in s.gone.lossAt
    requires i < |s.mail.readings| && !s.mail.readings[i].working
    ensures i == |s.mail.readings| - 1 && !s.rcv.listening && EndsLoop(s.mail.readings[i])
    ensures |s.mail.readings| <= |s.mail.written|
    ensures forall k :: 0 <= k < i ==>
              s.mail.readings[k].working && s.mail.readings[k].frame == FrameOf(Deref(s, s.mail.written[k]))
  {
    hide FrameOf, Deref, ReadFrame;
    Facts(s);
    SmudgedIff(s);
  }

  /** In particular on every channel whose connection flag has never fallen. */
  lemma NoFallNoOverwriting(s: State)
    requires Reachable(s) && s.snd.falls == 0
    ensures forall w :: w in s.gone.lossAt ==> w.how != Overwritten
  {
    hide Line;
    Facts(s);
    forall w | w in s.gone.lossAt ensures w.how != Overwritten {
      OverwritesCounted(s.gone.lossAt, w);
    }
  }
}
