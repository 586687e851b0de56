/** What the mailbox holds and what the receiver makes of it, in every reachable state. */
module Transfer {
  import opened Chunking
  import opened Mailbox
  import opened Reassembly
  import opened Protocol
  import opened Conservation

  function FrameAt(s: State, p: Ptr): Frame { FrameOf(Deref(s, p)) }

  function FramesAt(s: State, ps: seq<Ptr>): seq<Frame> {
    seq(|ps|, i requires 0 <= i < |ps| => FrameAt(s, ps[i]))
  }

  /** The receiver has read the writes of this connection in order, whole and once each; the
      write it has not read yet is still intact in the mailbox. */
  ghost predicate Mailed(s: State) {
    var r := |s.mail.readings|;
    && r <= |s.mail.written| && r <= |s.rcv.consumed|
    && s.rcv.consumed[|s.rcv.consumed| - r..] == s.mail.written[..r]
    && (forall i :: 0 <= i < r ==> s.mail.readings[i].frame == FrameAt(s, s.mail.written[i]))
    && (s.mail.live.newMsg ==>
          s.mail.written != [] && ReadFrame(s.mail.live) == FrameAt(s, s.mail.written[|s.mail.written| - 1]))
  }

  /** The receiver's map and outcomes are those of `recv` run on the consumed packets. */
  ghost predicate Reassembled(s: State) {
    && s.rcv.rx == Run(FramesAt(s, s.rcv.consumed))
    && s.rcv.outcomes == Outcomes(FramesAt(s, s.rcv.consumed))
  }

  /** Every packet that is written, consumed or in hand is one that was issued. */
  ghost predicate Known(s: State) {
    forall p :: p in s.mail.written || p in s.rcv.consumed || p in InHand(s) ==> Valid(s, p)
  }

  lemma KnownInLine(s: State)
    requires Shape(s) && IssuedOnce(s) && Conserved(s) && Mailed(s)
    ensures Known(s)
  {
    hide Line, Mailed, InHand, Mail;
    LineIssued(s);
    AllInLine(s);
  }

  lemma AllInLine(s: State)
    requires Mailed(s)
    ensures forall p :: p in s.mail.written || p in s.rcv.consumed || p in InHand(s) ==> p in Line(s)
  {
    hide InHand, FrameAt, ReadFrame;
    var r := |s.mail.readings|;
    assert s.mail.written == s.mail.written[..r] + s.mail.written[r..];
    forall p | p in s.mail.written ensures p in Line(s) {
      if p in s.mail.written[..r] { assert p in s.rcv.consumed[|s.rcv.consumed| - r..]; }
    }
  }

  /** Sequence numbers drawn later do not change the packets of earlier ones. */
  lemma FramesStable(s: State, t: State, ps: seq<Ptr>)
    requires s.first == t.first && s.book.msgs <= t.book.msgs
    requires forall p :: p in ps ==> p.msg < |s.book.msgs|
    ensures FramesAt(t, ps) == FramesAt(s, ps)
    ensures forall i :: 0 <= i < |ps| ==> FrameAt(t, ps[i]) == FrameAt(s, ps[i])
  {
    hide FrameAt;
    forall i | 0 <= i < |ps| ensures FrameAt(t, ps[i]) == FrameAt(s, ps[i]) {
      assert ps[i] in ps;
      FrameStable(s, t, ps[i]);
    }
  }

  lemma FrameStable(s: State, t: State, p: Ptr)
    requires s.first == t.first && s.book.msgs <= t.book.msgs && p.msg < |s.book.msgs|
    ensures FrameAt(t, p) == FrameAt(s, p)
  {
  }

  lemma FirstKept(s: State, a: Action)
    requires Enabled(s, a)
    ensures Next(s, a).first == s.first
  {
  }

  lemma MailedNext(s: State, a: Action)
    requires Shape(s) && Known(s) && Mailed(s) && Enabled(s, a)
    ensures Mailed(Next(s, a))
  {
    match a
    case Draw(m) => MailedDraw(s, m);
    case Control(j) => MailedWrite(s, Ptr(j, 0)); MailedSame(Write(s, Ptr(j, 0)), Next(s, a));
    case SendOk => MailedWrite(s, s.snd.hand.p); MailedSame(Write(s, s.snd.hand.p), Next(s, a));
    case Recv => MailedRecv(s);
    case _ => MailedOther(s, a);
  }

  lemma MailedDraw(s: State, m: Message)
    requires Known(s) && Mailed(s) && Enabled(s, Draw(m))
    ensures Mailed(Next(s, Draw(m)))
  {
    hide FrameOf, Deref, ReadFrame;
    FramesStable(s, Next(s, Draw(m)), s.mail.written);
  }

  lemma MailedWrite(s: State, p: Ptr)
    requires Shape(s) && Mailed(s) && Passes(s, p, true)
    ensures Mailed(Write(s, p))
  {
    hide Deref, FrameOf, WritePacket, ReadFrame, Counters;
    if s.snd.link == OnLive { ReadAfterWrite(s.mail.live, Deref(s, p)); }
    assert forall q :: FrameAt(Write(s, p), q) == FrameAt(s, q) by { FrameAtSame(s, Write(s, p)); }
  }

  lemma FrameAtSame(s: State, t: State)
    requires s.first == t.first && s.book.msgs == t.book.msgs
    ensures forall q :: FrameAt(t, q) == FrameAt(s, q)
  {
  }

  lemma MailedSame(s: State, t: State)
    requires Mailed(s) && t.first == s.first && t.book.msgs == s.book.msgs
    requires t.rcv.consumed == s.rcv.consumed && t.mail == s.mail
    ensures Mailed(t)
  {
    hide Deref, FrameOf, ReadFrame;
    FrameAtSame(s, t);
  }

  lemma MailedRecv(s: State)
    requires Shape(s) && Mailed(s) && Enabled(s, Recv)
    ensures Mailed(Next(s, Recv))
  {
    hide Deref, FrameOf, ReadFrame, Counters, Feed;
    var t := Next(s, Recv);
    var r := |s.mail.readings|;
    FrameAtSame(s, t);
    assert t.mail.written[..r + 1] == s.mail.written[..r] + Unread(s);
    assert t.rcv.consumed[|t.rcv.consumed| - (r + 1)..] == s.rcv.consumed[|s.rcv.consumed| - r..] + Unread(s);
  }

  lemma MailedOther(s: State, a: Action)
    requires Shape(s) && Mailed(s) && Enabled(s, a)
    requires !a.Draw? && !a.Control? && !a.SendOk? && !a.Recv?
    ensures Mailed(Next(s, a))
  {
    hide Deref, FrameOf, CanWrite;
    var t := Next(s, a);
    BookOf(s, a);
    FirstKept(s, a);
    FrameAtSame(s, t);
  }

  lemma ReassembledNext(s: State, a: Action)
    requires Shape(s) && Known(s) && Mailed(s) && Reassembled(s) && Enabled(s, a)
    ensures Reassembled(Next(s, a))
  {
    hide Next, Deref, FrameOf, Feed, Run, Outcomes, CanWrite, Shape;
    var t := Next(s, a);
    BookOf(s, a);
    FirstKept(s, a);
    FramesStable(s, t, s.rcv.consumed);
    if a.Recv? { ReassembledRecv(s); } else { ReceiverKept(s, a); }
  }

  lemma ReceiverKept(s: State, a: Action)
    requires Enabled(s, a) && !a.Recv?
    ensures Next(s, a).rcv.rx == s.rcv.rx
    ensures Next(s, a).rcv.consumed == s.rcv.consumed && Next(s, a).rcv.outcomes == s.rcv.outcomes
  {
  }

  lemma ReassembledRecv(s: State)
    requires Shape(s) && Mailed(s) && Reassembled(s) && Enabled(s, Recv)
    ensures Reassembled(Next(s, Recv))
  {
    hide Deref, FrameOf, Feed, ReadFrame, Counters;
    var t := Next(s, Recv);
    var p := s.mail.written[|s.mail.written| - 1];
    FrameAtSame(s, t);
    assert Unread(s) == [p];
    assert FramesAt(t, t.rcv.consumed) == FramesAt(s, s.rcv.consumed) + [FrameAt(s, p)];
    RunSnoc(FramesAt(s, s.rcv.consumed), FrameAt(s, p));
  }
}
