/** When and how the receiver's loop ends. */
module Shutdown {
  import opened Wire
  import opened Chunking
  import opened Mailbox
  import opened Reassembly
  import opened Orders
  import opened Protocol
  import opened Conservation
  import opened Sequencing
  import opened Transfer
  import opened Delivery

  function LastWrite(s: State): Ptr
    requires s.mail.written != []
  {
    s.mail.written[|s.mail.written| - 1]
  }

  function EventOf(s: State, p: Ptr): int {
    if p.msg < |s.book.msgs| then s.book.msgs[p.msg].evt else 0
  }

  /** The sender's claim on the mailbox in use. */
  ghost predicate Claims(s: State) {
    && (!s.mail.liveOpened ==> !s.mail.live.senderWorking)
    && (s.snd.link == OnLive && s.snd.hand == Opening ==>
          !s.mail.live.senderWorking && (s.mail.written != [] ==> s.mail.early))
    && (s.mail.live.newMsg && s.mail.written != [] && IsBye(EventOf(s, LastWrite(s))) ==>
          (s.mail.live.senderWorking <==> s.mail.early && s.snd.hand != Opening))
    && (!s.mail.liveOpened || (s.snd.link == OnLive && s.snd.hand == Opening) ==> !s.mail.parted)
    && (s.mail.liveOpened && !(s.snd.link == OnLive && s.snd.hand == Opening) ==>
          (s.mail.live.senderWorking <==> !s.mail.parted))
  }

  /** As long as nothing was overwritten on the connection: while the receiver listens, a
      mailbox that its sender does not work on holds a bye, or a control packet written before
      the sender claimed it; and a call of `recv` that found the sender not working was the
      last, and read a bye, or a control packet before the claim. */
  ghost predicate Working(s: State) {
    !s.mail.smudged ==>
      && (forall i :: 0 <= i < |s.mail.readings| && !s.mail.readings[i].working ==>
            i == |s.mail.readings| - 1 && !s.rcv.listening && EndsLoop(s.mail.readings[i]))
      && (s.rcv.listening && s.mail.live.newMsg && !s.mail.live.senderWorking && s.mail.written != [] ==>
            && LastWrite(s).msg < |s.book.msgs| && IsControl(s.book.msgs[LastWrite(s).msg])
            && (IsBye(EventOf(s, LastWrite(s))) || s.snd.hand == Opening))
      && (s.rcv.listening && s.snd.link == OnLive && s.snd.hand != Opening && !s.mail.live.senderWorking ==>
            s.mail.live.newMsg)
  }

  predicate EndsLoop(r: Reading) {
    IsBye(r.frame.evt) || (r.opening && CLIENT_HELLO <= r.frame.evt <= PONG)
  }

  lemma ClaimsNext(s: State, a: Action)
    requires Shape(s) && Known(s) && Claims(s) && Enabled(s, a)
    ensures Claims(Next(s, a))
  {
    match a
    case Draw(m) => ClaimsDraw(s, m);
    case Control(j) => ClaimsWrite(s, Ptr(j, 0)); ClaimsSame(Write(s, Ptr(j, 0)), Next(s, a));
    case SendOk => ClaimsWrite(s, s.snd.hand.p); ClaimsSame(Write(s, s.snd.hand.p), Next(s, a));
    case _ => ClaimsOther(s, a);
  }

  lemma ClaimsDraw(s: State, m: Message)
    requires Known(s) && Claims(s) && Enabled(s, Draw(m))
    ensures Claims(Next(s, Draw(m)))
  {
    if s.mail.written != [] { assert LastWrite(s) in s.mail.written; }
  }

  lemma ClaimsWrite(s: State, p: Ptr)
    requires Shape(s) && Claims(s) && Passes(s, p, true) && p.msg < |s.book.msgs| && Valid(s, p)
    ensures Claims(Write(s, p))
  {
    hide Counters;
  }

  lemma ClaimsSame(s: State, t: State)
    requires Claims(s) && t.mail == s.mail && t.book.msgs == s.book.msgs
    requires t.snd.link == s.snd.link && (t.snd.hand == Opening <==> s.snd.hand == Opening)
    ensures Claims(t)
  {
  }

  lemma ClaimsOther(s: State, a: Action)
    requires Shape(s) && Claims(s) && Enabled(s, a)
    requires !a.Draw? && !a.Control? && !a.SendOk?
    ensures Claims(Next(s, a))
  {
    hide CanWrite, Counters, Feed, ReadFrame;
  }

  // ---- A control packet is always announced ----

  /** A packet in the mailbox has not been consumed. */
  lemma UnreadIsNew(s: State, p: Ptr)
    requires Shape(s) && IssuedOnce(s) && Conserved(s) && p in Unread(s)
    ensures p !in s.rcv.consumed
  {
    hide Shape;
    LineClean(s);
    var i :| 0 <= i < |Unread(s)| && Unread(s)[i] == p;
    assert Line(s)[|s.rcv.consumed| + i] == p;
    forall k | 0 <= k < |s.rcv.consumed| ensures s.rcv.consumed[k] != p {
      assert Line(s)[k] == s.rcv.consumed[k];
    }
  }

  /** The packet of a control message finds no entry under its key. */
  lemma ControlAnnounced(s: State, p: Ptr)
    requires Shape(s) && IssuedOnce(s) && Conserved(s) && Reassembled(s) && FewDraws(s)
    requires p in Unread(s) && Valid(s, p) && IsControl(s.book.msgs[p.msg])
    ensures Feed(s.rcv.rx, FrameAt(s, p)).1 == Notified(s.book.msgs[p.msg].evt, None, 0)
  {
    hide Line, Unread, Feed, FrameAt, Reassembled, Clean, EntryOf;
    LineClean(s);
    UnreadIsNew(s, p);
    ControlUnseen(s, p);
    EntryOfMessage(s, p.msg);
    FrameKey(s, p);
    FeedIsLocal(s.rcv.rx, FrameAt(s, p), Key(s.first, p.msg));
    ControlFrame(s, p);
  }

  lemma ControlUnseen(s: State, p: Ptr)
    requires Clean(s, s.rcv.consumed) && p !in s.rcv.consumed
    requires Valid(s, p) && IsControl(s.book.msgs[p.msg])
    ensures EntryOf(s.book.msgs[p.msg], Held(|s.book.msgs[p.msg].data|, OrderOf(s.rcv.consumed, p.msg))) == None
  {
    forall q | q in s.rcv.consumed ensures q.msg != p.msg {
      assert q.msg == p.msg ==> q == p;
    }
    OfNone(s.rcv.consumed, p.msg);
  }

  lemma ControlFrame(s: State, p: Ptr)
    requires Valid(s, p) && IsControl(s.book.msgs[p.msg])
    ensures FeedOne(None, FrameAt(s, p)).1 == Notified(s.book.msgs[p.msg].evt, None, 0)
  {
    ChunkHeaderOnWire(SeqNo(s, p.msg), s.book.msgs[p.msg], p.chunk);
  }

  lemma WorkingNext(s: State, a: Action)
    requires Shape(s) && Known(s) && Mailed(s) && Claims(s) && Working(s) && Queued(s) && Enabled(s, a)
    requires a.Recv? ==> IssuedOnce(s) && Conserved(s) && Reassembled(s) && FewDraws(s)
    ensures Working(Next(s, a))
  {
    match a
    case Draw(m) => WorkingDraw(s, m);
    case Control(j) => WorkingControl(s, j);
    case SendOk => WorkingSendOk(s);
    case Recv => WorkingRecv(s);
    case _ => WorkingOther(s, a);
  }

  lemma WorkingDraw(s: State, m: Message)
    requires Known(s) && Working(s) && Enabled(s, Draw(m))
    ensures Working(Next(s, Draw(m)))
  {
  }

  lemma WorkingControl(s: State, j: nat)
    requires Shape(s) && Working(s) && Enabled(s, Control(j))
    ensures Working(Next(s, Control(j)))
  {
    hide Counters;
  }

  lemma WorkingSendOk(s: State)
    requires Shape(s) && Known(s) && Working(s) && Queued(s) && Enabled(s, SendOk)
    ensures Working(Next(s, SendOk))
  {
    hide Counters;
    assert s.snd.hand.p in InHand(s);
  }

  lemma WorkingRecv(s: State)
    requires Shape(s) && IssuedOnce(s) && Conserved(s) && Known(s) && Mailed(s) && Reassembled(s) && Working(s)
    requires FewDraws(s) && Enabled(s, Recv)
    ensures Working(Next(s, Recv))
  {
    hide Counters, Feed, ReadFrame, FrameAt, IssuedOnce, Conserved, Reassembled, Line;
    var p := LastWrite(s);
    assert Unread(s) == [p];
    if !s.mail.live.senderWorking && !s.mail.smudged {
      ControlAnnounced(s, p);
      FrameEvent(s, p);
    }
  }

  lemma FrameEvent(s: State, p: Ptr)
    requires Valid(s, p)
    ensures FrameAt(s, p).evt == EventOf(s, p)
  {
  }

  lemma WorkingOther(s: State, a: Action)
    requires Shape(s) && Claims(s) && Working(s) && Enabled(s, a)
    requires !a.Draw? && !a.Control? && !a.SendOk? && !a.Recv?
    ensures Working(Next(s, a))
  {
    hide CanWrite, Counters;
  }
}
