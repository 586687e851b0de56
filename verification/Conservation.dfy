/** Where every packet is, in every reachable state. */
module Conservation {
  import opened Wire
  import opened Chunking
  import opened Mailbox
  import opened Reassembly
  import opened Protocol

  /** One counter per draw, never beyond the packets of its message. */
  ghost predicate Counters(s: State) {
    && |s.book.sent| == |s.book.msgs|
    && forall j :: 0 <= j < |s.book.msgs| ==>
         IsMessage(s.book.msgs[j]) && s.book.sent[j] <= ChunkCount(|s.book.msgs[j].data|)
  }

  /** The mailbox is at most one write ahead of its reader, and the links agree. */
  ghost predicate Mail(s: State) {
    && |s.mail.readings| <= |s.mail.written| <= |s.mail.readings| + 1
    && (s.mail.live.newMsg <==> |s.mail.written| == |s.mail.readings| + 1)
    && |s.rcv.outcomes| == |s.rcv.consumed|
    && |s.gone.lossAt| == |s.gone.lost|
    && (s.snd.link == OnLive ==> s.mail.liveOpened)
    && (s.snd.link == OnOrphan ==> !s.mail.liveOpened)
    && (!s.mail.liveOpened ==> s.mail.written == [])
    && (s.snd.link == Detached ==> s.snd.hand == Idle)
    && (s.snd.hand.Tried? && !s.snd.hand.ok ==> s.snd.hand.p.msg in s.gone.failed)
  }

  /** The queue and the send loop's hand hold posted packets only. */
  ghost predicate Queued(s: State) {
    forall p :: p in s.snd.queue || p in InHand(s) ==> p.msg < |s.book.msgs| && IsData(s.book.msgs[p.msg])
  }

  lemma QueuedNext(s: State, a: Action)
    requires Queued(s) && Enabled(s, a)
    ensures Queued(Next(s, a))
  {
    hide CanWrite, Feed, ReadFrame;
  }

  ghost predicate Shape(s: State) { Counters(s) && Mail(s) }

  lemma ShapeNext(s: State, a: Action)
    requires Shape(s) && Enabled(s, a)
    ensures Shape(Next(s, a))
  {
    hide Next, Enabled, Counters, Mail;
    CountersNext(s, a);
    MailNext(s, a);
  }

  lemma CountersNext(s: State, a: Action)
    requires Counters(s) && Enabled(s, a)
    ensures Counters(Next(s, a))
  {
    hide Next, CanWrite, ChunkCount;
    var p := if a.Push? || a.Control? then Ptr(a.j, s.book.sent[a.j]) else Ptr(0, 0);
    BooksOf(s, a, if a.Push? then Grow(p) else if a.Control? then Stray(p) else Keep);
  }

  lemma MailNext(s: State, a: Action)
    requires Mail(s) && Enabled(s, a)
    ensures Mail(Next(s, a))
  {
    hide Feed, ReadFrame, Deref, Encode, Zeros;
  }

  // ---- What a step does to the packets ----

  /** The ways in which a step moves packets. */
  datatype Move =
    | Keep
    | Grow(p: Ptr)                             // pushed at the back of the line
    | Insert(x: seq<Ptr>, us: seq<Ptr>, p: Ptr, y: seq<Ptr>)  // a control packet replaces what is unread
    | Stray(p: Ptr)                            // a control packet is written where nobody reads
    | Requeue(x: seq<Ptr>, p: Ptr, y: seq<Ptr>)
    | Lose(x: seq<Ptr>, ps: seq<Ptr>, y: seq<Ptr>)
    | Dump(x: seq<Ptr>, ps: seq<Ptr>, y: seq<Ptr>)

  predicate Issues(mv: Move) { mv.Grow? || mv.Insert? || mv.Stray? }

  /** The packets that a move loses. */
  function Removed(mv: Move): seq<Ptr> {
    match mv
    case Stray(p) => [p]
    case Lose(x, ps, y) => ps
    case Insert(x, us, p, y) => us
    case _ => []
  }

  ghost predicate Moves(s: State, t: State, mv: Move) {
    && s.gone.failed <= t.gone.failed
    && t.book.issued == s.book.issued + (if Issues(mv) then [mv.p] else [])
    && t.gone.lost == s.gone.lost + Removed(mv)
    && t.gone.cleared == s.gone.cleared + (if mv.Dump? then mv.ps else [])
    && match mv
       case Keep => Line(t) == Line(s)
       case Grow(p) => Line(t) == Line(s) + [p]
       case Insert(x, us, p, y) => Line(s) == x + (us + y) && Line(t) == x + ([p] + y)
       case Stray(p) => Line(t) == Line(s)
       case Requeue(x, p, y) => Line(s) == x + ([p] + y) && Line(t) == x + (y + [p]) && p.msg in s.gone.failed
       case Lose(x, ps, y) => Line(s) == x + (ps + y) && Line(t) == x + y
       case Dump(x, ps, y) => Line(s) == x + (ps + y) && Line(t) == x + y
  }

  /** How the counters follow: the packet issued is the next one of its message. */
  ghost predicate Books(s: State, t: State, mv: Move) {
    && |t.book.sent| == |t.book.msgs|
    && if Issues(mv)
       then && mv.p.msg < |s.book.sent| && mv.p.chunk == s.book.sent[mv.p.msg] && t.book.msgs == s.book.msgs
            && t.book.sent == s.book.sent[mv.p.msg := mv.p.chunk + 1]
            && IsMessage(s.book.msgs[mv.p.msg]) && (mv.Grow? <==> IsData(s.book.msgs[mv.p.msg]))
            && mv.p.chunk < ChunkCount(|s.book.msgs[mv.p.msg].data|)
       else && s.book.msgs <= t.book.msgs && s.book.sent <= t.book.sent
            && (forall j :: |s.book.sent| <= j < |t.book.sent| ==> t.book.sent[j] == 0 && IsMessage(t.book.msgs[j]))
  }

  lemma BooksOf(s: State, a: Action, mv: Move)
    requires Counters(s) && Enabled(s, a)
    requires Issues(mv) <==> a.Push? || a.Control?
    requires Issues(mv) ==> mv.p == Ptr(a.j, s.book.sent[a.j])
    requires mv.Grow? <==> a.Push?
    ensures Books(s, Next(s, a), mv)
  {
    hide Next, CanWrite, ChunkCount;
    BookOf(s, a);
  }

  /** Only three kinds of step touch the book. */
  lemma BookOf(s: State, a: Action)
    requires Enabled(s, a)
    ensures Next(s, a).book ==
              match a
              case Draw(m) => s.book.(msgs := s.book.msgs + [m], sent := s.book.sent + [0])
              case Push(j) => Issue(s.book, Ptr(j, s.book.sent[j]))
              case Control(j) => Issue(s.book, Ptr(j, s.book.sent[j]))
              case _ => s.book
  {
  }

  lemma MoveOf(s: State, a: Action) returns (mv: Move)
    requires Shape(s) && Enabled(s, a)
    ensures Moves(s, Next(s, a), mv) && Books(s, Next(s, a), mv)
  {
    hide Next, Line, Moves, Books, CanWrite;
    match a {
    case Push(j) => mv := MoveOfPush(s, j);
    case Control(j) => mv := MoveOfControl(s, j);
    case Pop => mv := Keep; MoveOfPop(s);
    case SendOk => mv := MoveOfSendOk(s);
    case Retry => mv := MoveOfRetry(s);
    case Drop => mv := Dump(s.rcv.consumed + Unread(s), InHand(s), s.snd.queue); MoveOfDrop(s);
    case Break => mv := Lose(s.rcv.consumed + Unread(s), InHand(s), s.snd.queue); MoveOfBreak(s);
    case Listen => mv := Lose(s.rcv.consumed, Unread(s), InHand(s) + s.snd.queue); MoveOfListen(s);
    case Clear => mv := Dump(s.rcv.consumed + (Unread(s) + InHand(s)), s.snd.queue, []); MoveOfClear(s);
    case Recv => mv := Keep; MoveOfRecv(s);
    case _ => mv := Keep; MoveOfOther(s, a);
    }
    BooksOf(s, a, mv);
  }

  lemma MoveOfPush(s: State, j: nat) returns (mv: Move)
    requires Shape(s) && Enabled(s, Push(j))
    ensures Moves(s, Next(s, Push(j)), mv) && mv == Grow(Ptr(j, s.book.sent[j]))
  {
    hide CanWrite, Feed, Counters;
    mv := Grow(Ptr(j, s.book.sent[j]));
  }

  lemma MoveOfControl(s: State, j: nat) returns (mv: Move)
    requires Shape(s) && Enabled(s, Control(j))
    ensures Moves(s, Next(s, Control(j)), mv)
    ensures (mv.Insert? || mv.Stray?) && mv.p == Ptr(j, 0)
  {
    hide Deref, Encode, Zeros, WritePacket;
    var p, t := Ptr(j, 0), Next(s, Control(j));
    if s.snd.link == OnLive {
      assert Unread(t) == [p];
      mv := Insert(s.rcv.consumed, Unread(s), p, InHand(s) + s.snd.queue);
    } else {
      mv := Stray(p);
    }
  }

  lemma MoveOfPop(s: State)
    requires Shape(s) && Enabled(s, Pop)
    ensures Moves(s, Next(s, Pop), Keep)
  {
    hide Feed, Counters;
    var t := Next(s, Pop);
    assert InHand(s) == [] && InHand(t) == [s.snd.queue[0]] && Unread(t) == Unread(s);
    assert s.snd.queue == [s.snd.queue[0]] + s.snd.queue[1..];
  }

  lemma MoveOfSendOk(s: State) returns (mv: Move)
    requires Shape(s) && Enabled(s, SendOk)
    ensures Moves(s, Next(s, SendOk), mv) && !Issues(mv)
  {
    hide Deref, Encode, Zeros, WritePacket;
    var p, t := s.snd.hand.p, Next(s, SendOk);
    if s.snd.link == OnLive {
      assert Unread(t) == [p];
      mv := Lose(s.rcv.consumed, Unread(s), [p] + s.snd.queue);
    } else {
      mv := Lose(s.rcv.consumed + Unread(s), [p], s.snd.queue);
    }
  }

  lemma MoveOfRetry(s: State) returns (mv: Move)
    requires Shape(s) && Enabled(s, Retry)
    ensures Moves(s, Next(s, Retry), mv) && !Issues(mv)
  {
    hide Next, Moves, Counters;
    if s.snd.hand.ok {
      mv := Keep;
      MoveOfRetryDone(s);
    } else {
      mv := Requeue(s.rcv.consumed + Unread(s), s.snd.hand.p, s.snd.queue);
      MoveOfRetryFailed(s);
    }
  }

  lemma MoveOfRetryDone(s: State)
    requires Shape(s) && Enabled(s, Retry) && s.snd.hand.ok
    ensures Moves(s, Next(s, Retry), Keep)
  {
    hide CanWrite, Feed, Counters;
  }

  lemma MoveOfRetryFailed(s: State)
    requires Shape(s) && Enabled(s, Retry) && !s.snd.hand.ok
    ensures Moves(s, Next(s, Retry), Requeue(s.rcv.consumed + Unread(s), s.snd.hand.p, s.snd.queue))
  {
    hide CanWrite, Feed, Counters;
  }

  lemma MoveOfDrop(s: State)
    requires Shape(s) && Enabled(s, Drop)
    ensures Moves(s, Next(s, Drop), Dump(s.rcv.consumed + Unread(s), InHand(s), s.snd.queue))
  {
    hide CanWrite, Feed, Counters;
  }

  lemma MoveOfBreak(s: State)
    requires Shape(s) && Enabled(s, Break)
    ensures Moves(s, Next(s, Break), Lose(s.rcv.consumed + Unread(s), InHand(s), s.snd.queue))
  {
    hide CanWrite, Feed, Counters;
  }

  lemma MoveOfListen(s: State)
    requires Shape(s) && Enabled(s, Listen)
    ensures Moves(s, Next(s, Listen), Lose(s.rcv.consumed, Unread(s), InHand(s) + s.snd.queue))
  {
    hide CanWrite, Feed, Counters;
  }

  lemma MoveOfClear(s: State)
    requires Shape(s) && Enabled(s, Clear)
    ensures Moves(s, Next(s, Clear), Dump(s.rcv.consumed + (Unread(s) + InHand(s)), s.snd.queue, []))
  {
    hide Feed, Counters;
    var t := Next(s, Clear);
    assert Unread(t) == Unread(s) && InHand(t) == InHand(s) && t.snd.queue == [];
  }

  lemma MoveOfRecv(s: State)
    requires Shape(s) && Enabled(s, Recv)
    ensures Moves(s, Next(s, Recv), Keep)
  {
    hide Feed, ReadFrame, Counters;
    var t := Next(s, Recv);
    assert Unread(t) == [] && InHand(t) == InHand(s) && t.rcv.consumed == s.rcv.consumed + Unread(s);
    assert Line(t) == (s.rcv.consumed + Unread(s)) + (InHand(s) + s.snd.queue);
  }

  lemma MoveOfOther(s: State, a: Action)
    requires Shape(s) && Enabled(s, a)
    requires a.Draw? || a.SendFail? || a.Reset? || a.Attach? || a.Begin? || a.SetConnected? || a.Quit?
             || a.RecverStop? || a.Halt?
    ensures Moves(s, Next(s, a), Keep)
  {
    hide Deref, Encode, Zeros;
  }

  /** The packets issued are exactly those the counters say, each once. */
  ghost predicate IssuedOnce(s: State) {
    && |s.book.sent| == |s.book.msgs|
    && (forall p :: p in s.book.issued <==> p.msg < |s.book.sent| && p.chunk < s.book.sent[p.msg])
    && (forall p :: multiset(s.book.issued)[p] <= 1)
  }

  lemma IssuedOnceNext(s: State, a: Action)
    requires Shape(s) && IssuedOnce(s) && Enabled(s, a)
    ensures IssuedOnce(Next(s, a))
  {
    hide Next, CanWrite, ChunkCount;
    BookOf(s, a);
    if a.Push? || a.Control? {
      IssuedOnceGrows(s, Next(s, a), a.j);
    }
  }

  lemma IssuedOnceGrows(s: State, t: State, j: nat)
    requires IssuedOnce(s) && j < |s.book.sent|
    requires t.book.msgs == s.book.msgs && t.book.sent == s.book.sent[j := s.book.sent[j] + 1]
    requires t.book.issued == s.book.issued + [Ptr(j, s.book.sent[j])]
    ensures IssuedOnce(t)
  {
    var p := Ptr(j, s.book.sent[j]);
    assert p !in s.book.issued;
    forall q ensures multiset(t.book.issued)[q] <= 1 {
      if q == p { assert multiset(s.book.issued)[p] == 0; }
    }
  }

  /** Every issued packet is in exactly one place: consumed, unread in the mailbox, in the send
      loop's hand or queued (the line), lost, or cleared by `Stop`. */
  ghost predicate Conserved(s: State) {
    multiset(s.book.issued) == multiset(Line(s)) + multiset(s.gone.lost) + multiset(s.gone.cleared)
  }

  lemma ConservedNext(s: State, a: Action)
    requires Shape(s) && Conserved(s) && Enabled(s, a)
    ensures Conserved(Next(s, a))
  {
    hide Next, Enabled;
    var mv := MoveOf(s, a);
    ConservedByMove(s, Next(s, a), mv);
  }

  lemma ConservedByMove(s: State, t: State, mv: Move)
    requires Conserved(s) && Moves(s, t, mv)
    ensures Conserved(t)
  {
    hide Line;
    match mv
    case Keep =>
    case Grow(p) =>
      ConservedByGrow(s, t, p);
    case Insert(x, us, p, y) =>
      ConservedByInsert(s, t, x, us, p, y);
    case Stray(p) =>
      ConservedByStray(s, t, p);
    case Requeue(x, p, y) =>
      ConservedByRequeue(s, t, x, p, y);
    case Lose(x, ps, y) =>
      ConservedByLoss(s, t, x, ps, y);
    case Dump(x, ps, y) =>
      ConservedByDump(s, t, x, ps, y);
  }

  lemma ConservedByGrow(s: State, t: State, p: Ptr)
    requires Conserved(s) && t.book.issued == s.book.issued + [p]
    requires t.gone.lost == s.gone.lost && t.gone.cleared == s.gone.cleared && Line(t) == Line(s) + [p]
    ensures Conserved(t)
  {
    hide Line;
  }

  lemma ConservedByStray(s: State, t: State, p: Ptr)
    requires Conserved(s) && t.book.issued == s.book.issued + [p]
    requires t.gone.lost == s.gone.lost + [p] && t.gone.cleared == s.gone.cleared && Line(t) == Line(s)
    ensures Conserved(t)
  {
    hide Line;
  }

  lemma ConservedByInsert(s: State, t: State, x: seq<Ptr>, us: seq<Ptr>, p: Ptr, y: seq<Ptr>)
    requires Conserved(s) && t.book.issued == s.book.issued + [p]
    requires t.gone.lost == s.gone.lost + us && t.gone.cleared == s.gone.cleared
    requires Line(s) == x + (us + y) && Line(t) == x + ([p] + y)
    ensures Conserved(t)
  {
    hide Line;
    Bag3(x, us, y);
    Bag3(x, [p], y);
    Rebalance(multiset(x) + multiset(y), multiset(us), multiset(s.gone.lost), multiset(s.gone.cleared));
  }

  lemma ConservedByRequeue(s: State, t: State, x: seq<Ptr>, p: Ptr, y: seq<Ptr>)
    requires Conserved(s) && t.book.issued == s.book.issued
    requires t.gone.lost == s.gone.lost && t.gone.cleared == s.gone.cleared
    requires Line(s) == x + ([p] + y) && Line(t) == x + (y + [p])
    ensures Conserved(t)
  {
    hide Line;
    Bag3(x, [p], y);
    Bag3(x, y, [p]);
  }

  lemma ConservedByLoss(s: State, t: State, x: seq<Ptr>, ps: seq<Ptr>, y: seq<Ptr>)
    requires Conserved(s) && t.book.issued == s.book.issued
    requires t.gone.cleared == s.gone.cleared && t.gone.lost == s.gone.lost + ps
    requires Line(s) == x + (ps + y) && Line(t) == x + y
    ensures Conserved(t)
  {
    hide Line;
    Bag3(x, ps, y);
    Rebalance(multiset(x) + multiset(y), multiset(ps), multiset(s.gone.lost), multiset(s.gone.cleared));
  }

  lemma ConservedByDump(s: State, t: State, x: seq<Ptr>, ps: seq<Ptr>, y: seq<Ptr>)
    requires Conserved(s) && t.book.issued == s.book.issued
    requires t.gone.lost == s.gone.lost && t.gone.cleared == s.gone.cleared + ps
    requires Line(s) == x + (ps + y) && Line(t) == x + y
    ensures Conserved(t)
  {
    hide Line;
    Bag3(x, ps, y);
    Rebalance(multiset(x) + multiset(y), multiset(ps), multiset(s.gone.lost), multiset(s.gone.cleared));
  }

  lemma Bag3(x: seq<Ptr>, m: seq<Ptr>, y: seq<Ptr>)
    ensures multiset(x + (m + y)) == multiset(x) + multiset(y) + multiset(m)
  {
  }

  lemma Rebalance(l: multiset<Ptr>, p: multiset<Ptr>, o: multiset<Ptr>, c: multiset<Ptr>)
    ensures l + p + o + c == l + (o + p) + c == l + o + (c + p)
  {
  }

  /** Every packet in the line is an issued one. */
  lemma LineIssued(s: State)
    requires IssuedOnce(s) && Conserved(s)
    ensures forall p :: p in Line(s) || p in s.gone.lost || p in s.gone.cleared ==>
              p.msg < |s.book.msgs| && p.chunk < s.book.sent[p.msg]
  {
    hide Line;
    forall p | p in Line(s) || p in s.gone.lost || p in s.gone.cleared ensures p in s.book.issued {
      assert p in multiset(s.book.issued);
    }
  }
}
