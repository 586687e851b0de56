/** Both directions of a channel as one machine, with what joins them: the hellos, pings and pongs
    that one process hears on one direction change its flags and counter and are answered on the
    other. The heartbeat thread and the receive thread of a process stop at each draw, write,
    flag and counter. */
module Duplex {
  import opened Chunking
  import opened Mailbox
  import opened Reassembly
  import opened Protocol
  import opened Conservation
  import opened Transfer
  import opened Sequencing
  import opened Delivery
  import opened Loss
  import opened Shutdown
  import opened Reachability
  import opened Theorems
  import opened Heartbeat

  /** Where `heart_beat_loop` stands: flags tested, ping drawn as number `j`, ping written but not
      counted, about to drop the receive flag, about to drop the send flag. */
  datatype Pulse = Resting | Armed | Drawn(j: nat) | Written | Cutting | Closing

  /** Where the receive thread stands in `notify`: an event heard, a hello's flag set and the
      counter not yet reset, the answer to a ping drawn as number `j`. */
  datatype Ear = Ready | Hearing(evt: int) | Resetting | Answering(j: nat)

  /** What one process keeps beside its two directions. `counted`, `handled` and `base` are
      history: pings counted, pongs handled, and their difference at the last reset. */
  datatype Side = Side(pending: int, pulse: Pulse, ear: Ear, counted: nat, handled: nat, base: int)

  /** One process with the direction it sends on and the one it receives on. */
  datatype Half = Half(me: Side, out: State, inn: State)

  datatype World = World(up: State, down: State, a: Side, b: Side)

  datatype Act =
    | Plain(a: Action)   // any step of the sending side but flags, pings and pongs
    | Listen             // recv_loop: a new mailbox
    | Stop               // Stop, for the receive thread
    | Hear               // recv
    | Connect            // notify, hello: the send flag
    | ResetCount         // notify, hello: the counter
    | HandlePong         // notify, pong
    | AnswerDraw         // notify, ping: pong() takes a number
    | AnswerWrite        // and is written
    | AnswerFail         // or gives up
    | Ignore             // notify, any other event
    | Check              // heart_beat_loop: both flags are up
    | PingDraw           // ping() takes a number
    | PingWrite          // and is written
    | PingFail           // or gives up
    | Count              // the counter is advanced and compared
    | CutRecv            // the receive flag falls
    | CutSend            // the send flag falls

  predicate IsHello(evt: int) { evt == CLIENT_HELLO || evt == SERVER_HELLO }

  /** The steps of the sending side that other threads than these two take. */
  predicate IsPlain(s: State, a: Action) {
    match a
    case Draw(m) => m.evt != PING && m.evt != PONG
    case Control(j) => j < |s.book.msgs| && s.book.msgs[j].evt != PING && s.book.msgs[j].evt != PONG
    case SetConnected(_) => false
    case Listen => false
    case Recv => false
    case Quit => false
    case RecverStop => false
    case _ => true
  }

  predicate Can(h: Half, act: Act) {
    match act
    case Plain(a) => IsPlain(h.out, a) && Enabled(h.out, a)
    case Listen => h.me.ear == Ready && Enabled(h.inn, Action.Listen)
    case Stop => true
    case Hear => h.me.ear == Ready && Enabled(h.inn, Recv)
    case Connect => h.me.ear.Hearing? && IsHello(h.me.ear.evt)
    case ResetCount => h.me.ear == Resetting
    case HandlePong => h.me.ear == Hearing(PONG)
    case AnswerDraw => h.me.ear == Hearing(PING)
    case AnswerWrite => h.me.ear.Answering? && Enabled(h.out, Control(h.me.ear.j))
    case AnswerFail => h.me.ear.Answering? && !MustWrite(h.out, Ptr(h.me.ear.j, 0))
    case Ignore =>
      h.me.ear.Hearing? && !IsHello(h.me.ear.evt) && h.me.ear.evt != PING && h.me.ear.evt != PONG
    case Check =>
      h.me.pulse == Resting && h.out.snd.connected && (h.inn.rcv.listening || !h.inn.rcv.running)
    case PingDraw => h.me.pulse == Armed
    case PingWrite => h.me.pulse.Drawn? && Enabled(h.out, Control(h.me.pulse.j))
    case PingFail => h.me.pulse.Drawn? && !MustWrite(h.out, Ptr(h.me.pulse.j, 0))
    case Count => h.me.pulse == Written
    case CutRecv => h.me.pulse == Cutting
    case CutSend => h.me.pulse == Closing
  }

  /** The event that `notify` is called with, if `recv` calls it. */
  function Heard(o: Outcome): Ear { if o.Notified? then Hearing(o.evt) else Ready }

  function Newest(s: State): Outcome {
    if s.rcv.outcomes == [] then Waiting else s.rcv.outcomes[|s.rcv.outcomes| - 1]
  }

  function Do(h: Half, act: Act): Half
    requires Can(h, act)
  {
    var me := h.me;
    match act
    case Plain(a) => h.(out := Next(h.out, a))
    case Listen => h.(inn := Next(h.inn, Action.Listen))
    case Stop => h.(inn := Next(h.inn, RecverStop))
    case Hear => var t := Next(h.inn, Recv); h.(inn := t, me := me.(ear := Heard(Newest(t))))
    case Connect => h.(out := Next(h.out, SetConnected(true)), me := me.(ear := Resetting))
    case ResetCount => h.(me := me.(ear := Ready, pending := 0, base := me.counted - me.handled))
    case HandlePong => h.(me := me.(ear := Ready, pending := Wrap(me.pending - 1), handled := me.handled + 1))
    case AnswerDraw =>
      h.(out := Next(h.out, Draw(Message(PONG, []))), me := me.(ear := Answering(|h.out.book.msgs|)))
    case AnswerWrite => h.(out := Next(h.out, Control(me.ear.j)), me := me.(ear := Ready))
    case AnswerFail => h.(me := me.(ear := Ready))
    case Ignore => h.(me := me.(ear := Ready))
    case Check => h.(me := me.(pulse := Armed))
    case PingDraw =>
      h.(out := Next(h.out, Draw(Message(PING, []))), me := me.(pulse := Drawn(|h.out.book.msgs|)))
    case PingWrite => h.(out := Next(h.out, Control(me.pulse.j)), me := me.(pulse := Written))
    case PingFail => h.(me := me.(pulse := Cutting))
    case Count =>
      var pending := Wrap(me.pending + 1);
      h.(me := me.(pending := pending, counted := me.counted + 1,
                   pulse := if pending > MAX_FAILED then Cutting else Resting))
    case CutRecv =>
      h.(inn := if h.inn.rcv.listening then Next(h.inn, Quit) else h.inn, me := me.(pulse := Closing))
    case CutSend => h.(out := Next(h.out, SetConnected(false)), me := me.(pulse := Resting))
  }

  /** The process that sends on `up`, or the one that sends on `down`. */
  function HalfOf(w: World, first: bool): Half {
    if first then Half(w.a, w.up, w.down) else Half(w.b, w.down, w.up)
  }

  function With(w: World, first: bool, h: Half): World {
    if first then World(h.out, h.inn, h.me, w.b) else World(h.inn, h.out, w.a, h.me)
  }

  /** A step of one of the two processes. */
  datatype Turn = Turn(first: bool, act: Act)

  predicate Able(w: World, t: Turn) { Can(HalfOf(w, t.first), t.act) }

  function After(w: World, t: Turn): World
    requires Able(w, t)
  {
    With(w, t.first, Do(HalfOf(w, t.first), t.act))
  }

  function Start(first: int, second: int): World {
    var side := Side(0, Resting, Ready, 0, 0, 0);
    World(Init(first), Init(second), side, side)
  }

  predicate Lawful(w: World, run: seq<Turn>)
    decreases |run|
  {
    run == [] || (Able(w, run[0]) && Lawful(After(w, run[0]), run[1..]))
  }

  function Play(w: World, run: seq<Turn>): World
    requires Lawful(w, run)
    decreases |run|
  {
    if run == [] then w else Play(After(w, run[0]), run[1..])
  }

  ghost predicate Possible(w: World) {
    exists x: int, y: int, run: seq<Turn> :: Lawful(Start(x, y), run) && Play(Start(x, y), run) == w
  }

  lemma TakeTurn(w: World, t: Turn) returns (v: World)
    requires Possible(w) && Able(w, t)
    ensures Possible(v) && v == After(w, t)
  {
    hide Able, After, Start;
    v := After(w, t);
    var x: int, y: int, run: seq<Turn> :| Lawful(Start(x, y), run) && Play(Start(x, y), run) == w;
    PlayOn(Start(x, y), run, t);
  }

  lemma {:induction false} PlayOn(w: World, run: seq<Turn>, t: Turn)
    requires Lawful(w, run) && Able(Play(w, run), t)
    ensures Lawful(w, run + [t]) && Play(w, run + [t]) == After(Play(w, run), t)
    decreases |run|
  {
    hide Able, After;
    if run == [] {
      assert run + [t] == [t] && [t][1..] == [];
      assert Lawful(After(w, t), []);
    } else {
      PlayOn(After(w, run[0]), run[1..], t);
      assert (run + [t])[1..] == run[1..] + [t];
    }
  }

  // ---- Counting control packets ----

  /** How many of the packets carry event `evt`. */
  function Tally(msgs: seq<Message>, ps: seq<Ptr>, evt: int): nat {
    if ps == [] then 0
    else Tally(msgs, ps[..|ps| - 1], evt)
         + if ps[|ps| - 1].msg < |msgs| && msgs[ps[|ps| - 1].msg].evt == evt then 1 else 0
  }

  lemma TallyOne(msgs: seq<Message>, ps: seq<Ptr>, p: Ptr, evt: int)
    ensures Tally(msgs, ps + [p], evt)
            == Tally(msgs, ps, evt) + if p.msg < |msgs| && msgs[p.msg].evt == evt then 1 else 0
  {
    assert (ps + [p])[..|ps|] == ps;
  }

  lemma {:induction false} TallyConcat(msgs: seq<Message>, ps: seq<Ptr>, qs: seq<Ptr>, evt: int)
    ensures Tally(msgs, ps + qs, evt) == Tally(msgs, ps, evt) + Tally(msgs, qs, evt)
  {
    if qs == [] {
      assert ps + qs == ps;
    } else {
      TallyConcat(msgs, ps, qs[..|qs| - 1], evt);
      assert (ps + qs)[..|ps + qs| - 1] == ps + qs[..|qs| - 1];
    }
  }

  /** Numbers drawn later change no count. */
  lemma {:induction false} TallyStable(msgs: seq<Message>, more: seq<Message>, ps: seq<Ptr>, evt: int)
    requires msgs <= more && forall p :: p in ps ==> p.msg < |msgs|
    ensures Tally(more, ps, evt) == Tally(msgs, ps, evt)
  {
    if ps != [] {
      assert ps[|ps| - 1] in ps;
      TallyStable(msgs, more, ps[..|ps| - 1], evt);
    }
  }

  lemma OneLess(x: multiset<Ptr>, y: multiset<Ptr>, p: Ptr)
    requires x + multiset{p} <= y + multiset{p}
    ensures x <= y
  {
    forall q ensures x[q] <= y[q] {
      assert (x + multiset{p})[q] <= (y + multiset{p})[q];
    }
  }

  /** A part of a bag of packets counts no more than the bag. */
  lemma {:induction false} TallyPart(msgs: seq<Message>, ps: seq<Ptr>, qs: seq<Ptr>, evt: int)
    requires multiset(ps) <= multiset(qs)
    ensures Tally(msgs, ps, evt) <= Tally(msgs, qs, evt)
  {
    if ps != [] {
      var front, p := ps[..|ps| - 1], ps[|ps| - 1];
      assert ps == front + [p];
      assert p in multiset(ps) && p in qs;
      var i :| 0 <= i < |qs| && qs[i] == p;
      var rest := qs[..i] + qs[i + 1..];
      assert qs == qs[..i] + ([p] + qs[i + 1..]);
      OneLess(multiset(front), multiset(rest), p);
      TallyPart(msgs, front, rest, evt);
      TallyConcat(msgs, qs[..i], [p] + qs[i + 1..], evt);
      TallyConcat(msgs, [p], qs[i + 1..], evt);
      TallyConcat(msgs, qs[..i], qs[i + 1..], evt);
      assert [p][..0] == [];
    }
  }

  /** No more packets of an event are consumed than were written. */
  lemma ConsumedAtMostIssued(s: State, evt: int)
    requires Inv(s)
    ensures Tally(s.book.msgs, s.rcv.consumed, evt) <= Tally(s.book.msgs, s.book.issued, evt)
  {
    hide Tally;
    ConsumedPart(s);
    TallyPart(s.book.msgs, s.rcv.consumed, s.book.issued, evt);
  }

  lemma ConsumedPart(s: State)
    requires Inv(s)
    ensures multiset(s.rcv.consumed) <= multiset(s.book.issued)
  {
    LineBag(s);
  }

  // ---- The invariant of a process ----

  /** Number `j` was drawn for an event and its packet is not written yet. */
  predicate AwaitsWrite(s: State, j: nat, evt: int) {
    j < |s.book.msgs| && j < |s.book.sent| && s.book.msgs[j].evt == evt && s.book.sent[j] == 0
  }

  /** Pings: each one written is counted once the heartbeat thread gets to it, and each one drawn
      has a number of its own. */
  ghost predicate Pings(me: Side, out: State) {
    var written := Tally(out.book.msgs, out.book.issued, PING);
    && written == me.counted + (if me.pulse == Written then 1 else 0)
    && written + (if me.pulse.Drawn? then 1 else 0) <= |out.book.msgs|
    && (me.pulse.Drawn? ==> AwaitsWrite(out, me.pulse.j, PING))
  }

  /** Pongs: each one written answers another ping heard. */
  ghost predicate Pongs(me: Side, out: State, inn: State) {
    && Tally(out.book.msgs, out.book.issued, PONG) + (if me.ear == Hearing(PING) || me.ear.Answering? then 1 else 0)
       <= Tally(inn.book.msgs, inn.rcv.consumed, PING)
    && (me.ear.Answering? ==> AwaitsWrite(out, me.ear.j, PONG))
  }

  /** The counter: pings counted less pongs handled since the last reset, in a `size_t`. */
  ghost predicate Counter(me: Side, inn: State) {
    && me.handled + (if me.ear == Hearing(PONG) then 1 else 0) <= Tally(inn.book.msgs, inn.rcv.consumed, PONG)
    && me.pending == Wrap(me.counted - (me.handled + me.base)) && 0 <= me.handled + me.base && me.base <= me.counted
  }

  ghost predicate HalfInv(h: Half) { Pings(h.me, h.out) && Pongs(h.me, h.out, h.inn) && Counter(h.me, h.inn) }

  // ---- What the steps of a direction do to the counts ----

  function EventAt(s: State, j: nat): int { if j < |s.book.msgs| then s.book.msgs[j].evt else 0 }

  /** A step of the sending side writes at most one packet and consumes none. */
  lemma SendTally(s: State, a: Action, evt: int)
    requires Inv(s) && Enabled(s, a) && !a.Recv?
    ensures var t := Next(s, a);
            && s.book.msgs <= t.book.msgs
            && Tally(t.book.msgs, t.rcv.consumed, evt) == Tally(s.book.msgs, s.rcv.consumed, evt)
            && Tally(t.book.msgs, t.book.issued, evt) == Tally(s.book.msgs, s.book.issued, evt)
                 + if (a.Push? || a.Control?) && EventAt(s, a.j) == evt then 1 else 0
  {
    hide Next, Enabled, Tally, Inv;
    BookOf(s, a);
    ReceiverKept(s, a);
    KnownPtrs(s);
    EnabledIssue(s, a);
    if a.Push? || a.Control? { TallyOne(s.book.msgs, s.book.issued, Ptr(a.j, s.book.sent[a.j]), evt); }
    if a.Draw? {
      TallyStable(s.book.msgs, Next(s, a).book.msgs, s.rcv.consumed, evt);
      TallyStable(s.book.msgs, Next(s, a).book.msgs, s.book.issued, evt);
    }
  }

  lemma EnabledIssue(s: State, a: Action)
    requires Enabled(s, a)
    ensures a.Push? || a.Control? ==> a.j < |s.book.msgs| && a.j < |s.book.sent|
  {
  }

  lemma KnownPtrs(s: State)
    requires Inv(s)
    ensures forall p :: p in s.book.issued || p in s.rcv.consumed ==> p.msg < |s.book.msgs|
    ensures |s.book.sent| == |s.book.msgs|
  {
    hide Line, Mailed, Working, Claims, Reassembled, Queued;
    KnownInLine(s);
  }

  /** `recv` consumes one packet, and what it announces carries the event of that packet. */
  lemma RecvTally(s: State, evt: int)
    requires Inv(s) && Enabled(s, Recv)
    ensures var t := Next(s, Recv);
            && t.book == s.book
            && Tally(t.book.msgs, t.rcv.consumed, evt)
               >= Tally(s.book.msgs, s.rcv.consumed, evt) + if Heard(Newest(t)) == Hearing(evt) then 1 else 0
  {
    hide Tally, Feed, Line, Reassembled, Conserved, IssuedOnce, Working, Claims, Queued;
    var t := Next(s, Recv);
    var p := LastWrite(s);
    KnownInLine(s);
    assert Unread(s) == [p] && p in s.mail.written;
    TallyOne(s.book.msgs, s.rcv.consumed, p, evt);
    FeedEvent(s.rcv.rx, ReadFrame(s.mail.live));
  }

  lemma FeedEvent(m: RecvMap, f: Frame)
    ensures Feed(m, f).1.Notified? ==> Feed(m, f).1.evt == f.evt
  {
  }

  // ---- Every step keeps the invariant of both processes ----

  /** The sending side moves: whatever the process's own threads know of its counts follows. */
  lemma OutMoves(h: Half, a: Action)
    requires Inv(h.out) && Inv(h.inn) && HalfInv(h) && Enabled(h.out, a) && !a.Recv?
    requires a.Push? || a.Control? ==> EventAt(h.out, a.j) != PING && EventAt(h.out, a.j) != PONG
    ensures HalfInv(h.(out := Next(h.out, a)))
  {
    hide Next, Enabled, Tally, Inv, Wrap;
    BookOf(h.out, a);
    EnabledIssue(h.out, a);
    SendTally(h.out, a, PING);
    SendTally(h.out, a, PONG);
  }

  /** The receiving side moves without a call of `recv`. */
  lemma InnMoves(h: Half, a: Action)
    requires Inv(h.inn) && HalfInv(h) && Enabled(h.inn, a) && !a.Recv?
    ensures HalfInv(h.(inn := Next(h.inn, a)))
  {
    hide Next, Enabled, Tally, Inv, Wrap;
    SendTally(h.inn, a, PING);
    SendTally(h.inn, a, PONG);
  }

  lemma PushIsData(s: State, a: Action)
    requires Enabled(s, a) && a.Push?
    ensures EventAt(s, a.j) == MSG_DATA
  {
  }

  lemma OwnStep(h: Half, act: Act)
    requires Inv(h.out) && Inv(h.inn) && HalfInv(h) && Can(h, act)
    ensures HalfInv(Do(h, act))
  {
    hide Next, Enabled, Tally, Inv, Wrap, MustWrite, HalfInv;
    match act
    case Plain(a) => if a.Push? { PushIsData(h.out, a); } OutMoves(h, a);
    case Listen => InnMoves(h, Action.Listen);
    case Stop => AlwaysEnabled(h.inn); InnMoves(h, RecverStop);
    case Hear => OwnHear(h);
    case Connect =>
      AlwaysEnabled(h.out);
      OutMoves(h, SetConnected(true));
      EarMoves(h.(out := Next(h.out, SetConnected(true))), Resetting);
    case ResetCount => OwnReset(h);
    case HandlePong => OwnPong(h);
    case AnswerDraw => AlwaysEnabled(h.out); OwnDraw(h, PONG);
    case AnswerWrite => OwnWrite(h, PONG, h.me.ear.j);
    case AnswerFail => EarMoves(h, Ready);
    case Ignore => EarMoves(h, Ready);
    case Check => PulseMoves(h, Armed);
    case PingDraw => AlwaysEnabled(h.out); OwnDraw(h, PING);
    case PingWrite => OwnWrite(h, PING, h.me.pulse.j);
    case PingFail => PulseMoves(h, Cutting);
    case Count => OwnCount(h);
    case CutRecv =>
      if h.inn.rcv.listening { QuitEnabled(h.inn); InnMoves(h, Quit); }
      PulseMoves(Do(h, CutRecv).(me := h.me), Closing);
    case CutSend =>
      AlwaysEnabled(h.out);
      OutMoves(h, SetConnected(false));
      PulseMoves(Do(h, CutSend).(me := h.me), Resting);
  }

  lemma AlwaysEnabled(s: State)
    ensures Enabled(s, RecverStop) && Enabled(s, SetConnected(true)) && Enabled(s, SetConnected(false))
    ensures Enabled(s, Draw(Message(PING, []))) && Enabled(s, Draw(Message(PONG, [])))
  {
  }

  lemma QuitEnabled(s: State)
    requires s.rcv.listening
    ensures Enabled(s, Quit)
  {
  }

  /** The receive thread goes on without having answered. */
  lemma EarMoves(h: Half, ear: Ear)
    requires HalfInv(h) && (ear == Ready || ear == Resetting)
    ensures HalfInv(h.(me := h.me.(ear := ear)))
  {
    hide Tally, Wrap;
  }

  /** The heartbeat thread goes on without having written. */
  lemma PulseMoves(h: Half, pulse: Pulse)
    requires HalfInv(h) && h.me.pulse != Written && pulse != Written && !pulse.Drawn?
    ensures HalfInv(h.(me := h.me.(pulse := pulse)))
  {
    hide Tally, Wrap;
  }

  lemma OwnHear(h: Half)
    requires Inv(h.inn) && HalfInv(h) && Can(h, Hear)
    ensures HalfInv(Do(h, Hear))
  {
    hide Next, Enabled, Tally, Inv, Wrap, Newest;
    RecvTally(h.inn, PING);
    RecvTally(h.inn, PONG);
  }

  lemma OwnReset(h: Half)
    requires HalfInv(h) && Can(h, ResetCount)
    ensures HalfInv(Do(h, ResetCount))
  {
    hide Tally, Wrap;
    WrapValue(0);
  }

  lemma OwnPong(h: Half)
    requires HalfInv(h) && Can(h, HandlePong)
    ensures HalfInv(Do(h, HandlePong))
  {
    hide Tally, Wrap;
    WrapSteps(h.me.counted - (h.me.handled + h.me.base));
  }

  lemma OwnCount(h: Half)
    requires HalfInv(h) && Can(h, Count)
    ensures HalfInv(Do(h, Count))
  {
    hide Tally, Wrap;
    WrapSteps(h.me.counted - (h.me.handled + h.me.base));
  }

  lemma OwnDraw(h: Half, evt: int)
    requires Inv(h.out) && Inv(h.inn) && HalfInv(h)
    requires (evt == PING && h.me.pulse == Armed) || (evt == PONG && h.me.ear == Hearing(PING))
    requires Enabled(h.out, Draw(Message(evt, [])))
    ensures var n := |h.out.book.msgs|;
            var me := if evt == PING then h.me.(pulse := Drawn(n)) else h.me.(ear := Answering(n));
            HalfInv(Half(me, Next(h.out, Draw(Message(evt, []))), h.inn))
  {
    hide Enabled, Tally, Inv, Wrap, Next;
    var m := Message(evt, []);
    OutMoves(h, Draw(m));
    BookOf(h.out, Draw(m));
    KnownPtrs(h.out);
    SendTally(h.out, Draw(m), PING);
  }

  lemma OwnWrite(h: Half, evt: int, j: nat)
    requires Inv(h.out) && Inv(h.inn) && HalfInv(h)
    requires (evt == PING && h.me.pulse == Drawn(j)) || (evt == PONG && h.me.ear == Answering(j))
    requires Enabled(h.out, Control(j))
    ensures var me := if evt == PING then h.me.(pulse := Written) else h.me.(ear := Ready);
            HalfInv(Half(me, Next(h.out, Control(j)), h.inn))
  {
    hide Enabled, Tally, Inv, Wrap, Next;
    SendTally(h.out, Control(j), PING);
    SendTally(h.out, Control(j), PONG);
    BookOf(h.out, Control(j));
  }

  /** What one process does leaves the other's invariant alone. */
  lemma OtherStep(h: Half, act: Act, him: Side)
    requires Inv(h.out) && Inv(h.inn) && HalfInv(Half(him, h.inn, h.out)) && Can(h, act)
    ensures var t := Do(h, act); HalfInv(Half(him, t.inn, t.out))
  {
    hide Next, Enabled, Tally, Inv, Wrap, HalfInv;
    var g := Half(him, h.inn, h.out);
    match act
    case Plain(a) => InnMoves(g, a);
    case Listen => OtherInn(g, Action.Listen);
    case Stop => AlwaysEnabled(h.inn); OtherInn(g, RecverStop);
    case Hear => OtherInn(g, Recv);
    case Connect => AlwaysEnabled(h.out); InnMoves(g, SetConnected(true));
    case AnswerDraw => AlwaysEnabled(h.out); InnMoves(g, Draw(Message(PONG, [])));
    case AnswerWrite => InnMoves(g, Control(h.me.ear.j));
    case PingDraw => AlwaysEnabled(h.out); InnMoves(g, Draw(Message(PING, [])));
    case PingWrite => InnMoves(g, Control(h.me.pulse.j));
    case CutRecv => if h.inn.rcv.listening { QuitEnabled(h.inn); OtherInn(g, Quit); }
    case CutSend => AlwaysEnabled(h.out); InnMoves(g, SetConnected(false));
    case _ =>
  }

  lemma OtherInn(g: Half, a: Action)
    requires Inv(g.out) && HalfInv(g) && Enabled(g.out, a) && !a.Push? && !a.Control? && !a.Draw?
    ensures HalfInv(g.(out := Next(g.out, a)))
  {
    hide Next, Enabled, Tally, Inv, Wrap;
    BookOf(g.out, a);
  }

  ghost predicate WorldInv(w: World) {
    Reachable(w.up) && Reachable(w.down) && HalfInv(HalfOf(w, true)) && HalfInv(HalfOf(w, false))
  }

  lemma ReachableNext(s: State, a: Action)
    requires Reachable(s) && Enabled(s, a)
    ensures Reachable(Next(s, a))
  {
    hide Reachable, Next, Enabled;
    OneStep(s, a);
    ReachableOn(s, [a]);
  }

  /** A step of a process is at most one step of each direction. */
  lemma DirectionsMove(h: Half, act: Act)
    requires Reachable(h.out) && Reachable(h.inn) && Can(h, act)
    ensures Reachable(Do(h, act).out) && Reachable(Do(h, act).inn)
  {
    hide Reachable, Next, Enabled, MustWrite;
    AlwaysEnabled(h.out);
    AlwaysEnabled(h.inn);
    match act
    case Plain(a) => ReachableNext(h.out, a);
    case Listen => ReachableNext(h.inn, Action.Listen);
    case Stop => ReachableNext(h.inn, RecverStop);
    case Hear => ReachableNext(h.inn, Recv);
    case Connect => ReachableNext(h.out, SetConnected(true));
    case AnswerDraw => ReachableNext(h.out, Draw(Message(PONG, [])));
    case AnswerWrite => ReachableNext(h.out, Control(h.me.ear.j));
    case PingDraw => ReachableNext(h.out, Draw(Message(PING, [])));
    case PingWrite => ReachableNext(h.out, Control(h.me.pulse.j));
    case CutRecv => if h.inn.rcv.listening { QuitEnabled(h.inn); ReachableNext(h.inn, Quit); }
    case CutSend => ReachableNext(h.out, SetConnected(false));
    case _ =>
  }

  lemma WorldNext(w: World, t: Turn)
    requires WorldInv(w) && Able(w, t)
    ensures WorldInv(After(w, t))
  {
    hide Reachable, HalfInv, Can, Do, Inv;
    var h, him := HalfOf(w, t.first), if t.first then w.b else w.a;
    ReachableInv(w.up);
    ReachableInv(w.down);
    OwnStep(h, t.act);
    OtherStep(h, t.act, him);
    DirectionsMove(h, t.act);
  }

  lemma {:induction false} WorldPlay(w: World, run: seq<Turn>)
    requires WorldInv(w) && Lawful(w, run)
    ensures WorldInv(Play(w, run))
    decreases |run|
  {
    hide WorldInv, Able, After;
    if run != [] {
      WorldNext(w, run[0]);
      WorldPlay(After(w, run[0]), run[1..]);
    }
  }

  lemma StartInv(x: int, y: int)
    ensures WorldInv(Start(x, y))
  {
    hide Reachable;
    InitReachable(x);
    InitReachable(y);
    WrapValue(0);
  }

  lemma InitReachable(first: int)
    ensures Reachable(Init(first))
  {
    assert Legal(Init(first), []) && Exec(Init(first), []) == Init(first);
  }

  // ---- Results about all joint runs ----

  /** Each direction of a joint run is a run of the protocol, so every result about reachable
      states holds of both. */
  lemma PossibleInv(w: World)
    requires Possible(w)
    ensures WorldInv(w)
  {
    hide WorldInv, Lawful, Play, Start;
    var x: int, y: int, run: seq<Turn> :| Lawful(Start(x, y), run) && Play(Start(x, y), run) == w;
    StartInv(x, y);
    WorldPlay(Start(x, y), run);
  }

  /** Pings the process has written. */
  function Pinged(h: Half): nat { Tally(h.out.book.msgs, h.out.book.issued, PING) }

  /** A process never handles more pongs than it has written pings: every pong handled was
      written by the peer, in answer to a ping that it heard. */
  lemma PongsAnswerPings(w: World, first: bool)
    requires Possible(w)
    ensures var h := HalfOf(w, first);
            && h.me.handled <= Tally(h.inn.book.msgs, h.inn.book.issued, PONG) <= Pinged(h)
            && Pinged(h) == h.me.counted + if h.me.pulse == Written then 1 else 0
  {
    hide Reachable, Inv, Tally, Wrap;
    PossibleInv(w);
    ReachableInv(w.up);
    ReachableInv(w.down);
    var h := HalfOf(w, first);
    ConsumedAtMostIssued(h.inn, PONG);
    ConsumedAtMostIssued(h.out, PING);
  }

  /** Pings written and not answered, with the one about to be counted. */
  function Unanswered(me: Side): int { me.counted + 1 - me.handled }

  /** When the heartbeat counts a ping it cuts the link exactly when, compared with the last
      reset of the counter, more than 3 more pings are unanswered, or fewer are: then pongs to
      pings from before the reset have taken the counter below zero. */
  lemma CutsIff(w: World, first: bool)
    requires Possible(w) && HalfOf(w, first).me.pulse == Written && FewDraws(HalfOf(w, first).out)
    ensures var h := HalfOf(w, first);
            var u, t := Unanswered(h.me), Do(h, Count);
            && 0 <= u && t.me.pending == Wrap(u - h.me.base)
            && t.me.pulse == (if u - h.me.base > MAX_FAILED || u < h.me.base then Cutting else Resting)
  {
    hide Reachable, Inv, Tally, Wrap;
    PossibleInv(w);
    PongsAnswerPings(w, first);
    var me := HalfOf(w, first).me;
    WrapSteps(me.counted - (me.handled + me.base));
    WrapValue(Unanswered(me) - me.base);
  }

  lemma {:induction false} Split(w: World, before: seq<Turn>, since: seq<Turn>)
    requires Lawful(w, before + since)
    ensures Lawful(w, before) && Lawful(Play(w, before), since)
    ensures Play(Play(w, before), since) == Play(w, before + since)
    decreases |before|
  {
    hide Able, After;
    if before == [] {
      assert before + since == since;
    } else {
      assert (before + since)[0] == before[0] && (before + since)[1..] == before[1..] + since;
      Split(After(w, before[0]), before[1..], since);
    }
  }

  /** What a process has counted and handled since it last reset its counter. */
  lemma {:induction false} SinceReset(w: World, run: seq<Turn>, first: bool)
    requires Lawful(w, run) && Turn(first, ResetCount) !in run
    ensures var me, before, steps := HalfOf(Play(w, run), first).me, HalfOf(w, first).me, multiset(run);
            && me.base == before.base
            && me.counted == before.counted + steps[Turn(first, Count)]
            && me.handled == before.handled + steps[Turn(first, HandlePong)]
    decreases |run|
  {
    hide Able, After, HalfOf;
    if run != [] {
      CountsMove(w, run[0], first);
      SinceReset(After(w, run[0]), run[1..], first);
      assert run == [run[0]] + run[1..];
    }
  }

  lemma CountsMove(w: World, t: Turn, first: bool)
    requires Able(w, t)
    ensures var me, before := HalfOf(After(w, t), first).me, HalfOf(w, first).me;
            && me.counted == before.counted + (if t == Turn(first, Count) then 1 else 0)
            && me.handled == before.handled + (if t == Turn(first, HandlePong) then 1 else 0)
            && me.base == if t == Turn(first, ResetCount) then before.counted - before.handled else before.base
  {
    hide Next, Enabled, Wrap;
  }

  lemma {:induction false} AtReset(w: World, run: seq<Turn>, first: bool)
    requires Lawful(w, run) && run != [] && run[|run| - 1] == Turn(first, ResetCount)
    ensures var me := HalfOf(Play(w, run), first).me; me.base == me.counted - me.handled
    decreases |run|
  {
    hide Able, After, HalfOf;
    CountsMove(w, run[0], first);
    if |run| > 1 { AtReset(After(w, run[0]), run[1..], first); }
  }

  /** In terms of the steps taken: after any joint run in which the process last reset its counter
      at step `k`, or never, the ping it counts next cuts the link exactly when it has counted,
      with this one, over 3 pings more than it has handled pongs since then, or fewer. */
  lemma CutsOnRuns(x: int, y: int, run: seq<Turn>, first: bool, k: nat)
    requires Lawful(Start(x, y), run) && k <= |run|
    requires k == 0 || run[k - 1] == Turn(first, ResetCount)
    requires Turn(first, ResetCount) !in run[k..]
    requires var h := HalfOf(Play(Start(x, y), run), first);
             h.me.pulse == Written && |h.out.book.msgs| <= 0x1_0000_0000
    ensures var since := multiset(run[k..]);
            var pings, pongs := since[Turn(first, Count)] + 1, since[Turn(first, HandlePong)];
            Do(HalfOf(Play(Start(x, y), run), first), Count).me.pulse == Cutting
            <==> pings > pongs + 3 || pings < pongs
  {
    hide Play, Lawful, Do, Can, Able;
    var w := Start(x, y);
    assert run[..k] + run[k..] == run;
    Split(w, run[..k], run[k..]);
    SinceReset(Play(w, run[..k]), run[k..], first);
    if k == 0 {
      StartOf(w);
    } else {
      AtReset(w, run[..k], first);
    }
    CutsIff(Play(w, run), first);
  }

  lemma StartOf(w: World)
    ensures Lawful(w, []) && Play(w, []) == w
  {
  }

  /** As long as hellos find no ping unanswered, a link is cut at a counted ping exactly when more
      than 3 pings are unanswered, over the whole run. */
  lemma CutOnlyWhenUnanswered(x: int, y: int, run: seq<Turn>, first: bool)
    requires Lawful(Start(x, y), run)
    requires forall k :: 0 <= k < |run| && run[k] == Turn(first, ResetCount) && Lawful(Start(x, y), run[..k]) ==>
               var me := HalfOf(Play(Start(x, y), run[..k]), first).me; me.counted == me.handled
    requires var h := HalfOf(Play(Start(x, y), run), first); h.me.pulse == Written && FewDraws(h.out)
    ensures var steps := multiset(run);
            Do(HalfOf(Play(Start(x, y), run), first), Count).me.pulse == Cutting
            <==> steps[Turn(first, Count)] + 1 > steps[Turn(first, HandlePong)] + 3
  {
    hide Play, Lawful, Do, Can, Able;
    SettledBase(Start(x, y), run, first);
    CutsIff(Play(Start(x, y), run), first);
  }

  /** If every reset finds no ping unanswered, the counter is never measured against anything else
      than zero. */
  lemma {:induction false} SettledBase(w: World, run: seq<Turn>, first: bool)
    requires Lawful(w, run) && HalfOf(w, first).me.base == 0
    requires forall k :: 0 <= k < |run| && run[k] == Turn(first, ResetCount) && Lawful(w, run[..k]) ==>
               var me := HalfOf(Play(w, run[..k]), first).me; me.counted == me.handled
    ensures var me, before, steps := HalfOf(Play(w, run), first).me, HalfOf(w, first).me, multiset(run);
            && me.base == 0
            && me.counted == before.counted + steps[Turn(first, Count)]
            && me.handled == before.handled + steps[Turn(first, HandlePong)]
    decreases |run|
  {
    hide Able, After, HalfOf;
    if run != [] {
      CountsMove(w, run[0], first);
      StartOf(w);
      assert run[..0] == [];
      var v := After(w, run[0]);
      forall k | 0 <= k < |run| - 1 && run[1..][k] == Turn(first, ResetCount) && Lawful(v, run[1..][..k])
        ensures var me := HalfOf(Play(v, run[1..][..k]), first).me; me.counted == me.handled
      {
        assert run[..k + 1][0] == run[0] && run[..k + 1][1..] == run[1..][..k];
        assert run[k + 1] == run[1..][k];
      }
      SettledBase(v, run[1..], first);
      assert run == [run[0]] + run[1..];
    }
  }

  // ---- No thread is held up ----

  function BeatActs(): set<Act> { {Act.Check, PingDraw, PingWrite, PingFail, Count, CutRecv, CutSend} }

  function NoticeActs(): set<Act> {
    {Act.Listen, Hear, Connect, ResetCount, HandlePong, AnswerDraw, AnswerWrite, AnswerFail, Ignore}
  }

  /** The heartbeat thread is never stuck: it waits only for both flags to be up, and each round
      goes on from the ping's number to its write or failure, the count, and the cut. */
  lemma HeartBeatSteps(w: World, first: bool)
    requires Possible(w)
    ensures var h := HalfOf(w, first);
            var steps := set act | act in BeatActs() && Can(h, act);
            match h.me.pulse
            case Resting =>
              steps == if h.out.snd.connected && (h.inn.rcv.listening || !h.inn.rcv.running) then {Act.Check} else {}
            case Armed => steps == {PingDraw}
            case Drawn(_) => steps <= {PingWrite, PingFail} && steps != {}
            case Written => steps == {Count}
            case Cutting => steps == {CutRecv}
            case Closing => steps == {CutSend}
  {
    hide Possible, Can, HalfOf;
    var h := HalfOf(w, first);
    BeatCan(h);
    if h.me.pulse.Drawn? {
      DrawnCanGo(w, first);
      var steps := set act | act in BeatActs() && Can(h, act);
      assert PingWrite in steps || PingFail in steps;
    }
  }

  /** Nor is the receive thread: in `recv` it waits for a packet, and every event it hears is dealt
      with, a hello by raising the send flag and resetting the counter, a ping by an answer. */
  lemma NoticeSteps(w: World, first: bool)
    requires Possible(w)
    ensures var h := HalfOf(w, first);
            var steps := set act | act in NoticeActs() && Can(h, act);
            match h.me.ear
            case Ready =>
              steps == if h.inn.rcv.listening then (if h.inn.mail.live.newMsg then {Hear} else {})
                       else if h.inn.rcv.running then {Act.Listen} else {}
            case Hearing(evt) =>
              steps == (if evt == CLIENT_HELLO || evt == SERVER_HELLO then {Connect}
                        else if evt == PONG then {HandlePong}
                        else if evt == PING then {AnswerDraw}
                        else {Ignore})
            case Resetting => steps == {ResetCount}
            case Answering(_) => steps <= {AnswerWrite, AnswerFail} && steps != {}
  {
    hide Possible, Can, HalfOf;
    var h := HalfOf(w, first);
    NoticeCan(h);
    if h.me.ear.Answering? {
      DrawnCanGo(w, first);
      var steps := set act | act in NoticeActs() && Can(h, act);
      assert AnswerWrite in steps || AnswerFail in steps;
    }
  }

  lemma BeatCan(h: Half)
    ensures var pulse := h.me.pulse;
            && (Can(h, Act.Check) <==>
                  pulse == Resting && h.out.snd.connected && (h.inn.rcv.listening || !h.inn.rcv.running))
            && (Can(h, PingDraw) <==> pulse == Armed)
            && (Can(h, PingWrite) || Can(h, PingFail) ==> pulse.Drawn?)
            && (Can(h, Count) <==> pulse == Written)
            && (Can(h, CutRecv) <==> pulse == Cutting) && (Can(h, CutSend) <==> pulse == Closing)
  {
    hide Enabled, MustWrite;
  }

  lemma NoticeCan(h: Half)
    ensures var ear, rcv := h.me.ear, h.inn.rcv;
            && (Can(h, Act.Listen) <==> ear == Ready && !rcv.listening && rcv.running)
            && (Can(h, Hear) <==> ear == Ready && rcv.listening && h.inn.mail.live.newMsg)
            && (Can(h, Connect) <==> ear == Hearing(CLIENT_HELLO) || ear == Hearing(SERVER_HELLO))
            && (Can(h, ResetCount) <==> ear == Resetting)
            && (Can(h, HandlePong) <==> ear == Hearing(PONG)) && (Can(h, AnswerDraw) <==> ear == Hearing(PING))
            && (Can(h, AnswerWrite) || Can(h, AnswerFail) ==> ear.Answering?)
            && (Can(h, Ignore) <==> ear.Hearing? && ear.evt != CLIENT_HELLO && ear.evt != SERVER_HELLO
                                    && ear.evt != PING && ear.evt != PONG)
  {
    hide CanWrite, MustWrite;
  }

  lemma DrawnCanGo(w: World, first: bool)
    requires Possible(w)
    ensures var h := HalfOf(w, first);
            && (h.me.pulse.Drawn? ==> Can(h, PingWrite) || Can(h, PingFail))
            && (h.me.ear.Answering? ==> Can(h, AnswerWrite) || Can(h, AnswerFail))
  {
    hide Possible, Reachable, Inv, Tally, Wrap, Enabled, MustWrite;
    PossibleInv(w);
    var h := HalfOf(w, first);
    ReachableInv(h.out);
    if h.me.pulse.Drawn? { WriteOrFail(h.out, h.me.pulse.j, PING); }
    if h.me.ear.Answering? { WriteOrFail(h.out, h.me.ear.j, PONG); }
  }

  lemma WriteOrFail(s: State, j: nat, evt: int)
    requires Inv(s) && AwaitsWrite(s, j, evt) && evt != MSG_DATA
    ensures Enabled(s, Control(j)) || !MustWrite(s, Ptr(j, 0))
  {
    hide IssuedOnce, Conserved, InOrder, Fifo, Mailed, Reassembled, Losses, Claims, Working, Deref;
  }

  /** All other threads of a process move as if it were alone: what a direction allows its sending
      side is possible in every joint state, but for the steps of these two threads. */
  lemma OtherSteps(w: World, first: bool, a: Action)
    requires Possible(w) && Enabled(HalfOf(w, first).out, a)
    ensures var h := HalfOf(w, first);
            && Can(h, Stop)
            && (Can(h, Plain(a)) <==>
                  match a
                  case Draw(m) => m.evt != PING && m.evt != PONG
                  case Control(j) => h.out.book.msgs[j].evt != PING && h.out.book.msgs[j].evt != PONG
                  case _ => a !in {SetConnected(true), SetConnected(false), Action.Listen, Recv, Quit, RecverStop})
  {
    hide Possible;
  }
}
