/** What each thread can do next in every reachable state, what it waits for, and what it does no
    more after a stop or a fall of the connection flag. */
module Progress {
  import opened Chunking
  import opened Mailbox
  import opened Reassembly
  import opened Protocol
  import opened Sequencing
  import opened Transfer
  import opened Reachability
  import opened Refinement
  import opened Histories

  // ---- Threads ----

  /** The steps of the send loop. */
  function LoopSteps(): set<Action> { {Pop, SendOk, SendFail, Retry, Drop, Break, Reset, Attach, Begin} }

  /** The send loop is never stuck but where the program waits: for a packet while the link is
      up, and for a mailbox with a receiver while there is no link. Wherever it stands, its next
      step is decided, up to the outcome of a send and a stop during a retry. */
  lemma SendLoopSteps(s: State)
    requires Reachable(s)
    ensures var steps, up, link := (set a | a in LoopSteps() && Enabled(s, a)), s.snd.connected, s.snd.link;
            match s.snd.hand
            case Idle =>
              steps == (if link == Detached then
                          if s.snd.running && s.mail.live.recverWorking && !s.mail.liveOpened then {Attach} else {}
                        else if !up then {Break}
                        else if s.snd.queue == [] then {}
                        else {Pop})
            case Popped(_) => link != Detached && steps <= {SendOk, SendFail} && steps != {}
            case Tried(_, ok) =>
              && link != Detached
              && steps == if !up then {Break} else if ok || s.snd.running then {Retry} else {Retry, Drop}
            case Leaving => link != Detached && steps == {Reset}
            case Opening => link != Detached && steps == {Begin}
  {
    hide Inv, Enabled, Reachable;
    ReachableInv(s);
    HandAttached(s);
    EnabledAt(s);
    if s.snd.hand.Popped? {
      SendOrFail(s);
      var steps := set a | a in LoopSteps() && Enabled(s, a);
      assert SendOk in steps || SendFail in steps;
    }
  }

  lemma EnabledAt(s: State)
    requires s.snd.link == Detached ==> s.snd.hand == Idle
    ensures var linked, hand := s.snd.link != Detached, s.snd.hand;
            && (Enabled(s, Pop) <==> hand == Idle && linked && s.snd.connected && s.snd.queue != [])
            && (Enabled(s, SendOk) || Enabled(s, SendFail) ==> hand.Popped?)
            && (Enabled(s, Retry) <==> hand.Tried? && s.snd.connected)
            && (Enabled(s, Drop) <==> hand.Tried? && !hand.ok && s.snd.connected && !s.snd.running)
            && (Enabled(s, Break) <==> (hand == Idle || hand.Tried?) && linked && !s.snd.connected)
            && (Enabled(s, Reset) <==> hand == Leaving)
            && (Enabled(s, Attach) <==> hand == Idle && !linked && s.snd.running && s.mail.live.recverWorking
                                        && !s.mail.liveOpened)
            && (Enabled(s, Begin) <==> hand == Opening)
  {
    hide CanSend, MustWrite;
  }

  lemma SendOrFail(s: State)
    requires s.snd.hand.Popped?
    ensures Enabled(s, SendOk) || Enabled(s, SendFail)
  {
    hide Deref;
  }

  /** The receive thread can always move, unless its process has stopped. */
  lemma RecvLoopSteps(s: State)
    requires Reachable(s)
    ensures (set a | a in {Listen, Recv, Quit} && Enabled(s, a))
            == if s.rcv.listening then (if s.mail.live.newMsg then {Recv, Quit} else {Quit})
               else if s.rcv.running then {Listen} else {}
  {
    hide Reachable;
  }

  /** Callers are never held up: a number can always be drawn for any message, and the next
      packet of any post can always be pushed until all are out. */
  lemma CallerSteps(s: State, m: Message, j: nat)
    requires Reachable(s)
    ensures (m.evt == MSG_DATA && |m.data| < 0x100_0000) || (CLIENT_HELLO <= m.evt <= PONG && m.data == []) ==>
              Enabled(s, Draw(m))
    ensures j < |s.book.msgs| == |s.book.sent| && s.book.msgs[j].evt == MSG_DATA ==>
              (Enabled(s, Push(j)) <==> s.book.sent[j] < ChunkCount(|s.book.msgs[j].data|))
  {
    hide Inv, Reachable, ChunkCount;
    ReachableInv(s);
    MessagesKnown(s);
  }

  lemma MessagesKnown(s: State)
    requires Inv(s)
    ensures forall j :: 0 <= j < |s.book.msgs| ==> IsMessage(s.book.msgs[j])
  {
    hide Line;
  }

  // ---- Writes ----

  /** When the send loop's packet can be written and when its send can fail: the packet in hand
      goes to a mailbox whose receiver is there, with the flag up and the process running. An
      unread packet is in the way, unless the flag rose while the loop was waiting. */
  lemma LoopWritesIff(first: int, run: seq<Action>, k: nat)
    requires Legal(Init(first), run) && k <= |run| && At(Init(first), run, k).snd.hand.Popped?
    ensures var s := At(Init(first), run, k);
            var box := if s.snd.link == OnLive then s.mail.live else s.mail.orphan;
            var open := s.snd.connected && s.snd.running && box.recverWorking;
            && (Enabled(s, SendFail) <==> !open || box.newMsg)
            && (Enabled(s, SendOk) <==>
                  open && (box.newMsg ==>
                    exists i :: 0 <= i < k && (run[i] == SetConnected(true) || run[i] == Begin)
                      && !At(Init(first), run, i).snd.connected && At(Init(first), run, i).snd.hand.Popped?
                      && forall h :: i < h < k ==> run[h] != Pop && run[h] != SendOk && !run[h].Control?))
  {
    hide Init, Legal, At, Inv, Deref, Reachable;
    AtReachable(first, run, k);
    var s := At(Init(first), run, k);
    HandAttached(s);
    FitsAll(s);
    LoopSlipsIff(first, run, k);
  }

  /** The same for a hello, bye, ping or pong that has drawn its number. */
  lemma CallWritesIff(first: int, run: seq<Action>, k: nat, j: nat)
    requires Legal(Init(first), run) && k <= |run|
    requires var s := At(Init(first), run, k);
             j < |s.book.msgs| == |s.book.sent| && s.book.msgs[j].evt != MSG_DATA && s.book.sent[j] == 0
    ensures var s := At(Init(first), run, k);
            var box := if s.snd.link == OnLive then s.mail.live else s.mail.orphan;
            Enabled(s, Control(j)) <==>
              && s.snd.link != Detached && s.snd.connected && s.snd.running && box.recverWorking
              && (box.newMsg ==>
                    exists i :: 0 <= i < k && (run[i] == SetConnected(true) || run[i] == Begin)
                      && !At(Init(first), run, i).snd.connected && j < |At(Init(first), run, i).book.msgs|
                      && forall h :: i < h < k ==> run[h] != SendOk && !run[h].Control?)
  {
    hide Init, Legal, At, Inv, Deref, Reachable;
    AtReachable(first, run, k);
    var s := At(Init(first), run, k);
    MessagesKnown(s);
    ControlFits(s, j);
    CallSlipsIff(first, run, k, j);
  }

  lemma FitsAll(s: State)
    requires Inv(s) && s.snd.hand.Popped?
    ensures |Deref(s, s.snd.hand.p).data| <= CAP
  {
    hide InOrder, Fifo, Mailed, Reassembled, Line;
    var p := s.snd.hand.p;
    assert p in InHand(s);
    KnownInLine(s);
    ChunkShape(|s.book.msgs[p.msg].data|, p.chunk);
  }

  lemma ControlFits(s: State, j: nat)
    requires j < |s.book.msgs| && IsControl(s.book.msgs[j])
    ensures |Deref(s, Ptr(j, 0)).data| <= CAP
  {
  }

  // ---- Nothing after a stop ----

  /** After the sending process has stopped nothing is written any more, on any mailbox, and no
      mailbox is attached to. */
  lemma NothingAfterHalt(first: int, run: seq<Action>, h: nat, k: nat)
    requires Legal(Init(first), run) && h < k < |run| && run[h] == Halt
    ensures run[k] != SendOk && !run[k].Control? && run[k] != Attach
  {
    hide Init, Legal, At, Deref;
    RunningIff(first, run, k);
    assert run[..k][h] == Halt;
    AtStep(Init(first), run, k);
  }

  /** `Stop`, a hello and a cut can come at any time; the queue is dropped, and a retry refused,
      only after the process has stopped. */
  lemma StopSteps(first: int, run: seq<Action>, k: nat)
    requires Legal(Init(first), run) && k <= |run|
    ensures var s := At(Init(first), run, k);
            && (forall a :: a in {Halt, RecverStop, SetConnected(true), SetConnected(false)} ==> Enabled(s, a))
            && (Enabled(s, Clear) <==> Halt in run[..k])
            && (Enabled(s, Drop) ==> Halt in run[..k])
  {
    hide Init, Legal, At;
    RunningIff(first, run, k);
  }

  /** After the receiving process has stopped it reads no more, and nothing is written to its
      mailbox any more; what a sender on an earlier mailbox does is not its business. */
  lemma NothingAfterRecverStop(first: int, run: seq<Action>, h: nat, k: nat)
    requires Legal(Init(first), run) && h < k < |run| && run[h] == RecverStop
    ensures run[k] != Listen && run[k] != Recv && run[k] != Attach
    ensures run[k] == SendOk || run[k].Control? ==> At(Init(first), run, k).snd.link == OnOrphan
  {
    hide Init, Legal, At, Deref, Feed, ReadFrame;
    RunningIff(first, run, k);
    ListeningIff(first, run, k);
    assert run[..k][h] == RecverStop;
    AtStep(Init(first), run, k);
    forall i | h < i < k ensures run[i] != Listen {
      NoListenAfter(first, run, h, i);
    }
  }

  lemma NoListenAfter(first: int, run: seq<Action>, h: nat, i: nat)
    requires Legal(Init(first), run) && h < i < |run| && run[h] == RecverStop
    ensures run[i] != Listen
  {
    hide Init, Legal, At, Deref, Feed, ReadFrame;
    RunningIff(first, run, i);
    assert run[..i][h] == RecverStop;
    AtStep(Init(first), run, i);
  }

  /** From a fall of the connection flag to its next rise nothing is taken from the queue, nothing
      is written, and no failed packet is pushed again. */
  lemma NothingWhileDown(first: int, run: seq<Action>, h: nat, k: nat)
    requires Legal(Init(first), run) && h < k < |run| && run[h] == SetConnected(false)
    requires forall i :: h < i < k ==> run[i] != SetConnected(true) && run[i] != Begin
    ensures run[k] != Pop && run[k] != SendOk && !run[k].Control? && run[k] != Retry && run[k] != Drop
  {
    hide Init, Legal, At, Deref;
    ConnectedIff(first, run, k);
    AtStep(Init(first), run, k);
  }
}
