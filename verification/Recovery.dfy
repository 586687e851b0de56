/** A broken link can be left and made anew, with all that is queued, and what is posted can
    arrive from every state in which both processes run. */
module Recovery {
  import opened Wire
  import opened Chunking
  import opened Mailbox
  import opened Reassembly
  import opened Protocol
  import opened Conservation
  import opened Sequencing
  import opened Transfer
  import opened Delivery
  import opened Loss
  import opened Shutdown
  import opened Reachability
  import opened Theorems
  import opened Histories
  import opened Draining
  import opened Refinement

  lemma Then(s: State, run: seq<Action>, a: Action)
    requires Legal(s, run) && Enabled(Exec(s, run), a)
    ensures Legal(s, run + [a]) && Exec(s, run + [a]) == Next(Exec(s, run), a)
  {
    hide Next, Enabled;
    OneStep(Exec(s, run), a);
    ExecConcat(s, run, [a]);
  }

  lemma NoSteps(s: State)
    ensures Legal(s, []) && Exec(s, []) == s
  {
  }

  // ---- Leaving a dead link ----

  /** Whenever the connection flag is down, the send loop can leave the mailbox. What it has in
      hand is lost; the queue and all else stay. */
  lemma CanLeave(s: State) returns (run: seq<Action>)
    requires Reachable(s) && s.snd.link != Detached && !s.snd.connected && s.snd.hand != Opening
    ensures Legal(s, run) && forall a :: a in run ==> a == SendFail || a == Break || a == Reset
    ensures var t, hand := Exec(s, run), s.snd.hand;
            && t.snd == s.snd.(hand := Idle, link := Detached)
            && t.book == s.book && t.mail == s.mail && t.rcv == s.rcv && t.gone.cleared == s.gone.cleared
            && t.gone.lost == s.gone.lost + (if hand.Popped? || (hand.Tried? && !hand.ok) then [hand.p] else [])
            && t.gone.failed == s.gone.failed + (if hand.Popped? then {hand.p.msg} else {})
  {
    hide Legal, Exec, Deref, Reachable, Inv;
    run := [];
    NoSteps(s);
    if s.snd.hand.Popped? {
      Then(s, run, SendFail);
      run := run + [SendFail];
    }
    if s.snd.hand != Leaving {
      Then(s, run, Break);
      run := run + [Break];
    }
    Then(s, run, Reset);
    run := run + [Reset];
  }

  // ---- A new connection ----

  /** From there the receiver can make a new mailbox and the send loop can attach to it. Only what
      was left unread in the old one is lost; the queue is the same. */
  lemma CanReconnect(s: State) returns (run: seq<Action>)
    requires Reachable(s) && s.snd.link == Detached && s.snd.running && s.rcv.running && !s.rcv.listening
    ensures run == [Listen, Attach, Begin] && Legal(s, run)
    ensures var t := Exec(s, run);
            && LinkUp(t) && t.snd.hand == Idle && !t.mail.live.newMsg
            && t.snd.queue == s.snd.queue && t.book == s.book && t.snd.opens == s.snd.opens + 1
            && t.rcv == s.rcv.(listening := true)
            && t.gone.lost == s.gone.lost + Unread(s)
            && t.gone.cleared == s.gone.cleared && t.gone.failed == s.gone.failed
  {
    hide Legal, Exec, Reachable, Inv, Unread, Zeros;
    ReachableInv(s);
    HandAttached(s);
    NoSteps(s);
    Then(s, [], Listen);
    Then(s, [] + [Listen], Attach);
    Then(s, [] + [Listen] + [Attach], Begin);
    run := [] + [Listen] + [Attach] + [Begin];
  }

  /** Hence from every state in which both processes run, whatever the state of the link, they can
      be brought together again, if need be by a cut of the heartbeat on either side. The queue is
      the same, and nothing is lost but what the send loop had in hand and what was unread. */
  lemma CanRecover(s: State) returns (run: seq<Action>)
    requires Reachable(s) && s.snd.running && s.rcv.running
    ensures Legal(s, run) && Reachable(Exec(s, run)) && LinkUp(Exec(s, run))
    ensures var t := Exec(s, run);
            && t.snd.queue == s.snd.queue && t.book == s.book && t.gone.cleared == s.gone.cleared
            && t.rcv.consumed == s.rcv.consumed && t.rcv.outcomes == s.rcv.outcomes
            && (forall p :: p in t.gone.lost ==> p in s.gone.lost || p in InHand(s) || p in Unread(s))
            && (forall j :: j in t.gone.failed ==> j in s.gone.failed || exists p :: p in InHand(s) && p.msg == j)
  {
    hide Legal, Exec, Reachable, Inv, LinkUp, Enabled, Next, Unread;
    ReachableInv(s);
    var down, first := CanUnlink(s);
    var rest := CanReconnect(down);
    run := first + rest;
    ExecConcat(s, first, rest);
    ReachableOn(s, run);
  }

  /** The link is given up on both sides. */
  lemma CanUnlink(s: State) returns (t: State, run: seq<Action>)
    requires Reachable(s)
    ensures Legal(s, run) && t == Exec(s, run) && Reachable(t)
    ensures t.snd.link == Detached && !t.rcv.listening
    ensures t.snd.queue == s.snd.queue && t.snd.running == s.snd.running && t.rcv == s.rcv.(listening := false)
    ensures t.book == s.book && Unread(t) == Unread(s) && t.gone.cleared == s.gone.cleared
    ensures t.gone.lost == s.gone.lost + InHand(s)
    ensures forall j :: j in t.gone.failed ==> j in s.gone.failed || exists p :: p in InHand(s) && p.msg == j
  {
    hide Legal, Exec, Reachable, Inv;
    var s1, begun := CutOff(s);
    if s1.snd.link == Detached {
      ReachableInv(s);
      HandAttached(s);
      assert s.gone.lost + [] == s.gone.lost;
      t, run := s1, begun;
    } else {
      var left := CanLeave(s1);
      run := begun + left;
      ExecConcat(s, begun, left);
      ReachableOn(s, run);
      t := Exec(s, run);
    }
  }

  lemma CutOff(s: State) returns (t: State, run: seq<Action>)
    requires Reachable(s)
    ensures Legal(s, run) && t == Exec(s, run) && Reachable(t)
    ensures !t.snd.connected && !t.rcv.listening && t.snd.hand != Opening
    ensures t.snd.link == s.snd.link && t.snd.queue == s.snd.queue && t.snd.running == s.snd.running
    ensures t.rcv == s.rcv.(listening := false) && t.book == s.book && t.gone == s.gone
    ensures t.mail.written == s.mail.written && t.mail.readings == s.mail.readings
    ensures t.snd.hand == if s.snd.hand == Opening then Idle else s.snd.hand
  {
    hide Legal, Exec, Reachable, Inv;
    run := [];
    NoSteps(s);
    if s.snd.hand == Opening {
      Then(s, run, Begin);
      run := run + [Begin];
    }
    if s.rcv.listening {
      Then(s, run, Quit);
      run := run + [Quit];
    }
    Then(s, run, SetConnected(false));
    run := run + [SetConnected(false)];
    ReachableOn(s, run);
    t := Exec(s, run);
  }

  // ---- What is queued arrives ----

  /** Every message whose packets are all queued when the link falls can still be delivered, as
      often as the link has to be made anew: intact, under its own number, unless it has several
      packets and one of them has failed a send. */
  lemma QueuedCanArrive(s: State) returns (run: seq<Action>)
    requires Reachable(s) && s.snd.running && s.rcv.running && |s.book.msgs| <= 0x1_0000_0000
    ensures Legal(s, run) && LinkUp(Exec(s, run)) && Exec(s, run).book == s.book
    ensures forall j: nat | j < |s.book.msgs| && (ChunkCount(|s.book.msgs[j].data|) == 1 || j !in s.gone.failed)
                            && (forall c: nat :: c < ChunkCount(|s.book.msgs[j].data|) ==> Ptr(j, c) in s.snd.queue) ::
              var t, m := Exec(s, run), s.book.msgs[j];
              && |t.rcv.outcomes| == |t.rcv.consumed|
              && exists i :: 0 <= i < |t.rcv.consumed| && t.rcv.consumed[i].msg == j
                   && t.rcv.outcomes[i] == Notified(m.evt, if m.data == [] then None else Some(Lift(m.data)), |m.data|)
  {
    hide Legal, Exec, Reachable, Inv, LinkUp, Enabled, Next, Unread, Delivered, Intact;
    var first := CanRecover(s);
    var u := Exec(s, first);
    var rest := CanDeliver(u);
    run := first + rest;
    ExecConcat(s, first, rest);
    forall j: nat | j < |s.book.msgs| && (ChunkCount(|s.book.msgs[j].data|) == 1 || j !in s.gone.failed)
                    && (forall c: nat :: c < ChunkCount(|s.book.msgs[j].data|) ==> Ptr(j, c) in s.snd.queue)
      ensures var t, m := Exec(s, run), s.book.msgs[j];
              && |t.rcv.outcomes| == |t.rcv.consumed|
              && exists i :: 0 <= i < |t.rcv.consumed| && t.rcv.consumed[i].msg == j
                   && t.rcv.outcomes[i] == Notified(m.evt, if m.data == [] then None else Some(Lift(m.data)), |m.data|)
    {
      QueuedIsKept(s, u, j);
      DeliveredMeans(Exec(s, run), j);
    }
  }

  lemma DeliveredMeans(t: State, j: nat)
    requires Delivered(t, j)
    ensures j < |t.book.msgs| && |t.rcv.outcomes| == |t.rcv.consumed|
    ensures var m := t.book.msgs[j];
            exists i :: 0 <= i < |t.rcv.consumed| && t.rcv.consumed[i].msg == j
              && t.rcv.outcomes[i] == Notified(m.evt, if m.data == [] then None else Some(Lift(m.data)), |m.data|)
  {
    hide Lift;
  }

  /** A queued packet is nowhere else, so a recovery loses none of them. */
  lemma QueuedIsKept(s: State, u: State, j: nat)
    requires Reachable(s) && j < |s.book.msgs| && u.book == s.book && u.gone.cleared == s.gone.cleared
    requires forall c: nat :: c < ChunkCount(|s.book.msgs[j].data|) ==> Ptr(j, c) in s.snd.queue
    requires forall p :: p in u.gone.lost ==> p in s.gone.lost || p in InHand(s) || p in Unread(s)
    requires forall j :: j in u.gone.failed ==> j in s.gone.failed || exists p :: p in InHand(s) && p.msg == j
    ensures FullyIssued(u, j) && Kept(u, j) && (j in u.gone.failed ==> j in s.gone.failed)
    ensures u.book.sent[j] == ChunkCount(|s.book.msgs[j].data|)
  {
    hide Reachable, Inv, Unread, InHand, ChunkCount;
    ReachableInv(s);
    PacketsIssued(s);
    var n := ChunkCount(|s.book.msgs[j].data|);
    forall p: Ptr | p.msg == j && p.chunk < n
      ensures p !in s.gone.lost && p !in s.gone.cleared && p !in InHand(s) && p !in Unread(s)
    {
      assert Ptr(j, p.chunk) in s.snd.queue;
      ExactlyOnePlace(s, p);
      assert p in multiset(s.snd.queue);
    }
    assert Ptr(j, n - 1) in s.snd.queue;
    assert Ptr(j, n - 1) in Line(s);
  }

  /** Whatever is anywhere was issued, and its number is within its message. */
  lemma PacketsIssued(s: State)
    requires Inv(s)
    ensures |s.book.sent| == |s.book.msgs|
    ensures forall p :: p in Line(s) || p in s.gone.lost || p in s.gone.cleared ==>
              p.msg < |s.book.msgs| && p.chunk < s.book.sent[p.msg] <= ChunkCount(|s.book.msgs[p.msg].data|)
  {
    hide Mailed, Reassembled, InOrder, Fifo, Losses, Claims, Working, Line;
    LineIssued(s);
  }

  // ---- What is posted arrives ----

  function Range(j: nat, from: nat, n: nat): seq<Ptr> { seq(n, i requires 0 <= i < n => Ptr(j, from + i)) }

  lemma {:induction false} PushesQueue(s: State, j: nat, n: nat)
    requires j < |s.book.msgs| && j < |s.book.sent| && IsData(s.book.msgs[j])
    requires s.book.sent[j] + n <= ChunkCount(|s.book.msgs[j].data|)
    ensures Legal(s, Pushes(j, n))
    ensures var t := Exec(s, Pushes(j, n));
            && t.snd == s.snd.(queue := s.snd.queue + Range(j, s.book.sent[j], n))
            && t.rcv == s.rcv && t.gone == s.gone && t.book.msgs == s.book.msgs
    decreases n
  {
    hide Next, ChunkCount, IsData;
    if n == 0 {
      assert s.snd.queue + Range(j, s.book.sent[j], 0) == s.snd.queue;
    } else {
      PushOne(s, j);
      assert Pushes(j, n)[0] == Push(j) && Pushes(j, n)[1..] == Pushes(j, n - 1);
      PushesQueue(Next(s, Push(j)), j, n - 1);
      assert Range(j, s.book.sent[j], n) == [Ptr(j, s.book.sent[j])] + Range(j, s.book.sent[j] + 1, n - 1);
    }
  }

  lemma PushOne(s: State, j: nat)
    requires j < |s.book.msgs| && j < |s.book.sent| && IsData(s.book.msgs[j])
    requires s.book.sent[j] < ChunkCount(|s.book.msgs[j].data|)
    ensures Enabled(s, Push(j))
    ensures var t := Next(s, Push(j));
            && t.snd == s.snd.(queue := s.snd.queue + [Ptr(j, s.book.sent[j])])
            && t.rcv == s.rcv && t.gone == s.gone && t.book.msgs == s.book.msgs
            && t.book.sent == s.book.sent[j := s.book.sent[j] + 1]
  {
  }

  /** What `post` leaves is queued as a whole. */
  lemma PostQueues(s: State, m: Message) returns (t: State)
    requires Reachable(s) && IsData(m)
    ensures Legal(s, PostRun(s, m)) && t == Exec(s, PostRun(s, m)) && Reachable(t)
    ensures t.book.msgs == s.book.msgs + [m] && t.snd.running == s.snd.running && t.rcv == s.rcv && t.gone == s.gone
    ensures forall c: nat :: c < ChunkCount(|m.data|) ==> Ptr(|s.book.msgs|, c) in t.snd.queue
  {
    hide Legal, Exec, Reachable, Inv, Enabled, Next;
    var j, n := |s.book.msgs|, ChunkCount(|m.data|);
    PostRefines(s, m);
    var s1 := DrawStep(s, m);
    PushesQueue(s1, j, n);
    OneStep(s, Draw(m));
    ExecConcat(s, [Draw(m)], Pushes(j, n));
    t := Exec(s, PostRun(s, m));
    forall c: nat | c < n ensures Ptr(j, c) in t.snd.queue {
      assert t.snd.queue[|s.snd.queue| + c] == Range(j, 0, n)[c];
    }
  }

  /** No number has failed before it was drawn. */
  lemma FailedIsDrawn(s: State)
    requires Reachable(s)
    ensures forall j :: j in s.gone.failed ==> j < |s.book.msgs|
  {
    hide Init, Legal, Exec, Inv;
    var first: int, run: seq<Action> :| Legal(Init(first), run) && Exec(Init(first), run) == s;
    AtEnd(Init(first), run);
    forall j | j in s.gone.failed ensures j < |s.book.msgs| {
      FailedIff(first, run, |run|, j);
      var i :| 0 <= i < |run| && run[i] == SendFail
               && var hand := At(Init(first), run, i).snd.hand; hand.Popped? && hand.p.msg == j;
      AtReachable(first, run, i);
      HandDrawn(At(Init(first), run, i));
      DrawnStays(Init(first), run, i);
    }
  }

  lemma HandDrawn(s: State)
    requires Inv(s) && s.snd.hand.Popped?
    ensures s.snd.hand.p.msg < |s.book.msgs|
  {
    hide Line;
    assert s.snd.hand.p in InHand(s);
  }

  lemma {:induction false} DrawnStays(s: State, run: seq<Action>, i: nat)
    requires Legal(s, run) && i <= |run|
    ensures |At(s, run, i).book.msgs| <= |Exec(s, run).book.msgs|
    decreases |run| - i
  {
    hide Init, Legal, Exec, At, Next, Enabled;
    if i == |run| {
      AtEnd(s, run);
    } else {
      AtStep(s, run, i);
      DrawsGrow(At(s, run, i), run[i]);
      DrawnStays(s, run, i + 1);
    }
  }

  /** From every state in which both processes run, whatever has happened before and wherever the
      link stands, a message that is posted now can be delivered as it was posted. */
  lemma PostedCanArrive(s: State, m: Message) returns (run: seq<Action>, i: nat)
    requires Reachable(s) && s.snd.running && s.rcv.running && |s.book.msgs| < 0x1_0000_0000
    requires m.evt == MSG_DATA && |m.data| < 0x100_0000
    ensures PostRun(s, m) <= run && Legal(s, run)
    ensures var t := Exec(s, run);
            && t.book.msgs == s.book.msgs + [m]
            && i < |t.rcv.consumed| == |t.rcv.outcomes| && t.rcv.consumed[i].msg == |s.book.msgs|
            && t.rcv.outcomes[i] == Notified(MSG_DATA, if m.data == [] then None else Some(Lift(m.data)), |m.data|)
  {
    hide Legal, Exec, Reachable, Inv, LinkUp, Enabled, Next, PostRun, Lift;
    var j := |s.book.msgs|;
    var u := PostQueues(s, m);
    var rest := QueuedCanArrive(u);
    FailedIsDrawn(s);
    run := PostRun(s, m) + rest;
    ExecConcat(s, PostRun(s, m), rest);
    assert u.book.msgs[j] == m;
    var t := Exec(s, run);
    i :| 0 <= i < |t.rcv.consumed| && t.rcv.consumed[i].msg == j
         && t.rcv.outcomes[i] == Notified(m.evt, if m.data == [] then None else Some(Lift(m.data)), |m.data|);
  }

  // ---- Parting ----

  /** With the link up and the mailbox empty, each control event can be sent and read; the
      receiver's loop ends exactly at a bye, of the client or of the server. */
  lemma ByeEndsLoop(s: State, evt: int) returns (t: State)
    requires Reachable(s) && LinkUp(s) && !s.mail.live.newMsg && |s.book.msgs| < 0x1_0000_0000
    requires CLIENT_HELLO <= evt <= PONG
    ensures var run := [Draw(Message(evt, [])), Control(|s.book.msgs|), Recv];
            Legal(s, run) && t == Exec(s, run)
    ensures t.rcv.outcomes == s.rcv.outcomes + [Notified(evt, None, 0)]
    ensures t.rcv.listening <==> evt != CLIENT_BYEBYE && evt != SERVER_BYEBYE
    ensures t.mail.live.senderWorking <==> evt != CLIENT_BYEBYE && evt != SERVER_BYEBYE
  {
    hide Legal, Exec, Reachable, Inv, Feed, ReadFrame, Encode, FrameAt;
    var m, j := Message(evt, []), |s.book.msgs|;
    NoSteps(s);
    Then(s, [], Draw(m));
    var s2 := ByeWritten(s, evt);
    Then(s, [] + [Draw(m)], Control(j));
    ReachableOn(s, [] + [Draw(m)] + [Control(j)]);
    Then(s, [] + [Draw(m)] + [Control(j)], Recv);
    ByeHeard(s2, evt);
    assert [] + [Draw(m)] + [Control(j)] + [Recv] == [Draw(m), Control(j), Recv];
    t := Next(s2, Recv);
  }

  lemma ByeWritten(s: State, evt: int) returns (t: State)
    requires Reachable(s) && LinkUp(s) && !s.mail.live.newMsg && CLIENT_HELLO <= evt <= PONG
    ensures var m, j := Message(evt, []), |s.book.msgs|;
            && Enabled(s, Draw(m)) && Enabled(Next(s, Draw(m)), Control(j)) && t == Next(Next(s, Draw(m)), Control(j))
            && t.book.msgs == s.book.msgs + [m] && t.rcv == s.rcv
            && t.mail.written != [] && t.mail.written[|t.mail.written| - 1] == Ptr(j, 0) && t.mail.live.newMsg
            && (t.mail.live.senderWorking <==> evt != CLIENT_BYEBYE && evt != SERVER_BYEBYE)
  {
    hide Reachable, Inv, Encode;
    ReachableInv(s);
    QueueKnown(s);
    var m := Message(evt, []);
    t := Next(Next(s, Draw(m)), Control(|s.book.msgs|));
  }

  lemma ByeHeard(s: State, evt: int)
    requires Reachable(s) && FewDraws(s) && s.rcv.listening && s.mail.live.newMsg
    requires s.mail.written != [] && s.book.msgs != []
    requires s.mail.written[|s.mail.written| - 1] == Ptr(|s.book.msgs| - 1, 0)
    requires s.book.msgs[|s.book.msgs| - 1] == Message(evt, []) && CLIENT_HELLO <= evt <= PONG
    ensures var t := Next(s, Recv);
            && t.rcv.outcomes == s.rcv.outcomes + [Notified(evt, None, 0)]
            && (t.rcv.listening <==> s.mail.live.senderWorking)
            && t.mail.live.senderWorking == s.mail.live.senderWorking
  {
    hide Reachable, Feed, ReadFrame, Line, FrameAt;
    Facts(s);
    UnreadIs(s);
    ControlAnnounced(s, Ptr(|s.book.msgs| - 1, 0));
  }
}
