/** The heartbeat of the joint machine, of the event machine and of the object are one: what the
    threads of a process do step by step in `Duplex`, undisturbed, is one event of `Heartbeat` and
    one call of the object's methods. */
module Beating {
  import opened Wire
  import opened Chunking
  import opened Mailbox
  import opened Protocol
  import opened Reachability
  import opened Theorems
  import opened Refinement
  import opened Duplex
  import opened Channel
  import H = Heartbeat

  // ---- Runs of one process ----

  predicate CanRun(h: Half, acts: seq<Act>)
    decreases |acts|
  {
    acts == [] || (Can(h, acts[0]) && CanRun(Do(h, acts[0]), acts[1..]))
  }

  function DoRun(h: Half, acts: seq<Act>): Half
    requires CanRun(h, acts)
    decreases |acts|
  {
    if acts == [] then h else DoRun(Do(h, acts[0]), acts[1..])
  }

  lemma {:induction false} RunConcat(h: Half, a: seq<Act>, b: seq<Act>)
    requires CanRun(h, a) && CanRun(DoRun(h, a), b)
    ensures CanRun(h, a + b) && DoRun(h, a + b) == DoRun(DoRun(h, a), b)
    decreases |a|
  {
    hide Can, Do;
    if a == [] {
      assert a + b == b;
    } else {
      RunConcat(Do(h, a[0]), a[1..], b);
      assert (a + b)[1..] == a[1..] + b;
    }
  }

  lemma RunOne(h: Half, act: Act)
    requires Can(h, act)
    ensures CanRun(h, [act]) && DoRun(h, [act]) == Do(h, act)
  {
    hide Can, Do;
    assert [act][1..] == [] && CanRun(Do(h, act), []);
  }

  /** The steps of one process lead from one joint state to another. */
  lemma {:induction false} RunIsPossible(w: World, first: bool, acts: seq<Act>)
    requires Possible(w) && CanRun(HalfOf(w, first), acts)
    ensures Possible(With(w, first, DoRun(HalfOf(w, first), acts)))
    decreases |acts|
  {
    hide Can, Do, Possible;
    if acts != [] {
      var v := TakeTurn(w, Turn(first, acts[0]));
      RunIsPossible(v, first, acts[1..]);
    }
  }

  // ---- The heartbeat ----

  function BeatOf(h: Half): H.Beat {
    H.Beat(h.out.snd.connected, h.inn.rcv.listening, h.me.pulse == Armed, h.me.pending)
  }

  /** The ping, if the mailbox accepts it. */
  predicate PingFits(h: Half) {
    MustWrite(Next(h.out, Draw(Message(PING, []))), Ptr(|h.out.book.msgs|, 0))
  }

  /** The round after the sleep: a number, the write, the count, and the cut if need be. */
  function PingRun(h: Half): seq<Act> {
    if !PingFits(h) then [PingDraw, PingFail, CutRecv, CutSend]
    else [PingDraw, PingWrite, Count] + if H.Wrap(h.me.pending + 1) > H.MAX_FAILED then [CutRecv, CutSend] else []
  }

  lemma CheckIsCheck(h: Half)
    requires h.me.pulse == Resting && h.me.pending >= 0 && h.me.pending < H.SIZE_T
    ensures if h.out.snd.connected && h.inn.rcv.listening
            then Can(h, Check) && BeatOf(Do(h, Check)) == H.Step(BeatOf(h), H.Check)
            else BeatOf(h) == H.Step(BeatOf(h), H.Check)
  {
  }

  /** What the direction looks like after the ping and, if need be, after the cut. */
  function AfterPing(h: Half): State
    requires Legal(h.out, SendRun(h.out, Message(PING, [])))
  {
    Exec(h.out, SendRun(h.out, Message(PING, [])))
  }

  predicate Cuts(h: Half) { !PingFits(h) || H.Wrap(h.me.pending + 1) > H.MAX_FAILED }

  /** An undisturbed round is the event `Ping` of the heartbeat. */
  lemma PingRunIsPing(h: Half)
    requires Reachable(h.out) && h.me.pulse == Armed && 0 <= h.me.pending < H.SIZE_T
    ensures CanRun(h, PingRun(h)) && Legal(h.out, SendRun(h.out, Message(PING, [])))
    ensures var t := DoRun(h, PingRun(h));
            && BeatOf(t) == H.Step(BeatOf(h), H.Ping(PingFits(h)))
            && t.me.pulse == Resting && t.me.ear == h.me.ear && t.inn.rcv.running == h.inn.rcv.running
            && t.out == (if Cuts(h) then Next(AfterPing(h), SetConnected(false)) else AfterPing(h))
  {
    hide Next, Enabled, PingFits, H.Wrap, Reachable, Can, Do, CanRun, DoRun, AfterPing;
    if PingFits(h) { WrittenRun(h); } else { FailedRun(h); }
  }

  lemma WrittenRun(h: Half)
    requires Reachable(h.out) && h.me.pulse == Armed && PingFits(h)
    ensures CanRun(h, PingRun(h)) && Legal(h.out, SendRun(h.out, Message(PING, [])))
    ensures var t, pending := DoRun(h, PingRun(h)), H.Wrap(h.me.pending + 1);
            && t.me == h.me.(pulse := Resting, pending := pending, counted := h.me.counted + 1)
            && t.inn.rcv.running == h.inn.rcv.running
            && if pending > H.MAX_FAILED
               then t.out == Next(AfterPing(h), SetConnected(false)) && !t.out.snd.connected && !t.inn.rcv.listening
               else t.out == AfterPing(h) && t.inn == h.inn && t.out.snd.connected == h.out.snd.connected
  {
    hide Next, Enabled, PingFits, H.Wrap, Reachable, Can, Do, CanRun, DoRun, AfterPing;
    var h1 := PingDrawn(h);
    var h2 := PingSent(h, h1);
    if H.Wrap(h.me.pending + 1) > H.MAX_FAILED {
      CutRun(h2);
      RunConcat(h, [PingDraw, PingWrite, Count], [CutRecv, CutSend]);
    } else {
      assert [PingDraw, PingWrite, Count] + [] == [PingDraw, PingWrite, Count];
    }
  }

  lemma FailedRun(h: Half)
    requires Reachable(h.out) && h.me.pulse == Armed && !PingFits(h)
    ensures CanRun(h, PingRun(h)) && Legal(h.out, SendRun(h.out, Message(PING, [])))
    ensures var t := DoRun(h, PingRun(h));
            && t.me == h.me.(pulse := Resting) && t.inn.rcv.running == h.inn.rcv.running
            && t.out == Next(AfterPing(h), SetConnected(false)) && !t.out.snd.connected && !t.inn.rcv.listening
  {
    hide Next, Enabled, PingFits, H.Wrap, Reachable, Can, CanRun, DoRun, AfterPing;
    var h1 := PingDrawn(h);
    RunOne(h1, PingFail);
    RunConcat(h, [PingDraw], [PingFail]);
    CutRun(Do(h1, PingFail));
    RunConcat(h, [PingDraw] + [PingFail], [CutRecv, CutSend]);
    assert [PingDraw] + [PingFail] + [CutRecv, CutSend] == [PingDraw, PingFail, CutRecv, CutSend];
  }

  lemma PingDrawn(h: Half) returns (t: Half)
    requires Reachable(h.out) && h.me.pulse == Armed
    ensures CanRun(h, [PingDraw]) && t == DoRun(h, [PingDraw])
    ensures Enabled(h.out, Draw(Message(PING, [])))
    ensures t == h.(out := Next(h.out, Draw(Message(PING, []))), me := h.me.(pulse := Drawn(|h.out.book.msgs|)))
    ensures t.out.snd.connected == h.out.snd.connected
    ensures PingFits(h) ==> Can(t, PingWrite)
    ensures !PingFits(h) ==> Can(t, PingFail)
    ensures Legal(h.out, SendRun(h.out, Message(PING, [])))
    ensures AfterPing(h) == if PingFits(h) then Next(t.out, Control(|h.out.book.msgs|)) else t.out
  {
    hide Next, Enabled, MustWrite, Reachable, ViewOf, EndsOf, Accepts, Legal, Exec, AfterPing, CanRun, DoRun;
    DrawKeepsFlag(h.out, Message(PING, []));
    DrawControl(h.out, Message(PING, []));
    RunOne(h, PingDraw);
    t := Do(h, PingDraw);
    AfterPingIs(h);
  }

  lemma AfterPingIs(h: Half)
    requires Reachable(h.out)
    ensures Legal(h.out, SendRun(h.out, Message(PING, []))) && Enabled(h.out, Draw(Message(PING, [])))
    ensures var out, j := Next(h.out, Draw(Message(PING, []))), |h.out.book.msgs|;
            && (PingFits(h) ==> Enabled(out, Control(j)))
            && AfterPing(h) == if PingFits(h) then Next(out, Control(j)) else out
  {
    hide Next, Enabled, MustWrite, Reachable, ViewOf, EndsOf, Accepts, Legal, Exec;
    var m := Message(PING, []);
    DrawControl(h.out, m);
    SendRefines(h.out, m);
    OneStep(h.out, Draw(m));
    if PingFits(h) {
      var out := Next(h.out, Draw(m));
      OneStep(out, Control(|h.out.book.msgs|));
      ExecConcat(h.out, [Draw(m)], [Control(|h.out.book.msgs|)]);
    } else {
      assert [Draw(m)] + [] == [Draw(m)];
    }
  }

  lemma FlagKept(s: State, j: nat)
    requires Enabled(s, Control(j))
    ensures Next(s, Control(j)).snd.connected == s.snd.connected
  {
  }

  lemma PingSent(h: Half, h1: Half) returns (t: Half)
    requires CanRun(h, [PingDraw]) && h1 == DoRun(h, [PingDraw]) && Can(h1, PingWrite)
    ensures CanRun(h, [PingDraw, PingWrite, Count]) && t == DoRun(h, [PingDraw, PingWrite, Count])
    ensures var pending := H.Wrap(h1.me.pending + 1);
            t == Half(h1.me.(pending := pending, counted := h1.me.counted + 1,
                             pulse := if pending > H.MAX_FAILED then Cutting else Resting),
                      Next(h1.out, Control(h1.me.pulse.j)), h1.inn)
    ensures t.out.snd.connected == h1.out.snd.connected
  {
    hide Next, Enabled, H.Wrap;
    FlagKept(h1.out, h1.me.pulse.j);
    var h2 := Do(h1, PingWrite);
    RunOne(h1, PingWrite);
    RunConcat(h, [PingDraw], [PingWrite]);
    RunOne(h2, Count);
    RunConcat(h, [PingDraw] + [PingWrite], [Count]);
    assert [PingDraw] + [PingWrite] + [Count] == [PingDraw, PingWrite, Count];
    t := Do(h2, Count);
  }

  lemma CutRun(h: Half)
    requires h.me.pulse == Cutting
    ensures CanRun(h, [CutRecv, CutSend])
    ensures var t := DoRun(h, [CutRecv, CutSend]);
            && t.me == h.me.(pulse := Resting) && t.out == Next(h.out, SetConnected(false))
            && !t.out.snd.connected && !t.inn.rcv.listening && t.inn.rcv.running == h.inn.rcv.running
  {
    var h1 := Do(h, CutRecv);
    RunOne(h, CutRecv);
    RunOne(h1, CutSend);
    RunConcat(h, [CutRecv], [CutSend]);
    assert [CutRecv] + [CutSend] == [CutRecv, CutSend];
  }

  // ---- Notices ----

  /** What `notify` does after `recv` has heard an event from the wire. */
  function HeardRun(h: Half): seq<Act>
    requires h.me.ear.Hearing?
  {
    var evt := h.me.ear.evt;
    if IsHello(evt) then [Connect, ResetCount]
    else if evt == PONG then [HandlePong]
    else if evt == PING then
      [AnswerDraw, if MustWrite(Next(h.out, Draw(Message(PONG, []))), Ptr(|h.out.book.msgs|, 0)) then AnswerWrite
                   else AnswerFail]
    else [Ignore]
  }

  /** Undisturbed, these steps are `notify` in the heartbeat's terms; a ping is answered by one
      `send` on the other direction. */
  lemma HeardRunIsNotify(h: Half)
    requires Reachable(h.out) && h.me.ear.Hearing? && CLIENT_HELLO <= h.me.ear.evt <= MSG_DATA
    requires 0 <= h.me.pending < H.SIZE_T
    ensures CanRun(h, HeardRun(h)) && Legal(h.out, SendRun(h.out, Message(PONG, [])))
    ensures var t, evt := DoRun(h, HeardRun(h)), h.me.ear.evt;
            && BeatOf(t) == H.Notify(BeatOf(h), evt) && t.me.ear == Ready && t.me.pulse == h.me.pulse && t.inn == h.inn
            && t.out == if IsHello(evt) then Next(h.out, SetConnected(true))
                        else if evt == PING then Exec(h.out, SendRun(h.out, Message(PONG, [])))
                        else h.out
  {
    hide Next, Enabled, H.Wrap, Reachable, CanRun, DoRun, MustWrite, Legal, Exec, SendRun, ViewOf, EndsOf;
    hide Accepts, Offered;
    var evt := h.me.ear.evt;
    SendRefines(h.out, Message(PONG, []));
    if IsHello(evt) {
      HelloRun(h);
    } else if evt == PONG {
      RunOne(h, HandlePong);
    } else if evt == PING {
      PongRun(h);
    } else {
      RunOne(h, Ignore);
    }
  }

  lemma HelloRun(h: Half)
    requires h.me.ear.Hearing? && IsHello(h.me.ear.evt)
    ensures CanRun(h, [Connect, ResetCount])
    ensures DoRun(h, [Connect, ResetCount])
            == h.(out := Next(h.out, SetConnected(true)),
                  me := h.me.(ear := Ready, pending := 0, base := h.me.counted - h.me.handled))
    ensures Next(h.out, SetConnected(true)).snd.connected
  {
    RunOne(h, Connect);
    RunOne(Do(h, Connect), ResetCount);
    RunConcat(h, [Connect], [ResetCount]);
    assert [Connect] + [ResetCount] == [Connect, ResetCount];
  }

  lemma PongRun(h: Half)
    requires Reachable(h.out) && h.me.ear == Hearing(PING)
    ensures CanRun(h, HeardRun(h)) && Legal(h.out, SendRun(h.out, Message(PONG, [])))
    ensures var out := Exec(h.out, SendRun(h.out, Message(PONG, [])));
            && DoRun(h, HeardRun(h)) == h.(out := out, me := h.me.(ear := Ready))
            && out.snd.connected == h.out.snd.connected
  {
    hide Next, Enabled, Reachable, CanRun, DoRun, MustWrite, Legal, Exec, ViewOf, EndsOf, Accepts, Offered;
    var m, j := Message(PONG, []), |h.out.book.msgs|;
    DrawControl(h.out, m);
    SendRefines(h.out, m);
    RunOne(h, AnswerDraw);
    var h1 := Do(h, AnswerDraw);
    OneStep(h.out, Draw(m));
    DrawKeepsFlag(h.out, m);
    if MustWrite(h1.out, Ptr(j, 0)) {
      RunOne(h1, AnswerWrite);
      RunConcat(h, [AnswerDraw], [AnswerWrite]);
      assert [AnswerDraw] + [AnswerWrite] == [AnswerDraw, AnswerWrite];
      OneStep(h1.out, Control(j));
      ExecConcat(h.out, [Draw(m)], [Control(j)]);
      FlagKept(h1.out, j);
    } else {
      RunOne(h1, AnswerFail);
      RunConcat(h, [AnswerDraw], [AnswerFail]);
      assert [AnswerDraw] + [AnswerFail] == [AnswerDraw, AnswerFail];
      assert [Draw(m)] + [] == [Draw(m)];
    }
  }

  lemma DrawKeepsFlag(s: State, m: Message)
    requires IsMessage(m)
    ensures Enabled(s, Draw(m)) && Next(s, Draw(m)).snd.connected == s.snd.connected
  {
  }

  // ---- The object ----

  /** The object is where its process is: flags, counter, picker, and the mailbox it writes to. */
  ghost predicate Beats(c: IpcShmChannel, h: Half)
    reads c, c.Outbox(), c.Inbox(), c.heap
  {
    && c.Valid() && c.running == h.out.snd.running
    && c.sendConnected == h.out.snd.connected && c.recvConnected == h.inn.rcv.listening
    && c.pendPong == h.me.pending && 0 <= h.me.pending < H.SIZE_T && c.msgSeqPicker == Picker(h.out)
    && (c.sendChannel == null <==> h.out.snd.link == Detached)
    && (c.sendChannel != null ==> c.sendChannel.Abs() == Target(h.out))
  }

  /** What a `send` leaves of the direction, in the object's terms. */
  lemma AfterSend(s: State, evt: int)
    requires Reachable(s) && CLIENT_HELLO <= evt <= PONG
    ensures Legal(s, SendRun(s, Message(evt, [])))
    ensures var t, p := Exec(s, SendRun(s, Message(evt, []))), ControlPacket(evt, Picker(s));
            && t.snd.running == s.snd.running && Picker(t) == Int64(Picker(s) + 1)
            && t.snd.link == s.snd.link && t.snd.connected == s.snd.connected
            && (s.snd.link != Detached ==> Target(t) == Offer(s.snd.connected, s.snd.running, Target(s), p))
  {
    hide Reachable, Legal, Exec, SendRun, Int64, WritePacket, Accepts;
    SendRefines(s, Message(evt, []));
  }

  lemma AfterFlag(s: State, up: bool)
    ensures Enabled(s, SetConnected(up))
    ensures var t := Next(s, SetConnected(up));
            && t.snd.running == s.snd.running && Picker(t) == Picker(s)
            && t.snd.link == s.snd.link && t.snd.connected == up && Target(t) == Target(s)
  {
  }

  /** Whether the ping fits is what the object finds. */
  lemma FitsIffAccepted(h: Half)
    requires Reachable(h.out)
    ensures PingFits(h) <==>
              h.out.snd.link != Detached
              && Accepts(h.out.snd.connected, h.out.snd.running, Target(h.out), ControlPacket(PING, Picker(h.out)))
  {
    hide Reachable, Accepts, Int64;
    DrawControl(h.out, Message(PING, []));
  }

  /** A call of the object's `HeartBeat` is an undisturbed round of the joint machine. */
  method HeartBeatRound(c: IpcShmChannel, ghost h: Half) returns (ghost t: Half)
    requires Beats(c, h) && Reachable(h.out) && h.me.pulse == Armed
    modifies c`msgSeqPicker, c`sendConnected, c`recvConnected, c`pendPong, c.Outbox()
    ensures CanRun(h, PingRun(h)) && t == DoRun(h, PingRun(h)) && Beats(c, t)
  {
    hide Reachable, CanRun, DoRun, PingRun, PingFits, Legal, Exec, SendRun, Next, Enabled;
    hide Picker, Int64, Offer, Accepts, Target, IpcShmChannel.Owns, H.Wrap;
    PingRunIsPing(h);
    FitsIffAccepted(h);
    AfterSend(h.out, PING);
    AfterFlag(AfterPing(h), false);
    t := DoRun(h, PingRun(h));
    c.HeartBeat();
  }

  /** A call of the object's `Notify` is the notice that the joint machine hears. */
  method HearNotice(c: IpcShmChannel, evt: int, ghost h: Half) returns (ghost t: Half)
    requires Beats(c, h) && Reachable(h.out)
    requires h.me.ear == Hearing(evt) && CLIENT_HELLO <= evt <= MSG_DATA
    modifies c`msgSeqPicker, c`sendConnected, c`recvConnected, c`pendPong, c.Outbox()
    ensures CanRun(h, HeardRun(h)) && t == DoRun(h, HeardRun(h)) && Beats(c, t)
  {
    hide Reachable, CanRun, DoRun, HeardRun, Legal, Exec, SendRun, Next, Enabled;
    hide Picker, Int64, Offer, Target, IpcShmChannel.Owns, H.Wrap;
    HeardRunIsNotify(h);
    AfterSend(h.out, PONG);
    AfterFlag(h.out, true);
    t := DoRun(h, HeardRun(h));
    c.Notify(evt);
  }

  /** The world after the ping of `PingRun` was written. */
  lemma PingInWorld(w: World, first: bool) returns (v: World)
    requires Possible(w) && HalfOf(w, first).me.pulse == Armed && PingFits(HalfOf(w, first))
    ensures Possible(v) && HalfOf(v, first).me == HalfOf(w, first).me.(pulse := Written)
    ensures |HalfOf(v, first).out.book.msgs| == |HalfOf(w, first).out.book.msgs| + 1
  {
    hide Possible, Reachable, MustWrite, HalfInv, Enabled, ViewOf, EndsOf, Accepts;
    PossibleInv(w);
    var h := HalfOf(w, first);
    DrawControl(h.out, Message(PING, []));
    v := TakeTurn(w, Turn(first, PingDraw));
    v := TakeTurn(v, Turn(first, PingWrite));
  }

  /** In every joint run, when the armed heartbeat of the object finds room for its ping, the call
      drops both flags exactly when the unanswered pings exceed those at the last reset by more
      than 3 or are fewer; otherwise it leaves both as they are. */
  method HeartBeatInWorld(c: IpcShmChannel, ghost w: World, first: bool) returns (ghost v: World)
    requires Possible(w) && Beats(c, HalfOf(w, first))
    requires HalfOf(w, first).me.pulse == Armed && PingFits(HalfOf(w, first))
    requires |HalfOf(w, first).out.book.msgs| < 0x1_0000_0000
    modifies c`msgSeqPicker, c`sendConnected, c`recvConnected, c`pendPong, c.Outbox()
    ensures Possible(v) && Beats(c, HalfOf(v, first))
    ensures var me := HalfOf(w, first).me;
            var cut := Unanswered(me) - me.base > H.MAX_FAILED || Unanswered(me) < me.base;
            && c.sendConnected == (!cut && old(c.sendConnected)) && c.recvConnected == (!cut && old(c.recvConnected))
  {
    hide Possible, Reachable, HalfInv, Beats, PingFits, Legal, Exec, SendRun, Next, Enabled, CanRun, DoRun;
    ghost var h := HalfOf(w, first);
    PossibleInv(w);
    BeatsFlags(c, h);
    ghost var u := PingInWorld(w, first);
    CutsIff(u, first);
    ghost var t := HeartBeatRound(c, h);
    PingRunIsPing(h);
    RunIsPossible(w, first, PingRun(h));
    BeatsFlags(c, t);
    v := With(w, first, t);
  }

  lemma BeatsFlags(c: IpcShmChannel, h: Half)
    requires Beats(c, h)
    ensures c.sendConnected == BeatOf(h).sendUp && c.recvConnected == BeatOf(h).recvUp
    ensures c.pendPong == h.me.pending && 0 <= h.me.pending < H.SIZE_T
  {
  }
}
