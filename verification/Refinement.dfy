/** Runs of the protocol that match the calls of `IpcShmChannel`, and the data that the sending
    process works on: packets and local variables, without pointers and history. `Endpoints`
    connects both to the objects. */
module Refinement {
  import opened Wire
  import opened Chunking
  import opened Mailbox
  import opened Reassembly
  import opened Protocol
  import opened Conservation
  import opened Sequencing
  import opened Loss
  import opened Shutdown
  import opened Transfer
  import opened Delivery
  import opened Reachability
  import opened Theorems

  // ---- The sending process ----

  /** A call of `post` or `send`: its number, its message, and the next packet to release. */
  datatype Call = Call(msgSeq: int, m: Message, next: nat)

  /** Where `send_loop` stands, with its local variables. */
  datatype Stage = Free | Holding(packet: Packet) | Done | Failed(packet: Packet) | Ending | Mapped

  /** The fields and local variables of the sending side. */
  datatype View = View(queue: seq<Packet>, picker: int, connected: bool, running: bool,
                       stage: Stage, calls: seq<Call>, dip: Dip)

  function PacketsAt(s: State, ps: seq<Ptr>): seq<Packet> {
    seq(|ps|, i requires 0 <= i < |ps| => Deref(s, ps[i]))
  }

  /** The value of `msg_seq_picker_`. */
  function Picker(s: State): int { SeqNo(s, |s.book.msgs|) }

  function StageOf(s: State): Stage {
    match s.snd.hand
    case Idle => Free
    case Popped(p) => Holding(Deref(s, p))
    case Tried(p, ok) => if ok then Done else Failed(Deref(s, p))
    case Leaving => Ending
    case Opening => Mapped
  }

  function CallAt(s: State, j: nat): Call
    requires j < |s.book.msgs|
  {
    Call(SeqNo(s, j), s.book.msgs[j], if j < |s.book.sent| then s.book.sent[j] else 0)
  }

  function CallsOf(s: State): seq<Call> {
    seq(|s.book.msgs|, j requires 0 <= j < |s.book.msgs| => CallAt(s, j))
  }

  function ViewOf(s: State): View {
    View(PacketsAt(s, s.snd.queue), Picker(s), s.snd.connected, s.snd.running, StageOf(s), CallsOf(s), s.snd.dip)
  }

  /** The call, or the send loop, may have ended its wait while the flag was down. */
  predicate SlipsCall(v: View, j: nat) { v.dip.Dip? && j < v.dip.draws }

  predicate SlipsLoop(v: View) { v.dip.Dip? && v.dip.held }

  function Risen(v: View): View {
    v.(connected := true, dip := if v.connected then v.dip else Dip(|v.calls|, v.stage.Holding?))
  }

  predicate CanRelease(v: View, j: nat) {
    j < |v.calls| && v.calls[j].next < ChunkCount(|v.calls[j].m.data|)
  }

  function Released(v: View, j: nat): Packet
    requires CanRelease(v, j)
  {
    Chunk(v.calls[j].msgSeq, v.calls[j].m, v.calls[j].next)
  }

  /** What a step does to the data of the sending process. */
  function NextView(v: View, a: Action): View {
    match a
    case Draw(m) => v.(picker := Int64(v.picker + 1), calls := v.calls + [Call(v.picker, m, 0)])
    case Push(j) =>
      if !CanRelease(v, j) then v
      else v.(queue := v.queue + [Released(v, j)], calls := v.calls[j := v.calls[j].(next := v.calls[j].next + 1)])
    case Control(j) =>
      if !CanRelease(v, j) then v
      else v.(calls := v.calls[j := v.calls[j].(next := v.calls[j].next + 1)], dip := NoDip)
    case Pop =>
      if v.queue == [] then v
      else v.(stage := Holding(v.queue[0]), queue := v.queue[1..],
              dip := Unheld(v.dip))
    case SendOk => v.(stage := Done, dip := NoDip)
    case SendFail => if v.stage.Holding? then v.(stage := Failed(v.stage.packet)) else v
    case Retry => v.(stage := Free, queue := v.queue + if v.stage.Failed? then [v.stage.packet] else [])
    case Drop => v.(stage := Free)
    case Break => v.(stage := Ending)
    case Reset => v.(stage := Free)
    case Attach => v.(stage := Mapped)
    case Begin => Risen(v).(stage := Free)
    case SetConnected(b) => if b then Risen(v) else v.(connected := false)
    case Halt => v.(running := false)
    case Clear => v.(queue := [])
    case _ => v
  }

  /** The sending process needs its own data only: what a step of the protocol does to it does
      not depend on anything else. */
  lemma ViewNext(s: State, a: Action)
    requires Inv(s) && Enabled(s, a)
    ensures ViewOf(Next(s, a)) == NextView(ViewOf(s), a)
  {
    hide Inv, Next, Enabled, ViewOf, NextView;
    match a
    case Draw(m) => ViewDraw(s, m);
    case Push(j) => ViewPush(s, j);
    case Control(j) => ViewControl(s, j);
    case _ => if OnQueue(a) { ViewQueue(s, a); } else { ViewOther(s, a); }
  }

  /** The steps that move packets between the queue and the send loop's hand. */
  predicate OnQueue(a: Action) { a.Pop? || a.SendOk? || a.SendFail? || a.Retry? || a.Drop? || a.Clear? }

  lemma ViewDraw(s: State, m: Message)
    requires Inv(s) && Enabled(s, Draw(m))
    ensures ViewOf(Next(s, Draw(m))) == NextView(ViewOf(s), Draw(m))
  {
    hide Deref, Int64, Inv;
    var t := Next(s, Draw(m));
    QueueKnown(s);
    OldPackets(s, t, s.snd.queue);
    OldPackets(s, t, InHand(s));
    StageKept(s, t);
    NextSeqNo(s.first + |s.book.msgs|);
    forall j | 0 <= j < |t.book.msgs|
      ensures CallAt(t, j) == (CallsOf(s) + [Call(Picker(s), m, 0)])[j]
    {
    }
  }

  lemma StageKept(s: State, t: State)
    requires s.snd == t.snd && PacketsAt(t, InHand(s)) == PacketsAt(s, InHand(s))
    ensures StageOf(t) == StageOf(s)
  {
    hide Deref;
    if InHand(s) != [] { assert PacketsAt(t, InHand(s))[0] == PacketsAt(s, InHand(s))[0]; }
  }

  lemma ViewPush(s: State, j: nat)
    requires Inv(s) && Enabled(s, Push(j))
    ensures ViewOf(Next(s, Push(j))) == NextView(ViewOf(s), Push(j))
  {
    hide Chunk, Int64, Inv, ChunkCount;
    var t := Next(s, Push(j));
    QueueKnown(s);
    SamePackets(s, t);
    PacketsConcat(s, s.snd.queue, [Ptr(j, s.book.sent[j])]);
    assert PacketsAt(s, [Ptr(j, s.book.sent[j])]) == [Released(ViewOf(s), j)];
    CallsAfter(s, t, j);
  }

  lemma ViewControl(s: State, j: nat)
    requires Inv(s) && Enabled(s, Control(j))
    ensures ViewOf(Next(s, Control(j))) == NextView(ViewOf(s), Control(j))
  {
    hide Deref, Int64, Inv, CanWrite, WritePacket, IsMessage, IsData;
    var t := Next(s, Control(j));
    QueueKnown(s);
    SamePackets(s, t);
    CallsAfter(s, t, j);
  }

  lemma CallsAfter(s: State, t: State, j: nat)
    requires t.first == s.first && t.book.msgs == s.book.msgs && j < |s.book.sent| == |s.book.msgs|
    requires t.book.sent == s.book.sent[j := s.book.sent[j] + 1]
    ensures CallsOf(t) == CallsOf(s)[j := CallsOf(s)[j].(next := s.book.sent[j] + 1)]
  {
    hide Int64;
  }

  lemma ViewQueue(s: State, a: Action)
    requires Enabled(s, a) && OnQueue(a)
    ensures ViewOf(Next(s, a)) == NextView(ViewOf(s), a)
  {
    hide Deref, Int64, CallsOf, Next, Passes;
    var t := Next(s, a);
    QueueSteps(s, a);
    SamePackets(s, t);
    PacketsConcat(s, s.snd.queue, InHand(s));
    CallsKept(s, t);
  }

  /** What these steps do to the sender. */
  lemma QueueSteps(s: State, a: Action)
    requires Enabled(s, a) && OnQueue(a)
    ensures Next(s, a).first == s.first && Next(s, a).book == s.book
    ensures var p := if s.snd.hand.Popped? || s.snd.hand.Tried? then s.snd.hand.p else Ptr(0, 0);
            Next(s, a).snd ==
              match a
              case Pop => s.snd.(hand := Popped(s.snd.queue[0]), queue := s.snd.queue[1..], dip := Unheld(s.snd.dip))
              case SendOk => s.snd.(hand := Tried(p, true), dip := NoDip)
              case SendFail => s.snd.(hand := Tried(p, false))
              case Retry => s.snd.(hand := Idle, queue := s.snd.queue + InHand(s))
              case Drop => s.snd.(hand := Idle)
              case _ => s.snd.(queue := [])
  {
    hide Deref, WritePacket, LosePackets;
    assert s.snd.queue + [] == s.snd.queue;
  }

  lemma ViewOther(s: State, a: Action)
    requires Enabled(s, a) && !OnQueue(a) && !a.Draw? && !a.Push? && !a.Control?
    ensures ViewOf(Next(s, a)) == NextView(ViewOf(s), a)
  {
    hide Deref, Int64, Feed, ReadFrame, Unread;
    var t := Next(s, a);
    SamePackets(s, t);
    CallsKept(s, t);
  }

  lemma CallsKept(s: State, t: State)
    requires t.first == s.first && t.book == s.book
    ensures CallsOf(t) == CallsOf(s)
  {
    hide Int64;
  }

  lemma SamePackets(s: State, t: State)
    requires s.first == t.first && s.book.msgs == t.book.msgs
    ensures forall p :: Deref(t, p) == Deref(s, p)
    ensures forall ps :: PacketsAt(t, ps) == PacketsAt(s, ps)
  {
    assert forall p :: Deref(t, p) == Deref(s, p);
  }

  lemma PacketsConcat(s: State, ps: seq<Ptr>, qs: seq<Ptr>)
    ensures PacketsAt(s, ps + qs) == PacketsAt(s, ps) + PacketsAt(s, qs)
    ensures ps != [] ==> PacketsAt(s, ps)[0] == Deref(s, ps[0]) && PacketsAt(s, ps[1..]) == PacketsAt(s, ps)[1..]
  {
    hide Deref;
  }

  lemma QueueKnown(s: State)
    requires Inv(s)
    ensures |s.book.sent| == |s.book.msgs|
    ensures forall p :: p in s.snd.queue || p in InHand(s) ==> p.msg < |s.book.msgs|
    ensures s.snd.hand.Popped? || (s.snd.hand.Tried? && !s.snd.hand.ok) ==> s.snd.hand.p.msg < |s.book.msgs|
  {
    assert InHand(s) != [] ==> InHand(s)[0] == s.snd.hand.p;
  }

  lemma OldPackets(s: State, t: State, ps: seq<Ptr>)
    requires s.first == t.first && s.book.msgs <= t.book.msgs
    requires forall p :: p in ps ==> p.msg < |s.book.msgs|
    ensures PacketsAt(t, ps) == PacketsAt(s, ps)
  {
    hide Chunk;
    forall i | 0 <= i < |ps| ensures Deref(t, ps[i]) == Deref(s, ps[i]) {
      assert ps[i] in ps;
    }
  }

  lemma NextSeqNo(x: int)
    ensures Int64(Int64(x) + 1) == Int64(x + 1)
  {
    var q := (x + 0x8000_0000_0000_0000) / 0x1_0000_0000_0000_0000;
    assert Int64(x) == x - q * 0x1_0000_0000_0000_0000;
    Int64Shift(x + 1, -q);
  }

  lemma Int64Shift(x: int, m: int)
    ensures Int64(x + m * 0x1_0000_0000_0000_0000) == Int64(x)
  {
    var u := x + 0x8000_0000_0000_0000;
    assert u + m * 0x1_0000_0000_0000_0000
        == (u / 0x1_0000_0000_0000_0000 + m) * 0x1_0000_0000_0000_0000 + u % 0x1_0000_0000_0000_0000;
  }

  // ---- Mailboxes and receiver ----

  /** The mailboxes and the sender's link to them. */
  datatype Boxes = Boxes(link: Link, live: Slot, orphan: Slot)

  /** The receiving process. */
  datatype RecvView = RecvView(listening: bool, running: bool, rx: RecvMap, outcomes: seq<Outcome>)

  datatype Ends = Ends(boxes: Boxes, recv: RecvView)

  function EndsOf(s: State): Ends {
    Ends(Boxes(s.snd.link, s.mail.live, s.mail.orphan),
         RecvView(s.rcv.listening, s.rcv.running, s.rcv.rx, s.rcv.outcomes))
  }

  function TargetOf(b: Boxes): Slot { if b.link == OnLive then b.live else b.orphan }

  /** The locked section of `send_packet`, once its guards have passed. */
  function Committed(b: Boxes, p: Packet): Boxes
    requires |p.data| <= CAP
  {
    match b.link
    case Detached => b
    case OnLive => b.(live := WritePacket(b.live, p))
    case OnOrphan => b.(orphan := WritePacket(b.orphan, p))
  }

  /** `send_packet` when no flag changes during the call. */
  function Offered(connected: bool, running: bool, b: Boxes, p: Packet): Boxes {
    if b.link != Detached && Accepts(connected, running, TargetOf(b), p) then Committed(b, p) else b
  }

  function Claimed(b: Boxes): Boxes {
    if b.link == OnLive then b.(live := b.live.(senderWorking := true))
    else b.(orphan := b.orphan.(senderWorking := true))
  }

  /** A new mailbox; a sender on the old one stays there. */
  function Renewed(b: Boxes): Boxes {
    Boxes(if b.link == OnLive then OnOrphan else b.link, NewSlot().(recverWorking := true),
          if b.link == OnLive then b.live else b.orphan)
  }

  /** The mailbox in use has been read. */
  function Emptied(b: Boxes): Boxes { b.(live := b.live.(newMsg := false)) }

  /** `recv` in terms of what the receiver sees. */
  function Received(recv: RecvView, f: Frame, working: bool): RecvView {
    var (rx, o) := Feed(recv.rx, f);
    RecvView(o.Notified? ==> working, recv.running, rx, recv.outcomes + [o])
  }

  /** What a step does to the mailboxes and the receiver. */
  function NextEnds(v: View, e: Ends, a: Action): Ends {
    var b := e.boxes;
    match a
    case Control(j) =>
      if CanRelease(v, j) && |Released(v, j).data| <= CAP then e.(boxes := Committed(b, Released(v, j))) else e
    case SendOk =>
      if v.stage.Holding? && |v.stage.packet.data| <= CAP then e.(boxes := Committed(b, v.stage.packet)) else e
    case Reset => e.(boxes := b.(link := Detached))
    case Attach => e.(boxes := b.(link := OnLive))
    case Begin => e.(boxes := Claimed(b))
    case Listen => Ends(Renewed(b), e.recv.(listening := true))
    case Recv =>
      if b.live.newMsg then
        Ends(Emptied(b), Received(e.recv, ReadFrame(b.live), b.live.senderWorking))
      else e
    case Quit => e.(recv := e.recv.(listening := false))
    case RecverStop =>
      Ends(b.(live := b.live.(recverWorking := false)), e.recv.(listening := false, running := false))
    case _ => e
  }

  /** The conditions of a step that the two processes test. */
  predicate Seen(v: View, e: Ends, a: Action) {
    match a
    case Draw(m) => IsMessage(m)
    case Push(j) => CanRelease(v, j) && IsData(v.calls[j].m)
    case Control(j) =>
      && CanRelease(v, j) && IsControl(v.calls[j].m)
      && e.boxes.link != Detached
      && Admits(SlipsCall(v, j), v.connected, v.running, TargetOf(e.boxes), Released(v, j))
    case Pop => v.stage == Free && e.boxes.link != Detached && v.connected && v.queue != []
    case SendOk =>
      && v.stage.Holding? && e.boxes.link != Detached
      && Admits(SlipsLoop(v), v.connected, v.running, TargetOf(e.boxes), v.stage.packet)
    case SendFail =>
      && v.stage.Holding?
      && (e.boxes.link == Detached || !Accepts(v.connected, v.running, TargetOf(e.boxes), v.stage.packet))
    case Retry => (v.stage == Done || v.stage.Failed?) && v.connected
    case Drop => v.stage.Failed? && v.connected && !v.running
    case Break => e.boxes.link != Detached && !v.connected && (v.stage == Free || v.stage == Done || v.stage.Failed?)
    case Reset => v.stage == Ending
    case Attach => v.running && v.stage == Free && e.boxes.link == Detached && e.boxes.live.recverWorking
    case Begin => v.stage == Mapped && e.boxes.link != Detached
    case Listen => !e.recv.listening && e.recv.running
    case Recv => e.recv.listening && e.boxes.live.newMsg
    case Quit => e.recv.listening
    case Clear => !v.running
    case _ => true
  }

  /** A step is possible exactly when its conditions hold in what the processes see; only whether
      a mailbox's name can still be opened is not among that. */
  lemma EnabledIffSeen(s: State, a: Action)
    requires Inv(s)
    ensures Enabled(s, a) <==> Seen(ViewOf(s), EndsOf(s), a) && (a.Attach? ==> !s.mail.liveOpened)
  {
    hide Inv, Enabled, Seen, ViewOf, EndsOf;
    match a
    case Push(j) => PushSeen(s, j);
    case Control(j) => ControlSeen(s, j);
    case SendOk => SendSeen(s);
    case SendFail => SendSeen(s);
    case _ => RestSeen(s, a);
  }

  lemma PushSeen(s: State, j: nat)
    requires Inv(s)
    ensures Enabled(s, Push(j)) <==> Seen(ViewOf(s), EndsOf(s), Push(j))
  {
    hide Inv, Int64, PacketsAt, StageOf;
    QueueKnown(s);
    if j < |s.book.msgs| { CallIs(s, j); }
  }

  lemma SendSeen(s: State)
    requires Inv(s)
    ensures Enabled(s, SendOk) <==> Seen(ViewOf(s), EndsOf(s), SendOk)
    ensures Enabled(s, SendFail) <==> Seen(ViewOf(s), EndsOf(s), SendFail)
  {
    hide Inv, Deref, Int64, PacketsAt, CallsOf, CanSend, MustWrite, Accepts, Admits;
    if s.snd.hand.Popped? { WriteSeen(s, s.snd.hand.p); }
  }

  lemma RestSeen(s: State, a: Action)
    requires Inv(s) && !a.Push? && !a.Control? && !a.SendOk? && !a.SendFail?
    ensures Enabled(s, a) <==> Seen(ViewOf(s), EndsOf(s), a) && (a.Attach? ==> !s.mail.liveOpened)
  {
    hide Inv, Deref, Int64, CallsOf, IsMessage;
    HandAttached(s);
  }

  lemma HandAttached(s: State)
    requires Inv(s)
    ensures s.snd.link == Detached ==> s.snd.hand == Idle
  {
  }

  lemma WriteSeen(s: State, p: Ptr)
    ensures CanWrite(s, p) <==>
              s.snd.link != Detached
              && Admits(SlipsCall(ViewOf(s), p.msg), s.snd.connected, s.snd.running, Target(s), Deref(s, p))
    ensures CanSend(s, p) <==>
              s.snd.link != Detached
              && Admits(SlipsLoop(ViewOf(s)), s.snd.connected, s.snd.running, Target(s), Deref(s, p))
    ensures MustWrite(s, p) <==>
              s.snd.link != Detached && Accepts(s.snd.connected, s.snd.running, Target(s), Deref(s, p))
    ensures Target(s) == TargetOf(EndsOf(s).boxes)
  {
  }

  lemma MustMeansCan(s: State, p: Ptr)
    ensures MustWrite(s, p) ==> CanWrite(s, p) && CanSend(s, p)
  {
  }

  lemma ControlSeen(s: State, j: nat)
    requires Inv(s)
    ensures Enabled(s, Control(j)) <==> Seen(ViewOf(s), EndsOf(s), Control(j))
    ensures Enabled(s, Control(j)) ==> CanRelease(ViewOf(s), j) && Released(ViewOf(s), j) == Deref(s, Ptr(j, 0))
  {
    hide Inv, Int64, Admits, Chunk;
    QueueKnown(s);
    if j < |s.book.msgs| { CallIs(s, j); }
    WriteSeen(s, Ptr(j, 0));
  }

  lemma EndsNext(s: State, a: Action)
    requires Inv(s) && Enabled(s, a)
    ensures EndsOf(Next(s, a)) == NextEnds(ViewOf(s), EndsOf(s), a)
  {
    hide Inv, Deref, Chunk, Int64, WritePacket, ReadFrame, Feed;
    if a.Control? { ControlSeen(s, a.j); }
  }

  // ---- Whole calls as runs ----

  function Pushes(j: nat, n: nat): seq<Action> { seq(n, _ => Push(j)) }

  function PostRun(s: State, m: Message): seq<Action> { [Draw(m)] + Pushes(|s.book.msgs|, ChunkCount(|m.data|)) }

  function ChunkRange(msgSeq: int, m: Message, from: nat, n: nat): seq<Packet>
    requires from + n <= ChunkCount(|m.data|)
  {
    seq(n, i requires 0 <= i < n => Chunk(msgSeq, m, from + i))
  }

  /** The steps of a `post` are a draw and one push for every packet: they leave exactly the
      packets of the message at the back of the queue, and nothing else changes. */
  lemma PostRefines(s: State, m: Message)
    requires Reachable(s) && IsData(m)
    ensures Legal(s, PostRun(s, m))
    ensures var t, v := Exec(s, PostRun(s, m)), ViewOf(s);
            && Reachable(t) && EndsOf(t) == EndsOf(s)
            && ViewOf(t) == v.(queue := v.queue + Chunks(v.picker, m), picker := Int64(v.picker + 1),
                               calls := v.calls + [Call(v.picker, m, ChunkCount(|m.data|))])
  {
    hide Inv, Next, Enabled, ViewOf, Chunk, Int64, Legal, Exec, Reachable;
    var j, n := |s.book.msgs|, ChunkCount(|m.data|);
    var s1 := DrawStep(s, m);
    PushMany(s1, j, n);
    OneStep(s, Draw(m));
    ExecConcat(s, [Draw(m)], Pushes(j, n));
    ReachableOn(s, PostRun(s, m));
    var v := ViewOf(s);
    assert ChunkRange(v.picker, m, 0, n) == Chunks(v.picker, m);
    assert (v.calls + [Call(v.picker, m, 0)])[j := Call(v.picker, m, n)] == v.calls + [Call(v.picker, m, n)];
  }

  lemma DrawStep(s: State, m: Message) returns (t: State)
    requires Reachable(s) && IsData(m)
    ensures Enabled(s, Draw(m)) && t == Next(s, Draw(m)) && Inv(t)
    ensures t.snd == s.snd && t.mail == s.mail && t.rcv == s.rcv && t.gone == s.gone
    ensures t.book.msgs == s.book.msgs + [m] && |t.book.sent| == |t.book.msgs| && t.book.sent[|s.book.msgs|] == 0
    ensures var v := ViewOf(s);
            && |v.calls| == |s.book.msgs| && v.picker == SeqNo(t, |s.book.msgs|)
            && ViewOf(t) == v.(picker := Int64(v.picker + 1), calls := v.calls + [Call(v.picker, m, 0)])
  {
    hide Inv;
    ReachableInv(s);
    InvNext(s, Draw(m));
    ViewNext(s, Draw(m));
    QueueKnown(s);
    t := Next(s, Draw(m));
  }

  lemma {:induction false} PushMany(s: State, j: nat, n: nat)
    requires Inv(s) && j < |s.book.msgs| && j < |s.book.sent| && IsData(s.book.msgs[j])
    requires s.book.sent[j] + n <= ChunkCount(|s.book.msgs[j].data|)
    ensures Legal(s, Pushes(j, n))
    ensures var t, v := Exec(s, Pushes(j, n)), ViewOf(s);
            && t.snd.link == s.snd.link && t.mail == s.mail && t.rcv == s.rcv && t.gone == s.gone
            && t.book.msgs == s.book.msgs && j < |v.calls|
            && ViewOf(t) == v.(queue := v.queue + ChunkRange(SeqNo(s, j), s.book.msgs[j], s.book.sent[j], n),
                               calls := v.calls[j := Call(SeqNo(s, j), s.book.msgs[j], s.book.sent[j] + n)])
    decreases n
  {
    hide Inv, Next, ChunkCount, ViewOf, NextView, Int64, Chunk;
    CallIs(s, j);
    var from, m := s.book.sent[j], s.book.msgs[j];
    var v := ViewOf(s);
    if n == 0 {
      assert v.queue + ChunkRange(SeqNo(s, j), m, from, 0) == v.queue;
      assert v.calls == v.calls[j := Call(SeqNo(s, j), m, from)];
    } else {
      PushStep(s, j);
      var t := Next(s, Push(j));
      assert Pushes(j, n)[0] == Push(j) && Pushes(j, n)[1..] == Pushes(j, n - 1);
      PushMany(t, j, n - 1);
      assert ChunkRange(SeqNo(s, j), m, from, n)
          == [Chunk(SeqNo(s, j), m, from)] + ChunkRange(SeqNo(s, j), m, from + 1, n - 1);
    }
  }

  lemma CallIs(s: State, j: nat)
    requires j < |s.book.msgs| && j < |s.book.sent|
    ensures j < |ViewOf(s).calls| && ViewOf(s).calls[j] == Call(SeqNo(s, j), s.book.msgs[j], s.book.sent[j])
  {
  }

  lemma PushStep(s: State, j: nat)
    requires Inv(s) && j < |s.book.msgs| && j < |s.book.sent| && IsData(s.book.msgs[j])
    requires s.book.sent[j] < ChunkCount(|s.book.msgs[j].data|)
    ensures Enabled(s, Push(j)) && Inv(Next(s, Push(j)))
    ensures var t, v := Next(s, Push(j)), ViewOf(s);
            && t.book.msgs == s.book.msgs && t.first == s.first && |t.book.sent| == |s.book.sent|
            && t.book.sent[j] == s.book.sent[j] + 1
            && t.snd.link == s.snd.link && t.mail == s.mail && t.rcv == s.rcv && t.gone == s.gone
            && j < |v.calls|
            && ViewOf(t) == v.(queue := v.queue + [Chunk(SeqNo(s, j), s.book.msgs[j], s.book.sent[j])],
                               calls := v.calls[j := Call(SeqNo(s, j), s.book.msgs[j], s.book.sent[j] + 1)])
  {
    hide Inv, ViewOf, Chunk, Int64;
    InvNext(s, Push(j));
    ViewNext(s, Push(j));
    CallIs(s, j);
  }

  /** The steps of a `send`: a draw, and a write if the mailbox accepts it. */
  function SendRun(s: State, m: Message): seq<Action>
    requires IsControl(m)
  {
    var j := |s.book.msgs|;
    [Draw(m)] + if MustWrite(Next(s, Draw(m)), Ptr(j, 0)) then [Control(j)] else []
  }

  /** A `send` offers its packet to the mailbox past the queue. */
  lemma SendRefines(s: State, m: Message)
    requires Reachable(s) && IsControl(m)
    ensures Legal(s, SendRun(s, m)) && Reachable(Exec(s, SendRun(s, m)))
    ensures var t, v, e := Exec(s, SendRun(s, m)), ViewOf(s), EndsOf(s);
            var p := Packet(m.evt, Header(m.evt, 0, 0, 1, v.picker), []);
            var ok := e.boxes.link != Detached && Accepts(v.connected, v.running, TargetOf(e.boxes), p);
            && EndsOf(t) == e.(boxes := Offered(v.connected, v.running, e.boxes, p))
            && |SendRun(s, m)| == (if ok then 2 else 1)
            && ViewOf(t) == v.(picker := Int64(v.picker + 1), dip := if ok then NoDip else v.dip,
                               calls := v.calls + [Call(v.picker, m, if ok then 1 else 0)])
  {
    hide Inv, Next, Enabled, Deref, Legal, Exec, Reachable, ViewOf, EndsOf, Int64, MustWrite;
    var j := |s.book.msgs|;
    DrawControl(s, m);
    var s1 := Next(s, Draw(m));
    OneStep(s, Draw(m));
    ReachableOn(s, [Draw(m)]);
    ReachableInv(s1);
    if MustWrite(s1, Ptr(j, 0)) {
      OneStep(s1, Control(j));
      ExecConcat(s, [Draw(m)], [Control(j)]);
      ViewNext(s1, Control(j));
      EndsNext(s1, Control(j));
      ReachableOn(s1, [Control(j)]);
    } else {
      assert [Draw(m)] + [] == [Draw(m)];
    }
  }

  lemma DrawControl(s: State, m: Message)
    requires Reachable(s) && IsControl(m)
    ensures var t, j, v, e := Next(s, Draw(m)), |s.book.msgs|, ViewOf(s), EndsOf(s);
            var p := Packet(m.evt, Header(m.evt, 0, 0, 1, v.picker), []);
            && Enabled(s, Draw(m)) && EndsOf(t) == e && |v.calls| == j
            && ViewOf(t) == v.(picker := Int64(v.picker + 1), calls := v.calls + [Call(v.picker, m, 0)])
            && Released(ViewOf(t), j) == p
            && (MustWrite(t, Ptr(j, 0)) <==>
                  e.boxes.link != Detached && Accepts(v.connected, v.running, TargetOf(e.boxes), p))
            && (MustWrite(t, Ptr(j, 0)) ==> Enabled(t, Control(j)))
  {
    hide Inv, Admits, Int64, Reachable;
    ReachableInv(s);
    ViewNext(s, Draw(m));
    MustMeansCan(Next(s, Draw(m)), Ptr(|s.book.msgs|, 0));
    QueueKnown(s);
  }

  /** What a round of the send loop decides: the steps of one undisturbed round. */
  function Round(s: State): seq<Action>
    requires s.snd.queue != []
  {
    var ok := MustWrite(s, s.snd.queue[0]);
    [Pop, if ok then SendOk else SendFail, if ok || s.snd.running then Retry else Drop]
  }

  /** A round of the send loop with no other thread in between is a pop, an attempt, and the
      retry's push or its refusal. */
  lemma SendRoundRefines(s: State)
    requires Reachable(s) && s.snd.hand == Idle && s.snd.connected && s.snd.link != Detached && s.snd.queue != []
    ensures Legal(s, Round(s)) && Reachable(Exec(s, Round(s)))
    ensures var t, v, e := Exec(s, Round(s)), ViewOf(s), EndsOf(s);
            var p := v.queue[0];
            var ok := Accepts(v.connected, v.running, TargetOf(e.boxes), p);
            && EndsOf(t) == e.(boxes := Offered(v.connected, v.running, e.boxes, p))
            && ViewOf(t) == v.(queue := v.queue[1..] + (if !ok && v.running then [p] else []),
                               dip := if ok then NoDip else Unheld(v.dip))
  {
    hide Inv, Deref, Legal, Exec, ViewOf, EndsOf, NextView, NextEnds, Int64, Accepts, Offered, Reachable;
    var run := Round(s);
    ReachableInv(s);
    RoundFirst(s);
    var s1 := Next(s, Pop);
    InvNext(s, Pop);
    RoundSecond(s1);
    var s2 := Next(s1, run[1]);
    InvNext(s1, run[1]);
    ViewNext(s2, run[2]);
    EndsNext(s2, run[2]);
    OneStep(s, Pop);
    OneStep(s1, run[1]);
    OneStep(s2, run[2]);
    ExecConcat(s1, [run[1]], [run[2]]);
    ExecConcat(s, [Pop], [run[1]] + [run[2]]);
    assert [Pop] + ([run[1]] + [run[2]]) == run;
    ReachableOn(s, run);
    RoundView(ViewOf(s), EndsOf(s), run[1], run[2]);
  }

  lemma RoundFirst(s: State)
    requires Inv(s) && s.snd.hand == Idle && s.snd.connected && s.snd.link != Detached && s.snd.queue != []
    ensures Enabled(s, Pop)
    ensures var t, v := Next(s, Pop), ViewOf(s);
            && v.queue != [] && v.stage == Free && v.running == s.snd.running
            && ViewOf(t) == NextView(v, Pop) && EndsOf(t) == EndsOf(s)
            && t.snd.hand == Popped(s.snd.queue[0]) && t.snd.connected && t.snd.running == s.snd.running
            && (MustWrite(t, s.snd.queue[0]) <==> MustWrite(s, s.snd.queue[0]))
            && (MustWrite(s, s.snd.queue[0]) <==>
                  Accepts(v.connected, v.running, TargetOf(EndsOf(s).boxes), v.queue[0]))
  {
    hide Inv, Deref, Admits, Int64;
    ViewNext(s, Pop);
    DerefSame(s, Next(s, Pop), s.snd.queue[0]);
  }

  lemma RoundSecond(s: State)
    requires Inv(s) && s.snd.hand.Popped? && s.snd.connected
    ensures var a := if MustWrite(s, s.snd.hand.p) then SendOk else SendFail;
            && Enabled(s, a) && ViewOf(Next(s, a)) == NextView(ViewOf(s), a)
            && EndsOf(Next(s, a)) == NextEnds(ViewOf(s), EndsOf(s), a)
            && Enabled(Next(s, a), if a == SendOk || s.snd.running then Retry else Drop)
  {
    hide Inv, Deref, ViewOf, EndsOf, NextView, NextEnds, WritePacket, Accepts;
    var a := if MustWrite(s, s.snd.hand.p) then SendOk else SendFail;
    MustMeansCan(s, s.snd.hand.p);
    ViewNext(s, a);
    EndsNext(s, a);
  }

  lemma RoundView(v: View, e: Ends, a: Action, last: Action)
    requires v.queue != [] && v.stage == Free
    requires a == if Accepts(v.connected, v.running, TargetOf(e.boxes), v.queue[0]) then SendOk else SendFail
    requires last == if a == SendOk || v.running then Retry else Drop
    ensures var v1, v2 := NextView(v, Pop), NextView(NextView(v, Pop), a);
            && NextView(v2, last) == v.(queue := v.queue[1..] + (if a != SendOk && v.running then [v.queue[0]] else []),
                                        dip := if a == SendOk then NoDip else Unheld(v.dip))
            && NextEnds(v2, NextEnds(v1, e, a), last)
               == e.(boxes := Offered(v.connected, v.running, e.boxes, v.queue[0]))
  {
    hide WritePacket;
    assert v.queue[1..] + [] == v.queue[1..];
  }

  // ---- The receiving process ----

  /** Wherever the protocol can receive, the copy of `recv` stays in its buffer, no buffer's only
      pointer is overwritten, and an error-free outcome follows. */
  lemma RecvRefines(s: State)
    requires Reachable(s) && FewDraws(s) && Enabled(s, Recv)
    ensures var f := ReadFrame(s.mail.live);
            && InBounds(s.rcv.rx, f)
            && !(Allocates(f.header) && f.header.msgSeq in s.rcv.rx)
            && (var o := Feed(s.rcv.rx, f).1;
                o != Fault && (o.Notified? ==> CLIENT_HELLO <= o.evt <= MSG_DATA))
  {
    hide Feed, ReadFrame, InBounds, Inv, Line, FrameAt, FramesAt;
    var t := Next(s, Recv);
    OneStep(s, Recv);
    ReachableOn(s, [Recv]);
    CopyInBounds(s);
    NoBufferLeaks(t);
    ConsumedOneMore(s);
    FaultMeansOutside(s.rcv.rx, ReadFrame(s.mail.live));
    LastOutcomeEvent(s);
    LeakedLast(FramesAt(s, s.rcv.consumed), ReadFrame(s.mail.live));
  }

  lemma LastOutcomeEvent(s: State)
    requires Reachable(s) && FewDraws(s) && Enabled(s, Recv) && Reachable(Next(s, Recv))
    ensures var o := Feed(s.rcv.rx, ReadFrame(s.mail.live)).1;
            o.Notified? ==> CLIENT_HELLO <= o.evt <= MSG_DATA
  {
    hide Inv, Line, Feed, ReadFrame;
    var t := Next(s, Recv);
    Facts(t);
    OutcomesMatch(t);
    Integrity(t, |t.rcv.outcomes| - 1);
    CleanMember(t, t.rcv.consumed, |t.rcv.outcomes| - 1);
  }

  lemma ConsumedOneMore(s: State)
    requires Reachable(s) && Enabled(s, Recv)
    ensures s.rcv.rx == Run(FramesAt(s, s.rcv.consumed))
    ensures FramesAt(Next(s, Recv), Next(s, Recv).rcv.consumed)
            == FramesAt(s, s.rcv.consumed) + [ReadFrame(s.mail.live)]
  {
    hide Feed, ReadFrame, FrameOf, Deref, Line, Run, Outcomes;
    hide Queued, IssuedOnce, Conserved, InOrder, Fifo, Losses, Claims, Working, Counters;
    ReachableInv(s);
    var t := Next(s, Recv);
    FrameAtSame(s, t);
    assert Unread(s) == [s.mail.written[|s.mail.written| - 1]];
  }

  lemma LeakedLast(fs: seq<Frame>, f: Frame)
    requires Leaked(fs + [f]) == 0
    ensures !(Allocates(f.header) && f.header.msgSeq in Run(fs))
  {
    assert (fs + [f])[..|fs|] == fs;
  }

  lemma DerefSame(s: State, t: State, p: Ptr)
    requires s.first == t.first && s.book == t.book
    ensures Deref(s, p) == Deref(t, p)
  {
  }
}
