/** One direction of the channel on the heap: the two objects, the mailboxes that they share and
    the local variables of their threads, following the protocol step by step. */
module Endpoints {
  import opened Wire
  import opened Chunking
  import opened Mailbox
  import opened Reassembly
  import opened Orders
  import opened Protocol
  import opened Transfer
  import opened Delivery
  import opened Reachability
  import opened Theorems
  import opened Posting
  import opened Channel
  import opened Refinement
  import opened Recovery

  /** The calls of `delete[]` among the outcomes. */
  function FreedBy(os: seq<Outcome>): nat {
    if os == [] then 0 else FreedBy(os[..|os| - 1]) + if Frees(os[|os| - 1]) then 1 else 0
  }

  lemma {:induction false} FreedIsFreedBy(fs: seq<Frame>)
    ensures Freed(fs) == FreedBy(Outcomes(fs))
  {
    if fs != [] {
      var front := fs[..|fs| - 1];
      FreedIsFreedBy(front);
      assert Outcomes(fs)[..|fs| - 1] == Outcomes(front);
    }
  }

  /** Each outcome was told to the callback. */
  ghost predicate AllTold(os: seq<Outcome>, ns: seq<Notice>) {
    |os| == |ns| && forall i :: 0 <= i < |ns| ==> Tells(os[i], ns[i])
  }

  lemma OneMoreTold(os: seq<Outcome>, ns: seq<Notice>, o: Outcome, n: Notice)
    requires AllTold(os, ns) && Tells(o, n)
    ensures AllTold(os + [o], ns + [n])
  {
    hide Tells;
  }

  /** What a step leaves to be shown of the objects. */
  lemma Advance(s: State, a: Action)
    requires Reachable(s) && Enabled(s, a)
    ensures Reachable(Next(s, a)) && Seen(ViewOf(s), EndsOf(s), a)
    ensures ViewOf(Next(s, a)) == NextView(ViewOf(s), a)
    ensures EndsOf(Next(s, a)) == NextEnds(ViewOf(s), EndsOf(s), a)
  {
    hide Next, Enabled, Reachable, ViewOf, EndsOf;
    hide Inv, NextView, NextEnds, Seen;
    ReachableInv(s);
    ViewNext(s, a);
    EndsNext(s, a);
    EnabledIffSeen(s, a);
    OneStep(s, a);
    ReachableOn(s, [a]);
  }

  /** What `recv` meets in every reachable state: a copy that stays in its buffer, a new entry that
      overwrites none, and an event from the wire. */
  predicate Orderly(recv: RecvView, f: Frame) {
    && InBounds(recv.rx, f) && !(Allocates(f.header) && f.header.msgSeq in recv.rx)
    && var o := Feed(recv.rx, f).1;
       && (o.Notified? ==> o.evt != STOP_LISTEN)
       && FreedBy(recv.outcomes + [o]) == FreedBy(recv.outcomes) + if Frees(o) then 1 else 0
  }

  class Direction {
    const sender: IpcShmChannel
    const recver: IpcShmChannel
    var stage: Stage         // locals of `send_loop`
    var calls: seq<Call>     // locals of the calls of `post` and `send`, one per number drawn
    var told: seq<Notice>    // what the calls of `recv` told the callback
    ghost var dip: Dip       // which calls may have ended a wait while the flag was down
    ghost var s: State

    /** The mailboxes and buffers of the two processes. */
    ghost function Memory(): set<object>
      reads sender`sendChannel, sender`recvChannel, sender`heap, recver`sendChannel, recver`recvChannel, recver`heap
    {
      sender.Outbox() + sender.Inbox() + recver.Outbox() + recver.Inbox() + sender.heap + recver.heap
    }

    /** The other direction, whatever it does, uses mailboxes and buffers of its own. */
    ghost predicate Apart()
      reads sender`sendChannel, sender`recvChannel, sender`heap, recver`sendChannel, recver`recvChannel, recver`heap
    {
      var mine, other := sender.Outbox() + recver.Inbox(), sender.Inbox() + recver.Outbox();
      && sender.heap !! recver.heap
      && mine !! other && mine + other !! sender.heap + recver.heap
      && (sender.sendChannel != recver.recvChannel ==> sender.Outbox() !! recver.Inbox())
      && (sender.recvChannel != recver.sendChannel ==> sender.Inbox() !! recver.Outbox())
    }

    ghost predicate Sends(v: View)
      reads this`stage, this`calls, this`dip, sender
    {
      v == View(sender.packetQue, sender.msgSeqPicker, sender.sendConnected, sender.running, stage, calls, dip)
    }

    ghost predicate Meets(b: Boxes)
      reads sender`sendChannel, recver`recvChannel, sender.Outbox(), recver.Inbox()
    {
      && (if recver.recvChannel == null then b.live == NewSlot()
          else recver.recvChannel.Valid() && recver.recvChannel.Abs() == b.live)
      && (b.link == Detached <==> sender.sendChannel == null)
      && (b.link == OnLive <==> sender.sendChannel != null && sender.sendChannel == recver.recvChannel)
      && (b.link == OnOrphan ==> sender.sendChannel.Valid() && sender.sendChannel.Abs() == b.orphan)
    }

    ghost predicate Receives(recv: RecvView)
      reads this`told, recver`running, recver`recvConnected, recver`rx, recver`heap, recver`recvMap, recver`freed
    {
      && recv.running == recver.running && recv.listening == (recver.recvConnected && recver.running)
      && recv.rx == recver.rx && recver.heap == Buffers(recver.recvMap) && |recver.freed| == FreedBy(recv.outcomes)
      && AllTold(recv.outcomes, told)
    }

    ghost predicate Sound()
      reads sender, recver, Memory()
    {
      sender != recver && sender.Valid() && recver.Valid() && Apart()
    }

    /** The objects are where a run of the protocol is. */
    ghost predicate Valid()
      reads this, sender, recver, Memory()
    {
      && Sound() && Reachable(s) && Sends(ViewOf(s)) && Meets(EndsOf(s).boxes) && Receives(EndsOf(s).recv)
    }

    constructor (first: int)
      ensures Valid() && s == Init(first) && fresh(this) && fresh(sender) && fresh(recver)
      ensures Memory() == {}
    {
      hide Reachable, ViewOf, EndsOf, Int64;
      hide NewSlot, IpcShmChannel.Valid, Apart, Meets, Buffers, FreedBy, AllTold;
      sender := new IpcShmChannel(Int64(first));
      recver := new IpcShmChannel(0);
      stage, calls, told, dip := Free, [], [], NoDip;
      s := Init(first);
      new;
      StartReachable(first);
      StartMeets();
    }

    lemma StartMeets()
      requires sender.sendChannel == null && sender.recvChannel == null && sender.heap == {}
      requires recver.sendChannel == null && recver.recvChannel == null && recver.heap == {}
      ensures Apart() && Meets(Boxes(Detached, NewSlot(), NewSlot())) && Memory() == {}
    {
      hide NewSlot;
    }

    lemma Separate()
      requires Sound()
      ensures sender != recver
      ensures var us := {this, sender, recver};
              && us !! sender.Outbox() && us !! sender.Inbox() && us !! sender.heap
              && us !! recver.Outbox() && us !! recver.Inbox() && us !! recver.heap
      ensures var mine := sender.Outbox() + recver.Inbox();
              mine !! sender.Inbox() && mine !! recver.Outbox() && mine !! sender.heap && mine !! recver.heap
      ensures var other := sender.Inbox() + recver.Outbox();
              other !! sender.heap && other !! recver.heap && sender.heap !! recver.heap
      ensures sender.sendChannel != recver.recvChannel ==> sender.Outbox() !! recver.Inbox()
      ensures sender.recvChannel != recver.sendChannel ==> sender.Inbox() !! recver.Outbox()
    {
      hide IpcShmChannel.Valid;
    }

    /** An unmapped mailbox has no mark. */
    lemma MustBeMapped(b: Boxes)
      requires Meets(b) && b.live.recverWorking
      ensures recver.recvChannel != null
    {
    }

    /** New buffers are apart from everything there was. */
    twostate lemma StillApart()
      requires old(Apart()) && fresh(recver.heap - old(recver.heap)) && sender.heap == old(sender.heap)
      requires sender.sendChannel == old(sender.sendChannel) && sender.recvChannel == old(sender.recvChannel)
      requires recver.sendChannel == old(recver.sendChannel) && recver.recvChannel == old(recver.recvChannel)
      ensures Apart()
    {
    }

    lemma Outside()
      ensures this !in Memory()
    {
    }

    /** `send_packet` on whatever mailbox the sender is attached to. */
    method Write(packet: Packet, ghost b: Boxes) returns (ok: bool)
      requires Sound() && Meets(b)
      modifies sender.Outbox()
      ensures Sound() && Meets(Offered(sender.sendConnected, sender.running, b, packet))
      ensures ok <==> b.link != Detached && Accepts(sender.sendConnected, sender.running, TargetOf(b), packet)
    {
      hide IpcShmChannel.Owns, Apart, Accepts, WritePacket;
      Separate();
      ok := sender.SendPacket(packet);
    }

    /** The same when the wait has already ended. */
    method Commit(packet: Packet, ghost b: Boxes)
      requires Sound() && Meets(b) && b.link != Detached
      requires Admits(true, sender.sendConnected, sender.running, TargetOf(b), packet)
      modifies sender.Outbox()
      ensures Sound() && Meets(Committed(b, packet))
    {
      hide IpcShmChannel.Owns, Apart, WritePacket;
      Separate();
      var _ := sender.Commit(packet);
    }

    method WriteControl(evt: int, ghost b: Boxes) returns (ok: bool)
      requires Sound() && Meets(b)
      modifies sender`msgSeqPicker, sender.Outbox()
      ensures sender.msgSeqPicker == Int64(old(sender.msgSeqPicker) + 1)
      ensures var p := ControlPacket(evt, old(sender.msgSeqPicker));
              && Sound() && Meets(Offered(sender.sendConnected, sender.running, b, p))
              && (ok <==> b.link != Detached && Accepts(sender.sendConnected, sender.running, TargetOf(b), p))
    {
      hide IpcShmChannel.Owns, Apart, Accepts, WritePacket;
      Separate();
      ok := sender.Send(evt);
    }

    method WriteFront(ghost b: Boxes)
      requires Sound() && Meets(b) && b.link != Detached && sender.sendConnected && sender.packetQue != []
      modifies sender`packetQue, sender.Outbox()
      ensures var p, rest := old(sender.packetQue)[0], old(sender.packetQue)[1..];
              && Sound() && Meets(Offered(true, sender.running, b, p))
              && sender.packetQue == rest + if !Accepts(true, sender.running, TargetOf(b), p) && sender.running
                                            then [p] else []
    {
      hide IpcShmChannel.Owns, Apart, Accepts, WritePacket;
      Separate();
      var again := sender.SendRound();
    }

    method Mark(ghost b: Boxes)
      requires Sound() && Meets(b) && b.link != Detached
      modifies sender`sendConnected, sender.Outbox()
      ensures Sound() && Meets(Claimed(b)) && sender.sendConnected
    {
      hide IpcShmChannel.Owns, Apart;
      Separate();
      sender.Claim();
    }

    method Renew(ghost b: Boxes)
      requires Sound() && Meets(b)
      modifies recver`recvChannel, recver`recvConnected
      modifies recver`msgSeqPicker, recver`sendConnected, recver`pendPong, recver.Outbox()
      ensures Sound() && Meets(Renewed(b)) && recver.recvConnected && fresh(recver.Inbox())
    {
      hide IpcShmChannel.Owns, NewSlot;
      Separate();
      recver.Listen();
    }

    method Unmap(ghost b: Boxes)
      requires Sound() && Meets(b)
      modifies sender`sendChannel
      ensures Sound() && Meets(b.(link := Detached)) && Memory() <= old(Memory())
    {
      hide IpcShmChannel.Owns;
      Separate();
      sender.ResetSendChannel();
    }

    method Map(ghost b: Boxes)
      requires Sound() && Meets(b) && b.link == Detached && recver.recvChannel != null
      modifies sender`sendChannel
      ensures Sound() && Meets(b.(link := OnLive)) && Memory() <= old(Memory())
    {
      hide IpcShmChannel.Owns;
      Separate();
      sender.OpenSharedMemory(recver.recvChannel);
    }

    method Flag(connected: bool)
      requires Sound()
      modifies sender`sendConnected
      ensures Sound() && sender.sendConnected == connected
    {
      hide IpcShmChannel.Owns, Apart;
      Separate();
      sender.SetSendStatus(connected);
    }

    method Silence()
      requires Sound()
      modifies recver`recvConnected
      ensures Sound() && !recver.recvConnected
    {
      hide IpcShmChannel.Owns, Apart;
      Separate();
      recver.SetRecvStatus(false);
    }

    method Withdraw(ghost b: Boxes)
      requires Sound() && Meets(b)
      modifies recver`running, recver.Inbox()
      ensures Sound() && !recver.running && Meets(b.(live := b.live.(recverWorking := false)))
    {
      hide IpcShmChannel.Owns, Apart;
      Separate();
      recver.Retire();
    }

    /** `recv` while the receiver listens. */
    method Take(ghost b: Boxes) returns (cont: bool, notice: Notice)
      requires Sound() && Meets(b) && recver.recvConnected && recver.running && b.live.newMsg
      requires InBounds(recver.rx, ReadFrame(b.live))
      modifies recver`recvMap, recver`heap, recver`freed, recver`rx, recver.Inbox(), recver.heap
      modifies recver`msgSeqPicker, recver`sendConnected, recver`recvConnected, recver`pendPong, recver.Outbox()
      ensures Sound() && Meets(Emptied(b))
      ensures fresh(recver.heap - old(recver.heap)) && recver.running
      ensures var f := ReadFrame(b.live);
              var (m, o) := Feed(old(recver.rx), f);
              && recver.rx == m && Tells(o, notice) && cont == (o.Notified? ==> b.live.senderWorking)
              && |recver.freed| == old(|recver.freed|) + (if Frees(o) then 1 else 0)
              && (old(recver.heap == Buffers(recver.recvMap)) ==>
                    (Allocates(f.header) && f.header.msgSeq in old(recver.rx))
                    || recver.heap == Buffers(recver.recvMap))
              && ((o.Notified? ==> o.evt != STOP_LISTEN) ==> recver.recvConnected)
    {
      hide IpcShmChannel.Owns, Apart, Feed, ReadFrame, InBounds, Buffers, Frees, Allocates, Offer;
      Separate();
      var completed;
      cont, completed, notice := recver.Recv();
      StillApart();
    }

    method ReadNothing(ghost b: Boxes)
      requires Sound() && Meets(b) && recver.recvChannel != null && !(recver.recvConnected && recver.running)
      requires recver.recvChannel.newMsg || !recver.recvConnected
      modifies recver`recvMap, recver`heap, recver`freed, recver`rx, recver.Inbox(), recver.heap
      modifies recver`msgSeqPicker, recver`sendConnected, recver`recvConnected, recver`pendPong, recver.Outbox()
      ensures Sound() && Meets(b)
      ensures recver.rx == old(recver.rx) && recver.recvMap == old(recver.recvMap)
      ensures recver.heap == old(recver.heap) && recver.freed == old(recver.freed)
    {
      hide IpcShmChannel.Owns, Apart, Feed, ReadFrame, InBounds, Buffers, Offer;
      Separate();
      var cont, completed, notice := recver.Recv();
      StillApart();
    }

    /** The end of the receiver's loop. */
    method Leave(ghost b: Boxes)
      requires Sound() && Meets(b)
      modifies recver`recvConnected, recver`sendConnected, recver`pendPong, recver`msgSeqPicker, recver.Outbox()
      ensures Sound() && Meets(b) && !recver.recvConnected
    {
      hide IpcShmChannel.Owns, Apart;
      Separate();
      recver.Notify(STOP_LISTEN);
    }

    /** One call of `recv` by the receiver's loop. */
    method TakeOrLeave(ghost b: Boxes) returns (notice: Notice)
      requires Sound() && Meets(b) && recver.recvConnected && recver.running && b.live.newMsg
      requires var f := ReadFrame(b.live);
               && InBounds(recver.rx, f) && !(Allocates(f.header) && f.header.msgSeq in recver.rx)
               && var o := Feed(recver.rx, f).1; o.Notified? ==> o.evt != STOP_LISTEN
      requires recver.heap == Buffers(recver.recvMap)
      modifies recver`recvMap, recver`heap, recver`freed, recver`rx, recver.Inbox(), recver.heap
      modifies recver`msgSeqPicker, recver`sendConnected, recver`recvConnected, recver`pendPong, recver.Outbox()
      ensures Sound() && Meets(Emptied(b)) && fresh(recver.heap - old(recver.heap))
      ensures var (m, o) := Feed(old(recver.rx), ReadFrame(b.live));
              && recver.rx == m && Tells(o, notice) && recver.heap == Buffers(recver.recvMap)
              && |recver.freed| == old(|recver.freed|) + (if Frees(o) then 1 else 0)
              && recver.recvConnected == (o.Notified? ==> b.live.senderWorking)
    {
      hide Sound, Meets, Feed, ReadFrame, InBounds, Buffers, Frees, Tells, Allocates;
      Separate();
      var cont;
      cont, notice := Take(b);
      if !cont { Leave(Emptied(b)); }
    }

    // ---- Steps of the sending process ----

    method Draw(m: Message)
      requires Valid() && Enabled(s, Action.Draw(m))
      modifies this`s, this`calls, sender`msgSeqPicker
      ensures Valid() && s == Next(old(s), Action.Draw(m))
    {
      hide Reachable, ViewOf, EndsOf, Next, Enabled, Int64;
      hide Represents, IpcShmChannel.Valid, Apart, Receives, Meets;
      Separate();
      Advance(s, Action.Draw(m));
      var msgSeq := sender.DrawNumber();
      calls := calls + [Call(msgSeq, m, 0)];
      s := Next(s, Action.Draw(m));
    }

    method Push(j: nat)
      requires Valid() && Enabled(s, Action.Push(j))
      modifies this`s, this`calls, sender`packetQue
      ensures Valid() && s == Next(old(s), Action.Push(j))
    {
      hide Reachable, ViewOf, EndsOf, Next, Enabled, Int64;
      hide Represents, IpcShmChannel.Valid, Apart, Receives, Meets, Chunk;
      Separate();
      Advance(s, Action.Push(j));
      var packet := Chunk(calls[j].msgSeq, calls[j].m, calls[j].next);
      calls := calls[j := calls[j].(next := calls[j].next + 1)];
      s := Next(s, Action.Push(j));
      sender.Enqueue(packet);
    }

    method Control(j: nat)
      requires Valid() && Enabled(s, Action.Control(j))
      modifies this`s, this`calls, this`dip, sender.Outbox()
      ensures Valid() && s == Next(old(s), Action.Control(j))
    {
      hide Reachable, ViewOf, EndsOf, Next, Enabled, Int64;
      hide Sound, Receives, Meets, Committed, Chunk;
      Outside();
      Separate();
      Advance(s, Action.Control(j));
      ghost var b := EndsOf(s).boxes;
      var packet := Chunk(calls[j].msgSeq, calls[j].m, calls[j].next);
      calls := calls[j := calls[j].(next := calls[j].next + 1)];
      dip := NoDip;
      s := Next(s, Action.Control(j));
      Commit(packet, b);
    }

    method Pop()
      requires Valid() && Enabled(s, Action.Pop)
      modifies this`s, this`stage, this`dip, sender`packetQue
      ensures Valid() && s == Next(old(s), Action.Pop)
    {
      hide Reachable, ViewOf, EndsOf, Next, Enabled, Int64;
      hide Represents, IpcShmChannel.Valid, Apart, Receives, Meets;
      Separate();
      Advance(s, Action.Pop);
      var packet := sender.PopPacket();
      stage, dip := Holding(packet.value), Unheld(dip);
      s := Next(s, Action.Pop);
    }

    /** `send_packet` in the send loop writes the mailbox. */
    method SendOk()
      requires Valid() && Enabled(s, Action.SendOk)
      modifies this`s, this`stage, this`dip, sender.Outbox()
      ensures Valid() && s == Next(old(s), Action.SendOk)
    {
      hide Reachable, ViewOf, EndsOf, Next, Enabled, Int64, Sound, Receives, Meets, Committed;
      Outside();
      Separate();
      Advance(s, Action.SendOk);
      ghost var b := EndsOf(s).boxes;
      var packet := stage.packet;
      stage, dip := Done, NoDip;
      s := Next(s, Action.SendOk);
      Commit(packet, b);
    }

    /** `send_packet` in the send loop gives up. */
    method SendFail()
      requires Valid() && Enabled(s, Action.SendFail)
      modifies this`s, this`stage, sender.Outbox()
      ensures Valid() && s == Next(old(s), Action.SendFail)
    {
      hide Reachable, ViewOf, EndsOf, Next, Enabled, Int64, Sound, Receives, Meets, Accepts;
      Outside();
      Separate();
      Advance(s, Action.SendFail);
      ghost var b := EndsOf(s).boxes;
      var packet := stage.packet;
      stage := Failed(packet);
      s := Next(s, Action.SendFail);
      var _ := Write(packet, b);
    }

    method Retry()
      requires Valid() && Enabled(s, Action.Retry)
      modifies this`s, this`stage, sender`packetQue
      ensures Valid() && s == Next(old(s), Action.Retry)
    {
      hide Reachable, ViewOf, EndsOf, Next, Enabled, Int64;
      hide Represents, IpcShmChannel.Valid, Apart, Receives, Meets;
      Separate();
      Advance(s, Action.Retry);
      var before := stage;
      stage := Free;
      s := Next(s, Action.Retry);
      if before.Failed? { sender.Enqueue(before.packet); }
    }

    method Drop()
      requires Valid() && Enabled(s, Action.Drop)
      modifies this`s, this`stage, sender`packetQue
      ensures Valid() && s == Next(old(s), Action.Drop)
    {
      hide Reachable, ViewOf, EndsOf, Next, Enabled, Int64;
      hide Represents, IpcShmChannel.Valid, Apart, Receives, Meets;
      Separate();
      Advance(s, Action.Drop);
      var packet := stage.packet;
      stage := Free;
      s := Next(s, Action.Drop);
      var _ := sender.PushPacket(packet);
    }

    method Break()
      requires Valid() && Enabled(s, Action.Break)
      modifies this`s, this`stage
      ensures Valid() && s == Next(old(s), Action.Break)
    {
      hide Reachable, ViewOf, EndsOf, Next, Enabled, Int64;
      hide Represents, IpcShmChannel.Valid, Apart, Receives, Meets;
      Separate();
      Advance(s, Action.Break);
      stage := Ending;
      s := Next(s, Action.Break);
    }

    method Reset()
      requires Valid() && Enabled(s, Action.Reset)
      modifies this`s, this`stage, sender`sendChannel
      ensures Valid() && s == Next(old(s), Action.Reset) && Memory() <= old(Memory())
    {
      hide Reachable, ViewOf, EndsOf, Next, Enabled, Int64;
      hide Sound, Meets, Memory, IpcShmChannel.Outbox, IpcShmChannel.Inbox, Receives;
      Outside();
      Separate();
      Advance(s, Action.Reset);
      ghost var b := EndsOf(s).boxes;
      stage := Free;
      s := Next(s, Action.Reset);
      Unmap(b);
    }

    method Attach()
      requires Valid() && Enabled(s, Action.Attach)
      modifies this`s, this`stage, sender`sendChannel
      ensures Valid() && s == Next(old(s), Action.Attach) && Memory() <= old(Memory())
    {
      hide Reachable, ViewOf, EndsOf, Next, Enabled, Int64;
      hide Sound, Meets, Memory, IpcShmChannel.Outbox, IpcShmChannel.Inbox, Receives, NewSlot;
      Outside();
      Separate();
      Advance(s, Action.Attach);
      ghost var b := EndsOf(s).boxes;
      stage := Mapped;
      assert recver.recvChannel != null by { MustBeMapped(b); }
      s := Next(s, Action.Attach);
      Map(b);
    }

    method Begin()
      requires Valid() && Enabled(s, Action.Begin)
      modifies this`s, this`stage, this`dip, sender`sendConnected, sender.Outbox()
      ensures Valid() && s == Next(old(s), Action.Begin)
    {
      hide Reachable, ViewOf, EndsOf, Next, Enabled, Int64;
      hide Sound, Meets, Memory, IpcShmChannel.Outbox, IpcShmChannel.Inbox, Receives, Claimed;
      Outside();
      Separate();
      Advance(s, Action.Begin);
      ghost var b := EndsOf(s).boxes;
      dip := if sender.sendConnected then dip else Dip(|calls|, false);
      stage := Free;
      s := Next(s, Action.Begin);
      Mark(b);
    }

    method SetConnected(b: bool)
      requires Valid() && Enabled(s, Action.SetConnected(b))
      modifies this`s, this`dip, sender`sendConnected
      ensures Valid() && s == Next(old(s), Action.SetConnected(b))
    {
      hide Reachable, ViewOf, EndsOf, Next, Enabled, Int64;
      hide Sound, Meets, Memory, Receives;
      Outside();
      Separate();
      Advance(s, Action.SetConnected(b));
      dip := if b && !sender.sendConnected then Dip(|calls|, stage.Holding?) else dip;
      s := Next(s, Action.SetConnected(b));
      Flag(b);
    }

    method Halt()
      requires Valid() && Enabled(s, Action.Halt)
      modifies this`s, sender`running
      ensures Valid() && s == Next(old(s), Action.Halt)
    {
      hide Reachable, ViewOf, EndsOf, Next, Enabled, Int64;
      hide Represents, IpcShmChannel.Valid, Apart, Receives, Meets;
      Separate();
      Advance(s, Action.Halt);
      s := Next(s, Action.Halt);
      sender.Halt();
    }

    method Clear()
      requires Valid() && Enabled(s, Action.Clear)
      modifies this`s, sender`packetQue
      ensures Valid() && s == Next(old(s), Action.Clear)
    {
      hide Reachable, ViewOf, EndsOf, Next, Enabled, Int64;
      hide Represents, IpcShmChannel.Valid, Apart, Receives, Meets;
      Separate();
      Advance(s, Action.Clear);
      s := Next(s, Action.Clear);
      sender.ClearSendQueue();
    }

    // ---- Steps of the receiving process ----

    method Listen()
      requires Valid() && Enabled(s, Action.Listen)
      modifies this`s, recver`recvChannel, recver`recvConnected
      modifies recver`msgSeqPicker, recver`sendConnected, recver`pendPong, recver.Outbox()
      ensures Valid() && s == Next(old(s), Action.Listen)
      ensures fresh(recver.Inbox())
    {
      hide Reachable, ViewOf, EndsOf, Next, Enabled, Int64;
      hide Sound, Meets, Memory, IpcShmChannel.Outbox, IpcShmChannel.Inbox, Sends, Renewed, Buffers, FreedBy, AllTold;
      Outside();
      Separate();
      Advance(s, Action.Listen);
      ghost var b := EndsOf(s).boxes;
      s := Next(s, Action.Listen);
      Renew(b);
    }

    method Quit()
      requires Valid() && Enabled(s, Action.Quit)
      modifies this`s, recver`recvConnected
      ensures Valid() && s == Next(old(s), Action.Quit)
    {
      hide Reachable, ViewOf, EndsOf, Next, Enabled, Int64;
      hide Sound, Meets, Memory, Sends, Buffers, AllTold, FreedBy;
      Outside();
      Separate();
      Advance(s, Action.Quit);
      s := Next(s, Action.Quit);
      Silence();
    }

    method RecverStop()
      requires Valid() && Enabled(s, Action.RecverStop)
      modifies this`s, recver`running, recver.Inbox()
      ensures Valid() && s == Next(old(s), Action.RecverStop)
    {
      hide Reachable, ViewOf, EndsOf, Next, Enabled, Int64;
      hide Sound, Meets, Memory, IpcShmChannel.Outbox, IpcShmChannel.Inbox, Sends, Buffers, AllTold, FreedBy;
      Outside();
      Separate();
      Advance(s, Action.RecverStop);
      ghost var b := EndsOf(s).boxes;
      s := Next(s, Action.RecverStop);
      Withdraw(b);
    }

    /** One call of `recv` by the receiver's loop, with what the callback is told. */
    method Receive(ghost e: Ends)
      requires Sound() && Meets(e.boxes) && Receives(e.recv) && e.recv.listening && e.boxes.live.newMsg
      requires Orderly(e.recv, ReadFrame(e.boxes.live))
      modifies this`told
      modifies recver`recvMap, recver`heap, recver`freed, recver`rx, recver.Inbox(), recver.heap
      modifies recver`msgSeqPicker, recver`sendConnected, recver`recvConnected, recver`pendPong, recver.Outbox()
      ensures Sound() && Meets(Emptied(e.boxes))
      ensures Receives(Received(e.recv, ReadFrame(e.boxes.live), e.boxes.live.senderWorking))
      ensures fresh(recver.heap - old(recver.heap))
    {
      hide Sound, Meets, Memory;
      hide Feed, ReadFrame, InBounds, Buffers, Frees, Tells, Allocates, FreedBy, AllTold;
      Outside();
      Separate();
      var notice := TakeOrLeave(e.boxes);
      OneMoreTold(e.recv.outcomes, told, Feed(e.recv.rx, ReadFrame(e.boxes.live)).1, notice);
      Outside();
      told := told + [notice];
    }

    /** One call of `recv` with its notice, and the end of the receiver's loop if it says so. */
    method Recv()
      requires Valid() && FewDraws(s) && Enabled(s, Action.Recv)
      modifies this`s, this`told
      modifies recver`recvMap, recver`heap, recver`freed, recver`rx, recver.Inbox(), recver.heap
      modifies recver`msgSeqPicker, recver`sendConnected, recver`recvConnected, recver`pendPong, recver.Outbox()
      ensures Valid() && s == Next(old(s), Action.Recv) && fresh(recver.heap - old(recver.heap))
    {
      hide Reachable, ViewOf, EndsOf, Next, Enabled, FewDraws, Sound, Meets, Receives, Memory;
      hide Feed, ReadFrame, InBounds, Frees, Allocates, FreedBy;
      Outside();
      Separate();
      RecvStep(s);
      ghost var e := EndsOf(s);
      s := Next(s, Action.Recv);
      Receive(e);
    }

    /** A call of `recv` that finds the receiver disconnected or stopped reads nothing and ends
        the loop; the protocol takes no step. */
    method EndLoop()
      requires Valid() && !s.rcv.listening && recver.recvChannel != null
      requires recver.recvChannel.newMsg || !recver.recvConnected  // the wait is over
      modifies recver`recvMap, recver`heap, recver`freed, recver`rx, recver.Inbox(), recver.heap
      modifies recver`msgSeqPicker, recver`sendConnected, recver`recvConnected, recver`pendPong, recver.Outbox()
      ensures Valid() && s == old(s) && !recver.recvConnected
    {
      hide Reachable, ViewOf, Int64;
      hide Sound, Meets, Sends, Memory, Buffers, FreedBy, AllTold;
      Separate();
      Outside();
      ReadNothing(EndsOf(s).boxes);
      Leave(EndsOf(s).boxes);
    }

    // ---- Whole calls of the sending process, with no other thread in between ----

    /** `PostMsg`. A channel that has stopped draws a number and releases nothing. */
    method Post(data: array<byte>) returns (ok: bool)
      requires Valid() && data.Length < MAX_SIZE
      modifies this`s, this`calls, sender`packetQue, sender`msgSeqPicker
      ensures Valid() && ok == old(s.snd.running)
      ensures var m := Message(MSG_DATA, data[..]);
              var run := if ok then PostRun(old(s), m) else [Action.Draw(m)];
              Legal(old(s), run) && s == Exec(old(s), run)
    {
      hide Reachable, ViewOf, EndsOf, Next, Legal, Exec, Int64;
      hide Represents, IpcShmChannel.Valid, Apart, Receives, Meets;
      ghost var m := Message(MSG_DATA, data[..]);
      Separate();
      Outside();
      PostStep(s, m);
      var n := if sender.running then ChunkCount(data.Length) else 0;
      calls := calls + [Call(sender.msgSeqPicker, Message(MSG_DATA, data[..]), n)];
      s := Exec(s, if s.snd.running then PostRun(s, m) else [Action.Draw(m)]);
      var outside;
      ok, outside := sender.Post(MSG_DATA, data);
    }

    /** `send`: a hello, bye, ping or pong. */
    method Send(evt: int) returns (ok: bool)
      requires Valid() && CLIENT_HELLO <= evt <= PONG
      modifies this`s, this`calls, this`dip, sender`msgSeqPicker, sender.Outbox()
      ensures Valid()
      ensures var run := SendRun(old(s), Message(evt, []));
              Legal(old(s), run) && s == Exec(old(s), run) && ok == (|run| == 2)
    {
      hide Reachable, ViewOf, EndsOf, Next, Legal, Exec, Int64;
      hide Sound, Receives, Meets, Accepts, Offered;
      ghost var m, e := Message(evt, []), EndsOf(s);
      Separate();
      Outside();
      SendRefines(s, m);
      var msgSeq := sender.msgSeqPicker;
      ok := WriteControl(evt, e.boxes);
      Outside();
      dip := if ok then NoDip else dip;
      calls := calls + [Call(msgSeq, Message(evt, []), if ok then 1 else 0)];
      s := Exec(s, SendRun(s, m));
    }

    /** One round of the inner loop of `send_loop`. */
    method SendRound()
      requires Valid() && s.snd.hand == Idle && s.snd.connected && s.snd.link != Detached && s.snd.queue != []
      modifies this`s, this`dip, sender`packetQue, sender.Outbox()
      ensures Valid() && Legal(old(s), Round(old(s))) && s == Exec(old(s), Round(old(s)))
    {
      hide Reachable, ViewOf, EndsOf, Next, Legal, Exec, Int64;
      hide Sound, Receives, Meets, Accepts, Offered;
      ghost var e := EndsOf(s);
      Separate();
      Outside();
      RoundStep(s);
      dip := ViewOf(Exec(s, Round(s))).dip;
      s := Exec(s, Round(s));
      WriteFront(e.boxes);
    }

    // ---- Runs ----

    /** One step of a run, whichever it is. */
    method Perform(a: Action)
      requires Valid() && Enabled(s, a) && FewDraws(s)
      modifies this, sender, recver, Memory()
      ensures Valid() && s == Next(old(s), a) && fresh(Memory() - old(Memory()))
    {
      hide Reachable, Next, Enabled;
      hide Sound, Sends, Meets, Receives, IpcShmChannel.Outbox, IpcShmChannel.Inbox;
      if a.Listen? || a.Recv? || a.Quit? || a.RecverStop? {
        PerformRecver(a);
      } else if OnQueue(a) {
        PerformQueue(a);
      } else {
        PerformSender(a);
      }
    }

    method PerformSender(a: Action)
      requires Valid() && Enabled(s, a)
      requires !OnQueue(a) && !a.Listen? && !a.Recv? && !a.Quit? && !a.RecverStop?
      modifies this, sender, sender.Outbox()
      ensures Valid() && s == Next(old(s), a) && Memory() <= old(Memory())
    {
      hide Reachable, Next, Sound, Sends, Meets, Receives, IpcShmChannel.Outbox, IpcShmChannel.Inbox;
      Separate();
      match a
      case Draw(m) => Draw(m);
      case Push(j) => Push(j);
      case Control(j) => Control(j);
      case Break => Break();
      case Reset => Reset();
      case Attach => Attach();
      case Begin => Begin();
      case SetConnected(b) => SetConnected(b);
      case Halt => Halt();
    }

    method PerformQueue(a: Action)
      requires Valid() && Enabled(s, a) && OnQueue(a)
      modifies this, sender, sender.Outbox()
      ensures Valid() && s == Next(old(s), a) && Memory() <= old(Memory())
    {
      hide Reachable, Next, Sound, Sends, Meets, Receives, IpcShmChannel.Outbox, IpcShmChannel.Inbox;
      Separate();
      match a
      case Pop => Pop();
      case SendOk => SendOk();
      case SendFail => SendFail();
      case Retry => Retry();
      case Drop => Drop();
      case Clear => Clear();
    }

    method PerformRecver(a: Action)
      requires Valid() && Enabled(s, a) && FewDraws(s)
      requires a.Listen? || a.Recv? || a.Quit? || a.RecverStop?
      modifies this, recver, recver.Outbox(), recver.Inbox(), recver.heap
      ensures Valid() && s == Next(old(s), a) && fresh(Memory() - old(Memory()))
    {
      hide Reachable, Next, Sound, Sends, Meets, Receives, IpcShmChannel.Outbox, IpcShmChannel.Inbox;
      Separate();
      match a
      case Listen => Listen();
      case Recv => Recv();
      case Quit => Quit();
      case RecverStop => RecverStop();
    }
  }

  lemma RoundStep(s: State)
    requires Reachable(s) && s.snd.hand == Idle && s.snd.connected && s.snd.link != Detached && s.snd.queue != []
    ensures Legal(s, Round(s)) && Reachable(Exec(s, Round(s)))
    ensures var t, v, e := Exec(s, Round(s)), ViewOf(s), EndsOf(s);
            && v.queue != [] && v.connected && e.boxes.link != Detached
            && var ok := Accepts(true, v.running, TargetOf(e.boxes), v.queue[0]);
               && EndsOf(t) == e.(boxes := Offered(true, v.running, e.boxes, v.queue[0]))
               && ViewOf(t) == v.(queue := v.queue[1..] + (if !ok && v.running then [v.queue[0]] else []),
                                  dip := if ok then NoDip else Unheld(v.dip))
  {
    hide Reachable, Legal, Exec, Accepts, Offered, Deref, Int64;
    SendRoundRefines(s);
  }

  lemma PostStep(s: State, m: Message)
    requires Reachable(s) && IsData(m)
    ensures var run := if s.snd.running then PostRun(s, m) else [Draw(m)];
            && Legal(s, run)
            && (var t, v := Exec(s, run), ViewOf(s);
                && Reachable(t) && EndsOf(t) == EndsOf(s) && v.running == s.snd.running
                && ViewOf(t) == v.(queue := v.queue + if v.running then PostPackets(v.picker, m.evt, m.data) else [],
                                   picker := Int64(v.picker + 1),
                                   calls := v.calls + [Call(v.picker, m, if v.running then ChunkCount(|m.data|) else 0)
                                                      ]))
    ensures |m.data| > CAP ==> CountField(|m.data|) > 0
  {
    hide Reachable, Next, Legal, Exec, ViewOf, EndsOf, Int64;
    hide PostPackets, Chunks;
    SmallPost(ViewOf(s).picker, m);
    ViewRunning(s);
    if s.snd.running {
      PostRefines(s, m);
    } else {
      var v := ViewOf(s);
      DrawEnabled(s, m);
      Advance(s, Draw(m));
      OneStep(s, Draw(m));
      assert v.queue + [] == v.queue;
    }
  }

  lemma ViewRunning(s: State)
    ensures ViewOf(s).running == s.snd.running
  {
  }

  lemma DrawEnabled(s: State, m: Message)
    requires IsMessage(m)
    ensures Enabled(s, Draw(m))
  {
  }

  lemma SmallPost(msgSeq: int, m: Message)
    requires IsData(m)
    ensures PostPackets(msgSeq, m.evt, m.data) == Chunks(msgSeq, m)
    ensures |m.data| > CAP ==> CountField(|m.data|) > 0
  {
    hide Chunks;
    ChunkCountShape(|m.data|);
    if |m.data| > CAP { CountFieldShape(|m.data|); }
    PostIsWholeIff(msgSeq, m);
  }

  lemma RecvStep(s: State)
    requires Reachable(s) && FewDraws(s) && Enabled(s, Recv)
    ensures var t, e := Next(s, Recv), EndsOf(s);
            && Reachable(t) && ViewOf(t) == ViewOf(s) && e.recv.listening && e.boxes.live.newMsg
            && var f := ReadFrame(e.boxes.live);
               var (m, o) := Feed(e.recv.rx, f);
               && InBounds(e.recv.rx, f) && !(Allocates(f.header) && f.header.msgSeq in e.recv.rx)
               && (o.Notified? ==> o.evt != STOP_LISTEN)
               && EndsOf(t) == Ends(Emptied(e.boxes),
                                    RecvView(o.Notified? ==> e.boxes.live.senderWorking, e.recv.running, m,
                                        e.recv.outcomes + [o]))
               && FreedBy(e.recv.outcomes + [o]) == FreedBy(e.recv.outcomes) + if Frees(o) then 1 else 0
  {
    hide Reachable, Int64, Next, Enabled;
    hide Feed, ReadFrame, InBounds, Frees, Allocates, Deref, FreedBy;
    RecvRefines(s);
    Advance(s, Recv);
    FreedByOneMore(s.rcv.outcomes, Feed(s.rcv.rx, ReadFrame(s.mail.live)).1);
  }

  lemma FreedByOneMore(os: seq<Outcome>, o: Outcome)
    ensures FreedBy(os + [o]) == FreedBy(os) + if Frees(o) then 1 else 0
  {
    assert (os + [o])[..|os|] == os;
  }

  lemma StartReachable(first: int)
    ensures Reachable(Init(first))
    ensures ViewOf(Init(first)) == View([], Int64(first), false, true, Free, [], NoDip)
    ensures Buffers(map[]) == {} && FreedBy([]) == 0 && AllTold([], [])
    ensures EndsOf(Init(first)) == Ends(Boxes(Detached, NewSlot(), NewSlot()), RecvView(false, true, map[], []))
  {
    assert Legal(Init(first), []) && Exec(Init(first), []) == Init(first);
  }

  // ---- Every run ----

  lemma {:induction false} FewDrawsBefore(s: State, run: seq<Action>)
    requires Legal(s, run) && FewDraws(Exec(s, run))
    ensures FewDraws(s)
    decreases |run|
  {
    hide Next, Enabled;
    if run != [] {
      FewDrawsBefore(Next(s, run[0]), run[1..]);
      DrawsGrow(s, run[0]);
    }
  }

  /** The objects can follow every run of the protocol: no call meets a violated precondition, and
      they end where the run ends. */
  method Follow(d: Direction, run: seq<Action>)
    requires d.Valid() && Legal(d.s, run) && FewDraws(Exec(d.s, run))
    modifies d, d.sender, d.recver, d.Memory()
    ensures d.Valid() && d.s == Exec(old(d.s), run) && fresh(d.Memory() - old(d.Memory()))
    decreases |run|
  {
    hide Next, Enabled, FewDraws, Legal, Exec, Direction.Valid;
    if run == [] {
      NoStep(d.s);
    } else {
      FewDrawsBefore(d.s, run);
      FirstStep(d.s, run);
      d.Perform(run[0]);
      Follow(d, run[1..]);
    }
  }

  /** In particular from their construction on. */
  method Replay(first: int, run: seq<Action>) returns (d: Direction)
    requires Legal(Init(first), run) && FewDraws(Exec(Init(first), run))
    ensures fresh(d) && d.Valid() && d.s == Exec(Init(first), run)
  {
    hide Init, Next, Enabled, FewDraws, Legal, Exec, Direction.Valid;
    d := new Direction(first);
    Follow(d, run);
  }

  lemma FirstStep(s: State, run: seq<Action>)
    requires Legal(s, run) && run != []
    ensures Enabled(s, run[0]) && Legal(Next(s, run[0]), run[1..])
    ensures Exec(Next(s, run[0]), run[1..]) == Exec(s, run)
  {
    hide Next, Enabled;
  }

  lemma NoStep(s: State)
    ensures Legal(s, []) && Exec(s, []) == s
  {
  }

  /** Ownership in every state the objects can be in: the live buffers are exactly those the map
      points to, one for each entry; no freed buffer is live or was freed twice, since there are
      as many as there were calls of `delete[]`; and every buffer ever allocated is one or the
      other. */
  lemma Ownership(d: Direction)
    requires d.Valid() && FewDraws(d.s)
    ensures var c, fs := d.recver, FramesAt(d.s, d.s.rcv.consumed);
            && (forall k :: k in c.recvMap ==> c.recvMap[k].0 in c.heap && c.recvMap[k].0 !in c.freed)
            && (forall k, l :: k in c.recvMap && l in c.recvMap && k != l ==> c.recvMap[k].0 != c.recvMap[l].0)
            && (forall b :: b in c.heap ==> exists k :: k in c.recvMap && c.recvMap[k].0 == b)
            && c.heap !! c.freed && |c.heap| == |c.recvMap|
            && |c.freed| == Freed(fs) && |c.heap| + |c.freed| == Allocated(fs)
  {
    hide Reachable, Direction.Apart, Direction.Sends, Direction.Meets, FramesAt, Run;
    var c := d.recver;
    BuffersCount(c.recvMap);
    NoBufferLeaks(d.s);
    FreedSoFar(d.s);
    assert |c.recvMap| == |c.recvMap.Keys| == |c.rx.Keys| == |c.rx|;
  }

  lemma FreedSoFar(s: State)
    requires Reachable(s)
    ensures FreedBy(s.rcv.outcomes) == Freed(FramesAt(s, s.rcv.consumed))
  {
    hide Reachable, FramesAt, Inv;
    ReachableInv(s);
    OutcomesMatch(s);
    FreedIsFreedBy(FramesAt(s, s.rcv.consumed));
  }

  lemma {:induction false} BuffersCount(entries: map<int, (array<byte>, int)>)
    requires forall k, l :: k in entries && l in entries && k != l ==> entries[k].0 != entries[l].0
    ensures |Buffers(entries)| == |entries|
    decreases |entries|
  {
    if entries != map[] {
      var k :| k in entries;
      DropBuffer(entries, k);
      var rest := entries - {k};
      assert rest.Keys == entries.Keys - {k};
      assert |rest| == |rest.Keys| && |entries| == |entries.Keys|;
      BuffersCount(rest);
      assert entries[k].0 in Buffers(entries);
    } else {
      assert Buffers(entries) == {};
    }
  }

  /** End to end, in bytes: whatever the callback was ever told with a payload is exactly the
      data, length and event of the posted message, whatever the new buffer held before. */
  lemma NoticeIsPosted(d: Direction, i: nat)
    requires d.Valid() && FewDraws(d.s) && i < |d.told| && d.told[i].Notice?
    ensures |d.s.rcv.consumed| == |d.told| && d.s.rcv.consumed[i].msg < |d.s.book.msgs|
    ensures var m, n := d.s.book.msgs[d.s.rcv.consumed[i].msg], d.told[i];
            n.evt == m.evt && n.len == |m.data| && (n.payload.Some? ==> n.payload.value == m.data)
  {
    hide Reachable, Direction.Sound, Direction.Sends, Direction.Meets;
    Integrity(d.s, i);
    assert Tells(d.s.rcv.outcomes[i], d.told[i]);
    var m := d.s.book.msgs[d.s.rcv.consumed[i].msg];
    if d.told[i].payload.Some? { LiftedBytes(m.data, d.told[i].payload.value); }
  }

  /** What is told is decided by the outcome: an intact one is told with its bytes, one without
      payload as a null pointer, and nothing is told of the others. */
  lemma ToldByOutcome(d: Direction, i: nat)
    requires d.Valid() && FewDraws(d.s) && i < |d.s.rcv.consumed|
    ensures |d.told| == |d.s.rcv.consumed| == |d.s.rcv.outcomes| && d.s.rcv.consumed[i].msg < |d.s.book.msgs|
    ensures var m, o, n := d.s.book.msgs[d.s.rcv.consumed[i].msg], d.s.rcv.outcomes[i], d.told[i];
            && (o == Notified(m.evt, Some(Lift(m.data)), |m.data|) ==> n == Notice(m.evt, Some(m.data), |m.data|))
            && (o == Notified(m.evt, None, |m.data|) ==> n == Notice(m.evt, None, |m.data|))
            && (!o.Notified? ==> n == NoNotice)
  {
    hide Reachable, Direction.Sound, Direction.Sends, Direction.Meets, Lift;
    ConsumedChunk(d.s, i);
    Integrity(d.s, i);
    var m, o := d.s.book.msgs[d.s.rcv.consumed[i].msg], d.s.rcv.outcomes[i];
    assert Tells(o, d.told[i]);
    if o == Notified(m.evt, Some(Lift(m.data)), |m.data|) { LiftedBytes(m.data, d.told[i].payload.value); }
  }

  /** End to end, in both directions: what each call of `recv` tells the callback is decided by
      the order in which the packets of its message were consumed. A message of one packet is
      told as posted. Of a longer one the last packet is told: as posted if chunk 0 was the first
      and no other is missing, without payload if chunk 0 has not come, and not at all else. */
  lemma ToldExactly(d: Direction, i: nat)
    requires d.Valid() && FewDraws(d.s) && i < |d.s.rcv.consumed|
    ensures |d.told| == |d.s.rcv.consumed| && d.s.rcv.consumed[i].msg < |d.s.book.msgs|
    ensures var p := d.s.rcv.consumed[i];
            var m := d.s.book.msgs[p.msg];
            var n := ChunkCount(|m.data|);
            var order := OrderOf(d.s.rcv.consumed[..i + 1], p.msg);
            && order != []
            && d.told[i] == if p.chunk + 1 < n then NoNotice
                            else if n == 1 then Notice(m.evt, if m.data == [] then None else Some(m.data), |m.data|)
                            else if |order| == n && order[0] == 0 then Notice(m.evt, Some(m.data), |m.data|)
                            else if 0 !in order then Notice(m.evt, None, |m.data|)
                            else NoNotice
  {
    hide Reachable, Direction.Sound, Direction.Sends, Direction.Meets, Direction.Receives, Lift, OrderOf;
    ToldByOutcome(d, i);
    ConsumedChunk(d.s, i);
    ExactOutcome(d.s, i);
  }

  lemma ConsumedChunk(s: State, i: nat)
    requires Reachable(s) && i < |s.rcv.consumed|
    ensures |s.rcv.outcomes| == |s.rcv.consumed|
    ensures var p := s.rcv.consumed[i];
            && p.msg < |s.book.msgs| && p.chunk < ChunkCount(|s.book.msgs[p.msg].data|)
            && |OrderOf(s.rcv.consumed[..i + 1], p.msg)| <= ChunkCount(|s.book.msgs[p.msg].data|)
  {
    hide Inv, Line, Clean, Reachable, OrderOf, Distinct;
    Facts(s);
    OutcomesMatch(s);
    CleanMember(s, s.rcv.consumed, i);
    CleanPrefix(s, s.rcv.consumed, i + 1);
    var j := s.rcv.consumed[i].msg;
    CleanOrder(s, s.rcv.consumed[..i + 1], j);
    Pigeonhole(OrderOf(s.rcv.consumed[..i + 1], j), ChunkCount(|s.book.msgs[j].data|));
  }

  /** End to end, on the objects: wherever a direction stands, as long as both processes run, a
      message that is posted now can reach the callback byte for byte. There is a run that begins
      with the post, and whatever objects follow it have told so. */
  lemma PostedCanBeTold(s: State, m: Message) returns (run: seq<Action>, i: nat)
    requires Reachable(s) && s.snd.running && s.rcv.running && |s.book.msgs| < 0x1_0000_0000
    requires m.evt == MSG_DATA && |m.data| < MAX_SIZE
    ensures PostRun(s, m) <= run && Legal(s, run)
    ensures forall d: Direction | d.Valid() && d.s == Exec(s, run) ::
              && i < |d.told|
              && d.told[i] == Notice(MSG_DATA, if m.data == [] then None else Some(m.data), |m.data|)
  {
    hide Legal, Exec, Reachable, PostRun, Lift, Direction.Sound, Direction.Sends, Direction.Meets, Direction.Receives;
    run, i := PostedCanArrive(s, m);
    forall d: Direction | d.Valid() && d.s == Exec(s, run)
      ensures i < |d.told|
      ensures d.told[i] == Notice(MSG_DATA, if m.data == [] then None else Some(m.data), |m.data|)
    {
      ToldByOutcome(d, i);
    }
  }
}
