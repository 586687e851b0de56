/** `IpcShmChannel`: the object whose fields the threads of one process update. Each method is
    one pass through the program's function with no other thread in between; waiting is left
    out, and a timed wait that ran out shows as a mailbox that is still closed. */
module Channel {
  import opened Wire
  import opened Chunking
  import opened Mailbox
  import opened Reassembly
  import opened SharedMemory
  import opened Posting
  import Heartbeat

  /** What the user's callback is told. */
  datatype Notice = NoNotice | Notice(evt: int, payload: Option<seq<byte>>, len: int)

  /** A heap buffer holds the bytes its cells have; indeterminate cells may hold anything. */
  ghost predicate Agrees(cells: Cells, bytes: seq<byte>) {
    |cells| == |bytes| && forall i :: 0 <= i < |cells| && cells[i].Some? ==> bytes[i] == cells[i].value
  }

  ghost predicate Tells(o: Outcome, n: Notice) {
    match o
    case Notified(evt, payload, len) =>
      && n.Notice? && n.evt == evt && n.len == len
      && (payload.Some? <==> n.payload.Some?)
      && (payload.Some? ==> Agrees(payload.value, n.payload.value))
    case _ => n == NoNotice
  }

  lemma LiftedBytes(data: seq<byte>, bytes: seq<byte>)
    requires Agrees(Lift(data), bytes)
    ensures bytes == data
  {
    forall i | 0 <= i < |data| ensures bytes[i] == data[i] {
      assert Lift(data)[i] == Some(data[i]);
    }
  }

  /** The packet of a hello, bye, ping or pong. */
  function ControlPacket(evt: int, msgSeq: int): Packet { Packet(evt, Header(evt, 0, 0, 1, msgSeq), []) }

  // ---- The receiver's map on the heap ----

  /** `recv_msg_map_` with its buffers represents `rx`: every entry points to a live buffer of
      its own whose bytes agree with the entry's cells. */
  ghost predicate Represents(entries: map<int, (array<byte>, int)>, heap: set<array<byte>>, rx: RecvMap)
    reads heap
  {
    && entries.Keys == rx.Keys
    && (forall k :: k in entries ==>
          entries[k].0 in heap && entries[k].1 == rx[k].got && Agrees(rx[k].buf, entries[k].0[..]))
    && (forall k, l :: k in entries && l in entries && k != l ==> entries[k].0 != entries[l].0)
  }

  /** The same of all entries but `key`, whose buffer may be written. */
  ghost predicate OthersStay(entries: map<int, (array<byte>, int)>, heap: set<array<byte>>, rx: RecvMap, key: int)
    requires key in entries
    reads heap - {entries[key].0}
  {
    && entries.Keys == rx.Keys && entries[key].0 in heap
    && (forall k :: k in entries && k != key ==>
          entries[k].0 in heap - {entries[key].0} && entries[k].1 == rx[k].got && Agrees(rx[k].buf, entries[k].0[..]))
    && (forall k, l :: k in entries && l in entries && k != l ==> entries[k].0 != entries[l].0)
  }

  lemma SplitEntry(entries: map<int, (array<byte>, int)>, heap: set<array<byte>>, rx: RecvMap, key: int)
    requires Represents(entries, heap, rx) && key in entries
    ensures OthersStay(entries, heap, rx, key) && entries[key].0 in heap
    ensures entries[key].1 == rx[key].got && Agrees(rx[key].buf, entries[key].0[..])
    ensures |rx[key].buf| == entries[key].0.Length
  {
  }

  lemma JoinEntry(entries: map<int, (array<byte>, int)>, heap: set<array<byte>>, rx: RecvMap, key: int,
                  cells: Cells, got: int)
    requires key in entries && OthersStay(entries, heap, rx, key) && Agrees(cells, entries[key].0[..])
    ensures Represents(entries[key := (entries[key].0, got)], heap, rx[key := Entry(cells, got)])
  {
  }

  /** The buffers that the map points to. */
  ghost function Buffers(entries: map<int, (array<byte>, int)>): set<array<byte>> {
    set k | k in entries :: entries[k].0
  }

  lemma PutBuffer(entries: map<int, (array<byte>, int)>, k: int, e: (array<byte>, int))
    ensures k !in entries ==> Buffers(entries[k := e]) == Buffers(entries) + {e.0}
    ensures k in entries && entries[k].0 == e.0 ==> Buffers(entries[k := e]) == Buffers(entries)
  {
    var after := entries[k := e];
    forall b ensures b in Buffers(after) <==> (b == e.0 || exists l :: l in entries && l != k && entries[l].0 == b) {
      assert after[k] == e;
      if l :| l in entries && l != k && entries[l].0 == b { assert after[l].0 == b; }
    }
  }

  lemma DropBuffer(entries: map<int, (array<byte>, int)>, k: int)
    requires k in entries && forall l :: l in entries && l != k ==> entries[l].0 != entries[k].0
    ensures Buffers(entries - {k}) == Buffers(entries) - {entries[k].0}
  {
    forall b | b in Buffers(entries) - {entries[k].0} ensures b in Buffers(entries - {k}) {
      var l :| l in entries && entries[l].0 == b;
      assert (entries - {k})[l].0 == b;
    }
  }

  /** The entry of a packet after its bytes were copied. */
  function StoredEntry(m: RecvMap, f: Frame): Entry
    requires InBounds(m, f) && f.header.msgSeq in Allocate(m, f.header)
  {
    var e := Allocate(m, f.header)[f.header.msgSeq];
    Entry(Copy(e.buf, f.header.chunkSeq * CAP, f.body), e.got + |f.body|)
  }

  /** The map after the locked section of `recv`. */
  function Stored(m: RecvMap, f: Frame): RecvMap
    requires InBounds(m, f)
  {
    var m1 := Allocate(m, f.header);
    if f.header.msgSeq in m1 then m1[f.header.msgSeq := StoredEntry(m, f)] else m1
  }

  lemma LengthsFit(m: RecvMap, f: Frame)
    requires InBounds(m, f) && f.header.msgSeq in Allocate(m, f.header)
    ensures 0 <= f.header.chunkSeq * CAP
    ensures f.header.chunkSeq * CAP + |f.body| <= |Allocate(m, f.header)[f.header.msgSeq].buf|
  {
  }

  /** A fresh buffer under a key, its cells still indeterminate. */
  lemma NewEntry(entries: map<int, (array<byte>, int)>, heap: set<array<byte>>, rx: RecvMap,
                 key: int, b: array<byte>)
    requires Represents(entries, heap, rx) && b !in heap
    ensures Represents(entries[key := (b, 0)], heap + {b}, rx[key := Entry(Blank(b.Length), 0)])
  {
  }

  lemma SameEntries(entries: map<int, (array<byte>, int)>, heap: set<array<byte>>, rx: RecvMap)
    requires Represents(entries, heap, rx)
    ensures entries.Keys == rx.Keys
    ensures forall k :: k in entries ==> entries[k].1 == rx[k].got && Agrees(rx[k].buf, entries[k].0[..])
  {
  }

  /** The rest of `recv`, from the map that its locked section leaves. */
  function Concluded(m: RecvMap, h: Header, evt: int): (RecvMap, Outcome) {
    var k := h.msgSeq;
    if h.chunkSeq + 1 < h.chunkCount then (m, Waiting)
    else if k in m && m[k].got != h.totalLen then (m - {k}, Discarded)
    else (m - {k}, Notified(evt, if k in m then Some(m[k].buf) else None, h.totalLen))
  }

  lemma FeedFromStored(m: RecvMap, f: Frame)
    requires InBounds(m, f)
    ensures Feed(m, f) == Concluded(Stored(m, f), f.header, f.evt)
  {
    var m1 := Allocate(m, f.header);
    if f.header.msgSeq in m1 {
      assert Stored(m, f) - {f.header.msgSeq} == m1 - {f.header.msgSeq};
    } else {
      assert m1 - {f.header.msgSeq} == m1;
    }
  }

  lemma ConcludedCases(m: RecvMap, h: Header, evt: int)
    ensures var (m2, o) := Concluded(m, h, evt);
            var k := h.msgSeq;
            && m2 == (if h.chunkSeq + 1 < h.chunkCount then m else m - {k})
            && (o.Waiting? <==> h.chunkSeq + 1 < h.chunkCount)
            && (o.Discarded? <==> !o.Waiting? && k in m && m[k].got != h.totalLen)
            && (o.Notified? <==> !o.Waiting? && !o.Discarded?)
            && (o.Notified? ==> o == Notified(evt, if k in m then Some(m[k].buf) else None, h.totalLen))
            && (Frees(o) <==> !o.Waiting? && k in m)
            && (!o.Notified? ==> Tells(o, NoNotice))
  {
  }

  /** The flags, the counter, the picker and the mailbox written to. */
  datatype Reply = Reply(beat: Heartbeat.Beat, picker: int, running: bool, box: Option<Slot>)

  /** What a notice of `evt` changes: flags and counter, and for a ping a number is drawn and a
      pong is offered to the other mailbox. Event 0 stands for no notice. */
  ghost function Hear(r: Reply, evt: int): (t: Reply)
    requires Heartbeat.Ok(r.beat)
    ensures evt == 0 ==> t == r
  {
    var pong := ControlPacket(PONG, r.picker);
    Reply(Heartbeat.Notify(r.beat, evt),
          if evt == PING then Int64(r.picker + 1) else r.picker, r.running,
          if evt != PING || r.box == None then r.box
          else Some(Offer(r.beat.sendUp, r.running, r.box.value, pong)))
  }

  /** Only a ping takes a number, and only a ping is answered: with one pong, if it fits. */
  lemma HearEffects(r: Reply, evt: int)
    requires Heartbeat.Ok(r.beat)
    ensures var t, pong := Hear(r, evt), Packet(PONG, Header(PONG, 0, 0, 1, r.picker), []);
            && t.running == r.running
            && t.picker == (if evt == PING then Int64(r.picker + 1) else r.picker)
            && (t.box.Some? <==> r.box.Some?)
            && (t.box != r.box <==> && evt == PING && r.box.Some? && r.beat.sendUp && r.running
                                    && r.box.value.recverWorking && !r.box.value.newMsg)
            && (t.box != r.box ==> t.box.value == WritePacket(r.box.value, pong))
  {
    hide WritePacket, Int64;
    if r.box.Some? {
      var pong := ControlPacket(PONG, r.picker);
      OfferIff(r.beat.sendUp, r.running, r.box.value, pong);
    }
  }

  class IpcShmChannel {
    var running: bool
    var sendChannel: ChannelData?
    var recvChannel: ChannelData?
    var sendConnected: bool
    var recvConnected: bool
    var packetQue: seq<Packet>
    var msgSeqPicker: int
    var recvMap: map<int, (array<byte>, int)>
    var pendPong: int

    ghost var heap: set<array<byte>>   // buffers allocated by `recv` and not yet freed
    ghost var freed: set<array<byte>>  // buffers freed
    ghost var rx: RecvMap              // `recvMap` as a value

    /** The mailbox that the object writes to, with its buffer. */
    ghost function Outbox(): set<object>
      reads this`sendChannel
    {
      if sendChannel == null then {} else {sendChannel, sendChannel.buffer}
    }

    /** The mailbox that the object reads from, with its buffer. */
    ghost function Inbox(): set<object>
      reads this`recvChannel
    {
      if recvChannel == null then {} else {recvChannel, recvChannel.buffer}
    }

    /** The mailboxes and the receiver's buffers are all distinct, every entry of the map points
        to a live buffer of its own, and no freed buffer is live. */
    ghost predicate Owns()
      reads this, heap
    {
      && Outbox() !! Inbox() && Outbox() + Inbox() !! heap && heap !! freed
      && Represents(recvMap, heap, rx) && Heartbeat.Ok(Pulse(false))
    }

    ghost predicate Valid()
      reads this, Outbox(), Inbox(), heap
    {
      && (sendChannel != null ==> sendChannel.Valid())
      && (recvChannel != null ==> recvChannel.Valid())
      && Owns()
    }

    ghost function Pulse(armed: bool): Heartbeat.Beat
      reads this
    {
      Heartbeat.Beat(sendConnected, recvConnected, armed, pendPong)
    }

    /** The part of the object that a notice changes. */
    ghost function Replying(): Reply
      reads this, Outbox()
    {
      Reply(Pulse(false), msgSeqPicker, running,
            if sendChannel == null || !sendChannel.Valid() then None else Some(sendChannel.Abs()))
    }

    constructor (first: int)
      ensures Valid() && running && packetQue == [] && msgSeqPicker == first
      ensures recvMap == map[] && rx == map[] && heap == {} && freed == {}
      ensures sendChannel == null && recvChannel == null && !sendConnected && !recvConnected && pendPong == 0
    {
      running := true;
      sendChannel, recvChannel := null, null;
      sendConnected, recvConnected := false, false;
      packetQue, msgSeqPicker := [], first;
      recvMap, rx, heap, freed := map[], map[], {}, {};
      pendPong := 0;
    }

    // ---- The sending side ----

    /** `msg_seq_picker_.fetch_add(1)`. */
    method DrawNumber() returns (msgSeq: int)
      requires Valid()
      modifies this`msgSeqPicker
      ensures Valid() && msgSeq == old(msgSeqPicker) && msgSeqPicker == Int64(old(msgSeqPicker) + 1)
    {
      msgSeq := msgSeqPicker;
      msgSeqPicker := Int64(msgSeqPicker + 1);
    }

    /** The locked section of `push_packet`. */
    method Enqueue(p: Packet)
      requires Valid()
      modifies this`packetQue
      ensures Valid() && packetQue == old(packetQue) + [p]
    {
      packetQue := packetQue + [p];
    }

    method PushPacket(p: Packet) returns (ok: bool)
      requires Valid()
      modifies this`packetQue
      ensures Valid() && ok == running && packetQue == old(packetQue) + if ok then [p] else []
    {
      if !running { return false; }
      Enqueue(p);
      return true;
    }

    method PopPacket() returns (p: Option<Packet>)
      requires Valid()
      requires !sendConnected || packetQue != []  // the wait is over
      modifies this`packetQue
      ensures Valid()
      ensures !sendConnected ==> p == None && packetQue == old(packetQue)
      ensures sendConnected ==> p == Some(old(packetQue)[0]) && packetQue == old(packetQue)[1..]
    {
      if !sendConnected { return None; }
      p := Some(packetQue[0]);
      packetQue := packetQue[1..];
    }

    /** `post`. `outside`: the loop came to read past the data, and the C++ run is undefined from
        there on. */
    method Post(evt: int, data: array<byte>) returns (ok: bool, outside: bool)
      requires Valid() && data.Length < MAX_OBJECT
      modifies this`packetQue, this`msgSeqPicker
      ensures Valid() && msgSeqPicker == Int64(old(msgSeqPicker) + 1)
      ensures packetQue == old(packetQue)
                           + if running then PostPackets(old(msgSeqPicker), evt, data[..]) else []
      ensures outside == (running && IsCut(evt, data.Length) && CountField(data.Length) < 0)
      ensures !outside ==> ok == (running || (IsCut(evt, data.Length) && CountField(data.Length) == 0))
    {
      hide Valid, Int16, Int64, CountField, Pieces, LoopBound, Piece;
      var size := data.Length;
      var msgSeq := DrawNumber();
      var header := Header(evt, size, 0, 1, msgSeq);
      if evt == MSG_DATA && size > CAP {
        header := header.(chunkCount := CountField(size));
        EndOfPieces(size);
        ghost var packets := PostPackets(msgSeq, evt, data[..]);
        AllPieces(msgSeq, data[..]);
        var i := 0;
        while i < LoopBound(size)
          invariant Valid() && 0 <= i <= Pieces(size)
          invariant header == Header(evt, size, header.chunkSeq, CountField(size), msgSeq)
          invariant running || i == 0
          invariant msgSeqPicker == Int64(old(msgSeqPicker) + 1)
          invariant packetQue == old(packetQue) + packets[..i]
        {
          RoundStays(size, i);
          var leftSize := (size - i * CAP) % WORD;
          header := header.(chunkSeq := Int16(i));
          var chunkSize := if CAP < leftSize then CAP else leftSize;
          if i * CAP + chunkSize > size {
            return false, true;
          }
          NextPiece(msgSeq, data[..], i);
          var pushed := PushPacket(Packet(evt, header, data[i * CAP..i * CAP + chunkSize]));
          if !pushed { return false, false; }
          i := i + 1;
        }
        return true, false;
      } else {
        ok := PushPacket(Packet(evt, header, data[..]));
        outside := false;
      }
    }

    /** The wait of `send_packet`: it runs out when the mailbox stays closed and the flag up. */
    method AwaitSlot() returns (timeout: bool)
      requires Valid() && sendChannel != null
      ensures timeout == (sendConnected && sendChannel.newMsg)
    {
      timeout := sendConnected && sendChannel.newMsg;
    }

    /** The rest of `send_packet`, which reads the flag again. It does not look at the mailbox
        again: if the wait ended because the flag was down, an unread packet is overwritten. */
    method Commit(p: Packet) returns (ok: bool)
      requires Valid() && sendChannel != null && |p.data| <= CAP
      modifies Outbox()
      ensures Valid() && ok == (sendConnected && running && old(sendChannel.recverWorking))
      ensures sendChannel.Abs() == if ok then WritePacket(old(sendChannel.Abs()), p) else old(sendChannel.Abs())
    {
      if !sendConnected { return false; }
      if !running || !sendChannel.recverWorking { return false; }
      sendChannel.Put(p);
      return true;
    }

    /** `send_packet` with no change of the flag while it runs. */
    method SendPacket(p: Packet) returns (ok: bool)
      requires Valid()
      modifies Outbox()
      ensures Valid()
      ensures sendChannel == null ==> !ok
      ensures sendChannel != null ==>
                && ok == Accepts(sendConnected, running, old(sendChannel.Abs()), p)
                && sendChannel.Abs() == Offer(sendConnected, running, old(sendChannel.Abs()), p)
      ensures ok <==> && sendChannel != null && |p.data| <= CAP && sendConnected && running
                      && old(sendChannel.recverWorking) && !old(sendChannel.newMsg)
      ensures sendChannel != null && !ok ==> sendChannel.Abs() == old(sendChannel.Abs())
      ensures ok ==> && sendChannel.newMsg && ReadFrame(sendChannel.Abs()) == FrameOf(p)
                     && sendChannel.senderWorking == (old(sendChannel.senderWorking)
                                                      && p.evt != CLIENT_BYEBYE && p.evt != SERVER_BYEBYE)
    {
      if |p.data| > CAP || sendChannel == null { return false; }
      var timeout := AwaitSlot();
      if timeout { return false; }
      ok := Commit(p);
      if ok { ReadAfterWrite(old(sendChannel.Abs()), p); }
    }

    /** `send`: hello, bye, ping and pong. */
    method Send(evt: int) returns (ok: bool)
      requires Valid()
      modifies this`msgSeqPicker, Outbox()
      ensures Valid() && msgSeqPicker == Int64(old(msgSeqPicker) + 1)
      ensures sendChannel == null ==> !ok
      ensures sendChannel != null ==>
                var p := ControlPacket(evt, old(msgSeqPicker));
                && ok == Accepts(sendConnected, running, old(sendChannel.Abs()), p)
                && sendChannel.Abs() == Offer(sendConnected, running, old(sendChannel.Abs()), p)
      ensures ok <==> && sendChannel != null && sendConnected && running
                      && old(sendChannel.recverWorking) && !old(sendChannel.newMsg)
    {
      var msgSeq := DrawNumber();
      ok := SendPacket(ControlPacket(evt, msgSeq));
    }

    /** One round of the inner loop of `send_loop`; `again` is the loop's condition after it. A
        packet that could not be sent goes to the back of the queue, unless the link has gone
        down meanwhile: then the loop leaves with it. */
    method SendRound() returns (again: bool)
      requires Valid()
      requires !sendConnected || packetQue != []  // the wait is over
      modifies this`packetQue, Outbox()
      ensures Valid() && again == sendConnected
      ensures !sendConnected ==> packetQue == old(packetQue)
      ensures sendConnected ==>
                var p, rest := old(packetQue)[0], old(packetQue)[1..];
                if sendChannel == null then packetQue == rest + (if running then [p] else [])
                else
                  && sendChannel.Abs() == Offer(true, running, old(sendChannel.Abs()), p)
                  && var ok := Accepts(true, running, old(sendChannel.Abs()), p);
                     packetQue == rest + if !ok && running then [p] else []
    {
      var packet := PopPacket();
      if packet != None {
        var ret := SendPacket(packet.value);
        again := FinishRound(packet.value, ret);
      } else {
        again := sendConnected;
      }
    }

    /** The end of a round, which reads the connection flag again. */
    method FinishRound(packet: Packet, ret: bool) returns (again: bool)
      requires Valid()
      modifies this`packetQue
      ensures Valid() && again == sendConnected
      ensures packetQue == old(packetQue) + if sendConnected && !ret && running then [packet] else []
    {
      if !sendConnected {
        return false;
      } else if !ret {
        var _ := PushPacket(packet);  // retry
      }
      return true;
    }

    // ---- Connections ----

    method SetSendStatus(connected: bool)
      requires Valid()
      modifies this`sendConnected
      ensures Valid() && sendConnected == connected
      ensures Replying() == old(Replying()).(beat := old(Pulse(false)).(sendUp := connected))
    {
      sendConnected := connected;
    }

    method SetRecvStatus(connected: bool)
      requires Valid()
      modifies this`recvConnected
      ensures Valid() && recvConnected == connected
      ensures Replying() == old(Replying()).(beat := old(Pulse(false)).(recvUp := connected))
    {
      recvConnected := connected;
    }

    method SetPending(count: int)
      requires Valid() && 0 <= count < Heartbeat.SIZE_T
      modifies this`pendPong
      ensures Valid() && Replying() == old(Replying()).(beat := old(Pulse(false)).(pending := count))
    {
      pendPong := count;
    }

    /** `open_shared_memory`, which maps the peer's mailbox. */
    method OpenSharedMemory(channel: ChannelData)
      requires Valid() && channel.Valid() && {channel, channel.buffer} !! Inbox() + heap
      modifies this`sendChannel
      ensures Valid() && sendChannel == channel
    {
      sendChannel := channel;
    }

    /** `send_loop` marks the mailbox as its own and takes the link as up. */
    method Claim()
      requires Valid() && sendChannel != null
      modifies this`sendConnected, sendChannel`senderWorking
      ensures Valid() && sendConnected
      ensures sendChannel.Abs() == old(sendChannel.Abs()).(senderWorking := true)
    {
      sendChannel.senderWorking := true;
      sendConnected := true;
    }

    method ResetSendChannel()
      requires Valid()
      modifies this`sendChannel
      ensures Valid() && sendChannel == null
    {
      sendChannel := null;
    }

    /** The start of a round of `recv_loop`: `create_shared_memory`, the receiver's mark, and
        the notice that it listens. */
    method Listen()
      requires Valid()
      modifies this`recvChannel, this`msgSeqPicker, this`sendConnected, this`recvConnected, this`pendPong, Outbox()
      ensures Valid() && recvConnected && recvChannel != null && fresh(recvChannel) && fresh(recvChannel.buffer)
      ensures recvChannel.Abs() == NewSlot().(recverWorking := true)
      ensures Replying() == old(Replying()).(beat := old(Pulse(false)).(recvUp := true))
    {
      CreateSharedMemory();
      Notify(START_LISTEN);
    }

    /** `create_shared_memory`, and the receiver's mark. */
    method CreateSharedMemory()
      requires Valid()
      modifies this`recvChannel
      ensures Valid() && recvChannel != null && fresh(recvChannel) && fresh(recvChannel.buffer)
      ensures recvChannel.Abs() == NewSlot().(recverWorking := true) && Replying() == old(Replying())
    {
      recvChannel := new ChannelData();
      recvChannel.recverWorking := true;
    }

    method Halt()
      requires Valid()
      modifies this`running
      ensures Valid() && !running
    {
      running := false;
    }

    method ClearSendQueue()
      requires Valid()
      modifies this`packetQue
      ensures Valid() && packetQue == []
    {
      packetQue := [];
    }

    /** The receiver's mark on the mailbox it reads is taken back. */
    method Unmark()
      requires Valid()
      modifies Inbox()
      ensures Valid()
      ensures recvChannel != null ==> recvChannel.Abs() == old(recvChannel.Abs()).(recverWorking := false)
    {
      if recvChannel != null {
        recvChannel.recverWorking := false;
      }
    }

    /** What `Stop` means for the receive thread. */
    method Retire()
      requires Valid()
      modifies this`running, Inbox()
      ensures Valid() && !running
      ensures recvChannel != null ==> recvChannel.Abs() == old(recvChannel.Abs()).(recverWorking := false)
    {
      Halt();
      Unmark();
    }

    /** `Stop`, up to the joining of the threads: one bye is offered to the peer, then the queue
        is dropped and the receiver's mark is taken back. */
    method Stop(bye: int)
      requires Valid()
      modifies this`msgSeqPicker, this`running, this`packetQue, Outbox(), Inbox()
      ensures Valid() && !running
      ensures old(running) ==> packetQue == []
      ensures old(running) && sendChannel != null ==>
                sendChannel.Abs()
                == Offer(sendConnected, true, old(sendChannel.Abs()), ControlPacket(bye, old(msgSeqPicker)))
      ensures old(running) && recvChannel != null ==>
                recvChannel.Abs() == old(recvChannel.Abs()).(recverWorking := false)
      ensures !old(running) ==>
                && packetQue == old(packetQue) && msgSeqPicker == old(msgSeqPicker)
                && (sendChannel != null ==> sendChannel.Abs() == old(sendChannel.Abs()))
                && (recvChannel != null ==> recvChannel.Abs() == old(recvChannel.Abs()))
    {
      if running {
        var _ := Send(bye);
        Halt();
        ClearSendQueue();
        Unmark();
      }
    }

    // ---- The heartbeat ----

    /** `heart_beat_loop` tests the flags before it sleeps. */
    method HeartBeatCheck() returns (armed: bool)
      requires Valid()
      ensures armed <==> sendConnected && recvConnected
      ensures Pulse(armed) == Heartbeat.Step(Pulse(false), Heartbeat.Check)
    {
      armed := sendConnected && recvConnected;
    }

    /** The rest of the round, after the sleep: a ping takes a number and is written past the
        queue, counted, and the link is cut if it fails or if too many are unanswered. */
    method HeartBeat()
      requires Valid()
      modifies this`msgSeqPicker, this`sendConnected, this`recvConnected, this`pendPong, Outbox()
      ensures Valid() && msgSeqPicker == Int64(old(msgSeqPicker) + 1)
      ensures sendChannel == null ==> Pulse(false) == Heartbeat.Step(old(Pulse(true)), Heartbeat.Ping(false))
      ensures sendChannel != null ==>
                var p := ControlPacket(PING, old(msgSeqPicker));
                var ok := Accepts(old(sendConnected), running, old(sendChannel.Abs()), p);
                && Pulse(false) == Heartbeat.Step(old(Pulse(true)), Heartbeat.Ping(ok))
                && sendChannel.Abs() == Offer(old(sendConnected), running, old(sendChannel.Abs()), p)
      ensures var ok := sendChannel != null && old(sendConnected) && running
                        && old(sendChannel.recverWorking) && !old(sendChannel.newMsg);
              var count := (old(pendPong) + 1) % Heartbeat.SIZE_T;
              && pendPong == (if ok then count else old(pendPong))
              && sendConnected == (ok && count <= 3 && old(sendConnected))
              && recvConnected == (ok && count <= 3 && old(recvConnected))
    {
      hide Represents, Accepts, Offer, ControlPacket;
      var pingOk := Send(PING);
      CountPing(pingOk);
    }

    /** The test of the round: the ping failed, or it is one too many unanswered. */
    method CountPing(pingOk: bool)
      requires Valid()
      modifies this`sendConnected, this`recvConnected, this`pendPong
      ensures Valid() && Pulse(false) == Heartbeat.Step(old(Pulse(true)), Heartbeat.Ping(pingOk))
      ensures var count := (old(pendPong) + 1) % Heartbeat.SIZE_T;
              && pendPong == (if pingOk then count else old(pendPong))
              && sendConnected == (pingOk && count <= 3 && old(sendConnected))
              && recvConnected == (pingOk && count <= 3 && old(recvConnected))
    {
      hide Represents;
      if pingOk { pendPong := Heartbeat.Wrap(pendPong + 1); }
      if !pingOk || pendPong > Heartbeat.MAX_FAILED {
        SetRecvStatus(false);
        SetSendStatus(false);
      }
    }

    /** The answer to a ping. */
    method Pong()
      requires Valid()
      modifies this`msgSeqPicker, Outbox()
      ensures Valid() && Replying() == Hear(old(Replying()), PING)
      ensures recvChannel != null ==> recvChannel.Abs() == old(recvChannel.Abs())
    {
      hide Represents, Offer, Accepts, ControlPacket, Int64;
      var _ := Send(PONG);
    }

    /** `notify`, up to the user's callback. */
    method Notify(evt: int)
      requires Valid()
      modifies this`msgSeqPicker, this`sendConnected, this`recvConnected, this`pendPong, Outbox()
      ensures Valid() && Replying() == Hear(old(Replying()), evt)
      ensures recvConnected == (if evt == START_LISTEN then true
                                else if evt == STOP_LISTEN then false
                                else old(recvConnected))
      ensures sendConnected == (evt == CLIENT_HELLO || evt == SERVER_HELLO || old(sendConnected))
      ensures pendPong == if evt == CLIENT_HELLO || evt == SERVER_HELLO then 0
                          else if evt == PONG then Heartbeat.Wrap(old(pendPong) - 1)
                          else old(pendPong)
      ensures recvChannel != null ==> recvChannel.Abs() == old(recvChannel.Abs())
    {
      hide Represents, Offer, ControlPacket, Int64, Heartbeat.Wrap;
      if evt == START_LISTEN {
        SetRecvStatus(true);
      } else if evt == CLIENT_HELLO || evt == SERVER_HELLO {
        SetSendStatus(true);
        SetPending(0);
      } else if evt == CLIENT_BYEBYE || evt == SERVER_BYEBYE {
      } else if evt == PING {
        Pong();
      } else if evt == PONG {
        SetPending(Heartbeat.Wrap(pendPong - 1));
      } else if evt == STOP_LISTEN {
        SetRecvStatus(false);
      }
    }

    // ---- The receiving side ----

    /** The locked section of `recv`: copy out the header, open an entry for a first packet, copy
        the payload into the entry's buffer, and mark the mailbox read. */
    method TakePacket() returns (header: Header, msgData: array?<byte>)
      requires Valid() && recvChannel != null && recvChannel.newMsg
      requires InBounds(rx, ReadFrame(recvChannel.Abs()))
      modifies this`recvMap, this`heap, this`rx, recvChannel`newMsg, heap
      ensures Valid() && old(heap) <= heap && fresh(heap - old(heap)) && Replying() == old(Replying())
      ensures recvChannel.Abs() == old(recvChannel.Abs()).(newMsg := false)
      ensures header == old(ReadFrame(recvChannel.Abs())).header
      ensures rx == old(Stored(rx, ReadFrame(recvChannel.Abs())))
      ensures if header.msgSeq in recvMap then msgData == recvMap[header.msgSeq].0 else msgData == null
      ensures old(heap == Buffers(recvMap)) ==>
                (Allocates(header) && header.msgSeq in old(rx)) || heap == Buffers(recvMap)
    {
      hide Represents, Agrees, Decode, Copy, Buffers, Allocate, Stored, InBounds;
      ghost var m, frame := rx, ReadFrame(recvChannel.Abs());
      header := GetHeader(recvChannel.buffer);
      OpenEntry(header);
      msgData := StorePayload(header, m, frame);
      MarkRead();
    }

    /** The look-up and the copy of the locked section. */
    method StorePayload(header: Header, ghost m: RecvMap, ghost frame: Frame) returns (msgData: array?<byte>)
      requires Valid() && recvChannel != null && recvChannel.newMsg
      requires frame == ReadFrame(recvChannel.Abs()) && header == frame.header
      requires InBounds(m, frame) && rx == Allocate(m, header)
      modifies this`recvMap, this`rx, heap
      ensures Valid() && rx == Stored(m, frame) && Buffers(recvMap) == old(Buffers(recvMap))
      ensures if header.msgSeq in recvMap then msgData == recvMap[header.msgSeq].0 else msgData == null
    {
      hide Represents, Agrees, Decode, Copy, Buffers, Allocate;
      SameEntries(recvMap, heap, rx);
      var dataSize := recvChannel.size;
      msgData := null;
      if header.msgSeq in recvMap {
        msgData := recvMap[header.msgSeq].0;
      }
      if msgData != null {
        LengthsFit(m, frame);
        Accumulate(frame, header.msgSeq, header.chunkSeq * CAP, dataSize - PREFIX_SIZE);
      }
    }

    method MarkRead()
      requires Valid() && recvChannel != null
      modifies recvChannel`newMsg
      ensures Valid() && recvChannel.Abs() == old(recvChannel.Abs()).(newMsg := false)
    {
      hide Represents;
      recvChannel.newMsg := false;
    }

    /** The `first packet` branch: a fresh buffer and a zero count. */
    method OpenEntry(header: Header)
      requires Valid() && header.totalLen >= 0
      modifies this`recvMap, this`heap, this`rx
      ensures Valid() && rx == Allocate(old(rx), header)
      ensures old(heap) <= heap && fresh(heap - old(heap))
      ensures old(heap == Buffers(recvMap)) ==>
                (Allocates(header) && header.msgSeq in old(rx)) || heap == Buffers(recvMap)
    {
      hide Represents, Buffers;
      SameEntries(recvMap, heap, rx);
      if header.chunkSeq == 0 && header.totalLen != 0 {
        var dataTmp := new byte[header.totalLen];
        PutBuffer(recvMap, header.msgSeq, (dataTmp, 0));
        NewEntry(recvMap, heap, rx, header.msgSeq, dataTmp);
        recvMap := recvMap[header.msgSeq := (dataTmp, 0)];
        heap := heap + {dataTmp};
      }
      rx := Allocate(rx, header);
    }

    /** Copies the payload into the entry's buffer and counts it. */
    method Accumulate(ghost frame: Frame, key: int, off: nat, n: nat)
      requires Valid() && recvChannel != null && key in recvMap && key in rx
      requires PREFIX_SIZE + n <= recvChannel.buffer.Length && off + n <= |rx[key].buf|
      requires frame.body == recvChannel.buffer[PREFIX_SIZE..PREFIX_SIZE + n]
      modifies this`recvMap, this`rx, heap
      ensures Valid() && Buffers(recvMap) == old(Buffers(recvMap))
      ensures rx == old(rx)[key := Entry(Copy(old(rx)[key].buf, off, frame.body), old(rx)[key].got + n)]
      ensures recvMap == old(recvMap)[key := (old(recvMap)[key].0, old(recvMap)[key].1 + n)]
    {
      hide Buffers, Agrees, Represents, OthersStay, Copy;
      SplitEntry(recvMap, heap, rx, key);
      var (msgData, got) := recvMap[key];
      CopyInto(msgData, off, recvChannel.buffer, n, rx[key].buf);
      JoinEntry(recvMap, heap, rx, key, Copy(rx[key].buf, off, frame.body), got + n);
      PutBuffer(recvMap, key, (msgData, got + n));
      recvMap := recvMap[key := (msgData, got + n)];
      rx := rx[key := Entry(Copy(rx[key].buf, off, frame.body), rx[key].got + n)];
    }

    /** `memcpy` of a packet's payload into a message buffer. */
    static method CopyInto(dst: array<byte>, off: nat, src: array<byte>, n: nat, ghost cells: Cells)
      requires dst != src && PREFIX_SIZE + n <= src.Length && off + n <= dst.Length
      requires Agrees(cells, dst[..])
      modifies dst
      ensures Agrees(Copy(cells, off, src[PREFIX_SIZE..PREFIX_SIZE + n]), dst[..])
    {
      forall i | 0 <= i < n {
        dst[off + i] := src[PREFIX_SIZE + i];
      }
      ghost var after := Copy(cells, off, src[PREFIX_SIZE..PREFIX_SIZE + n]);
      forall x | 0 <= x < |after| && after[x].Some? ensures dst[..][x] == after[x].value {
        if off <= x < off + n {
          assert dst[off + (x - off)] == src[PREFIX_SIZE + (x - off)];
        } else {
          assert dst[x] == old(dst[..])[x];
        }
      }
    }

    /** Frees an entry's buffer and erases the entry. */
    method Forget(key: int)
      requires Valid() && key in recvMap
      modifies this`recvMap, this`heap, this`freed, this`rx
      ensures Valid() && rx == old(rx) - {key} && recvMap == old(recvMap) - {key} && Replying() == old(Replying())
      ensures var b := old(recvMap)[key].0;
              && b in old(heap) && b !in old(freed) && heap == old(heap) - {b} && freed == old(freed) + {b}
              && |freed| == old(|freed|) + 1
      ensures old(heap == Buffers(recvMap)) ==> heap == Buffers(recvMap)
    {
      hide Buffers;
      DropBuffer(recvMap, key);
      freed := freed + {recvMap[key].0};
      heap := heap - {recvMap[key].0};
      recvMap := recvMap - {key};
      rx := rx - {key};
    }

    /** `recv` after its locked section: wait for more, discard, or notify; the entry of a
        finished message is freed. */
    method Conclude(header: Header, msgData: array?<byte>, evt: int, senderWorking: bool)
      returns (cont: bool, completed: bool, notice: Notice)
      requires Valid()
      requires if header.msgSeq in recvMap then msgData == recvMap[header.msgSeq].0 else msgData == null
      modifies this`recvMap, this`heap, this`freed, this`rx
      modifies this`msgSeqPicker, this`sendConnected, this`recvConnected, this`pendPong, Outbox()
      ensures Valid() && heap <= old(heap) && old(freed) <= freed
      ensures var (m, o) := Concluded(old(rx), header, evt);
              && rx == m && Tells(o, notice) && notice.Notice? == o.Notified? == completed
              && cont == (o.Notified? ==> senderWorking)
              && |freed| == old(|freed|) + if Frees(o) then 1 else 0
      ensures Replying() == Hear(old(Replying()), if notice.Notice? then notice.evt else 0)
      ensures recvChannel != null ==> recvChannel.Abs() == old(recvChannel.Abs())
      ensures old(heap == Buffers(recvMap)) ==> heap == Buffers(recvMap)
    {
      hide Represents, Agrees, Buffers, Hear, Replying, Concluded, Frees, Tells;
      SameEntries(recvMap, heap, rx);
      ConcludedCases(rx, header, evt);
      var key := header.msgSeq;
      if header.chunkSeq + 1 < header.chunkCount {
        return true, false, NoNotice;
      } else if msgData != null && recvMap[key].1 != header.totalLen {
        Forget(key);
        return true, false, NoNotice;
      }
      notice := Deliver(key, msgData, evt, header.totalLen);
      return senderWorking, true, notice;
    }

    /** Notifies, then frees the buffer and erases the entry. */
    method Deliver(key: int, msgData: array?<byte>, evt: int, len: int) returns (notice: Notice)
      requires Valid()
      requires if key in recvMap then msgData == recvMap[key].0 else msgData == null
      modifies this`recvMap, this`heap, this`freed, this`rx
      modifies this`msgSeqPicker, this`sendConnected, this`recvConnected, this`pendPong, Outbox()
      ensures Valid() && heap <= old(heap) && old(freed) <= freed && rx == old(rx) - {key}
      ensures Tells(Notified(evt, if key in old(rx) then Some(old(rx)[key].buf) else None, len), notice)
      ensures notice.Notice? && notice.evt == evt && |freed| == old(|freed|) + if key in old(rx) then 1 else 0
      ensures Replying() == Hear(old(Replying()), evt)
      ensures recvChannel != null ==> recvChannel.Abs() == old(recvChannel.Abs())
      ensures old(heap == Buffers(recvMap)) ==> heap == Buffers(recvMap)
    {
      hide Represents, Agrees, Buffers, Hear, Replying;
      SameEntries(recvMap, heap, rx);
      notice := Notice(evt, if msgData == null then None else Some(msgData[..]), len);
      Notify(evt);
      if msgData != null {
        Forget(key);
      } else {
        assert rx - {key} == rx;
      }
    }

    /** `recv`. `notice` is what the callback is told; `cont` is the result, false to end the
        receiver's loop; `completed` is the program's `get_completed_msg`. Every buffer that
        leaves the heap is freed, and none that was freed before. */
    method Recv() returns (cont: bool, completed: bool, notice: Notice)
      requires Valid() && recvChannel != null
      requires recvChannel.newMsg || !recvConnected  // the wait is over
      requires recvConnected && running ==> InBounds(rx, ReadFrame(recvChannel.Abs()))
      modifies this`recvMap, this`heap, this`freed, this`rx, recvChannel`newMsg, heap
      modifies this`msgSeqPicker, this`sendConnected, this`recvConnected, this`pendPong, Outbox()
      ensures Valid() && fresh(heap - old(heap)) && old(freed) <= freed
      ensures !old(recvConnected) || !running ==>
                && !cont && !completed && notice == NoNotice
                && rx == old(rx) && recvMap == old(recvMap) && heap == old(heap) && freed == old(freed)
                && recvChannel.Abs() == old(recvChannel.Abs())
      ensures old(recvConnected) && running ==>
                var f := old(ReadFrame(recvChannel.Abs()));
                var (m, o) := Feed(old(rx), f);
                && rx == m && Tells(o, notice) && (notice.Notice? <==> o.Notified?)
                && completed == o.Notified? && cont == (o.Notified? ==> old(recvChannel.senderWorking))
                && |freed| == old(|freed|) + (if Frees(o) then 1 else 0)
                && recvChannel.Abs() == old(recvChannel.Abs()).(newMsg := false)
                && (old(heap == Buffers(recvMap)) ==>
                      (Allocates(f.header) && f.header.msgSeq in old(rx)) || heap == Buffers(recvMap))
      ensures Replying() == Hear(old(Replying()), if notice.Notice? then notice.evt else 0)
    {
      hide Represents, Buffers, Hear, Replying, Frees, Allocates, Decode, Stored, Feed, InBounds, Concluded, Tells;
      if !recvConnected || !running { return false, false, NoNotice; }
      var senderWorking := recvChannel.senderWorking;
      var evt := recvChannel.evType;
      hide Valid;
      FeedFromStored(rx, ReadFrame(recvChannel.Abs()));
      var header, msgData := TakePacket();
      cont, completed, notice := Conclude(header, msgData, evt, senderWorking);
    }
  }
}
