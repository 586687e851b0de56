/** The one-slot mailbox in shared memory (`ChannelData`). */
module Mailbox {
  import opened Wire
  import opened Chunking

  /** The fields of `ChannelData` that the protocol uses, as a value. */
  datatype SlotFields = Slot(
    newMsg: bool,
    senderWorking: bool,
    recverWorking: bool,
    evType: int,
    size: int,
    buf: seq<byte>
  )

  predicate WellFormed(s: SlotFields) {
    && |s.buf| == PREFIX_SIZE + CAP
    && (s.newMsg ==> PREFIX_SIZE <= s.size <= PREFIX_SIZE + CAP)
  }

  type Slot = s: SlotFields | WellFormed(s)
    ghost witness Slot(false, false, false, -1, 0, Zeros())

  function Zeros(): seq<byte> { seq(PREFIX_SIZE + CAP, _ => 0 as byte) }

  /** A mailbox as its constructor leaves it, before the receiver marks it as its own. */
  function NewSlot(): Slot { Slot(false, false, false, -1, 0, Zeros()) }

  /** What `recv` copies out of the mailbox. */
  datatype Frame = Frame(evt: int, header: Header, body: seq<byte>)

  function ReadFrame(s: Slot): Frame
    requires s.newMsg
  {
    Frame(s.evType, Decode(s.buf[..PREFIX_SIZE]), s.buf[PREFIX_SIZE..s.size])
  }

  /** What `send_packet` leaves in the mailbox; bytes past the packet keep their old values. */
  function WritePacket(s: Slot, p: Packet): Slot
    requires |p.data| <= CAP
  {
    Slot(true, s.senderWorking && !IsBye(p.evt), s.recverWorking, p.evt, |p.data| + PREFIX_SIZE,
         Encode(p.header) + p.data + s.buf[PREFIX_SIZE + |p.data|..])
  }

  /** The guards of `send_packet` on a mapped mailbox. The wait also ends when it finds the flag
      down (`slipped`); if the flag rises before it is read again, the guards pass on an unread
      mailbox. */
  predicate Admits(slipped: bool, connected: bool, running: bool, s: Slot, p: Packet) {
    |p.data| <= CAP && connected && (s.newMsg ==> slipped) && running && s.recverWorking
  }

  /** The guards when the flag keeps its value during the call. */
  predicate Accepts(connected: bool, running: bool, s: Slot, p: Packet) {
    Admits(false, connected, running, s, p)
  }

  /** What a call of `send_packet` leaves in the mailbox. */
  function Offer(connected: bool, running: bool, s: Slot, p: Packet): Slot {
    if Accepts(connected, running, s, p) then WritePacket(s, p) else s
  }

  function FrameOf(p: Packet): Frame { Frame(p.evt, Reduce(p.header), p.data) }

  /** A mailbox is written exactly when it is read, marked by its receiver and big enough, and
      the writing process is connected and running. */
  lemma OfferIff(connected: bool, running: bool, s: Slot, p: Packet)
    ensures Offer(connected, running, s, p) != s
            <==> |p.data| <= CAP && connected && running && s.recverWorking && !s.newMsg
  {
  }

  /** Either bye takes back the sender's mark, and nothing else in a write touches a mark. */
  lemma MarksAfterWrite(s: Slot, p: Packet)
    requires |p.data| <= CAP
    ensures var t := WritePacket(s, p);
            && (t.senderWorking <==> s.senderWorking && p.evt != CLIENT_BYEBYE && p.evt != SERVER_BYEBYE)
            && (t.recverWorking <==> s.recverWorking)
  {
  }

  /** Reading a written mailbox gives back the packet of that write, all parts together,
      with its header cut to wire widths and nothing of what the mailbox held before. */
  lemma ReadAfterWrite(s: Slot, p: Packet)
    requires |p.data| <= CAP
    ensures ReadFrame(WritePacket(s, p)) == FrameOf(p)
  {
    var buf := WritePacket(s, p).buf;
    assert buf[..PREFIX_SIZE] == Encode(p.header);
    assert buf[PREFIX_SIZE..PREFIX_SIZE + |p.data|] == p.data;
    DecodeEncode(p.header);
  }
}
