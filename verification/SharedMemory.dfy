/** The mailbox object in shared memory, updated in place. */
module SharedMemory {
  import opened Wire
  import opened Chunking
  import opened Mailbox

  class ChannelData {
    var newMsg: bool
    var senderWorking: bool
    var recverWorking: bool
    var evType: int
    var size: int
    const buffer: array<byte>

    ghost predicate Valid()
      reads this, buffer
    {
      buffer.Length == PREFIX_SIZE + CAP && (newMsg ==> PREFIX_SIZE <= size <= PREFIX_SIZE + CAP)
    }

    /** The mailbox as the value that the protocol model works on. */
    ghost function Abs(): Slot
      requires Valid()
      reads this, buffer
    {
      Slot(newMsg, senderWorking, recverWorking, evType, size, buffer[..])
    }

    constructor ()
      ensures Valid() && fresh(buffer) && Abs() == NewSlot()
      ensures !newMsg && !senderWorking && !recverWorking && evType == -1 && size == 0
      ensures forall i :: 0 <= i < buffer.Length ==> buffer[i] == 0
    {
      newMsg, senderWorking, recverWorking := false, false, false;
      evType, size := -1, 0;
      buffer := new byte[PREFIX_SIZE + CAP](_ => 0);
      new;
      assert buffer[..] == Zeros();
    }

    /** The locked section of `send_packet`, once its guards have passed: header, payload, size,
        flag and event type, in the order of the program. */
    method Put(p: Packet)
      requires Valid() && |p.data| <= CAP
      modifies this`newMsg, this`senderWorking, this`evType, this`size, buffer
      ensures Valid() && Abs() == WritePacket(old(Abs()), p)
      ensures newMsg && evType == p.evt && size == |p.data| + PREFIX_SIZE
      ensures senderWorking == (old(senderWorking) && p.evt != CLIENT_BYEBYE && p.evt != SERVER_BYEBYE)
    {
      SetHeader(p.header, buffer);
      ghost var prefixed := buffer[..];
      forall i | 0 <= i < |p.data| {
        buffer[PREFIX_SIZE + i] := p.data[i];
      }
      size := |p.data| + PREFIX_SIZE;
      newMsg := true;
      evType := p.evt;
      if p.evt == CLIENT_BYEBYE || p.evt == SERVER_BYEBYE {
        senderWorking := false;
      }
      PutBytes(old(buffer[..]), prefixed, buffer[..], p);
    }

    static lemma PutBytes(before: seq<byte>, prefixed: seq<byte>, after: seq<byte>, p: Packet)
      requires |before| == |prefixed| == |after| == PREFIX_SIZE + CAP && |p.data| <= CAP
      requires prefixed[..PREFIX_SIZE] == Encode(p.header) && prefixed[PREFIX_SIZE..] == before[PREFIX_SIZE..]
      requires forall i :: 0 <= i < |p.data| ==> after[PREFIX_SIZE + i] == p.data[i]
      requires forall i :: 0 <= i < |after| && !(PREFIX_SIZE <= i < PREFIX_SIZE + |p.data|) ==> after[i] == prefixed[i]
      ensures after == Encode(p.header) + p.data + before[PREFIX_SIZE + |p.data|..]
    {
      forall i | 0 <= i < |after|
        ensures after[i] == (Encode(p.header) + p.data + before[PREFIX_SIZE + |p.data|..])[i]
      {
        if i < PREFIX_SIZE {
          assert prefixed[i] == prefixed[..PREFIX_SIZE][i];
        } else if i < PREFIX_SIZE + |p.data| {
          assert after[PREFIX_SIZE + (i - PREFIX_SIZE)] == p.data[i - PREFIX_SIZE];
        } else {
          assert prefixed[i] == prefixed[PREFIX_SIZE..][i - PREFIX_SIZE];
        }
      }
    }
  }
}
