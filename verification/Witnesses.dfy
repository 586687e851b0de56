/** Runs that show why the theorems carry the conditions they do. */
module Witnesses {
  import opened Wire
  import opened Chunking
  import opened Mailbox
  import opened Reassembly
  import opened Protocol
  import opened Sequencing
  import opened Delivery
  import opened Shutdown
  import opened Reachability
  import opened Theorems

  lemma Goes(s: State, a: Action) returns (t: State)
    requires Reachable(s) && Enabled(s, a)
    ensures t == Next(s, a) && Reachable(t)
  {
    hide Next, Enabled, Reachable;
    OneStep(s, a);
    ReachableOn(s, [a]);
    t := Next(s, a);
  }

  lemma StartState() returns (s: State)
    ensures Reachable(s) && s == Init(0)
  {
    s := Init(0);
    assert Legal(s, []) && Exec(s, []) == s;
  }

  /** The receiver listens on a fresh mailbox and nothing was drawn yet. */
  lemma ListeningState() returns (s: State)
    ensures Reachable(s) && s.rcv == Receiver(true, true, map[], [], []) && s.book == Book([], [], [])
    ensures s.snd == Sender([], Idle, false, true, Detached, 0, NoDip, 0)
    ensures s.gone == Gone([], [], [], {})
    ensures !s.mail.live.newMsg && s.mail.live.recverWorking && !s.mail.liveOpened
    ensures s.mail.written == [] && s.mail.readings == [] && !s.mail.smudged
  {
    var s0 := StartState();
    s := Goes(s0, Listen);
    assert Unread(s0) == [];
  }

  /** A bye that gets into the mailbox before the sender claims it, and is read after, is
      consumed without ending the receiver's loop. */
  lemma EarlyByeIsIgnored() returns (s: State)
    ensures Reachable(s) && Enabled(s, Recv) && s.mail.written != []
    ensures IsBye(EventOf(s, LastWrite(s))) && Next(s, Recv).rcv.listening
  {
    var s0 := ListeningState();
    var s1 := EarlyByeWritten(s0);
    s := Goes(s1, Begin);
    SmudgedIff(s);
    RecvEndsLoopIff(s);
  }

  lemma EarlyByeWritten(s0: State) returns (s: State)
    requires Reachable(s0) && s0.book == Book([], [], []) && s0.rcv.listening
    requires s0.snd == Sender([], Idle, false, true, Detached, 0, NoDip, 0)
    requires !s0.mail.live.newMsg && s0.mail.live.recverWorking && !s0.mail.liveOpened && s0.mail.written == []
    requires !s0.mail.smudged
    ensures Reachable(s) && s.snd.hand == Opening && s.snd.link == OnLive && s.rcv.listening && s.mail.live.newMsg
    ensures |s.book.msgs| == 1 && s.book.msgs[0].evt == CLIENT_BYEBYE
    ensures s.mail.written == [Ptr(0, 0)] && s.mail.early && !s.mail.smudged
  {
    hide Reachable, Encode;
    var s1 := Goes(s0, SetConnected(true));
    var s2 := Goes(s1, Attach);
    var s3 := Goes(s2, Draw(Message(CLIENT_BYEBYE, [])));
    s := Goes(s3, Control(0));
  }

  function SmallMessage(): Message { Message(MSG_DATA, [0 as byte]) }

  /** A posted message is unread in the mailbox. */
  lemma OnePosted() returns (s: State)
    ensures Reachable(s) && s.book == Book([SmallMessage()], [1], [Ptr(0, 0)])
    ensures s.snd == Sender([], Tried(Ptr(0, 0), true), true, true, OnLive, 1, NoDip, 0)
    ensures s.gone == Gone([], [], [], {}) && s.rcv.consumed == []
    ensures s.mail.live.newMsg && s.mail.live.recverWorking
    ensures s.mail.written == [Ptr(0, 0)] && s.mail.readings == []
  {
    hide Reachable, Encode;
    var s0 := ListeningState();
    var s1 := Goes(s0, Attach);
    var s2 := Goes(s1, Begin);
    var s3 := Goes(s2, Draw(SmallMessage()));
    var s4 := Goes(s3, Push(0));
    var s5 := Goes(s4, Pop);
    s := Goes(s5, SendOk);
  }

  /** The flag falls and rises while a control packet waits for the mailbox: on one and the same
      connection, a posted packet is overwritten before it is read. */
  lemma FallingFlagLosesAPost() returns (s: State)
    ensures Reachable(s) && s.snd.connected && s.snd.link == OnLive && s.snd.opens == 1 && s.snd.falls == 1
    ensures s.gone.lost == [Ptr(0, 0)] && s.gone.lossAt == [LossAt(1, Overwritten)]
    ensures s.rcv.consumed == [] && Unread(s) == [Ptr(1, 0)]
  {
    hide Reachable, Encode;
    var s0 := OnePosted();
    var s1 := Goes(s0, Draw(Message(PONG, [])));
    var s2 := Goes(s1, SetConnected(false));
    var s3 := Goes(s2, SetConnected(true));
    s := Goes(s3, Control(1));
  }

  function LargeMessage(): Message { Message(MSG_DATA, seq(CAP + 1, _ => 0 as byte)) }

  /** The link is up, and a message of two packets is queued. */
  lemma TwoQueued() returns (s: State)
    ensures Reachable(s) && s.rcv == Receiver(true, true, map[], [], []) && s.book.msgs == [LargeMessage()]
    ensures s.book.sent == [2]
    ensures s.snd == Sender([Ptr(0, 0), Ptr(0, 1)], Idle, true, true, OnLive, 1, Dip(0, false), 0)
    ensures s.gone == Gone([], [], [], {})
    ensures !s.mail.live.newMsg && s.mail.live.recverWorking && s.mail.live.senderWorking && s.mail.written == []
    ensures s.mail.readings == [] && !s.mail.smudged
  {
    hide Reachable;
    var s0 := ListeningState();
    var s1 := Goes(s0, Attach);
    var s2 := Goes(s1, Begin);
    var s3 := Goes(s2, Draw(LargeMessage()));
    var s4 := Goes(s3, Push(0));
    s := Goes(s4, Push(0));
  }

  /** A ping takes the mailbox, so the first packet fails its send and goes to the back. */
  lemma Requeued(s0: State) returns (s: State)
    requires Reachable(s0) && s0.rcv == Receiver(true, true, map[], [], []) && s0.book.msgs == [LargeMessage()]
    requires s0.book.sent == [2]
    requires s0.snd == Sender([Ptr(0, 0), Ptr(0, 1)], Idle, true, true, OnLive, 1, Dip(0, false), 0)
    requires s0.gone == Gone([], [], [], {})
    requires !s0.mail.live.newMsg && s0.mail.live.recverWorking && s0.mail.live.senderWorking && s0.mail.written == []
    requires s0.mail.readings == [] && !s0.mail.smudged
    ensures Reachable(s) && s.rcv == s0.rcv && s.book.msgs == [LargeMessage(), Message(PING, [])]
    ensures s.snd == Sender([Ptr(0, 1), Ptr(0, 0)], Idle, true, true, OnLive, 1, NoDip, 0)
    ensures s.gone == Gone([], [], [], {0})
    ensures s.mail.live.newMsg && s.mail.live.recverWorking && s.mail.live.senderWorking
    ensures s.mail.written == [Ptr(1, 0)] && s.mail.readings == [] && !s.mail.smudged
  {
    hide Reachable, Encode, LargeMessage;
    var s1 := Goes(s0, Pop);
    var s2 := Goes(s1, Draw(Message(PING, [])));
    var s3 := Goes(s2, Control(1));
    var s4 := Goes(s3, SendFail);
    s := Goes(s4, Retry);
    assert s.snd.queue == [Ptr(0, 1), Ptr(0, 0)];
  }

  /** With the link up throughout and nothing lost, one failed send is enough for a posted
      message to be announced with a null payload: its last packet arrives first. */
  lemma OneRetryCanSpoilAMessage() returns (s: State)
    ensures Reachable(s) && s.book.msgs == [LargeMessage(), Message(PING, [])]
    ensures s.gone.lost == [] && s.gone.cleared == []
    ensures |s.rcv.outcomes| == 2 && s.rcv.outcomes[1] == Notified(MSG_DATA, None, CAP + 1)
  {
    hide Reachable, Feed, ReadFrame, Encode, LargeMessage;
    var s0 := TwoQueued();
    var s1 := Requeued(s0);
    RecvEndsLoopIff(s1);
    var s2 := Goes(s1, Recv);
    assert Unread(s1) == [Ptr(1, 0)];
    var s3 := LastFirst(s2);
    s := Goes(s3, Recv);
    assert Unread(s3) == [Ptr(0, 1)] && s.rcv.consumed == [Ptr(1, 0), Ptr(0, 1)];
    SpoiledOutcome(s);
  }

  lemma LastFirst(s0: State) returns (s: State)
    requires Reachable(s0) && s0.book.msgs == [LargeMessage(), Message(PING, [])]
    requires s0.snd == Sender([Ptr(0, 1), Ptr(0, 0)], Idle, true, true, OnLive, 1, NoDip, 0)
    requires !s0.mail.live.newMsg && s0.mail.live.recverWorking && s0.mail.written == [Ptr(1, 0)]
    requires |s0.mail.readings| == 1
    ensures Reachable(s) && s.rcv == s0.rcv && s.gone == s0.gone && s.book == s0.book && s.mail.live.newMsg
    ensures s.mail.written == [Ptr(1, 0), Ptr(0, 1)] && s.mail.readings == s0.mail.readings
  {
    hide Reachable, Encode;
    var s1 := Goes(s0, Pop);
    s := Goes(s1, SendOk);
  }

  lemma SpoiledOutcome(s: State)
    requires Reachable(s) && s.book.msgs == [LargeMessage(), Message(PING, [])]
    requires s.rcv.consumed == [Ptr(1, 0), Ptr(0, 1)] && |s.rcv.outcomes| == 2
    ensures s.rcv.outcomes[1] == Notified(MSG_DATA, None, CAP + 1)
  {
    hide Reachable;
    ExactOutcome(s, 1);
    assert s.rcv.consumed[..2] == [Ptr(1, 0), Ptr(0, 1)];
    assert [Ptr(1, 0), Ptr(0, 1)][..1] == [Ptr(1, 0)] && [Ptr(1, 0)][..0] == [];
    assert Of([Ptr(1, 0)], 0) == [];
    assert Of([Ptr(1, 0), Ptr(0, 1)], 0) == [Ptr(0, 1)];
    assert OrderOf(s.rcv.consumed[..2], 0) == [1];
  }
}
