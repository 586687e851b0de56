/** One direction of the channel as a state machine: a sending process, the shared mailbox
    and a receiving process.

    `post` releases its packets one by one, other threads may write between any two steps of
    the send loop, and a timed wait that runs out is a failed send. `send_packet` reads the
    connection flag twice; the flag may rise in between, and then an unread packet is
    overwritten. The other direction only acts through `SetConnected` and through the control
    messages it causes, which may come at any time. */
module Protocol {
  import opened Wire
  import opened Chunking
  import opened Mailbox
  import opened Reassembly

  /** A `DataPacketPtr`: the `chunk`-th packet of the `msg`-th number drawn. */
  datatype Ptr = Ptr(msg: nat, chunk: nat)

  /** Where the send loop stands. `Opening`: the mailbox is mapped but not yet claimed;
      `Leaving`: the inner loop has ended but the mailbox is not yet reset. */
  datatype Hand = Idle | Popped(p: Ptr) | Tried(p: Ptr, ok: bool) | Leaving | Opening

  /** The mailbox the sender has mapped: none, the one the receiver listens on, or an earlier
      one that the receiver has replaced. */
  datatype Link = Detached | OnLive | OnOrphan

  /** How a packet was lost: in the send loop's hand, unread in a mailbox that nobody reads any
      more, or overwritten before it was read. */
  datatype How = Dropped | Stranded | Overwritten

  datatype LossAt = LossAt(conn: nat, how: How)

  /** What one call of `recv` read; `opening`: the sender had not yet claimed the mailbox. */
  datatype Reading = Reading(frame: Frame, working: bool, opening: bool)

  /** The last rise of the connection flag since the last write: the calls that may have ended
      their wait while it was down. These are the calls that had drawn one of the first `draws`
      numbers, and the send loop's, if it had popped its packet by then. */
  datatype Dip = NoDip | Dip(draws: nat, held: bool)

  /** What was drawn and released. */
  datatype Book = Book(
    msgs: seq<Message>,     // in order of sequence number
    sent: seq<nat>,         // how many packets of each draw were released
    issued: seq<Ptr>        // history: packets pushed by `post` and control packets written
  )

  /** The send side of the sending process. */
  datatype Sender = Sender(
    queue: seq<Ptr>,
    hand: Hand,
    connected: bool,
    running: bool,
    link: Link,
    opens: nat,             // connections opened so far
    dip: Dip,
    falls: nat              // history: how often the flag was lowered
  )

  /** The mailbox the receiver listens on, and the one of a sender that is `OnOrphan`. */
  datatype Mailboxes = Mailboxes(
    live: Slot,
    orphan: Slot,
    liveOpened: bool,       // the sender has attached to `live`
    early: bool,            // the last write to `live` came before the sender claimed it
    parted: bool,           // history: a bye was written to `live` after the claim
    smudged: bool,          // history: a write to `live` has overwritten an unread packet
    written: seq<Ptr>,      // history: writes to `live` that were not overwritten
    readings: seq<Reading>  // history: calls of `recv` on `live`
  )

  datatype Receiver = Receiver(
    listening: bool,
    running: bool,
    rx: RecvMap,
    consumed: seq<Ptr>,     // history: packets `recv` consumed, on every connection
    outcomes: seq<Outcome>  // history: what `recv` did with each of them
  )

  /** History: packets that will not arrive, and messages that met a failed send. */
  datatype Gone = Gone(
    lost: seq<Ptr>,
    lossAt: seq<LossAt>,
    cleared: seq<Ptr>,      // dropped by `Stop`
    failed: set<nat>
  )

  /** `first` is the picker's starting value. */
  datatype State = State(first: int, book: Book, snd: Sender, mail: Mailboxes, rcv: Receiver, gone: Gone)

  predicate Valid(s: State, p: Ptr) {
    p.msg < |s.book.msgs| && p.chunk < ChunkCount(|s.book.msgs[p.msg].data|)
  }

  function SeqNo(s: State, j: nat): int { Int64(s.first + j) }

  /** The packet behind a pointer; pointers that are not valid occur in no reachable state. */
  function Deref(s: State, p: Ptr): Packet {
    if Valid(s, p) then Chunk(SeqNo(s, p.msg), s.book.msgs[p.msg], p.chunk)
    else Packet(0, Header(0, 0, 0, 1, 0), [])
  }

  function Init(first: int): State {
    State(first, Book([], [], []), Sender([], Idle, false, true, Detached, 0, NoDip, 0),
          Mailboxes(NewSlot(), NewSlot(), false, false, false, false, [], []), Receiver(false, true, map[], [], []),
          Gone([], [], [], {}))
  }

  // ---- Writing ----

  /** The mailbox the sender is attached to. */
  function Target(s: State): Slot { if s.snd.link == OnLive then s.mail.live else s.mail.orphan }

  /** The guards of `send_packet` for packet `p`. */
  predicate Passes(s: State, p: Ptr, slipped: bool) {
    s.snd.link != Detached && Admits(slipped, s.snd.connected, s.snd.running, Target(s), Deref(s, p))
  }

  /** A call of `send` can write. */
  predicate CanWrite(s: State, p: Ptr) { Passes(s, p, s.snd.dip.Dip? && p.msg < s.snd.dip.draws) }

  /** The send loop can write. */
  predicate CanSend(s: State, p: Ptr) { Passes(s, p, s.snd.dip.Dip? && s.snd.dip.held) }

  /** Either is sure to write: the flag does not change during the call. */
  predicate MustWrite(s: State, p: Ptr) { Passes(s, p, false) }

  /** An unread packet in the mailbox is overwritten. A packet written to a replaced mailbox is
      never read. */
  function Write(s: State, p: Ptr): State
    requires Passes(s, p, true)
  {
    if s.snd.link == OnLive then
      s.(snd := s.snd.(dip := NoDip),
         mail := s.mail.(live := WritePacket(s.mail.live, Deref(s, p)), written := Taken(s.mail) + [p],
                         early := s.snd.hand == Opening,
                         parted := s.mail.parted || (IsBye(Deref(s, p).evt) && s.snd.hand != Opening),
                         smudged := s.mail.smudged || s.mail.live.newMsg),
         gone := LosePackets(s.gone, Unread(s), LossAt(s.snd.opens, Overwritten)))
    else
      s.(snd := s.snd.(dip := NoDip),
         mail := s.mail.(orphan := WritePacket(s.mail.orphan, Deref(s, p))),
         gone := LosePackets(s.gone, [p], LossAt(s.snd.opens, if s.mail.orphan.newMsg then Overwritten else Stranded)))
  }

  /** The writes that were read. */
  function Taken(m: Mailboxes): seq<Ptr> {
    if |m.readings| <= |m.written| then m.written[..|m.readings|] else m.written
  }

  function LosePackets(g: Gone, ps: seq<Ptr>, at: LossAt): Gone {
    g.(lost := g.lost + ps, lossAt := g.lossAt + seq(|ps|, _ => at))
  }

  // ---- Where packets are ----

  function Unread(s: State): seq<Ptr> {
    if |s.mail.readings| <= |s.mail.written| then s.mail.written[|s.mail.readings|..] else []
  }

  function InHand(s: State): seq<Ptr> {
    match s.snd.hand
    case Popped(p) => [p]
    case Tried(p, ok) => if ok then [] else [p]
    case _ => []
  }

  /** Every packet on its way or arrived, in the order in which `recv` takes them. */
  function Line(s: State): seq<Ptr> {
    s.rcv.consumed + (Unread(s) + (InHand(s) + s.snd.queue))
  }

  // ---- Steps ----

  datatype Action =
    | Draw(m: Message)        // post, send: take a sequence number
    | Push(j: nat)            // post: push the next packet
    | Control(j: nat)         // send: a hello, bye, ping or pong is written
    | Pop                     // send_loop: pop_packet
    | SendOk                  // send_loop: send_packet writes the mailbox
    | SendFail                // send_loop: send_packet gives up
    | Retry                   // send_loop: still connected; a failed packet goes to the back
    | Drop                    // send_loop: the retry's push finds the channel stopped
    | Break                   // send_loop: no longer connected
    | Reset                   // send_loop: reset_send_channel
    | Attach                  // send_loop: open_shared_memory
    | Begin                   // send_loop: claim the mailbox and connect
    | SetConnected(b: bool)   // hello received, or heartbeat cut
    | Listen                  // recv_loop: create_shared_memory
    | Recv                    // recv_loop: recv
    | Quit                    // recv_loop: no longer connected
    | RecverStop              // Stop in the receiving process
    | Halt                    // Stop in the sending process
    | Clear                   // Stop: clear_send_queue

  predicate Enabled(s: State, a: Action) {
    match a
    case Draw(m) => IsMessage(m)
    case Push(j) =>
      && j < |s.book.msgs| && j < |s.book.sent| && IsData(s.book.msgs[j])
      && s.book.sent[j] < ChunkCount(|s.book.msgs[j].data|)
    case Control(j) =>
      && j < |s.book.msgs| && j < |s.book.sent| && IsControl(s.book.msgs[j]) && s.book.sent[j] == 0
      && CanWrite(s, Ptr(j, 0))
    case Pop => s.snd.hand == Idle && s.snd.link != Detached && s.snd.connected && s.snd.queue != []
    case SendOk => s.snd.hand.Popped? && CanSend(s, s.snd.hand.p)
    case SendFail => s.snd.hand.Popped? && !MustWrite(s, s.snd.hand.p)
    case Retry => s.snd.hand.Tried? && s.snd.connected
    case Drop => s.snd.hand.Tried? && !s.snd.hand.ok && s.snd.connected && !s.snd.running
    case Break => s.snd.link != Detached && !s.snd.connected && (s.snd.hand == Idle || s.snd.hand.Tried?)
    case Reset => s.snd.hand == Leaving
    case Attach =>
      && s.snd.running && s.snd.hand == Idle && s.snd.link == Detached
      && !s.mail.liveOpened && s.mail.live.recverWorking
    case Begin => s.snd.hand == Opening
    case SetConnected(_) => true
    case Listen => !s.rcv.listening && s.rcv.running
    case Recv => s.rcv.listening && s.mail.live.newMsg
    case Quit => s.rcv.listening
    case RecverStop => true
    case Halt => true
    case Clear => !s.snd.running
  }

  /** A packet whose send failed is dropped when the loop leaves. */
  function DoBreak(s: State): State {
    s.(snd := s.snd.(hand := Leaving), gone := LosePackets(s.gone, InHand(s), LossAt(s.snd.opens, Dropped)))
  }

  /** The connection flag is set. */
  function Rise(snd: Sender, draws: nat): Sender {
    snd.(connected := true, dip := if snd.connected then snd.dip else Dip(draws, snd.hand.Popped?))
  }

  /** The send loop takes a new packet. */
  function Unheld(d: Dip): Dip { if d.Dip? then d.(held := false) else NoDip }

  function DoBegin(s: State): State {
    var claimed := if s.snd.link == OnLive then s.mail.(live := s.mail.live.(senderWorking := true))
                   else s.mail.(orphan := s.mail.orphan.(senderWorking := true));
    s.(snd := Rise(s.snd, |s.book.msgs|).(hand := Idle), mail := claimed)
  }

  /** The receiver makes a new mailbox. What it left unread in the old one is lost; a sender
      still attached to the old one keeps writing there. */
  function DoListen(s: State): State {
    var attached := s.snd.link == OnLive;
    s.(snd := s.snd.(link := if attached then OnOrphan else s.snd.link),
       mail := Mailboxes(NewSlot().(recverWorking := true), if attached then s.mail.live else s.mail.orphan,
                         false, false, false, false, [], []),
       rcv := s.rcv.(listening := true),
       gone := LosePackets(s.gone, Unread(s), LossAt(s.snd.opens, Stranded)))
  }

  /** `recv` works from the bytes of the mailbox alone; which packet they came from is history. */
  function DoRecv(s: State): State
    requires s.mail.live.newMsg
  {
    var f := ReadFrame(s.mail.live);
    var working := s.mail.live.senderWorking;
    var (rx, o) := Feed(s.rcv.rx, f);
    s.(mail := s.mail.(live := s.mail.live.(newMsg := false),
                       readings := s.mail.readings + [Reading(f, working, s.snd.hand == Opening)]),
       rcv := Receiver(if o.Notified? then working else true, s.rcv.running, rx,
                       s.rcv.consumed + Unread(s), s.rcv.outcomes + [o]))
  }

  function Next(s: State, a: Action): State
    requires Enabled(s, a)
  {
    match a
    case Draw(m) => s.(book := s.book.(msgs := s.book.msgs + [m], sent := s.book.sent + [0]))
    case Push(j) =>
      var p := Ptr(j, s.book.sent[j]);
      s.(book := Issue(s.book, p), snd := s.snd.(queue := s.snd.queue + [p]))
    case Control(j) => Write(s, Ptr(j, 0)).(book := Issue(s.book, Ptr(j, 0)))
    case Pop =>
      s.(snd := s.snd.(hand := Popped(s.snd.queue[0]), queue := s.snd.queue[1..],
                       dip := Unheld(s.snd.dip)))
    case SendOk => var t := Write(s, s.snd.hand.p); t.(snd := t.snd.(hand := Tried(s.snd.hand.p, true)))
    case SendFail =>
      s.(snd := s.snd.(hand := Tried(s.snd.hand.p, false)),
         gone := s.gone.(failed := s.gone.failed + {s.snd.hand.p.msg}))
    case Retry =>
      s.(snd := s.snd.(hand := Idle, queue := if s.snd.hand.ok then s.snd.queue else s.snd.queue + [s.snd.hand.p]))
    case Drop => s.(snd := s.snd.(hand := Idle), gone := s.gone.(cleared := s.gone.cleared + [s.snd.hand.p]))
    case Break => DoBreak(s)
    case Reset => s.(snd := s.snd.(hand := Idle, link := Detached))
    case Attach =>
      s.(snd := s.snd.(hand := Opening, link := OnLive, opens := s.snd.opens + 1), mail := s.mail.(liveOpened := true))
    case Begin => DoBegin(s)
    case SetConnected(b) =>
      s.(snd := if b then Rise(s.snd, |s.book.msgs|) else s.snd.(connected := false, falls := s.snd.falls + 1))
    case Listen => DoListen(s)
    case Recv => DoRecv(s)
    case Quit => s.(rcv := s.rcv.(listening := false))
    case RecverStop =>
      s.(mail := s.mail.(live := s.mail.live.(recverWorking := false)),
         rcv := s.rcv.(listening := false, running := false))
    case Halt => s.(snd := s.snd.(running := false))
    case Clear => s.(snd := s.snd.(queue := []), gone := s.gone.(cleared := s.gone.cleared + s.snd.queue))
  }

  /** Message `p.msg` releases its next packet. */
  function Issue(b: Book, p: Ptr): Book
    requires p.msg < |b.sent|
  {
    b.(sent := b.sent[p.msg := p.chunk + 1], issued := b.issued + [p])
  }

  // ---- Runs ----

  predicate Legal(s: State, run: seq<Action>)
    decreases |run|
  {
    run == [] || (Enabled(s, run[0]) && Legal(Next(s, run[0]), run[1..]))
  }

  function Exec(s: State, run: seq<Action>): State
    requires Legal(s, run)
    decreases |run|
  {
    if run == [] then s else Exec(Next(s, run[0]), run[1..])
  }
}
