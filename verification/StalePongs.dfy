/** A run of both directions in which pongs that arrive after a hello cut a link on which only the
    ping just written is unanswered. */
module StalePongs {
  import opened Wire
  import opened Chunking
  import opened Mailbox
  import opened Reassembly
  import opened Protocol
  import opened Transfer
  import opened Shutdown
  import opened Reachability
  import opened Theorems
  import opened Duplex

  // ---- One direction ----

  /** The link is up and nothing is posted; the mailbox holds a control packet of event `evt`, or
      nothing when `evt` is 0; `n` numbers were drawn. */
  ghost predicate Holds(s: State, evt: int, n: nat) {
    && s.snd.(dip := NoDip) == Sender([], Idle, true, true, OnLive, 1, NoDip, 0)
    && s.rcv.listening && s.rcv.running && s.mail.live.recverWorking && s.mail.live.senderWorking
    && |s.book.msgs| == |s.book.sent| == n <= 10
    && (s.mail.live.newMsg <==> evt != 0)
    && (evt != 0 ==>
          && s.mail.written != [] && LastWrite(s).msg < n && LastWrite(s).chunk == 0
          && s.book.msgs[LastWrite(s).msg] == Message(evt, []) && CLIENT_HELLO <= evt <= PONG && !IsBye(evt))
  }

  lemma HoldsDraw(s: State, evt: int, n: nat, e: int)
    requires Holds(s, evt, n) && CLIENT_HELLO <= e <= PONG && n < 10
    ensures Enabled(s, Draw(Message(e, [])))
    ensures var t := Next(s, Draw(Message(e, [])));
            Holds(t, evt, n + 1) && t.book.msgs[n] == Message(e, []) && t.book.sent[n] == 0
  {
  }

  lemma HoldsWrite(s: State, n: nat, e: int, j: nat)
    requires Holds(s, 0, n) && CLIENT_HELLO <= e <= PONG && !IsBye(e)
    requires j < n && s.book.msgs[j] == Message(e, []) && s.book.sent[j] == 0
    ensures Enabled(s, Control(j)) && Holds(Next(s, Control(j)), e, n)
  {
    hide Encode, SeqNo;
  }

  lemma HoldsHear(s: State, evt: int, n: nat)
    requires Reachable(s) && Holds(s, evt, n) && evt != 0
    ensures Enabled(s, Recv) && Holds(Next(s, Recv), 0, n)
    ensures Newest(Next(s, Recv)) == Notified(evt, None, 0)
  {
    hide Feed, ReadFrame, FrameAt, Line, Reachable;
    Facts(s);
    var p := LastWrite(s);
    assert Unread(s) == [p] && p in s.mail.written;
    ControlAnnounced(s, p);
  }

  // ---- The joint run ----

  /** A joint state in which both links are up. */
  ghost predicate Snap(w: World, a: Side, b: Side, up: int, n: nat, down: int, m: nat) {
    Possible(w) && w.a == a && w.b == b && Holds(w.up, up, n) && Holds(w.down, down, m)
  }

  lemma BothUp() returns (w: World)
    ensures var side := Side(0, Resting, Ready, 0, 0, 0); Snap(w, side, side, 0, 0, 0, 0)
  {
    hide Possible;
    w := Start(0, 0);
    StartPossible();
    w := TakeTurn(w, Turn(false, Act.Listen));
    w := TakeTurn(w, Turn(true, Act.Listen));
    w := TakeTurn(w, Turn(true, Plain(Attach)));
    w := TakeTurn(w, Turn(true, Plain(Begin)));
    w := TakeTurn(w, Turn(false, Plain(Attach)));
    w := TakeTurn(w, Turn(false, Plain(Begin)));
  }

  lemma StartPossible()
    ensures Possible(Start(0, 0))
  {
    hide Start;
    assert Lawful(Start(0, 0), []) && Play(Start(0, 0), []) == Start(0, 0);
  }

  /** The first process pings. */
  lemma PingTurns(w: World, a: Side, b: Side, n: nat, down: int, m: nat) returns (v: World)
    requires Snap(w, a, b, 0, n, down, m) && a.pulse == Resting && n < 10
    ensures Snap(v, a.(pulse := Written), b, PING, n + 1, down, m)
  {
    hide Possible, Next, Enabled;
    HoldsDraw(w.up, 0, n, PING);
    var w1 := TakeTurn(w, Turn(true, Check));
    var w2 := TakeTurn(w1, Turn(true, PingDraw));
    HoldsWrite(w2.up, n + 1, PING, n);
    v := TakeTurn(w2, Turn(true, PingWrite));
  }

  lemma CountTurn(w: World, a: Side, b: Side, up: int, n: nat, down: int, m: nat) returns (v: World)
    requires Snap(w, a, b, up, n, down, m) && a.pulse == Written && 0 <= a.pending < 3
    ensures Snap(v, a.(pulse := Resting, pending := a.pending + 1, counted := a.counted + 1), b, up, n, down, m)
  {
    hide Possible, Holds, Heartbeat.Wrap;
    Heartbeat.WrapValue(a.pending + 1);
    v := TakeTurn(w, Turn(true, Count));
  }

  /** The second process hears a ping. */
  lemma PingHeard(w: World, a: Side, b: Side, n: nat, down: int, m: nat) returns (v: World)
    requires Snap(w, a, b, PING, n, down, m) && b.ear == Ready
    ensures Snap(v, a, b.(ear := Hearing(PING)), 0, n, down, m)
  {
    hide Possible, Holds, Next, Enabled, Newest, Reachable;
    BothReachable(w);
    HoldsHear(w.up, PING, n);
    v := TakeTurn(w, Turn(false, Hear));
  }

  /** The second process answers. */
  lemma PongTurns(w: World, a: Side, b: Side, up: int, n: nat, m: nat) returns (v: World)
    requires Snap(w, a, b, up, n, 0, m) && b.ear == Hearing(PING) && m < 10
    ensures Snap(v, a, b.(ear := Ready), up, n, PONG, m + 1)
  {
    hide Possible, Next, Enabled;
    HoldsDraw(w.down, 0, m, PONG);
    var w1 := TakeTurn(w, Turn(false, AnswerDraw));
    HoldsWrite(w1.down, m + 1, PONG, m);
    v := TakeTurn(w1, Turn(false, AnswerWrite));
  }

  /** The send thread of the second process says hello. */
  lemma HelloTurns(w: World, a: Side, b: Side, up: int, n: nat, m: nat) returns (v: World)
    requires Snap(w, a, b, up, n, 0, m) && m < 10
    ensures Snap(v, a, b, up, n, SERVER_HELLO, m + 1)
  {
    hide Possible, Next, Enabled;
    HoldsDraw(w.down, 0, m, SERVER_HELLO);
    var w1 := TakeTurn(w, Turn(false, Plain(Draw(Message(SERVER_HELLO, [])))));
    HoldsWrite(w1.down, m + 1, SERVER_HELLO, m);
    v := TakeTurn(w1, Turn(false, Plain(Control(m))));
  }

  lemma HelloHeard(w: World, a: Side, b: Side, up: int, n: nat, m: nat) returns (v: World)
    requires Snap(w, a, b, up, n, SERVER_HELLO, m) && a.ear == Ready
    ensures Snap(v, a.(pending := 0, base := a.counted - a.handled), b, up, n, 0, m)
  {
    hide Possible, Next, Enabled, Newest, Reachable;
    BothReachable(w);
    HoldsHear(w.down, SERVER_HELLO, m);
    var w1 := TakeTurn(w, Turn(true, Hear));
    HoldsConnect(w1.up, up, n);
    var w2 := TakeTurn(w1, Turn(true, Connect));
    v := TakeTurn(w2, Turn(true, ResetCount));
  }

  lemma HoldsConnect(s: State, evt: int, n: nat)
    requires Holds(s, evt, n)
    ensures Enabled(s, SetConnected(true)) && Holds(Next(s, SetConnected(true)), evt, n)
  {
  }

  lemma PongHeard(w: World, a: Side, b: Side, up: int, n: nat, m: nat) returns (v: World)
    requires Snap(w, a, b, up, n, PONG, m) && a.ear == Ready
    ensures Snap(v, a.(pending := Heartbeat.Wrap(a.pending - 1), handled := a.handled + 1), b, up, n, 0, m)
  {
    hide Possible, Holds, Next, Enabled, Newest, Reachable, Heartbeat.Wrap;
    BothReachable(w);
    HoldsHear(w.down, PONG, m);
    var w1 := TakeTurn(w, Turn(true, Hear));
    v := TakeTurn(w1, Turn(true, HandlePong));
  }

  lemma BothReachable(w: World)
    requires Possible(w)
    ensures Reachable(w.up) && Reachable(w.down)
  {
    hide Possible, Reachable, HalfInv;
    PossibleInv(w);
  }

  /** Two pings are on their way when the peer's hello resets the counter; their pongs then take
      it below zero. At the next ping the link is cut, although both directions are up and no
      other ping is unanswered. */
  lemma StalePongsCutALink() returns (w: World)
    ensures Possible(w) && w.a.pulse == Written && Unanswered(w.a) == 1
    ensures w.up.snd.connected && w.down.rcv.listening
    ensures Do(HalfOf(w, true), Count).me.pulse == Cutting
  {
    hide Possible, Heartbeat.Wrap;
    var side := Side(0, Resting, Ready, 0, 0, 0);
    w := BothUp();
    w := PingTurns(w, side, side, 0, 0, 0);
    w := CountTurn(w, w.a, w.b, PING, 1, 0, 0);
    w := PingHeard(w, w.a, w.b, 1, 0, 0);
    w := PingTurns(w, w.a, w.b, 1, 0, 0);
    w := CountTurn(w, w.a, w.b, PING, 2, 0, 0);
    w := HelloTurns(w, w.a, w.b, PING, 2, 0);
    w := HelloHeard(w, w.a, w.b, PING, 2, 1);
    w := PongTurns(w, w.a, w.b, PING, 2, 1);
    w := PongHeard(w, w.a, w.b, PING, 2, 2);
    w := PingHeard(w, w.a, w.b, 2, 0, 2);
    w := PongTurns(w, w.a, w.b, 0, 2, 2);
    w := PongHeard(w, w.a, w.b, 0, 2, 3);
    w := PingTurns(w, w.a, w.b, 2, 0, 3);
    CutsIff(w, true);
  }
}
