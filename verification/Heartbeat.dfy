/** The heartbeat's counter of unanswered pings. */
module Heartbeat {
  const MAX_FAILED: int := 3                            // MAX_HEART_BEAT_FAILED_TIME
  const SIZE_T: int := 0x1_0000_0000_0000_0000          // values of a 64-bit size_t

  /** The fields that the heartbeat and the notifications share. `armed`: the heartbeat thread
      has found both flags set and sleeps before its ping. */
  datatype Beat = Beat(sendUp: bool, recvUp: bool, armed: bool, pending: int)

  datatype Event =
    | Check               // heart_beat_loop: test the flags
    | Ping(ok: bool)      // heart_beat_loop, after the sleep: ping, count, and cut if need be
    | Hello               // notify: a hello arrived
    | Pong                // notify: a pong arrived
    | SetSend(up: bool)   // the send loop connects, or either side disconnects
    | SetRecv(up: bool)

  /** The `size_t` that counting to `x` leaves. */
  function Wrap(x: int): (r: int)
    ensures 0 <= r < SIZE_T
  {
    x % SIZE_T
  }

  lemma WrapSteps(x: int)
    ensures Wrap(Wrap(x) + 1) == Wrap(x + 1) && Wrap(Wrap(x) - 1) == Wrap(x - 1)
  {
    var q, r := x / SIZE_T, x % SIZE_T;
    assert x + 1 == q * SIZE_T + (r + 1);
    assert x - 1 == q * SIZE_T + (r - 1);
    WrapShift(r + 1, q);
    WrapShift(r - 1, q);
  }

  lemma WrapShift(r: int, q: int)
    ensures Wrap(q * SIZE_T + r) == Wrap(r)
  {
    var k, t := r / SIZE_T, r % SIZE_T;
    assert q * SIZE_T + r == (q + k) * SIZE_T + t;
  }

  lemma WrapValue(x: int)
    requires -SIZE_T <= x < SIZE_T
    ensures Wrap(x) == if x < 0 then x + SIZE_T else x
  {
    WrapShift(x, 1);
  }

  predicate Ok(b: Beat) { 0 <= b.pending < SIZE_T }

  function Step(b: Beat, e: Event): (r: Beat)
    requires Ok(b)
    ensures Ok(r)
  {
    match e
    case Check => b.(armed := b.sendUp && b.recvUp)
    case Ping(ok) =>
      if !b.armed then b
      else if !ok then Beat(false, false, false, b.pending)
      else
        var pending := Wrap(b.pending + 1);
        if pending > MAX_FAILED then Beat(false, false, false, pending) else b.(armed := false, pending := pending)
    case Hello => b.(sendUp := true, pending := 0)
    case Pong => b.(pending := Wrap(b.pending - 1))
    case SetSend(up) => b.(sendUp := up)
    case SetRecv(up) => b.(recvUp := up)
  }

  function Course(b: Beat, es: seq<Event>): (r: Beat)
    requires Ok(b)
    ensures Ok(r)
  {
    if es == [] then b else Step(Course(b, es[..|es| - 1]), es[|es| - 1])
  }

  /** What `notify` does to the flags and the counter. */
  function Notify(b: Beat, evt: int): (r: Beat)
    requires Ok(b)
    ensures Ok(r)
  {
    match evt
    case 1 => Step(b, SetRecv(true))    // start_listen
    case 2 => Step(b, SetRecv(false))   // stop_listen
    case 3 => Step(b, Hello)            // client_hello
    case 4 => Step(b, Hello)            // server_hello
    case 8 => Step(b, Pong)             // pong
    case _ => b
  }

  /** What each event of `notify` means for the flags and the counter. */
  lemma NoticeEffects(b: Beat, evt: int)
    requires Ok(b)
    ensures var r := Notify(b, evt);
            && r.recvUp == (if evt == 1 then true else if evt == 2 then false else b.recvUp)
            && r.sendUp == (evt == 3 || evt == 4 || b.sendUp)
            && r.pending == (if evt == 3 || evt == 4 then 0
                             else if evt == 8 then (b.pending - 1) % SIZE_T
                             else b.pending)
            && r.armed == b.armed
  {
  }

  /** A ping that is counted: the flags were up when tested, and the ping was written. */
  predicate Counts(b: Beat, e: Event) { e.Ping? && e.ok && b.armed }

  /** Pings counted minus pongs handled since the last hello, as an unbounded integer. */
  function Balance(b: Beat, es: seq<Event>): int
    requires Ok(b)
  {
    if es == [] then b.pending
    else
      var front, e := es[..|es| - 1], es[|es| - 1];
      if e == Hello then 0
      else Balance(b, front) + (if Counts(Course(b, front), e) then 1 else 0) - (if e == Pong then 1 else 0)
  }

  /** Over any run the counter is the balance, modulo the width of `size_t`. */
  lemma {:induction false} CounterIsBalance(b: Beat, es: seq<Event>)
    requires Ok(b)
    ensures Course(b, es).pending == Wrap(Balance(b, es))
  {
    hide Wrap;
    if es == [] {
      WrapValue(b.pending);
    } else {
      CounterIsBalance(b, es[..|es| - 1]);
      WrapSteps(Balance(b, es[..|es| - 1]));
      WrapValue(0);
    }
  }

  lemma CourseSnoc(b: Beat, es: seq<Event>, e: Event)
    requires Ok(b)
    ensures Course(b, es + [e]) == Step(Course(b, es), e)
  {
    assert (es + [e])[..|es|] == es;
  }

  /** A counted ping cuts the link exactly when more than 3 are then unanswered, or when pongs
      have outrun the pings and the counter has wrapped around; else it leaves the flags as they
      are, even if they fell during the sleep. */
  lemma CutIff(b: Beat, es: seq<Event>)
    requires Ok(b) && Counts(Course(b, es), Ping(true))
    requires MAX_FAILED - SIZE_T < Balance(b, es) + 1 < SIZE_T
    ensures var unanswered := Balance(b, es) + 1;
            Course(b, es + [Ping(true)]) ==
              if unanswered > MAX_FAILED || unanswered < 0 then Beat(false, false, false, Wrap(unanswered))
              else Course(b, es).(armed := false, pending := unanswered)
  {
    hide Wrap, Course, Balance;
    CourseSnoc(b, es, Ping(true));
    CounterIsBalance(b, es);
    WrapSteps(Balance(b, es));
    WrapValue(Balance(b, es) + 1);
  }

  /** Hence, as long as pongs never exceed counted pings, only more than 3 unanswered cut. */
  lemma CutWhenUnanswered(b: Beat, es: seq<Event>)
    requires Ok(b) && Counts(Course(b, es), Ping(true))
    requires 0 <= Balance(b, es) < SIZE_T - 1
    ensures var r := Course(b, es + [Ping(true)]);
            if Balance(b, es) + 1 > MAX_FAILED then !r.sendUp && !r.recvUp
            else r.sendUp == Course(b, es).sendUp && r.recvUp == Course(b, es).recvUp
  {
    hide Wrap, Course, Balance;
    CutIff(b, es);
  }

  function Rounds(n: nat): seq<Event> { if n == 0 then [] else Rounds(n - 1) + [Check] + [Ping(true)] }

  /** A peer that falls silent after its hello is cut at the fourth counted ping, not before. */
  lemma {:induction false} SilentPeer(n: nat)
    ensures Course(Beat(true, true, false, 0), Rounds(n)) == Beat(n < 4, n < 4, false, if n < 4 then n else 4)
  {
    hide Wrap, Course;
    var b := Beat(true, true, false, 0);
    if n == 0 {
      CourseEmpty(b);
    } else {
      WrapValue(if n < 5 then n else 5);
      CourseSnoc(b, Rounds(n - 1), Check);
      CourseSnoc(b, Rounds(n - 1) + [Check], Ping(true));
      SilentPeer(n - 1);
    }
  }

  lemma CourseEmpty(b: Beat)
    requires Ok(b)
    ensures Course(b, []) == b
  {
  }

  /** Two pongs that arrive after a hello has reset the counter cut a link on which no ping is
      unanswered: the bound on pongs is needed. */
  lemma StalePongsCut(b: Beat)
    requires Ok(b) && b.recvUp
    ensures Balance(b, [Hello, Pong, Pong, Check]) == -2
    ensures !Course(b, [Hello, Pong, Pong, Check, Ping(true)]).sendUp
  {
    hide Wrap, Balance;
    var es := [Hello, Pong, Pong, Check];
    assert [] + [Hello] == es[..1] && es[..1] + [Pong] == es[..2] && es[..2] + [Pong] == es[..3];
    assert es[..3] + [Check] == es && es + [Ping(true)] == [Hello, Pong, Pong, Check, Ping(true)];
    CourseSnoc(b, [], Hello);
    CourseSnoc(b, es[..1], Pong);
    CourseSnoc(b, es[..2], Pong);
    CourseSnoc(b, es[..3], Check);
    BalanceAfterHello(b);
    CutIff(b, es);
  }

  lemma BalanceAfterHello(b: Beat)
    requires Ok(b)
    ensures Balance(b, [Hello, Pong, Pong, Check]) == -2
  {
    var es := [Hello, Pong, Pong, Check];
    assert es[..3] == [Hello, Pong, Pong] && es[..3][..2] == [Hello, Pong] && es[..2] == [Hello, Pong];
    assert [Hello, Pong][..1] == [Hello];
    assert Balance(b, [Hello]) == 0 && Balance(b, [Hello, Pong]) == -1 && Balance(b, es[..3]) == -2;
  }
}
