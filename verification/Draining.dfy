/** Progress of the pipeline: queue, send loop, mailbox, receiver. */
module Draining {
  import opened Wire
  import opened Chunking
  import opened Mailbox
  import opened Reassembly
  import opened Orders
  import opened Protocol
  import opened Conservation
  import opened Sequencing
  import opened Transfer
  import opened Delivery
  import opened Loss
  import opened Shutdown
  import opened Reachability
  import opened Theorems

  /** The work left: three steps for a queued packet, two for one in hand, three again for one
      whose send has failed, one for one in the mailbox. */
  function Pending(s: State): nat {
    3 * |s.snd.queue| + (if s.mail.live.newMsg then 1 else 0)
    + match s.snd.hand
      case Popped(_) => 2
      case Tried(_, ok) => if ok then 0 else 3
      case _ => 0
  }

  /** The work that comes in: three steps with each packet pushed, one with each written past the
      queue. */
  function Entered(run: seq<Action>): nat {
    if run == [] then 0 else (if run[0].Push? then 3 else if run[0].Control? then 1 else 0) + Entered(run[1..])
  }

  lemma PendingStep(s: State, a: Action)
    requires Enabled(s, a)
    ensures Pending(Next(s, a)) + (if a.Pop? || a.SendOk? || a.Recv? then 1 else 0)
            <= Pending(s) + (if a.Push? then 3 else if a.Control? || a.SendFail? then 1 else 0)
  {
    hide Feed, ReadFrame, Deref, WritePacket, Zeros;
  }

  /** Over any run, each pop, write and read uses up a step of work, and only pushes, control
      packets and failed sends add any: no packet goes round in circles but by a failed send. */
  lemma {:induction false} WorkIsBounded(s: State, run: seq<Action>)
    requires Legal(s, run)
    ensures var steps := multiset(run);
            steps[Pop] + steps[SendOk] + steps[Recv] + Pending(Exec(s, run))
            <= Pending(s) + Entered(run) + steps[SendFail]
    decreases |run|
  {
    hide Next, Enabled, Pending;
    if run != [] {
      PendingStep(s, run[0]);
      WorkIsBounded(Next(s, run[0]), run[1..]);
      assert run == [run[0]] + run[1..];
    }
  }

  /** So without new packets and failed sends the pipeline runs dry. */
  lemma QuietRunsDrain(s: State, run: seq<Action>)
    requires Legal(s, run)
    requires forall a :: a in run ==> !a.Push? && !a.Control? && !a.SendFail?
    ensures var steps := multiset(run); steps[Pop] + steps[SendOk] + steps[Recv] + Pending(Exec(s, run)) <= Pending(s)
  {
    hide Legal, Exec, Pending;
    WorkIsBounded(s, run);
    NothingEnters(run);
    assert SendFail !in run;
  }

  lemma {:induction false} NothingEnters(run: seq<Action>)
    requires forall a :: a in run ==> !a.Push? && !a.Control?
    ensures Entered(run) == 0
  {
    if run != [] {
      assert run[0] in run;
      NothingEnters(run[1..]);
    }
  }

  /** Both sides are on the same claimed mailbox. */
  predicate LinkUp(s: State) {
    && s.snd.connected && s.snd.running && s.snd.link == OnLive
    && (s.snd.hand == Idle || s.snd.hand.Popped? || s.snd.hand.Tried?)
    && s.mail.live.recverWorking && s.mail.live.senderWorking && s.rcv.listening
  }

  /** Like `Pending`, but also counting the retry of a packet whose send has failed. */
  function Rank(s: State): nat {
    4 * |s.snd.queue| + (if s.mail.live.newMsg then 1 else 0)
    + match s.snd.hand
      case Popped(_) => 3
      case Tried(_, ok) => if ok then 1 else 5
      case _ => 0
  }

  /** One thread that can run: the receiver when there is something to read, else the sender. */
  function Choice(s: State): Action {
    if s.mail.live.newMsg then Recv
    else match s.snd.hand
      case Popped(_) => SendOk
      case Tried(_, _) => Retry
      case _ => Pop
  }

  lemma ChoiceAdvances(s: State)
    requires Inv(s) && LinkUp(s) && Rank(s) > 0
    ensures Enabled(s, Choice(s))
    ensures LinkUp(Next(s, Choice(s))) && Rank(Next(s, Choice(s))) < Rank(s)
    ensures Next(s, Choice(s)).book == s.book && Next(s, Choice(s)).gone == s.gone
  {
    hide Feed, ReadFrame, Deref, Encode, Inv, LosePackets;
    if s.snd.hand.Popped? && !s.mail.live.newMsg { HandFits(s); }
    NothingOverwritten(s);
    WriteKeepsSides(s);
  }

  /** A write to an empty mailbox loses nothing. */
  lemma NothingOverwritten(s: State)
    requires Inv(s)
    ensures !s.mail.live.newMsg ==> Unread(s) == []
    ensures forall at :: LosePackets(s.gone, [], at) == s.gone
  {
    hide Inv;
    EmptyMeansRead(s);
    forall at ensures LosePackets(s.gone, [], at) == s.gone {
      assert s.gone.lossAt + seq(0, _ => at) == s.gone.lossAt;
    }
  }

  lemma EmptyMeansRead(s: State)
    requires Inv(s)
    ensures !s.mail.live.newMsg ==> Unread(s) == []
  {
    hide Line;
  }

  lemma HandFits(s: State)
    requires Inv(s) && s.snd.hand.Popped?
    ensures |Deref(s, s.snd.hand.p).data| <= CAP && !IsBye(Deref(s, s.snd.hand.p).evt)
  {
    hide InOrder, Fifo, Mailed, Reassembled, Losses, Claims, Working, Line;
    KnownInLine(s);
    var p := s.snd.hand.p;
    assert p in InHand(s);
    ChunkShape(|s.book.msgs[p.msg].data|, p.chunk);
  }

  lemma WriteKeepsSides(s: State)
    ensures forall p: Packet :: |p.data| <= CAP ==>
              var t := WritePacket(s.mail.live, p);
              && t.recverWorking == s.mail.live.recverWorking
              && (t.senderWorking <==> s.mail.live.senderWorking && !IsBye(p.evt))
  {
  }

  /** From any reachable state with the link up, the two processes can empty the pipeline
      without a single failed send, and nothing is lost on the way. */
  lemma {:induction false} CanDrain(s: State) returns (run: seq<Action>)
    requires Reachable(s) && LinkUp(s)
    ensures Legal(s, run) && Rank(Exec(s, run)) == 0 && Reachable(Exec(s, run)) && LinkUp(Exec(s, run))
    ensures Exec(s, run).book == s.book && Exec(s, run).gone == s.gone
    decreases Rank(s)
  {
    hide Inv, LinkUp, Enabled, Next, Choice, Rank, Reachable;
    if Rank(s) == 0 {
      run := [];
    } else {
      ReachableInv(s);
      ChoiceAdvances(s);
      OneStep(s, Choice(s));
      ReachableOn(s, [Choice(s)]);
      var rest := CanDrain(Next(s, Choice(s)));
      run := [Choice(s)] + rest;
      ExecConcat(s, [Choice(s)], rest);
    }
  }

  /** No packet of message `j` was lost or cleared. */
  ghost predicate Kept(s: State, j: nat) {
    forall p :: p in s.gone.lost || p in s.gone.cleared ==> p.msg != j
  }

  /** All packets of message `j` were pushed or, for a control message, written. */
  predicate FullyIssued(s: State, j: nat) {
    j < |s.book.msgs| && j < |s.book.sent| && s.book.sent[j] == ChunkCount(|s.book.msgs[j].data|)
  }

  /** In an empty pipeline every fully issued message of which nothing was lost has been consumed
      whole. It was delivered intact exactly when its first packet came first and its last packet
      last; that is always so for a message of one packet, whatever sends failed, and for a
      message that met no failed send. All its other packets only waited. */
  lemma DrainedMeansDelivered(s: State, j: nat) returns (i: nat)
    requires Reachable(s) && FewDraws(s) && Pending(s) == 0
    requires FullyIssued(s, j) && Kept(s, j)
    ensures i < |s.rcv.consumed| == |s.rcv.outcomes| && s.rcv.consumed[i].msg == j
    ensures var m, n, order := s.book.msgs[j], s.book.sent[j], OrderOf(s.rcv.consumed, j);
            && |order| == n
            && (s.rcv.outcomes[i] == Intact(m) <==> order[0] == 0 && order[n - 1] == n - 1)
            && (n == 1 || j !in s.gone.failed ==> s.rcv.outcomes[i] == Intact(m))
    ensures forall k :: 0 <= k < |s.rcv.consumed| && s.rcv.consumed[k].msg == j && k != i ==>
              s.rcv.outcomes[k] == Waiting
  {
    hide Inv, Line, Lift, OrderOf, Clean;
    Facts(s);
    OutcomesMatch(s);
    var n := s.book.sent[j];
    AllConsumed(s);
    AllChunksConsumed(s, j);
    i :| 0 <= i < |s.rcv.consumed| && s.rcv.consumed[i] == Ptr(j, n - 1);
    ExactOutcome(s, i);
    WholeOrder(s, j, i);
    forall k | 0 <= k < |s.rcv.consumed| && s.rcv.consumed[k].msg == j && k != i
      ensures s.rcv.outcomes[k] == Waiting
    {
      NotTwiceConsumed(s, i, k);
      CleanMember(s, s.rcv.consumed, k);
      ExactOutcome(s, k);
    }
    if j !in s.gone.failed {
      NotDisturbed(s, j);
      Isolation(s, j, i);
    }
  }

  lemma NotDisturbed(s: State, j: nat)
    requires Kept(s, j) && j !in s.gone.failed
    ensures !Disturbed(s, j)
  {
  }

  lemma NotTwiceConsumed(s: State, i: nat, k: nat)
    requires Clean(s, s.rcv.consumed) && i < |s.rcv.consumed| && k < |s.rcv.consumed| && i != k
    ensures s.rcv.consumed[i] != s.rcv.consumed[k]
  {
  }

  lemma AllConsumed(s: State)
    requires Inv(s) && Pending(s) == 0
    ensures Line(s) == s.rcv.consumed
  {
    assert Unread(s) == [] && InHand(s) == [] && s.snd.queue == [];
  }

  lemma AllChunksConsumed(s: State, j: nat)
    requires Inv(s) && Line(s) == s.rcv.consumed && j < |s.book.sent| && Kept(s, j)
    ensures forall c: nat :: c < s.book.sent[j] ==> Ptr(j, c) in s.rcv.consumed
  {
    hide Inv, Line;
    IssuedSplit(s);
    forall c: nat | c < s.book.sent[j] ensures Ptr(j, c) in s.rcv.consumed {
      var p := Ptr(j, c);
      assert p in multiset(s.book.issued);
      assert p !in s.gone.lost && p !in s.gone.cleared;
    }
  }

  lemma IssuedSplit(s: State)
    requires Inv(s)
    ensures multiset(s.book.issued) == multiset(Line(s)) + multiset(s.gone.lost) + multiset(s.gone.cleared)
    ensures forall p: Ptr :: p.msg < |s.book.sent| && p.chunk < s.book.sent[p.msg] ==> p in s.book.issued
  {
    hide Line;
  }

  /** When all packets of a message were consumed, the order up to the last packet is the whole
      order exactly when the last packet came last. */
  lemma WholeOrder(s: State, j: nat, i: nat)
    requires Clean(s, s.rcv.consumed) && FullyIssued(s, j)
    requires forall c: nat :: c < s.book.sent[j] ==> Ptr(j, c) in s.rcv.consumed
    requires i < |s.rcv.consumed| && s.rcv.consumed[i] == Ptr(j, s.book.sent[j] - 1)
    ensures var n, order, upto := s.book.sent[j], OrderOf(s.rcv.consumed, j), OrderOf(s.rcv.consumed[..i + 1], j);
            && |order| == n && upto != [] && order[0] == upto[0]
            && (|upto| == n <==> order[n - 1] == n - 1)
            && (n == 1 ==> order[0] == 0)
  {
    hide OrderOf;
    var ps, n := s.rcv.consumed, s.book.sent[j];
    var order, upto := OrderOf(ps, j), OrderOf(ps[..i + 1], j);
    CleanOrder(s, ps, j);
    forall c: nat | c < n ensures c in order { InOrderOf(ps, j, c); }
    Pigeonhole(order, n);
    LastOfOrder(ps[..i + 1]);
    OrderConcat(ps[..i + 1], ps[i + 1..], j);
    assert ps[..i + 1] + ps[i + 1..] == ps;
    assert order[|upto| - 1] == n - 1;
  }

  lemma OrderConcat(a: seq<Ptr>, b: seq<Ptr>, j: nat)
    ensures OrderOf(a + b, j) == OrderOf(a, j) + OrderOf(b, j)
  {
    OfConcat(a, b, j);
  }

  /** Message `j` itself was delivered intact. */
  ghost predicate Delivered(s: State, j: nat) {
    && j < |s.book.msgs| && |s.rcv.consumed| == |s.rcv.outcomes|
    && exists i :: 0 <= i < |s.rcv.consumed| && s.rcv.consumed[i].msg == j
                   && s.rcv.outcomes[i] == Intact(s.book.msgs[j])
  }

  /** Hence the link being up is enough: the processes can go on so that every fully issued
      message is delivered of which nothing was lost so far, unless it has several packets and
      one of them failed a send. Each is delivered under its own number, also if others carry
      the same bytes. */
  lemma CanDeliver(s: State) returns (run: seq<Action>)
    requires Reachable(s) && FewDraws(s) && LinkUp(s)
    ensures Legal(s, run) && LinkUp(Exec(s, run)) && Exec(s, run).book == s.book
    ensures forall j :: 0 <= j && FullyIssued(s, j) && Kept(s, j) && (s.book.sent[j] == 1 || j !in s.gone.failed) ==>
              Delivered(Exec(s, run), j)
  {
    hide Inv, LinkUp, Legal, Exec, Next, Enabled, Intact, OrderOf;
    run := CanDrain(s);
    var t := Exec(s, run);
    forall j | 0 <= j && FullyIssued(s, j) && Kept(s, j) && (s.book.sent[j] == 1 || j !in s.gone.failed)
      ensures Delivered(t, j)
    {
      var i := DrainedMeansDelivered(t, j);
    }
  }

  // ---- Order of delivery ----

  /** The messages announced for posted packets, in order. */
  function Announced(msgs: seq<Message>, ps: seq<Ptr>, os: seq<Outcome>): seq<nat>
    requires |ps| == |os|
  {
    if ps == [] then []
    else
      var p := ps[|ps| - 1];
      var r := Announced(msgs, ps[..|ps| - 1], os[..|ps| - 1]);
      if p.msg < |msgs| && IsData(msgs[p.msg]) && os[|ps| - 1].Notified? then r + [p.msg] else r
  }

  /** The messages whose last packet is in `ps`, in order. */
  function Completed(msgs: seq<Message>, ps: seq<Ptr>): seq<nat> {
    if ps == [] then []
    else
      var p := ps[|ps| - 1];
      var r := Completed(msgs, ps[..|ps| - 1]);
      if p.msg < |msgs| && p.chunk + 1 == ChunkCount(|msgs[p.msg].data|) then r + [p.msg] else r
  }

  lemma {:induction false} PostedAt(msgs: seq<Message>, ps: seq<Ptr>, x: nat)
    requires x < |ps| && ps[x].msg < |msgs| && IsData(msgs[ps[x].msg])
    ensures |Posted(msgs, ps[..x])| < |Posted(msgs, ps)|
    ensures Posted(msgs, ps)[|Posted(msgs, ps[..x])|] == ps[x]
  {
    var front := ps[..|ps| - 1];
    if x < |front| {
      PostedAt(msgs, front, x);
      assert front[..x] == ps[..x];
    }
  }

  lemma {:induction false} PostedGrows(msgs: seq<Message>, ps: seq<Ptr>, x: nat, y: nat)
    requires x < y <= |ps| && ps[x].msg < |msgs| && IsData(msgs[ps[x].msg])
    ensures |Posted(msgs, ps[..x])| < |Posted(msgs, ps[..y])|
  {
    PostedAt(msgs, ps[..y], x);
    assert ps[..y][..x] == ps[..x];
  }

  lemma {:induction false} PostedDistinct(msgs: seq<Message>, ps: seq<Ptr>)
    requires NoRepeats(ps)
    ensures NoRepeats(Posted(msgs, ps)) && forall p :: p in Posted(msgs, ps) ==> p in ps
  {
    if ps != [] {
      PostedDistinct(msgs, ps[..|ps| - 1]);
      assert ps[|ps| - 1] !in ps[..|ps| - 1];
    }
  }

  /** When nothing failed, posted packets are consumed in the order in which they were pushed,
      whichever calls of `post` they come from. */
  lemma ConsumedInPushOrder(s: State, x: nat, y: nat, i: nat, k: nat)
    requires Reachable(s) && s.gone.failed == {} && s.gone.lost == [] && s.gone.cleared == []
    requires x < y < |s.book.issued| && i < |s.rcv.consumed| && k < |s.rcv.consumed|
    requires s.rcv.consumed[i] == s.book.issued[x] && s.rcv.consumed[k] == s.book.issued[y]
    requires s.book.issued[x].msg < |s.book.msgs| && s.book.msgs[s.book.issued[x].msg].evt == MSG_DATA
    requires s.book.issued[y].msg < |s.book.msgs| && s.book.msgs[s.book.issued[y].msg].evt == MSG_DATA
    ensures i < k
  {
    hide Inv, Clean, Posted, Unread, InHand;
    var msgs, line, issued := s.book.msgs, Line(s), s.book.issued;
    LineInOrder(s);
    PostedAt(msgs, issued, x);
    PostedAt(msgs, issued, y);
    PostedGrows(msgs, issued, x, y);
    PostedAt(msgs, line, i);
    PostedAt(msgs, line, k);
    PostedDistinct(msgs, issued);
    if k < i { PostedGrows(msgs, line, k, i); }
  }

  lemma LineInOrder(s: State)
    requires Reachable(s) && s.gone.failed == {} && s.gone.lost == [] && s.gone.cleared == []
    ensures Posted(s.book.msgs, Line(s)) == Posted(s.book.msgs, s.book.issued) && NoRepeats(s.book.issued)
    ensures forall j :: 0 <= j < |s.book.msgs| && s.book.msgs[j].evt == MSG_DATA ==> IsData(s.book.msgs[j])
  {
    hide Line;
    Facts(s);
    SingleMeansNoRepeats(s.book.issued);
  }

  /** When nothing failed and the pipeline is empty, the messages were delivered in the order in
      which their last packets were pushed. */
  lemma DeliveredInPostOrder(s: State)
    requires Reachable(s) && FewDraws(s) && Pending(s) == 0
    requires s.gone.failed == {} && s.gone.lost == [] && s.gone.cleared == []
    ensures |s.rcv.consumed| == |s.rcv.outcomes|
    ensures Announced(s.book.msgs, s.rcv.consumed, s.rcv.outcomes)
            == Completed(s.book.msgs, Posted(s.book.msgs, s.book.issued))
  {
    hide Line, Shape, Queued, IssuedOnce, Conserved, InOrder, Mailed, Reassembled, Losses, Claims, Working;
    hide Clean, Known, Announced, Completed, Posted, Pending, NoticesAtLast;
    Facts(s);
    OutcomesMatch(s);
    AllConsumed(s);
    NoticesAtLastChunks(s);
    AnnouncedUpTo(s, |s.rcv.consumed|);
    assert s.rcv.consumed[..|s.rcv.consumed|] == s.rcv.consumed;
    assert s.rcv.outcomes[..|s.rcv.consumed|] == s.rcv.outcomes;
  }

  /** In a calm run `recv` announces exactly at last packets. */
  ghost predicate NoticesAtLast(s: State) {
    && |s.rcv.consumed| == |s.rcv.outcomes|
    && forall i :: 0 <= i < |s.rcv.consumed| ==>
         && s.rcv.consumed[i].msg < |s.book.msgs|
         && (s.rcv.outcomes[i].Notified? <==>
               s.rcv.consumed[i].chunk + 1 == ChunkCount(|s.book.msgs[s.rcv.consumed[i].msg].data|))
  }

  lemma NoticesAtLastChunks(s: State)
    requires Reachable(s) && FewDraws(s) && Calm(s)
    ensures NoticesAtLast(s)
  {
    hide Inv, Line, OrderOf, Lift;
    Facts(s);
    OutcomesMatch(s);
    forall i | 0 <= i < |s.rcv.consumed|
      ensures s.rcv.consumed[i].msg < |s.book.msgs|
      ensures s.rcv.outcomes[i].Notified? <==>
                s.rcv.consumed[i].chunk + 1 == ChunkCount(|s.book.msgs[s.rcv.consumed[i].msg].data|)
    {
      CleanMember(s, s.rcv.consumed, i);
      ExactOutcome(s, i);
      var p := s.rcv.consumed[i];
      if p.chunk + 1 == ChunkCount(|s.book.msgs[p.msg].data|) { Isolation(s, p.msg, i); }
    }
  }

  lemma AnnouncedGrows(msgs: seq<Message>, ps: seq<Ptr>, os: seq<Outcome>, p: Ptr, o: Outcome)
    requires |ps| == |os| && p.msg < |msgs|
    ensures Announced(msgs, ps + [p], os + [o])
            == Announced(msgs, ps, os) + if IsData(msgs[p.msg]) && o.Notified? then [p.msg] else []
  {
    hide IsData;
    assert (ps + [p])[..|ps|] == ps && (os + [o])[..|os|] == os;
  }

  lemma CompletedGrows(msgs: seq<Message>, ps: seq<Ptr>, p: Ptr)
    requires p.msg < |msgs|
    ensures Completed(msgs, ps + [p])
            == Completed(msgs, ps) + if p.chunk + 1 == ChunkCount(|msgs[p.msg].data|) then [p.msg] else []
  {
    hide ChunkCount;
    assert (ps + [p])[..|ps|] == ps;
  }

  lemma PostedOneMore(msgs: seq<Message>, ps: seq<Ptr>, p: Ptr)
    requires p.msg < |msgs|
    ensures Posted(msgs, ps + [p]) == Posted(msgs, ps) + if IsData(msgs[p.msg]) then [p] else []
  {
    hide IsData;
    assert (ps + [p])[..|ps|] == ps;
  }

  lemma NoneAnnounced(msgs: seq<Message>)
    ensures Announced(msgs, [], []) == [] && Completed(msgs, Posted(msgs, [])) == []
  {
  }

  lemma {:induction false} AnnouncedUpTo(s: State, n: nat)
    requires NoticesAtLast(s) && n <= |s.rcv.consumed|
    ensures Announced(s.book.msgs, s.rcv.consumed[..n], s.rcv.outcomes[..n])
            == Completed(s.book.msgs, Posted(s.book.msgs, s.rcv.consumed[..n]))
  {
    hide Announced, Completed, Posted, ChunkCount;
    if n == 0 {
      NoneAnnounced(s.book.msgs);
      assert s.rcv.consumed[..0] == [] && s.rcv.outcomes[..0] == [];
    } else {
      var r := Posted(s.book.msgs, s.rcv.consumed[..n - 1]);
      assert r + [] == r && Completed(s.book.msgs, r) + [] == Completed(s.book.msgs, r);
      AnnouncedUpTo(s, n - 1);
      assert s.rcv.consumed[..n] == s.rcv.consumed[..n - 1] + [s.rcv.consumed[n - 1]];
      assert s.rcv.outcomes[..n] == s.rcv.outcomes[..n - 1] + [s.rcv.outcomes[n - 1]];
      var p := s.rcv.consumed[n - 1];
      AnnouncedGrows(s.book.msgs, s.rcv.consumed[..n - 1], s.rcv.outcomes[..n - 1], p, s.rcv.outcomes[n - 1]);
      PostedOneMore(s.book.msgs, s.rcv.consumed[..n - 1], p);
      CompletedGrows(s.book.msgs, r, p);
    }
  }
}
