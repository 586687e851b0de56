/** The order in which packets travel. */
module Sequencing {
  import opened Chunking
  import opened Protocol
  import opened Conservation

  /** The packets of message `j`. */
  function Of(ps: seq<Ptr>, j: nat): seq<Ptr> {
    if ps == [] then []
    else
      var r := Of(ps[..|ps| - 1], j);
      if ps[|ps| - 1].msg == j then r + [ps[|ps| - 1]] else r
  }

  /** The packets that `post` pushed, without the control packets. */
  function Posted(msgs: seq<Message>, ps: seq<Ptr>): seq<Ptr> {
    if ps == [] then []
    else
      var p := ps[|ps| - 1];
      var r := Posted(msgs, ps[..|ps| - 1]);
      if p.msg < |msgs| && IsData(msgs[p.msg]) then r + [p] else r
  }

  lemma {:induction false} OfConcat(a: seq<Ptr>, b: seq<Ptr>, j: nat)
    ensures Of(a + b, j) == Of(a, j) + Of(b, j)
  {
    if b == [] {
      assert a + b == a;
    } else {
      OfConcat(a, b[..|b| - 1], j);
      assert (a + b)[..|a + b| - 1] == a + b[..|b| - 1];
    }
  }

  lemma {:induction false} OfNone(ps: seq<Ptr>, j: nat)
    requires forall p :: p in ps ==> p.msg != j
    ensures Of(ps, j) == []
  {
    if ps != [] {
      assert ps[|ps| - 1] in ps;
      OfNone(ps[..|ps| - 1], j);
    }
  }

  lemma {:induction false} PostedConcat(msgs: seq<Message>, a: seq<Ptr>, b: seq<Ptr>)
    ensures Posted(msgs, a + b) == Posted(msgs, a) + Posted(msgs, b)
  {
    if b == [] {
      assert a + b == a;
    } else {
      PostedConcat(msgs, a, b[..|b| - 1]);
      assert (a + b)[..|a + b| - 1] == a + b[..|b| - 1];
    }
  }

  lemma {:induction false} PostedStable(msgs: seq<Message>, more: seq<Message>, ps: seq<Ptr>)
    requires msgs <= more && forall p :: p in ps ==> p.msg < |msgs|
    ensures Posted(more, ps) == Posted(msgs, ps)
  {
    if ps != [] {
      assert ps[|ps| - 1] in ps;
      PostedStable(msgs, more, ps[..|ps| - 1]);
    }
  }

  /** A packet of message `j` failed a send, was lost, or was cleared. */
  ghost predicate Disturbed(s: State, j: nat) {
    || j in s.gone.failed
    || (exists p :: p in s.gone.lost && p.msg == j)
    || (exists p :: p in s.gone.cleared && p.msg == j)
  }

  function FirstChunks(j: nat, n: nat): seq<Ptr> { seq(n, i requires 0 <= i < n => Ptr(j, i)) }

  /** The packets of an undisturbed message travel complete and in order, whatever happens to
      the packets of other messages around them. */
  ghost predicate InOrder(s: State) {
    forall j :: 0 <= j < |s.book.msgs| && j < |s.book.sent| && !Disturbed(s, j) ==>
      Of(Line(s), j) == FirstChunks(j, s.book.sent[j])
  }

  lemma InOrderNext(s: State, a: Action)
    requires Shape(s) && IssuedOnce(s) && Conserved(s) && InOrder(s) && Enabled(s, a)
    ensures InOrder(Next(s, a))
  {
    hide Next, Enabled, Line;
    var t := Next(s, a);
    var mv := MoveOf(s, a);
    LineIssued(s);
    forall j | 0 <= j < |t.book.msgs| && j < |t.book.sent| && !Disturbed(t, j)
      ensures Of(Line(t), j) == FirstChunks(j, t.book.sent[j])
    {
      InOrderByMove(s, t, mv, j);
    }
  }

  function SentOf(s: State, j: nat): nat { if j < |s.book.sent| then s.book.sent[j] else 0 }

  /** What a move that does not disturb message `j` starts from. */
  lemma BeforeMove(s: State, t: State, mv: Move, j: nat)
    requires |s.book.sent| == |s.book.msgs| && InOrder(s) && Moves(s, t, mv) && Books(s, t, mv)
    requires forall p :: p in Line(s) ==> p.msg < |s.book.msgs|
    requires j < |t.book.msgs| && !Disturbed(t, j)
    ensures Of(Line(s), j) == FirstChunks(j, SentOf(s, j)) && j < |t.book.sent|
    ensures t.book.sent[j] == SentOf(s, j) + if Issues(mv) && mv.p.msg == j then 1 else 0
    ensures Issues(mv) && mv.p.msg == j ==> mv.p.chunk == SentOf(s, j)
    ensures forall p :: p in Removed(mv) || (mv.Dump? && p in mv.ps) || (mv.Requeue? && p == mv.p) ==> p.msg != j
  {
    hide Line;
    assert !Disturbed(s, j);
    if j >= |s.book.msgs| { OfNone(Line(s), j); }
    assert forall p :: p in Removed(mv) ==> p in t.gone.lost;
    assert mv.Dump? ==> forall p :: p in mv.ps ==> p in t.gone.cleared;
  }

  lemma InOrderByMove(s: State, t: State, mv: Move, j: nat)
    requires |s.book.sent| == |s.book.msgs| && InOrder(s) && Moves(s, t, mv) && Books(s, t, mv)
    requires forall p :: p in Line(s) ==> p.msg < |s.book.msgs|
    requires j < |t.book.msgs| && !Disturbed(t, j)
    ensures Of(Line(t), j) == FirstChunks(j, t.book.sent[j])
  {
    hide Line, Disturbed, InOrder, Books, Of, FirstChunks;
    BeforeMove(s, t, mv, j);
    match mv
    case Keep =>
    case Grow(p) =>
      OfGrown(Line(s), p, j);
      OneMoreChunk(j, SentOf(s, j));
    case Insert(x, us, p, y) =>
      OfRemoved(x, us, y, j);
      OfInserted(x, p, y, j);
      OnlyControl(s, t, mv, j);
    case Stray(p) =>
    case Requeue(x, p, y) =>
      OfRequeued(x, p, y, j);
    case Lose(x, ps, y) =>
      OfRemoved(x, ps, y, j);
    case Dump(x, ps, y) =>
      OfRemoved(x, ps, y, j);
  }

  lemma OfGrown(x: seq<Ptr>, p: Ptr, j: nat)
    ensures Of(x + [p], j) == Of(x, j) + if p.msg == j then [p] else []
  {
    assert (x + [p])[..|x|] == x;
  }

  lemma OneMoreChunk(j: nat, n: nat)
    ensures FirstChunks(j, n + 1) == FirstChunks(j, n) + [Ptr(j, n)]
  {
  }

  /** A control packet is the only one of its message. */
  lemma OnlyControl(s: State, t: State, mv: Move, j: nat)
    requires Books(s, t, mv) && mv.Insert? && j < |t.book.msgs|
    ensures mv.p.msg == j ==> mv.p == Ptr(j, 0) && FirstChunks(j, t.book.sent[j]) == [mv.p]
    ensures mv.p.msg == j ==> SentOf(s, j) == 0 && FirstChunks(j, 0) == []
  {
  }

  lemma OfInserted(x: seq<Ptr>, p: Ptr, y: seq<Ptr>, j: nat)
    ensures p.msg != j ==> Of(x + ([p] + y), j) == Of(x + y, j)
    ensures p.msg == j && Of(x + y, j) == [] ==> Of(x + ([p] + y), j) == [p]
  {
    OfConcat(x, y, j);
    OfConcat([p], y, j);
    OfConcat(x, [p] + y, j);
  }

  lemma OfRequeued(x: seq<Ptr>, p: Ptr, y: seq<Ptr>, j: nat)
    requires p.msg != j
    ensures Of(x + ([p] + y), j) == Of(x + (y + [p]), j)
  {
    OfInserted(x, p, y, j);
    OfConcat(x, y, j);
    OfConcat(x, y + [p], j);
    OfConcat(y, [p], j);
  }

  lemma OfRemoved(x: seq<Ptr>, ps: seq<Ptr>, y: seq<Ptr>, j: nat)
    requires forall p :: p in ps ==> p.msg != j
    ensures Of(x + (ps + y), j) == Of(x + y, j)
  {
    OfConcat(x, ps + y, j);
    OfConcat(ps, y, j);
    OfConcat(x, y, j);
    OfNone(ps, j);
  }

  ghost predicate Calm(s: State) { s.gone.failed == {} && s.gone.lost == [] && s.gone.cleared == [] }

  /** As long as nothing failed, posted packets travel in the order in which they were pushed. */
  ghost predicate Fifo(s: State) {
    Calm(s) ==> Posted(s.book.msgs, Line(s)) == Posted(s.book.msgs, s.book.issued)
  }

  lemma FifoNext(s: State, a: Action)
    requires Shape(s) && IssuedOnce(s) && Conserved(s) && Fifo(s) && Enabled(s, a)
    ensures Fifo(Next(s, a))
  {
    hide Next, Enabled, Line;
    var mv := MoveOf(s, a);
    LineIssued(s);
    FifoByMove(s, Next(s, a), mv);
  }

  lemma FifoByMove(s: State, t: State, mv: Move)
    requires Fifo(s) && Moves(s, t, mv) && Books(s, t, mv)
    requires forall p :: p in Line(s) || p in s.book.issued ==> p.msg < |s.book.msgs|
    ensures Fifo(t)
  {
    hide Line;
    if Calm(t) {
      assert Calm(s);
      match mv
      case Keep =>
        FifoKept(s, t);
      case Grow(p) =>
        PostedConcat(s.book.msgs, Line(s), [p]);
        PostedConcat(s.book.msgs, s.book.issued, [p]);
      case Insert(x, us, p, y) =>
        assert us == [] && us + y == y;
        PostedInserted(s.book.msgs, x, p, y);
        PostedConcat(s.book.msgs, s.book.issued, [p]);
      case Stray(p) =>
      case Requeue(x, p, y) =>
      case Lose(x, ps, y) =>
        assert ps == [] && ps + y == y;
        FifoKept(s, t);
      case Dump(x, ps, y) =>
        assert ps == [] && ps + y == y;
        FifoKept(s, t);
    }
  }

  lemma FifoKept(s: State, t: State)
    requires Fifo(s) && Calm(s) && s.book.msgs <= t.book.msgs
    requires t.book.issued == s.book.issued && Line(t) == Line(s)
    requires forall p :: p in Line(s) || p in s.book.issued ==> p.msg < |s.book.msgs|
    ensures Fifo(t)
  {
    hide Line;
    PostedStable(s.book.msgs, t.book.msgs, Line(s));
    PostedStable(s.book.msgs, t.book.msgs, s.book.issued);
  }

  lemma PostedInserted(msgs: seq<Message>, x: seq<Ptr>, p: Ptr, y: seq<Ptr>)
    requires p.msg < |msgs| && !IsData(msgs[p.msg])
    ensures Posted(msgs, x + ([p] + y)) == Posted(msgs, x + y)
  {
    PostedConcat(msgs, x, y);
    PostedConcat(msgs, x, [p] + y);
    PostedConcat(msgs, [p], y);
  }
}
