/** The invariant of every run. */
module Reachability {
  import opened Mailbox
  import opened Protocol
  import opened Conservation
  import opened Sequencing
  import opened Transfer
  import opened Delivery
  import opened Loss
  import opened Shutdown

  ghost predicate Inv(s: State) {
    && Shape(s) && Queued(s)
    && IssuedOnce(s) && Conserved(s)
    && InOrder(s) && Fifo(s)
    && Mailed(s) && Reassembled(s)
    && Losses(s) && Claims(s)
    && (FewDraws(s) ==> Working(s))
  }

  lemma InvInit(first: int)
    ensures Inv(Init(first))
  {
    hide Zeros;
    var s := Init(first);
    assert Line(s) == [];
  }

  lemma InvNext(s: State, a: Action)
    requires Inv(s) && Enabled(s, a)
    ensures Inv(Next(s, a))
  {
    hide Next, Enabled, Shape, Queued, IssuedOnce, Conserved, InOrder, Fifo, Mailed, Reassembled, Losses, Claims;
    hide Working, Known;
    KnownInLine(s);
    ShapeNext(s, a);
    QueuedNext(s, a);
    IssuedOnceNext(s, a);
    ConservedNext(s, a);
    InOrderNext(s, a);
    FifoNext(s, a);
    MailedNext(s, a);
    ReassembledNext(s, a);
    LossesNext(s, a);
    ClaimsNext(s, a);
    DrawsGrow(s, a);
    if FewDraws(s) { WorkingNext(s, a); }
  }

  lemma DrawsGrow(s: State, a: Action)
    requires Enabled(s, a)
    ensures |s.book.msgs| <= |Next(s, a).book.msgs|
  {
    hide Next, Enabled;
    BookOf(s, a);
  }

  lemma {:induction false} InvExec(s: State, run: seq<Action>)
    requires Inv(s) && Legal(s, run)
    ensures Inv(Exec(s, run))
    decreases |run|
  {
    hide Inv, Next, Enabled;
    if run != [] {
      InvNext(s, run[0]);
      InvExec(Next(s, run[0]), run[1..]);
    }
  }

  /** The states of all runs, from any starting value of the sequence number picker. */
  ghost predicate Reachable(s: State) {
    exists first: int, run: seq<Action> :: Legal(Init(first), run) && Exec(Init(first), run) == s
  }

  lemma ReachableInv(s: State)
    requires Reachable(s)
    ensures Inv(s)
  {
    hide Inv, Init, Legal, Exec;
    var first: int, run: seq<Action> :| Legal(Init(first), run) && Exec(Init(first), run) == s;
    InvInit(first);
    InvExec(Init(first), run);
  }

  lemma {:induction false} ExecConcat(s: State, a: seq<Action>, b: seq<Action>)
    requires Legal(s, a) && Legal(Exec(s, a), b)
    ensures Legal(s, a + b) && Exec(s, a + b) == Exec(Exec(s, a), b)
    decreases |a|
  {
    hide Next, Enabled;
    if a == [] {
      assert a + b == b;
    } else {
      ExecConcat(Next(s, a[0]), a[1..], b);
      assert (a + b)[1..] == a[1..] + b;
    }
  }

  /** Whatever a reachable state can go on to do is reachable. */
  lemma ReachableOn(s: State, run: seq<Action>)
    requires Reachable(s) && Legal(s, run)
    ensures Reachable(Exec(s, run))
  {
    hide Init, Legal, Exec;
    var first: int, before: seq<Action> :| Legal(Init(first), before) && Exec(Init(first), before) == s;
    ExecConcat(Init(first), before, run);
  }
}
