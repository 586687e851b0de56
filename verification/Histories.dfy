/** What the state remembers of its run: the history fields, the flags and the marks at any point
    of a run, in terms of the steps taken so far. */
module Histories {
  import opened Wire
  import opened Chunking
  import opened Mailbox
  import opened Reassembly
  import opened Protocol
  import opened Conservation
  import opened Sequencing
  import opened Transfer
  import opened Loss
  import opened Shutdown
  import opened Reachability
  import opened Theorems

  /** The state before step `i` of a run. */
  function At(s: State, run: seq<Action>, i: nat): State
    requires Legal(s, run) && i <= |run|
    decreases i
  {
    if i == 0 then s else At(Next(s, run[0]), run[1..], i - 1)
  }

  lemma {:induction false} AtStep(s: State, run: seq<Action>, i: nat)
    requires Legal(s, run) && i < |run|
    ensures Enabled(At(s, run, i), run[i]) && At(s, run, i + 1) == Next(At(s, run, i), run[i])
    decreases i
  {
    hide Next, Enabled;
    if i > 0 { AtStep(Next(s, run[0]), run[1..], i - 1); }
  }

  lemma {:induction false} AtIsExec(s: State, run: seq<Action>, i: nat)
    requires Legal(s, run) && i <= |run|
    ensures Legal(s, run[..i]) && At(s, run, i) == Exec(s, run[..i])
    decreases i
  {
    hide Next, Enabled;
    if i > 0 {
      AtIsExec(Next(s, run[0]), run[1..], i - 1);
      assert run[..i][1..] == run[1..][..i - 1];
    }
  }

  lemma AtEnd(s: State, run: seq<Action>)
    requires Legal(s, run)
    ensures At(s, run, |run|) == Exec(s, run)
  {
    AtIsExec(s, run, |run|);
    assert run[..|run|] == run;
  }

  lemma AtReachable(first: int, run: seq<Action>, i: nat)
    requires Legal(Init(first), run) && i <= |run|
    ensures Reachable(At(Init(first), run, i)) && Inv(At(Init(first), run, i))
  {
    hide Init, Legal, Exec, Inv;
    AtIsExec(Init(first), run, i);
    ReachableInv(At(Init(first), run, i));
  }

  // ---- Failed, lost and cleared packets ----

  /** A message counts as failed exactly when a send of one of its own packets has failed. */
  lemma {:induction false} FailedIff(first: int, run: seq<Action>, k: nat, j: nat)
    requires Legal(Init(first), run) && k <= |run|
    ensures j in At(Init(first), run, k).gone.failed
            <==> exists i :: 0 <= i < k && run[i] == SendFail
                             && var hand := At(Init(first), run, i).snd.hand; hand.Popped? && hand.p.msg == j
  {
    hide Next, Enabled, Legal, At, Init;
    if k > 0 {
      FailedIff(first, run, k - 1, j);
      AtStep(Init(first), run, k - 1);
      FailedStep(At(Init(first), run, k - 1), run[k - 1], j);
    } else {
      AtStart(first, run);
    }
  }

  lemma AtStart(first: int, run: seq<Action>)
    requires Legal(Init(first), run)
    ensures At(Init(first), run, 0) == Init(first)
    ensures var s := Init(first);
            && s.gone == Gone([], [], [], {}) && s.snd == Sender([], Idle, false, true, Detached, 0, NoDip, 0)
            && s.rcv == Receiver(false, true, map[], [], []) && !s.mail.live.recverWorking
  {
  }

  lemma FailedStep(s: State, a: Action, j: nat)
    requires Enabled(s, a)
    ensures j in Next(s, a).gone.failed
            <==> j in s.gone.failed || (a == SendFail && s.snd.hand.Popped? && s.snd.hand.p.msg == j)
  {
    hide CanWrite, CanSend, MustWrite, Feed, ReadFrame;
  }

  /** A packet is lost exactly when the send loop leaves with it, when it is unread in the mailbox
      and is overwritten or the mailbox is replaced, or when it is written to a mailbox that was
      already replaced. */
  lemma {:induction false} LostIff(first: int, run: seq<Action>, k: nat, p: Ptr)
    requires Legal(Init(first), run) && k <= |run|
    ensures p in At(Init(first), run, k).gone.lost
            <==> exists i :: 0 <= i < k
                   && var s, a := At(Init(first), run, i), run[i];
                      var unread := s.mail.live.newMsg && s.mail.written != []
                                    && s.mail.written[|s.mail.written| - 1] == p;
                      || (a == Break && s.snd.hand == Tried(p, false))
                      || (a == Listen && unread)
                      || ((a == SendOk || a.Control?) && s.snd.link == OnLive && unread)
                      || (a == SendOk && s.snd.link == OnOrphan && s.snd.hand == Popped(p))
                      || (a.Control? && s.snd.link == OnOrphan && p == Ptr(a.j, 0))
  {
    hide Next, Enabled, Legal, At, Init, Inv;
    if k > 0 {
      LostIff(first, run, k - 1, p);
      AtStep(Init(first), run, k - 1);
      AtReachable(first, run, k - 1);
      LostStep(At(Init(first), run, k - 1), run[k - 1], p);
    } else {
      AtStart(first, run);
    }
  }

  lemma LostStep(s: State, a: Action, p: Ptr)
    requires Inv(s) && Enabled(s, a)
    ensures p in Next(s, a).gone.lost
            <==> p in s.gone.lost
                 || (var unread := s.mail.live.newMsg && s.mail.written != []
                                   && s.mail.written[|s.mail.written| - 1] == p;
                     || (a == Break && s.snd.hand == Tried(p, false))
                     || (a == Listen && unread)
                     || ((a == SendOk || a.Control?) && s.snd.link == OnLive && unread)
                     || (a == SendOk && s.snd.link == OnOrphan && s.snd.hand == Popped(p))
                     || (a.Control? && s.snd.link == OnOrphan && p == Ptr(a.j, 0)))
  {
    hide Inv, Deref, Feed, ReadFrame, WritePacket;
    UnreadIs(s);
  }

  lemma UnreadIs(s: State)
    requires Inv(s)
    ensures Unread(s) == if s.mail.live.newMsg then [s.mail.written[|s.mail.written| - 1]] else []
    ensures s.mail.live.newMsg ==> s.mail.written != []
  {
    hide Queued, IssuedOnce, Conserved, InOrder, Fifo, Mailed, Reassembled, Losses, Claims, Working, Counters;
  }

  /** A packet is cleared exactly when `Stop` finds it in the queue, or when the retry of its
      failed send finds the channel stopped. */
  lemma {:induction false} ClearedIff(first: int, run: seq<Action>, k: nat, p: Ptr)
    requires Legal(Init(first), run) && k <= |run|
    ensures p in At(Init(first), run, k).gone.cleared
            <==> exists i :: 0 <= i < k
                   && var s, a := At(Init(first), run, i), run[i];
                      (a == Clear && p in s.snd.queue) || (a == Drop && s.snd.hand == Tried(p, false))
  {
    hide Next, Enabled, Legal, At, Init;
    if k > 0 {
      ClearedIff(first, run, k - 1, p);
      AtStep(Init(first), run, k - 1);
      ClearedStep(At(Init(first), run, k - 1), run[k - 1], p);
    } else {
      AtStart(first, run);
    }
  }

  lemma ClearedStep(s: State, a: Action, p: Ptr)
    requires Enabled(s, a)
    ensures p in Next(s, a).gone.cleared
            <==> p in s.gone.cleared || (a == Clear && p in s.snd.queue) || (a == Drop && s.snd.hand == Tried(p, false))
  {
    hide CanWrite, CanSend, MustWrite, Feed, ReadFrame;
  }

  /** Isolation on runs: if no step of a run fails, loses or clears a packet of message `j`, then
      the message is delivered intact at its last packet and announced at no other, whatever the
      steps do to the packets of other messages. */
  lemma IsolationOnRuns(first: int, run: seq<Action>, j: nat, i: nat)
    requires Legal(Init(first), run) && |Exec(Init(first), run).book.msgs| <= 0x1_0000_0000
    requires forall k :: 0 <= k < |run| ==>
               var s, a := At(Init(first), run, k), run[k];
               && (s.snd.hand.Popped? && s.snd.hand.p.msg == j ==>
                     a != SendFail && !(a == SendOk && s.snd.link == OnOrphan))
               && (s.snd.hand.Tried? && !s.snd.hand.ok && s.snd.hand.p.msg == j ==> a != Break && a != Drop)
               && ((exists p :: p in s.snd.queue && p.msg == j) ==> a != Clear)
               && (s.mail.live.newMsg && s.mail.written != [] && s.mail.written[|s.mail.written| - 1].msg == j ==>
                     a != Listen && !((a == SendOk || a.Control?) && s.snd.link == OnLive))
               && !(a == Control(j) && s.snd.link == OnOrphan)
    requires var t := Exec(Init(first), run);
             && j < |t.book.msgs|
             && i < |t.rcv.consumed| && t.rcv.consumed[i] == Ptr(j, ChunkCount(|t.book.msgs[j].data|) - 1)
    ensures var t := Exec(Init(first), run);
            var m := t.book.msgs[j];
            && |t.rcv.consumed| == |t.rcv.outcomes|
            && t.rcv.outcomes[i] == Notified(m.evt, if m.data == [] then None else Some(Lift(m.data)), |m.data|)
            && forall k :: 0 <= k < |t.rcv.consumed| && t.rcv.consumed[k].msg == j && k != i ==>
                 t.rcv.outcomes[k] == Waiting
  {
    hide Next, Enabled, Legal, At, Exec, Init, Lift, Reachable, Inv;
    AtEnd(Init(first), run);
    AtReachable(first, run, |run|);
    var t := Exec(Init(first), run);
    FailedIff(first, run, |run|, j);
    forall p: Ptr | p.msg == j ensures p !in t.gone.lost && p !in t.gone.cleared {
      LostIff(first, run, |run|, p);
      ClearedIff(first, run, |run|, p);
    }
    Isolation(t, j, i);
  }

  // ---- Counts, flags and marks ----

  /** Falls of the flag, connections and calls of `recv` are counted one by one. */
  lemma {:induction false} CountsAre(first: int, run: seq<Action>, k: nat)
    requires Legal(Init(first), run) && k <= |run|
    ensures var s, steps := At(Init(first), run, k), multiset(run[..k]);
            && s.snd.falls == steps[SetConnected(false)] && s.snd.opens == steps[Attach]
            && |s.rcv.outcomes| == steps[Recv]
  {
    hide Next, Enabled, Legal, At, Init;
    if k > 0 {
      CountsAre(first, run, k - 1);
      AtStep(Init(first), run, k - 1);
      CountsStep(At(Init(first), run, k - 1), run[k - 1]);
      assert run[..k] == run[..k - 1] + [run[k - 1]];
    } else {
      AtStart(first, run);
      assert run[..0] == [];
    }
  }

  lemma CountsStep(s: State, a: Action)
    requires Enabled(s, a)
    ensures var t := Next(s, a);
            && t.snd.falls == s.snd.falls + (if a == SetConnected(false) then 1 else 0)
            && t.snd.opens == s.snd.opens + (if a == Attach then 1 else 0)
            && |t.rcv.outcomes| == |s.rcv.outcomes| + (if a == Recv then 1 else 0)
  {
    hide CanWrite, CanSend, MustWrite, Feed, ReadFrame;
  }

  /** The connection flag is up exactly when it was raised and has not been lowered since. */
  lemma {:induction false} ConnectedIff(first: int, run: seq<Action>, k: nat)
    requires Legal(Init(first), run) && k <= |run|
    ensures At(Init(first), run, k).snd.connected
            <==> exists i :: 0 <= i < k && (run[i] == SetConnected(true) || run[i] == Begin)
                             && forall h :: i < h < k ==> run[h] != SetConnected(false)
  {
    hide Next, Enabled, Legal, At, Init;
    if k > 0 {
      ConnectedIff(first, run, k - 1);
      AtStep(Init(first), run, k - 1);
      ConnectedStep(At(Init(first), run, k - 1), run[k - 1]);
    } else {
      AtStart(first, run);
    }
  }

  lemma ConnectedStep(s: State, a: Action)
    requires Enabled(s, a)
    ensures Next(s, a).snd.connected
            == (a == SetConnected(true) || a == Begin || (s.snd.connected && a != SetConnected(false)))
  {
    hide CanWrite, CanSend, MustWrite, Feed, ReadFrame;
  }

  /** A process runs until its `Stop`, and the mailbox in use has its receiver's mark from the
      first `Listen` until then. */
  lemma {:induction false} RunningIff(first: int, run: seq<Action>, k: nat)
    requires Legal(Init(first), run) && k <= |run|
    ensures var s := At(Init(first), run, k);
            && (s.snd.running <==> Halt !in run[..k])
            && (s.rcv.running <==> RecverStop !in run[..k])
            && (s.mail.live.recverWorking <==> Listen in run[..k] && RecverStop !in run[..k])
  {
    hide Next, Enabled, Legal, At, Init;
    if k > 0 {
      RunningIff(first, run, k - 1);
      AtStep(Init(first), run, k - 1);
      RunningStep(At(Init(first), run, k - 1), run[k - 1]);
      assert run[..k] == run[..k - 1] + [run[k - 1]];
    } else {
      AtStart(first, run);
    }
  }

  lemma RunningStep(s: State, a: Action)
    requires Enabled(s, a)
    ensures var t := Next(s, a);
            && t.snd.running == (s.snd.running && a != Halt)
            && t.rcv.running == (s.rcv.running && a != RecverStop)
            && t.mail.live.recverWorking == (a != RecverStop && (a == Listen || s.mail.live.recverWorking))
            && (a == Listen ==> s.rcv.running)
  {
    hide CanWrite, CanSend, MustWrite, Feed, ReadFrame, Encode, Zeros, Deref, Unread, LosePackets;
  }

  /** The receiver listens from a `Listen` until its flag falls, it stops, or a call of `recv`
      announces something from a mailbox that its sender does not work on. */
  lemma {:induction false} ListeningIff(first: int, run: seq<Action>, k: nat)
    requires Legal(Init(first), run) && k <= |run|
    ensures At(Init(first), run, k).rcv.listening
            <==> exists i :: 0 <= i < k && run[i] == Listen
                   && forall h :: i < h < k ==>
                        && run[h] != Quit && run[h] != RecverStop
                        && var s := At(Init(first), run, h);
                           (run[h] == Recv && s.mail.live.newMsg && !s.mail.live.senderWorking ==>
                              !Feed(s.rcv.rx, ReadFrame(s.mail.live)).1.Notified?)
  {
    hide Next, Enabled, Legal, At, Init, Feed, ReadFrame;
    if k > 0 {
      ListeningIff(first, run, k - 1);
      AtStep(Init(first), run, k - 1);
      ListeningStep(At(Init(first), run, k - 1), run[k - 1]);
    } else {
      AtStart(first, run);
    }
  }

  lemma ListeningStep(s: State, a: Action)
    requires Enabled(s, a)
    ensures Next(s, a).rcv.listening
            <==> a == Listen
                 || (s.rcv.listening && a != Quit && a != RecverStop
                     && (a == Recv && s.mail.live.newMsg && !s.mail.live.senderWorking ==>
                           !Feed(s.rcv.rx, ReadFrame(s.mail.live)).1.Notified?))
  {
    hide CanWrite, CanSend, MustWrite, Feed, ReadFrame;
  }

  /** Each reading of the mailbox in use is a call of `recv` on it: the frame that was in it, and
      whether its sender was then working on it or had not yet claimed it. */
  lemma {:induction false} ReadingOf(first: int, run: seq<Action>, k: nat, r: nat) returns (i: nat)
    requires Legal(Init(first), run) && k <= |run| && r < |At(Init(first), run, k).mail.readings|
    ensures i < k && run[i] == Recv && forall h :: i < h < k ==> run[h] != Listen
    ensures var s := At(Init(first), run, i);
            && s.mail.live.newMsg && |s.mail.readings| == r
            && At(Init(first), run, k).mail.readings[r]
               == Reading(ReadFrame(s.mail.live), s.mail.live.senderWorking, s.snd.hand == Opening)
  {
    hide Next, Enabled, Legal, At, Init, ReadFrame;
    if k == 0 {
      NoReadings(first, run);
    } else {
      var s := At(Init(first), run, k - 1);
      AtStep(Init(first), run, k - 1);
      ReadingStep(s, run[k - 1]);
      if run[k - 1] == Recv && r == |s.mail.readings| {
        i := k - 1;
      } else {
        i := ReadingOf(first, run, k - 1, r);
      }
    }
  }

  lemma NoReadings(first: int, run: seq<Action>)
    requires Legal(Init(first), run)
    ensures At(Init(first), run, 0).mail.readings == []
  {
  }

  lemma ReadingStep(s: State, a: Action)
    requires Enabled(s, a)
    ensures a == Recv ==> s.mail.live.newMsg
    ensures Next(s, a).mail.readings
            == match a
               case Listen => []
               case Recv =>
                 s.mail.readings
                 + [Reading(ReadFrame(s.mail.live), s.mail.live.senderWorking, s.snd.hand == Opening)]
               case _ => s.mail.readings
  {
    hide CanWrite, CanSend, MustWrite, Feed, ReadFrame;
  }

  // ---- Who can write ----

  /** A call of `send` may have ended its wait while the flag was down exactly when the flag has
      risen since the call drew its number and nothing was written since that rise. */
  lemma {:induction false} CallSlipsIff(first: int, run: seq<Action>, k: nat, j: nat)
    requires Legal(Init(first), run) && k <= |run|
    ensures var dip := At(Init(first), run, k).snd.dip;
            (dip.Dip? && j < dip.draws)
            <==> exists i :: 0 <= i < k && (run[i] == SetConnected(true) || run[i] == Begin)
                   && !At(Init(first), run, i).snd.connected && j < |At(Init(first), run, i).book.msgs|
                   && forall h :: i < h < k ==> run[h] != SendOk && !run[h].Control?
  {
    hide Next, Enabled, Legal, At, Init;
    if k > 0 {
      CallSlipsIff(first, run, k - 1, j);
      AtStep(Init(first), run, k - 1);
      DipStep(At(Init(first), run, k - 1), run[k - 1]);
      DipsInOrder(first, run, k - 1);
    } else {
      AtStart(first, run);
    }
  }

  lemma DipStep(s: State, a: Action)
    requires Enabled(s, a)
    ensures Next(s, a).snd.dip
            == if a == SendOk || a.Control? then NoDip
               else if (a == SetConnected(true) || a == Begin) && !s.snd.connected then
                 Dip(|s.book.msgs|, s.snd.hand.Popped?)
               else if a == Pop && s.snd.dip.Dip? then Dip(s.snd.dip.draws, false)
               else s.snd.dip
    ensures a != Pop && Next(s, a).snd.hand.Popped? ==> s.snd.hand.Popped?
  {
    hide CanWrite, CanSend, MustWrite, Feed, ReadFrame;
  }

  /** Numbers drawn before the last rise stay drawn. */
  lemma {:induction false} DipsInOrder(first: int, run: seq<Action>, k: nat)
    requires Legal(Init(first), run) && k <= |run|
    ensures var s := At(Init(first), run, k); s.snd.dip.Dip? ==> s.snd.dip.draws <= |s.book.msgs|
  {
    hide Next, Enabled, Legal, At, Init;
    if k > 0 {
      DipsInOrder(first, run, k - 1);
      AtStep(Init(first), run, k - 1);
      DipStep(At(Init(first), run, k - 1), run[k - 1]);
      DrawsGrow(At(Init(first), run, k - 1), run[k - 1]);
    } else {
      AtStart(first, run);
    }
  }

  /** The same for the send loop, whose packet must have been popped before the rise. */
  lemma {:induction false} LoopSlipsIff(first: int, run: seq<Action>, k: nat)
    requires Legal(Init(first), run) && k <= |run| && At(Init(first), run, k).snd.hand.Popped?
    ensures var dip := At(Init(first), run, k).snd.dip;
            (dip.Dip? && dip.held)
            <==> exists i :: 0 <= i < k && (run[i] == SetConnected(true) || run[i] == Begin)
                   && !At(Init(first), run, i).snd.connected && At(Init(first), run, i).snd.hand.Popped?
                   && forall h :: i < h < k ==> run[h] != Pop && run[h] != SendOk && !run[h].Control?
  {
    hide Next, Enabled, Legal, At, Init;
    if k > 0 {
      AtStep(Init(first), run, k - 1);
      DipStep(At(Init(first), run, k - 1), run[k - 1]);
      if run[k - 1] != Pop { LoopSlipsIff(first, run, k - 1); }
    } else {
      AtStart(first, run);
    }
  }
}
