/** How much a connection can lose. */
module Loss {
  import opened Protocol
  import opened Conservation

  /** Nothing but an overwriting is lost twice in the same way on the same connection. */
  ghost predicate NoTwice(l: seq<LossAt>) {
    forall a, b :: 0 <= a < b < |l| && l[a] == l[b] ==> l[a].how == Overwritten
  }

  /** How many of the losses are overwritings. */
  function Overwrites(l: seq<LossAt>): nat {
    if l == [] then 0 else Overwrites(l[..|l| - 1]) + if l[|l| - 1].how == Overwritten then 1 else 0
  }

  /** The flag has fallen since the unread packet was written. */
  predicate AtRisk(s: State) { s.snd.link != Detached && Target(s).newMsg && (s.snd.dip.Dip? || !s.snd.connected) }

  /** Each connection loses at most one packet in the send loop's hand and at most one left
      unread in its mailbox; the connection in use has lost neither yet. Every overwriting has
      used up a fall of the connection flag, and the mailbox in use knows of its own. */
  ghost predicate Losses(s: State) {
    && NoTwice(s.gone.lossAt)
    && (forall w :: w in s.gone.lossAt ==> 1 <= w.conn <= s.snd.opens)
    && (LossAt(s.snd.opens, Dropped) in s.gone.lossAt ==> s.snd.hand == Leaving || s.snd.link == Detached)
    && (LossAt(s.snd.opens, Stranded) in s.gone.lossAt ==>
          !s.mail.liveOpened && (s.snd.link == OnOrphan ==> s.mail.orphan.newMsg))
    && (s.mail.liveOpened || s.snd.link != Detached ==> s.snd.opens >= 1)
    && Overwrites(s.gone.lossAt) + (if AtRisk(s) then 1 else 0) <= s.snd.falls
    && (s.mail.smudged <==> s.mail.liveOpened && LossAt(s.snd.opens, Overwritten) in s.gone.lossAt)
  }

  lemma OneMoreLoss(g: Gone, ps: seq<Ptr>, at: LossAt)
    requires |ps| <= 1 && NoTwice(g.lossAt)
    requires ps != [] && at.how != Overwritten ==> at !in g.lossAt
    ensures var l := LosePackets(g, ps, at).lossAt;
            && NoTwice(l)
            && (forall w :: w in l <==> w in g.lossAt || (ps != [] && w == at))
            && Overwrites(l) == Overwrites(g.lossAt) + if ps != [] && at.how == Overwritten then 1 else 0
  {
    var l := LosePackets(g, ps, at).lossAt;
    assert ps == [] ==> l == g.lossAt;
    assert ps != [] ==> l == g.lossAt + [at] && l[..|g.lossAt|] == g.lossAt;
  }

  lemma LossesNext(s: State, a: Action)
    requires Shape(s) && Losses(s) && Enabled(s, a)
    ensures Losses(Next(s, a))
  {
    match a
    case Control(j) => LossesWrite(s, Ptr(j, 0)); LossesSame(Write(s, Ptr(j, 0)), Next(s, a));
    case SendOk => LossesWrite(s, s.snd.hand.p); LossesSame(Write(s, s.snd.hand.p), Next(s, a));
    case Break => LossesBreak(s);
    case Listen => LossesListen(s);
    case Attach => LossesAttach(s);
    case _ => LossesOther(s, a);
  }

  predicate CanWriteOrSend(s: State, p: Ptr) { CanWrite(s, p) || CanSend(s, p) }

  lemma LossesWrite(s: State, p: Ptr)
    requires Shape(s) && Losses(s) && CanWriteOrSend(s, p)
    ensures Losses(Write(s, p))
  {
    hide Deref, Counters, LosePackets, Overwrites;
    if s.snd.link == OnLive {
      OneMoreLoss(s.gone, Unread(s), LossAt(s.snd.opens, Overwritten));
    } else {
      OneMoreLoss(s.gone, [p], LossAt(s.snd.opens, if s.mail.orphan.newMsg then Overwritten else Stranded));
    }
  }

  lemma LossesSame(s: State, t: State)
    requires Losses(s) && t.gone == s.gone && t.mail == s.mail
    requires t.snd.link == s.snd.link && t.snd.opens == s.snd.opens
    requires t.snd.dip == s.snd.dip && t.snd.falls == s.snd.falls && t.snd.connected == s.snd.connected
    requires s.snd.hand == Leaving ==> t.snd.hand == Leaving
    ensures Losses(t)
  {
  }

  lemma LossesBreak(s: State)
    requires Shape(s) && Losses(s) && Enabled(s, Break)
    ensures Losses(Next(s, Break))
  {
    hide Counters, LosePackets;
    OneMoreLoss(s.gone, InHand(s), LossAt(s.snd.opens, Dropped));
  }

  lemma LossesListen(s: State)
    requires Shape(s) && Losses(s) && Enabled(s, Listen)
    ensures Losses(Next(s, Listen))
  {
    hide Counters, LosePackets, Losses;
    var t := Next(s, Listen);
    assert Unread(s) != [] ==> s.mail.live.newMsg;
    LossesByListen(s, t, Unread(s));
  }

  lemma LossesByListen(s: State, t: State, unread: seq<Ptr>)
    requires Mail(s) && Losses(s)
    requires |unread| <= 1 && (unread != [] ==> s.mail.live.newMsg)
    requires t.gone == LosePackets(s.gone, unread, LossAt(s.snd.opens, Stranded))
    requires !t.mail.liveOpened && !t.mail.smudged
    requires t.snd == s.snd.(link := if s.snd.link == OnLive then OnOrphan else s.snd.link)
    requires t.mail.orphan == (if s.snd.link == OnLive then s.mail.live else s.mail.orphan)
    ensures Losses(t)
  {
    hide LosePackets;
    OneMoreLoss(s.gone, unread, LossAt(s.snd.opens, Stranded));
  }

  lemma LossesAttach(s: State)
    requires Shape(s) && Losses(s) && Enabled(s, Attach)
    ensures Losses(Next(s, Attach))
  {
    hide Counters;
  }

  lemma LossesOther(s: State, a: Action)
    requires Shape(s) && Losses(s) && Enabled(s, a)
    requires !a.Control? && !a.SendOk? && !a.Break? && !a.Listen? && !a.Attach?
    ensures Losses(Next(s, a))
  {
    hide CanWrite, Counters;
  }

  /** The losses of a connection, without the overwritings. */
  function CountOn(l: seq<LossAt>, conn: nat): nat {
    if l == [] then 0
    else
      var w := l[|l| - 1];
      CountOn(l[..|l| - 1], conn) + if w.conn == conn && w.how != Overwritten then 1 else 0
  }

  lemma {:induction false} AtMostTwo(l: seq<LossAt>, conn: nat)
    requires NoTwice(l)
    ensures CountOn(l, conn)
            == (if LossAt(conn, Dropped) in l then 1 else 0) + (if LossAt(conn, Stranded) in l then 1 else 0)
  {
    if l != [] {
      AtMostTwo(l[..|l| - 1], conn);
      assert l == l[..|l| - 1] + [l[|l| - 1]];
    }
  }
}
