/** What becomes of one message when its packets are consumed in a given order.

    `order` lists chunk indices in the order in which `recv` consumes them. */
module Orders {
  import opened Wire
  import opened Chunking
  import opened Mailbox
  import opened Reassembly

  /** Distinct chunk indices of an `n`-chunk message: any order of any of its packets. */
  predicate Distinct(order: seq<nat>, n: nat) {
    && (forall i :: 0 <= i < |order| ==> order[i] < n)
    && (forall i, j :: 0 <= i < j < |order| ==> order[i] != order[j])
  }

  function FramesOf(msgSeq: int, m: Message, order: seq<nat>): seq<Frame>
    requires Distinct(order, ChunkCount(|m.data|))
  {
    seq(|order|, i requires 0 <= i < |order| => FrameOf(Chunk(msgSeq, m, order[i])))
  }

  // ---- The entry as a set of chunks ----

  /** The bytes of `m` that the chunks in `held` cover; the rest indeterminate. */
  function Covered(m: Message, held: set<nat>): Cells {
    seq(|m.data|, i requires 0 <= i < |m.data| => if i / CAP in held then Some(m.data[i]) else None)
  }

  /** The number of bytes in the chunks below `upto` that are in `held`. */
  function Bytes(size: nat, held: set<nat>, upto: nat): int {
    if upto == 0 then 0
    else Bytes(size, held, upto - 1) + if upto - 1 in held then ChunkLen(size, upto - 1) else 0
  }

  function EntryFor(m: Message, held: set<nat>): Entry {
    Entry(Covered(m, held), Bytes(|m.data|, held, ChunkCount(|m.data|)))
  }

  function EntryOf(m: Message, held: Option<set<nat>>): Option<Entry> {
    match held
    case None => None
    case Some(s) => Some(EntryFor(m, s))
  }

  /** Every chunk index below `n` is in `held`. */
  predicate Full(held: set<nat>, n: nat) { forall c: nat :: c < n ==> c in held }

  lemma {:induction false} BytesAdd(size: nat, held: set<nat>, i: nat, upto: nat)
    requires i !in held
    ensures Bytes(size, held + {i}, upto) == Bytes(size, held, upto) + if i < upto then ChunkLen(size, i) else 0
  {
    if upto > 0 { BytesAdd(size, held, i, upto - 1); }
  }

  lemma {:induction false} BytesBound(size: nat, held: set<nat>, upto: nat)
    requires size > 0 && upto <= ChunkCount(size)
    ensures 0 <= Bytes(size, held, upto) <= upto * CAP
    ensures upto == ChunkCount(size) ==> Bytes(size, held, upto) <= size
    ensures Bytes(size, held, upto) == (if upto == ChunkCount(size) then size else upto * CAP)
            <==> forall i: nat :: i < upto ==> i in held
  {
    if upto > 0 {
      BytesBound(size, held, upto - 1);
      ChunkShape(size, upto - 1);
    }
  }

  /** The byte count equals the length of the message exactly when every chunk is held. */
  lemma CountTellsAll(size: nat, held: set<nat>)
    requires size > 0
    ensures Bytes(size, held, ChunkCount(size)) == size <==> Full(held, ChunkCount(size))
  {
    BytesBound(size, held, ChunkCount(size));
  }

  lemma CoverAll(m: Message, held: set<nat>)
    requires Full(held, ChunkCount(|m.data|))
    ensures Covered(m, held) == Lift(m.data)
  {
    forall i | 0 <= i < |m.data| ensures i / CAP in held {
      assert i / CAP < ChunkCount(|m.data|);
    }
  }

  lemma CopyCovers(msgSeq: int, m: Message, held: set<nat>, i: nat)
    requires i < ChunkCount(|m.data|)
    ensures i * CAP + |Chunk(msgSeq, m, i).data| <= |m.data|
    ensures Copy(Covered(m, held), i * CAP, Chunk(msgSeq, m, i).data) == Covered(m, held + {i})
  {
    ChunkShape(|m.data|, i);
    var len := ChunkLen(|m.data|, i);
    forall x | 0 <= x < |m.data| ensures (i * CAP <= x < i * CAP + len) <==> x / CAP == i {}
  }

  // ---- The single reassembler, tracked by chunks ----

  /** The chunks in the entry when chunk `i` is about to be copied. */
  function Opened(size: nat, held: Option<set<nat>>, i: nat): Option<set<nat>> {
    if i == 0 && size > 0 then Some({}) else held
  }

  /** The chunks in the entry after `order` was consumed; `None` when there is no entry. */
  function Held(size: nat, order: seq<nat>): Option<set<nat>> {
    if order == [] then None
    else
      var i := order[|order| - 1];
      match Opened(size, Held(size, order[..|order| - 1]), i)
      case None => None
      case Some(s) => if i + 1 < ChunkCount(size) then Some(s + {i}) else None
  }

  /** What the call that consumes the last packet of `order` does. */
  function Verdict(m: Message, order: seq<nat>): Outcome
    requires order != []
  {
    var n := ChunkCount(|m.data|);
    var i := order[|order| - 1];
    if i + 1 < n then Waiting
    else match Opened(|m.data|, Held(|m.data|, order[..|order| - 1]), i)
      case None => Notified(m.evt, None, |m.data|)
      case Some(s) =>
        if Full(s + {i}, n) then Notified(m.evt, Some(Lift(m.data)), |m.data|) else Discarded
  }

  function Verdicts(m: Message, order: seq<nat>): (r: seq<Outcome>)
    ensures |r| == |order|
  {
    if order == [] then [] else Verdicts(m, order[..|order| - 1]) + [Verdict(m, order)]
  }

  lemma {:induction false} HeldWithin(size: nat, order: seq<nat>)
    requires Distinct(order, ChunkCount(size))
    ensures Held(size, order).Some? ==> size > 0 && forall c :: c in Held(size, order).value ==> c in order
  {
    if order != [] { HeldWithin(size, order[..|order| - 1]); }
  }

  /** The reassembler's entry holds exactly the chunks tracked, byte for byte and in count,
      every copy stays inside the buffer, and every outcome is the tracked one. */
  lemma {:induction false} TrackedExactly(msgSeq: int, m: Message, order: seq<nat>)
    requires IsMessage(m) && Distinct(order, ChunkCount(|m.data|))
    ensures Solo(FramesOf(msgSeq, m, order)) == EntryOf(m, Held(|m.data|, order))
    ensures SoloOutcomes(FramesOf(msgSeq, m, order)) == Verdicts(m, order)
  {
    if order != [] {
      var front, i := order[..|order| - 1], order[|order| - 1];
      var fs := FramesOf(msgSeq, m, order);
      assert fs[..|fs| - 1] == FramesOf(msgSeq, m, front);
      TrackedExactly(msgSeq, m, front);
      HeldWithin(|m.data|, front);
      OneMore(msgSeq, m, Held(|m.data|, front), i);
    }
  }

  lemma OneMore(msgSeq: int, m: Message, held: Option<set<nat>>, i: nat)
    requires IsMessage(m) && i < ChunkCount(|m.data|)
    requires held.Some? ==> |m.data| > 0 && i !in held.value
    ensures var (e, o) := FeedOne(EntryOf(m, held), FrameOf(Chunk(msgSeq, m, i)));
            var n := ChunkCount(|m.data|);
            match Opened(|m.data|, held, i)
            case None => e == None && o == (if i + 1 < n then Waiting else Notified(m.evt, None, |m.data|))
            case Some(s) =>
              if i + 1 < n then e == Some(EntryFor(m, s + {i})) && o == Waiting
              else e == None && o == (if Full(s + {i}, n) then Notified(m.evt, Some(Lift(m.data)), |m.data|)
                                      else Discarded)
  {
    var n := ChunkCount(|m.data|);
    ChunkHeaderOnWire(msgSeq, m, i);
    match Opened(|m.data|, held, i)
    case None =>
    case Some(s) =>
      CopyCovers(msgSeq, m, s, i);
      BytesAdd(|m.data|, s, i, n);
      BytesEmpty(|m.data|, n);
      assert Blank(|m.data|) == Covered(m, {});
      CountTellsAll(|m.data|, s + {i});
      if Full(s + {i}, n) { CoverAll(m, s + {i}); }
  }

  lemma {:induction false} BytesEmpty(size: nat, upto: nat)
    ensures Bytes(size, {}, upto) == 0
  {
    if upto > 0 { BytesEmpty(size, upto - 1); }
  }

  // ---- Closed forms ----

  /** The position of `c` in `order`, or the length when it does not occur. */
  function Pos(order: seq<nat>, c: nat): (p: nat)
    ensures p <= |order| && (p < |order| ==> order[p] == c)
    ensures forall i :: 0 <= i < p ==> order[i] != c
  {
    if order == [] then 0
    else
      var p := Pos(order[..|order| - 1], c);
      if p < |order| - 1 || order[|order| - 1] == c then p else |order|
  }

  /** A message of several chunks has an entry exactly when chunk 0 was consumed and the
      last chunk was not consumed after it; the entry holds the chunks from chunk 0 on. */
  lemma {:induction false} HeldClosedForm(size: nat, n: nat, order: seq<nat>)
    requires size > CAP && n == ChunkCount(size) && Distinct(order, n)
    ensures var z, l := Pos(order, 0), Pos(order, n - 1);
            && (Held(size, order).Some? <==> z < |order| && (l == |order| || l < z))
            && (Held(size, order).Some? ==>
                  forall c: nat :: c in Held(size, order).value <==> z <= Pos(order, c) < |order|)
  {
    if order != [] {
      HeldClosedForm(size, n, order[..|order| - 1]);
    }
  }

  function Elements(order: seq<nat>): set<nat> {
    if order == [] then {} else Elements(order[..|order| - 1]) + {order[|order| - 1]}
  }

  lemma {:induction false} ElementsCount(order: seq<nat>, n: nat)
    requires Distinct(order, n)
    ensures |Elements(order)| == |order| && forall c :: c in Elements(order) <==> c in order
  {
    if order != [] { ElementsCount(order[..|order| - 1], n); }
  }

  function AllChunks(n: nat): (r: set<nat>)
    ensures |r| == n && forall i: nat :: i in r <==> i < n
  {
    if n == 0 then {} else AllChunks(n - 1) + {n - 1}
  }

  lemma SubsetSize(a: set<nat>, b: set<nat>)
    requires a <= b
    ensures |a| <= |b| && (|a| == |b| ==> a == b)
  {
    assert b == a + (b - a);
  }

  /** Distinct indices number at most `n`, and number `n` exactly when none is missing. */
  lemma Pigeonhole(order: seq<nat>, n: nat)
    requires Distinct(order, n)
    ensures |order| <= n
    ensures |order| == n <==> forall c: nat :: c < n ==> c in order
  {
    ElementsCount(order, n);
    assert Elements(order) <= AllChunks(n);
    SubsetSize(Elements(order), AllChunks(n));
    if forall c: nat :: c < n ==> c in order {
      assert AllChunks(n) == Elements(order);
    }
  }

  /** When the last chunk is consumed, the message is delivered intact exactly when chunk 0
      was consumed first and every chunk was consumed; it is announced with a null payload
      exactly when chunk 0 was not consumed; otherwise it is discarded. */
  lemma VerdictOfLastChunk(m: Message, n: nat, order: seq<nat>)
    requires |m.data| > CAP && n == ChunkCount(|m.data|) && Distinct(order, n)
    requires order != [] && order[|order| - 1] == n - 1
    ensures Verdict(m, order) == Notified(m.evt, Some(Lift(m.data)), |m.data|) <==> |order| == n && order[0] == 0
    ensures Verdict(m, order) == Notified(m.evt, None, |m.data|) <==> 0 !in order
    ensures Verdict(m, order) == Discarded <==> 0 in order && (|order| < n || order[0] != 0)
  {
    var front := order[..|order| - 1];
    HeldClosedForm(|m.data|, n, front);
    Pigeonhole(order, n);
    var z := Pos(front, 0);
    if z == |front| {
      assert 0 !in order;
    } else {
      assert 0 == order[z];
      FullFrom(order, n, z, Held(|m.data|, front).value);
    }
  }

  lemma PosFound(order: seq<nat>, c: nat)
    requires c in order
    ensures Pos(order, c) < |order|
  {
  }

  lemma FullFrom(order: seq<nat>, n: nat, z: nat, held: set<nat>)
    requires Distinct(order, n) && order != [] && order[|order| - 1] == n - 1
    requires z < |order| - 1 && z == Pos(order[..|order| - 1], 0)
    requires forall c: nat :: c in held <==> z <= Pos(order[..|order| - 1], c) < |order| - 1
    ensures Full(held + {n - 1}, n) <==> |order| == n && order[0] == 0
  {
    var front := order[..|order| - 1];
    Pigeonhole(order, n);
    if Full(held + {n - 1}, n) {
      assert order[0] in held;
      assert Pos(front, order[0]) == 0;
      forall c: nat | c < n ensures c in order {
        assert c in held + {n - 1};
      }
    } else if |order| == n && order[0] == 0 {
      var c: nat :| c < n && c !in held + {n - 1};
      PosFound(order, c);
    }
  }

  /** Feeding `recv` any order of all the packets of a message of several chunks delivers it
      intact exactly when chunk 0 comes first and the last chunk comes last. */
  lemma PermutationDeliversIff(msgSeq: int, m: Message, order: seq<nat>)
    requires IsMessage(m) && |m.data| > CAP
    requires Distinct(order, ChunkCount(|m.data|)) && |order| == ChunkCount(|m.data|)
    ensures Notified(m.evt, Some(Lift(m.data)), |m.data|) in Outcomes(FramesOf(msgSeq, m, order))
            <==> order[0] == 0 && order[|order| - 1] == ChunkCount(|m.data|) - 1
  {
    StreamOfOneMessage(msgSeq, m, order);
    VerdictOfPermutation(m, ChunkCount(|m.data|), order);
  }

  lemma VerdictOfPermutation(m: Message, n: nat, order: seq<nat>)
    requires |m.data| > CAP && n == ChunkCount(|m.data|) && Distinct(order, n) && |order| == n
    ensures Notified(m.evt, Some(Lift(m.data)), |m.data|) in Verdicts(m, order)
            <==> order[0] == 0 && order[|order| - 1] == n - 1
  {
    Pigeonhole(order, n);
    assert n - 1 in order;
    PosFound(order, n - 1);
    var l := Pos(order, n - 1);
    forall i | 0 <= i < |order| && i != l ensures Verdicts(m, order)[i] == Waiting {
      VerdictAt(m, order, i);
    }
    VerdictAt(m, order, l);
    VerdictOfLastChunk(m, n, order[..l + 1]);
    assert Verdicts(m, order)[l] in Verdicts(m, order);
  }

  lemma {:induction false} VerdictAt(m: Message, order: seq<nat>, i: nat)
    requires i < |order|
    ensures Verdicts(m, order)[i] == Verdict(m, order[..i + 1])
  {
    if i == |order| - 1 {
      assert order[..i + 1] == order;
    } else {
      VerdictAt(m, order[..|order| - 1], i);
      assert order[..|order| - 1][..i + 1] == order[..i + 1];
    }
  }

  /** `recv` fed with packets of one message only: its map and its outcomes. */
  lemma StreamOfOneMessage(msgSeq: int, m: Message, order: seq<nat>)
    requires IsMessage(m) && Distinct(order, ChunkCount(|m.data|))
    ensures Get(Run(FramesOf(msgSeq, m, order)), Int32(msgSeq)) == EntryOf(m, Held(|m.data|, order))
    ensures Outcomes(FramesOf(msgSeq, m, order)) == Verdicts(m, order)
  {
    var fs := FramesOf(msgSeq, m, order);
    TrackedExactly(msgSeq, m, order);
    KeyOfFrames(msgSeq, m, order);
    OnlyAll(fs, Int32(msgSeq));
    Demultiplex(fs, Int32(msgSeq));
    OutcomesForAll(fs, Int32(msgSeq));
  }

  lemma KeyOfFrames(msgSeq: int, m: Message, order: seq<nat>)
    requires IsMessage(m) && Distinct(order, ChunkCount(|m.data|))
    ensures forall f :: f in FramesOf(msgSeq, m, order) ==> f.header.msgSeq == Int32(msgSeq)
  {
  }

  lemma {:induction false} OnlyAll(fs: seq<Frame>, k: int)
    requires forall f :: f in fs ==> f.header.msgSeq == k
    ensures Only(fs, k) == fs
  {
    if fs != [] {
      OnlyAll(fs[..|fs| - 1], k);
      assert fs[|fs| - 1] in fs;
    }
  }

  /** Once every packet of a message of several chunks is consumed, its entry remains exactly
      when chunk 0 was consumed after the last chunk. */
  lemma EntryRemainsIff(msgSeq: int, m: Message, order: seq<nat>)
    requires IsMessage(m) && |m.data| > CAP
    requires Distinct(order, ChunkCount(|m.data|)) && |order| == ChunkCount(|m.data|)
    ensures Int32(msgSeq) in Run(FramesOf(msgSeq, m, order))
            <==> Pos(order, ChunkCount(|m.data|) - 1) < Pos(order, 0)
  {
    StreamOfOneMessage(msgSeq, m, order);
    HeldAfterPermutation(|m.data|, ChunkCount(|m.data|), order);
  }

  lemma HeldAfterPermutation(size: nat, n: nat, order: seq<nat>)
    requires size > CAP && n == ChunkCount(size) && Distinct(order, n) && |order| == n
    ensures Held(size, order).Some? <==> Pos(order, n - 1) < Pos(order, 0)
  {
    HeldClosedForm(size, n, order);
    Pigeonhole(order, n);
    assert 0 in order && n - 1 in order;
    PosFound(order, 0);
    PosFound(order, n - 1);
  }
}
