/** The receiver's reassembly map and what `recv` does to it with one packet. */
module Reassembly {
  import opened Wire
  import opened Chunking
  import opened Mailbox

  datatype Option<+T> = None | Some(value: T)

  /** A heap buffer. `new char[n]` leaves its bytes indeterminate: those cells are `None`. */
  type Cells = seq<Option<byte>>

  function Blank(n: nat): Cells { seq(n, _ => None) }

  function Lift(data: seq<byte>): Cells { seq(|data|, i requires 0 <= i < |data| => Some(data[i])) }

  /** `memcpy(buf + off, body, |body|)`. */
  function Copy(buf: Cells, off: nat, body: seq<byte>): (r: Cells)
    requires off + |body| <= |buf|
    ensures |r| == |buf|
  {
    seq(|buf|, i requires 0 <= i < |buf| => if off <= i < off + |body| then Some(body[i - off]) else buf[i])
  }

  /** An element of `recv_msg_map_`: the buffer and the number of bytes received so far. */
  datatype Entry = Entry(buf: Cells, got: int)

  type RecvMap = map<int, Entry>

  /** What one call of `recv` does for its caller. `Fault` stands for a copy that leaves the
      buffer: the C++ run is undefined from there on. */
  datatype Outcome =
    | Waiting
    | Discarded
    | Notified(evt: int, payload: Option<Cells>, len: int)
    | Fault

  /** The map after the `first packet` branch of `recv`. A decoded length is never negative, so
      `> 0` is the program's `!= 0`. */
  function Allocate(m: RecvMap, h: Header): RecvMap {
    if h.chunkSeq == 0 && h.totalLen > 0 then m[h.msgSeq := Entry(Blank(h.totalLen), 0)] else m
  }

  predicate InBounds(m: RecvMap, f: Frame) {
    var m1 := Allocate(m, f.header);
    f.header.msgSeq in m1 ==>
      0 <= f.header.chunkSeq * CAP && f.header.chunkSeq * CAP + |f.body| <= |m1[f.header.msgSeq].buf|
  }

  /** One call of `recv`, from the header to the erasure of the entry. */
  function Feed(m: RecvMap, f: Frame): (RecvMap, Outcome) {
    var h := f.header;
    var k := h.msgSeq;
    var m1 := Allocate(m, h);
    if !InBounds(m, f) then (m1, Fault)
    else if k in m1 then
      var e := Entry(Copy(m1[k].buf, h.chunkSeq * CAP, f.body), m1[k].got + |f.body|);
      if h.chunkSeq + 1 < h.chunkCount then (m1[k := e], Waiting)
      else if e.got != h.totalLen then (m1 - {k}, Discarded)
      else (m1 - {k}, Notified(f.evt, Some(e.buf), h.totalLen))
    else if h.chunkSeq + 1 < h.chunkCount then (m1, Waiting)
    else (m1, Notified(f.evt, None, h.totalLen))
  }

  /** The map after a stream of packets, from the empty map. */
  function Run(fs: seq<Frame>): RecvMap {
    if fs == [] then map[] else Feed(Run(fs[..|fs| - 1]), fs[|fs| - 1]).0
  }

  function Outcomes(fs: seq<Frame>): (r: seq<Outcome>)
    ensures |r| == |fs|
  {
    if fs == [] then []
    else Outcomes(fs[..|fs| - 1]) + [Feed(Run(fs[..|fs| - 1]), fs[|fs| - 1]).1]
  }

  lemma RunSnoc(fs: seq<Frame>, f: Frame)
    ensures Run(fs + [f]) == Feed(Run(fs), f).0
    ensures Outcomes(fs + [f]) == Outcomes(fs) + [Feed(Run(fs), f).1]
  {
    assert (fs + [f])[..|fs|] == fs;
  }

  lemma {:induction false} OutcomesPrefix(fs: seq<Frame>, n: nat)
    requires n <= |fs|
    ensures Outcomes(fs[..n]) == Outcomes(fs)[..n]
  {
    if n == |fs| {
      assert fs[..n] == fs;
    } else {
      OutcomesPrefix(fs[..|fs| - 1], n);
      assert fs[..|fs| - 1][..n] == fs[..n];
    }
  }

  // ---- Demultiplexing ----

  function Get(m: RecvMap, k: int): Option<Entry> { if k in m then Some(m[k]) else None }

  /** A reassembler for a single sequence number: no map, at most one entry. */
  function FeedOne(e: Option<Entry>, f: Frame): (Option<Entry>, Outcome) {
    var h := f.header;
    var e1 := if h.chunkSeq == 0 && h.totalLen > 0 then Some(Entry(Blank(h.totalLen), 0)) else e;
    match e1
    case None =>
      if h.chunkSeq + 1 < h.chunkCount then (None, Waiting) else (None, Notified(f.evt, None, h.totalLen))
    case Some(held) =>
      var off := h.chunkSeq * CAP;
      if off < 0 || off + |f.body| > |held.buf| then (e1, Fault)
      else
        var got := held.got + |f.body|;
        var buf := Copy(held.buf, off, f.body);
        if h.chunkSeq + 1 < h.chunkCount then (Some(Entry(buf, got)), Waiting)
        else if got != h.totalLen then (None, Discarded)
        else (None, Notified(f.evt, Some(buf), h.totalLen))
  }

  /** `recv` treats the packet's own key like the single reassembler and no other key at all. */
  lemma FeedIsLocal(m: RecvMap, f: Frame, k: int)
    ensures k == f.header.msgSeq ==>
              Get(Feed(m, f).0, k) == FeedOne(Get(m, k), f).0 && Feed(m, f).1 == FeedOne(Get(m, k), f).1
    ensures k != f.header.msgSeq ==> Get(Feed(m, f).0, k) == Get(m, k)
  {
  }

  function Solo(fs: seq<Frame>): Option<Entry> {
    if fs == [] then None else FeedOne(Solo(fs[..|fs| - 1]), fs[|fs| - 1]).0
  }

  function SoloOutcomes(fs: seq<Frame>): (r: seq<Outcome>)
    ensures |r| == |fs|
  {
    if fs == [] then []
    else SoloOutcomes(fs[..|fs| - 1]) + [FeedOne(Solo(fs[..|fs| - 1]), fs[|fs| - 1]).1]
  }

  lemma SoloSnoc(fs: seq<Frame>, f: Frame)
    ensures Solo(fs + [f]) == FeedOne(Solo(fs), f).0
    ensures SoloOutcomes(fs + [f]) == SoloOutcomes(fs) + [FeedOne(Solo(fs), f).1]
  {
    assert (fs + [f])[..|fs|] == fs;
  }

  /** The packets of a stream that carry key `k`. */
  function Only(fs: seq<Frame>, k: int): seq<Frame> {
    if fs == [] then []
    else
      var r := Only(fs[..|fs| - 1], k);
      if fs[|fs| - 1].header.msgSeq == k then r + [fs[|fs| - 1]] else r
  }

  /** The outcomes of a stream at the packets that carry key `k`. */
  function OutcomesFor(fs: seq<Frame>, k: int): seq<Outcome> {
    if fs == [] then []
    else
      var r := OutcomesFor(fs[..|fs| - 1], k);
      if fs[|fs| - 1].header.msgSeq == k then r + [Outcomes(fs)[|fs| - 1]] else r
  }

  /** For any interleaved stream, what happens to one sequence number is what the single
      reassembler does with that number's packets alone. */
  lemma {:induction false} Demultiplex(fs: seq<Frame>, k: int)
    ensures Get(Run(fs), k) == Solo(Only(fs, k))
    ensures OutcomesFor(fs, k) == SoloOutcomes(Only(fs, k))
  {
    if fs != [] {
      var front, f := fs[..|fs| - 1], fs[|fs| - 1];
      Demultiplex(front, k);
      FeedIsLocal(Run(front), f, k);
      if f.header.msgSeq == k { SoloSnoc(Only(front, k), f); }
    }
  }

  /** In particular, dropping every other packet from a stream changes nothing for key `k`. */
  lemma OthersDoNotDisturb(fs: seq<Frame>, k: int)
    ensures Get(Run(fs), k) == Get(Run(Only(fs, k)), k)
    ensures OutcomesFor(fs, k) == Outcomes(Only(fs, k))
  {
    Demultiplex(fs, k);
    OnlyIdempotent(fs, k);
    Demultiplex(Only(fs, k), k);
    OutcomesForAll(Only(fs, k), k);
  }

  lemma {:induction false} OnlyIdempotent(fs: seq<Frame>, k: int)
    ensures Only(Only(fs, k), k) == Only(fs, k)
    ensures forall f :: f in Only(fs, k) ==> f.header.msgSeq == k
  {
    if fs != [] {
      OnlyIdempotent(fs[..|fs| - 1], k);
      var r := Only(fs[..|fs| - 1], k);
      assert (r + [fs[|fs| - 1]])[..|r|] == r;
    }
  }

  lemma {:induction false} OutcomesForAll(fs: seq<Frame>, k: int)
    requires forall f :: f in fs ==> f.header.msgSeq == k
    ensures OutcomesFor(fs, k) == Outcomes(fs)
  {
    if fs != [] { OutcomesForAll(fs[..|fs| - 1], k); }
  }

  // ---- Ownership of the buffers ----

  /** The number of `new char[]` in a stream. */
  function Allocated(fs: seq<Frame>): nat {
    if fs == [] then 0
    else Allocated(fs[..|fs| - 1]) + if Allocates(fs[|fs| - 1].header) then 1 else 0
  }

  predicate Allocates(h: Header) { h.chunkSeq == 0 && h.totalLen > 0 }

  /** The calls of `recv` that end with a `delete[]`. */
  predicate Frees(o: Outcome) { o == Discarded || (o.Notified? && o.payload.Some?) }

  /** The number of `delete[]` in a stream. */
  function Freed(fs: seq<Frame>): nat {
    if fs == [] then 0
    else
      Freed(fs[..|fs| - 1]) + if Frees(Outcomes(fs)[|fs| - 1]) then 1 else 0
  }

  /** The number of buffers whose only pointer is overwritten by a second chunk 0. */
  function Leaked(fs: seq<Frame>): nat {
    if fs == [] then 0
    else
      var h := fs[|fs| - 1].header;
      Leaked(fs[..|fs| - 1]) + if Allocates(h) && h.msgSeq in Run(fs[..|fs| - 1]) then 1 else 0
  }

  /** For any stream, every buffer allocated is freed once, in the map, or leaked. */
  lemma {:induction false} Ledger(fs: seq<Frame>)
    ensures Allocated(fs) == Freed(fs) + |Run(fs)| + Leaked(fs)
  {
    if fs != [] {
      var front, f := fs[..|fs| - 1], fs[|fs| - 1];
      Ledger(front);
      MapSize(Run(front), f);
    }
  }

  lemma MapSize(m: RecvMap, f: Frame)
    ensures var (m2, o) := Feed(m, f);
            |m2| == |m| + (if Allocates(f.header) && f.header.msgSeq !in m then 1 else 0)
                    - (if Frees(o) then 1 else 0)
  {
    hide Copy, Blank;
    var h := f.header;
    var k := h.msgSeq;
    var m1 := Allocate(m, h);
    if Allocates(h) { PutSize(m, k, Entry(Blank(h.totalLen), 0)); }
    if InBounds(m, f) && k in m1 {
      PutSize(m1, k, Entry(Copy(m1[k].buf, h.chunkSeq * CAP, f.body), m1[k].got + |f.body|));
      DropSize(m1, k);
    }
  }

  lemma PutSize(m: RecvMap, k: int, e: Entry)
    ensures |m[k := e]| == |m| + if k in m then 0 else 1
  {
    assert m[k := e].Keys == m.Keys + {k};
    assert |m| == |m.Keys| && |m[k := e]| == |m[k := e].Keys|;
  }

  lemma DropSize(m: RecvMap, k: int)
    requires k in m
    ensures |m - {k}| == |m| - 1
  {
    assert (m - {k}).Keys == m.Keys - {k};
    assert |m| == |m.Keys| && |m - {k}| == |(m - {k}).Keys|;
  }
}
