/** Materializing a file leaf by leaf (writeThrough in fetch.go), across any number of crashes.

    The receive loop writes blocks into the file through the page cache and marks their leaves; a flusher beside it
    takes a snapshot of the marks, syncs the file, and only then saves the snapshot to the sidecar. The kernel may
    write any part of the cache back at any time. */
module WriteThrough {
  import opened Bytes
  import opened LeafSpine
  import PB = PartBits

  /** What is fetched: its leaves in order, and every leaf block's bytes (hash-verified on arrival). */
  datatype Source = Source(root: seq<Byte>, total: int, leaves: seq<Leaf>, data: map<Cid, seq<Byte>>)

  /** The links tell the truth about their leaves' sizes, and the identity fits a sidecar. */
  ghost predicate Truthful(s: Source) {
    && |s.root| < 0x1_0000 && PB.IsInt64(s.total) && PB.IsInt64(|s.leaves|)
    && forall i :: 0 <= i < |s.leaves| ==> s.leaves[i].c in s.data && |s.data[s.leaves[i].c]| == s.leaves[i].sz
  }

  /** The file: the leaves' bytes, left to right. */
  function Concat(s: Source, n: nat): seq<Byte>
    requires n <= |s.leaves| && forall i :: 0 <= i < n ==> s.leaves[i].c in s.data
  {
    if n == 0 then [] else Concat(s, n - 1) + s.data[s.leaves[n - 1].c]
  }

  function Whole(s: Source): seq<Byte>
    requires Truthful(s)
  {
    Concat(s, |s.leaves|)
  }

  lemma {:induction false} ConcatAt(s: Source, n: nat, i: nat)
    requires Truthful(s) && i < n <= |s.leaves|
    ensures |Concat(s, n)| == Offset(s.leaves, n)
    ensures Offset(s.leaves, i) + s.leaves[i].sz <= Offset(s.leaves, n)
    ensures Concat(s, n)[Offset(s.leaves, i)..Offset(s.leaves, i) + s.leaves[i].sz] == s.data[s.leaves[i].c]
  {
    if i < n - 1 {
      ConcatAt(s, n - 1, i);
    } else if n > 1 {
      ConcatAt(s, n - 1, n - 2);
    }
  }

  lemma {:induction false} ConcatSize(s: Source, n: nat)
    requires Truthful(s) && n <= |s.leaves|
    ensures |Concat(s, n)| == Offset(s.leaves, n)
  {
    if n > 0 {
      ConcatSize(s, n - 1);
    }
  }

  /** Every byte belongs to a leaf. */
  lemma {:induction false} LeafOfByte(leaves: seq<Leaf>, n: nat, x: nat) returns (i: nat)
    requires n <= |leaves| && x < Offset(leaves, n)
    ensures i < n && Offset(leaves, i) <= x < Offset(leaves, i) + leaves[i].sz
  {
    if x < Offset(leaves, n - 1) {
      i := LeafOfByte(leaves, n - 1, x);
    } else {
      i := n - 1;
    }
  }

  // ---- files ----

  type File = seq<Byte>

  /** WriteAt. */
  function Patch(f: File, at: nat, b: seq<Byte>): (r: File)
    requires at + |b| <= |f|
    ensures |r| == |f|
    ensures forall x :: 0 <= x < |f| ==> r[x] == if at <= x < at + |b| then b[x - at] else f[x]
  {
    f[..at] + b + f[at + |b|..]
  }

  /** Leaf i's bytes are in the file at their place. */
  ghost predicate LeafThere(s: Source, f: File, i: nat)
    requires Truthful(s) && i < |s.leaves| && |f| == |Whole(s)|
  {
    forall x :: Offset(s.leaves, i) <= x < Offset(s.leaves, i) + s.leaves[i].sz && x < |f| ==> f[x] == Whole(s)[x]
  }

  /** The marks are true of the file. */
  ghost predicate MarksTrue(s: Source, f: File, p: PB.Part)
    requires Truthful(s)
  {
    && |f| == |Whole(s)| && OfSource(s, p)
    && forall i: nat :: i < |s.leaves| && PB.Bit(p.bits, i) ==> LeafThere(s, f, i)
  }

  ghost predicate OfSource(s: Source, p: PB.Part) {
    PB.Valid(p) && p.root == s.root && p.total == s.total && p.count == |s.leaves|
  }

  /** g is right wherever f is. */
  ghost predicate NoWorse(s: Source, f: File, g: File)
    requires Truthful(s)
  {
    |f| == |g| == |Whole(s)| && forall x :: 0 <= x < |f| && f[x] == Whole(s)[x] ==> g[x] == Whole(s)[x]
  }

  lemma MarksStayTrue(s: Source, f: File, g: File, p: PB.Part)
    requires Truthful(s) && MarksTrue(s, f, p) && NoWorse(s, f, g)
    ensures MarksTrue(s, g, p)
  {
    forall i: nat | i < |s.leaves| && PB.Bit(p.bits, i) ensures LeafThere(s, g, i) {
      assert LeafThere(s, f, i);
    }
  }

  /** With every leaf marked, truly, the file is the whole file. */
  lemma AllMarkedIsWhole(s: Source, f: File, p: PB.Part)
    requires Truthful(s) && MarksTrue(s, f, p) && PB.AllSet(p)
    ensures f == Whole(s)
  {
    PB.AllSetMeansAll(p);
    ConcatSize(s, |s.leaves|);
    forall x | 0 <= x < |f| ensures f[x] == Whole(s)[x] {
      var i := LeafOfByte(s.leaves, |s.leaves|, x);
      assert LeafThere(s, f, i);
    }
  }

  // ---- the transfer ----

  datatype Flusher = Resting | Snapped(snap: PB.Part) | Synced(snap: PB.Part)

  /** The receive loop: waiting, or writing a block to the offsets it occupies, some of them done. */
  datatype Receiver = Idle | Writing(c: Cid, done: set<nat>)

  datatype State = State(
    cache: File,           // what reading the temporary file gives
    disk: File,            // what a power loss leaves of it
    bits: PB.Part,
    recv: Receiver,
    flush: Flusher,
    sidecar: seq<Byte>)    // the saved sidecar (written aside, synced, renamed)

  datatype Event =
    | Arrive(c: Cid)                   // a block, from bitswap or a gateway: any leaf, any order, any number of times
    | WritePart(i: nat, lo: nat, hi: nat)   // bytes lo..hi of leaf i reach the cache
    | WriteDone(i: nat)                // the write to leaf i's offset returned
    | Mark                             // all written: its leaves are marked
    | MarkOne(i: nat)                  // the gateway resume writes and marks one leaf at a time
    | WriteError                       // a write failed: the block is given up
    | WriteBack(lo: nat, hi: nat)      // the kernel writes part of the cache back
    | TakeSnapshot
    | Sync
    | Save
    | Kill                             // the process dies; the page cache survives
    | PowerLoss

  predicate Occupies(s: Source, c: Cid, i: nat) {
    i < |s.leaves| && s.leaves[i].c == c
  }

  predicate Enabled(s: Source, w: State, e: Event) {
    match e
    case Arrive(c) => w.recv.Idle? && c in s.data
    case WritePart(i, lo, hi) => w.recv.Writing? && Occupies(s, w.recv.c, i) && lo <= hi <= s.leaves[i].sz
    case WriteDone(i) => w.recv.Writing? && Occupies(s, w.recv.c, i)
    case Mark => w.recv.Writing? && forall i: nat :: i < |s.leaves| && s.leaves[i].c == w.recv.c ==> i in w.recv.done
    case MarkOne(i) => w.recv.Writing? && i in w.recv.done && i < |s.leaves|
    case WriteError => w.recv.Writing?
    case WriteBack(lo, hi) => lo <= hi <= |w.cache|
    case TakeSnapshot => w.flush.Resting?
    case Sync => w.flush.Snapped?
    case Save => w.flush.Synced? && PB.IsInt64(w.flush.snap.total) && PB.IsInt64(w.flush.snap.count)
    case Kill => true
    case PowerLoss => true
  }

  /** Marks every leaf below n that block c occupies. */
  function MarkAll(s: Source, c: Cid, p: PB.Part, n: nat): (r: PB.Part)
    requires n <= |s.leaves| <= 8 * |p.bits|
    ensures |r.bits| == |p.bits|
  {
    if n == 0 then p
    else
      var q := MarkAll(s, c, p, n - 1);
      if s.leaves[n - 1].c == c then PB.SetLeaf(q, n - 1) else q
  }

  /** The part a restarted fetch resumes from. */
  function Resumed(s: Source, sidecar: seq<Byte>): PB.Part {
    match PB.Decode(sidecar, s.root, s.total, |s.leaves|)
    case Some(p) => p
    case None => PB.NewPart(s.root, s.total, |s.leaves|)
  }

  function Step(s: Source, w: State, e: Event): State
    requires Truthful(s) && Enabled(s, w, e)
    requires |w.cache| == |w.disk| == Offset(s.leaves, |s.leaves|) && |s.leaves| <= 8 * |w.bits.bits|
  {
    match e
    case Arrive(c) => w.(recv := Writing(c, {}))
    case WritePart(i, lo, hi) =>
      ConcatAt(s, |s.leaves|, i);
      w.(cache := Patch(w.cache, Offset(s.leaves, i) + lo, s.data[w.recv.c][lo..hi]))
    case WriteDone(i) =>
      ConcatAt(s, |s.leaves|, i);
      w.(cache := Patch(w.cache, Offset(s.leaves, i), s.data[w.recv.c]), recv := Writing(w.recv.c, w.recv.done + {i}))
    case Mark => w.(bits := MarkAll(s, w.recv.c, w.bits, |s.leaves|), recv := Idle)
    case MarkOne(i) => w.(bits := PB.SetLeaf(w.bits, i), recv := Idle)
    case WriteError => w.(recv := Idle)
    case WriteBack(lo, hi) => w.(disk := Patch(w.disk, lo, w.cache[lo..hi]))
    case TakeSnapshot => w.(flush := Snapped(w.bits))
    case Sync => w.(disk := w.cache, flush := Synced(w.flush.snap))
    case Save => w.(sidecar := PB.Encode(w.flush.snap), flush := Resting)
    case Kill => w.(bits := Resumed(s, w.sidecar), recv := Idle, flush := Resting)
    case PowerLoss => w.(cache := w.disk, bits := Resumed(s, w.sidecar), recv := Idle, flush := Resting)
  }

  /** The saved marks are true of what is durable, and of what is read. */
  ghost predicate DurableTrue(s: Source, w: State)
    requires Truthful(s)
  {
    && PB.Decode(w.sidecar, s.root, s.total, |s.leaves|).Some?
    && MarksTrue(s, w.disk, Resumed(s, w.sidecar)) && MarksTrue(s, w.cache, Resumed(s, w.sidecar))
  }

  ghost predicate Inv(s: Source, w: State)
    requires Truthful(s)
  {
    && MarksTrue(s, w.cache, w.bits)
    && DurableTrue(s, w)
    && (w.recv.Writing? ==>
          w.recv.c in s.data && forall i :: i in w.recv.done ==> Occupies(s, w.recv.c, i) && LeafThere(s, w.cache, i))
    && (!w.flush.Resting? ==> MarksTrue(s, w.cache, w.flush.snap))
    && (w.flush.Synced? ==> MarksTrue(s, w.disk, w.flush.snap))
  }

  lemma InvSizes(s: Source, w: State)
    requires Truthful(s) && Inv(s, w)
    ensures |w.cache| == |w.disk| == Offset(s.leaves, |s.leaves|) && |s.leaves| <= 8 * |w.bits.bits|
  {
    ConcatSize(s, |s.leaves|);
  }

  /** Writing part of a leaf's block at its place makes the file no worse; writing all of it puts the leaf there. */
  lemma WriteHelps(s: Source, f: File, i: nat, lo: nat, hi: nat)
    requires Truthful(s) && |f| == |Whole(s)| && i < |s.leaves| && lo <= hi <= s.leaves[i].sz
    ensures Offset(s.leaves, i) + s.leaves[i].sz <= |f|
    ensures var g := Patch(f, Offset(s.leaves, i) + lo, s.data[s.leaves[i].c][lo..hi]);
            NoWorse(s, f, g) && (lo == 0 && hi == s.leaves[i].sz ==> LeafThere(s, g, i))
  {
    ConcatAt(s, |s.leaves|, i);
    var o, sz, b := Offset(s.leaves, i), s.leaves[i].sz, s.data[s.leaves[i].c];
    var piece := Whole(s)[o..o + sz];
    var g := Patch(f, o + lo, b[lo..hi]);
    forall x | o + lo <= x < o + hi ensures g[x] == Whole(s)[x] {
      assert piece[x - o] == b[x - o] == b[lo..hi][x - (o + lo)];
    }
    assert forall x :: 0 <= x < |f| && !(o + lo <= x < o + hi) ==> g[x] == f[x];
  }

  /** A cache no worse than before keeps what the invariant says of it. */
  lemma CacheNoWorse(s: Source, w: State, g: File)
    requires Truthful(s) && Inv(s, w) && NoWorse(s, w.cache, g)
    ensures Inv(s, w.(cache := g))
  {
    MarksStayTrue(s, w.cache, g, w.bits);
    MarksStayTrue(s, w.cache, g, Resumed(s, w.sidecar));
    if !w.flush.Resting? {
      MarksStayTrue(s, w.cache, g, w.flush.snap);
    }
    if w.recv.Writing? {
      forall i | i in w.recv.done ensures LeafThere(s, g, i) {
        assert LeafThere(s, w.cache, i);
      }
    }
  }

  lemma {:induction false} MarkAllTrue(s: Source, f: File, c: Cid, p: PB.Part, n: nat)
    requires Truthful(s) && MarksTrue(s, f, p) && n <= |s.leaves|
    requires forall i: nat :: i < n && s.leaves[i].c == c ==> LeafThere(s, f, i)
    ensures MarksTrue(s, f, MarkAll(s, c, p, n))
  {
    if n > 0 {
      MarkAllTrue(s, f, c, p, n - 1);
      if s.leaves[n - 1].c == c {
        MarkOneTrue(s, f, MarkAll(s, c, p, n - 1), n - 1);
      }
    }
  }

  /** Marking a block marks its leaves and no other. */
  lemma {:induction false} MarkAllMarks(s: Source, c: Cid, p: PB.Part, n: nat, j: nat)
    requires OfSource(s, p) && n <= |s.leaves| && j < |s.leaves|
    ensures OfSource(s, MarkAll(s, c, p, n))
    ensures PB.Bit(MarkAll(s, c, p, n).bits, j) <==> PB.Bit(p.bits, j) || (j < n && s.leaves[j].c == c)
  {
    if n > 0 {
      MarkAllMarks(s, c, p, n - 1, j);
      if s.leaves[n - 1].c == c {
        PB.SetLeafFacts(MarkAll(s, c, p, n - 1), n - 1, j);
      }
    }
  }

  lemma MarkOneTrue(s: Source, f: File, p: PB.Part, i: nat)
    requires Truthful(s) && MarksTrue(s, f, p) && i < |s.leaves| && LeafThere(s, f, i)
    ensures MarksTrue(s, f, PB.SetLeaf(p, i))
    ensures forall j: nat :: j < |s.leaves| ==> (PB.Bit(PB.SetLeaf(p, i).bits, j) <==> PB.Bit(p.bits, j) || j == i)
  {
    PB.SetLeafFacts(p, i, i);
    forall j: nat | j < |s.leaves| ensures PB.Bit(PB.SetLeaf(p, i).bits, j) <==> PB.Bit(p.bits, j) || j == i {
      PB.SetLeafFacts(p, i, j);
    }
  }

  lemma SaveKeeps(s: Source, w: State)
    requires Truthful(s) && Inv(s, w) && w.flush.Synced?
    ensures PB.IsInt64(w.flush.snap.total) && PB.IsInt64(w.flush.snap.count)
    ensures Inv(s, w.(sidecar := PB.Encode(w.flush.snap), flush := Resting))
  {
    PB.RoundTrip(w.flush.snap);
  }

  lemma WriteBackKeeps(s: Source, w: State, lo: nat, hi: nat)
    requires Truthful(s) && Inv(s, w) && lo <= hi <= |w.cache|
    ensures Inv(s, w.(disk := Patch(w.disk, lo, w.cache[lo..hi])))
  {
    var g := Patch(w.disk, lo, w.cache[lo..hi]);
    BothTrue(s, w.cache, w.disk, g, Resumed(s, w.sidecar));
    if w.flush.Synced? {
      BothTrue(s, w.cache, w.disk, g, w.flush.snap);
    }
  }

  /** Marks true of two files are true of any mixture of them. */
  lemma BothTrue(s: Source, f: File, g: File, h: File, p: PB.Part)
    requires Truthful(s) && MarksTrue(s, f, p) && MarksTrue(s, g, p) && |h| == |f|
    requires forall x :: 0 <= x < |h| ==> h[x] == f[x] || h[x] == g[x]
    ensures MarksTrue(s, h, p)
  {
    forall i: nat | i < |s.leaves| && PB.Bit(p.bits, i) ensures LeafThere(s, h, i) {
      assert LeafThere(s, f, i) && LeafThere(s, g, i);
    }
  }

  lemma WriteStepKeeps(s: Source, w: State, i: nat, lo: nat, hi: nat)
    requires Truthful(s) && Inv(s, w) && Enabled(s, w, WritePart(i, lo, hi))
    ensures |w.cache| == |w.disk| == Offset(s.leaves, |s.leaves|) && |s.leaves| <= 8 * |w.bits.bits|
    ensures Inv(s, Step(s, w, WritePart(i, lo, hi)))
  {
    InvSizes(s, w);
    WriteHelps(s, w.cache, i, lo, hi);
    CacheNoWorse(s, w, Step(s, w, WritePart(i, lo, hi)).cache);
  }

  lemma WriteDoneKeeps(s: Source, w: State, i: nat)
    requires Truthful(s) && Inv(s, w) && Enabled(s, w, WriteDone(i))
    ensures |w.cache| == |w.disk| == Offset(s.leaves, |s.leaves|) && |s.leaves| <= 8 * |w.bits.bits|
    ensures Inv(s, Step(s, w, WriteDone(i)))
  {
    InvSizes(s, w);
    WriteHelps(s, w.cache, i, 0, s.leaves[i].sz);
    assert s.data[w.recv.c][0..s.leaves[i].sz] == s.data[w.recv.c];
    CacheNoWorse(s, w, Step(s, w, WriteDone(i)).cache);
  }

  lemma MarkStepKeeps(s: Source, w: State, e: Event)
    requires Truthful(s) && Inv(s, w) && Enabled(s, w, e) && (e.Mark? || e.MarkOne?)
    ensures |w.cache| == |w.disk| == Offset(s.leaves, |s.leaves|) && |s.leaves| <= 8 * |w.bits.bits|
    ensures Inv(s, Step(s, w, e))
  {
    InvSizes(s, w);
    match e
    case Mark => MarkAllTrue(s, w.cache, w.recv.c, w.bits, |s.leaves|);
    case MarkOne(i) => MarkOneTrue(s, w.cache, w.bits, i);
  }

  lemma StepKeepsInv(s: Source, w: State, e: Event)
    requires Truthful(s) && Inv(s, w) && Enabled(s, w, e)
    ensures |w.cache| == |w.disk| == Offset(s.leaves, |s.leaves|) && |s.leaves| <= 8 * |w.bits.bits|
    ensures Inv(s, Step(s, w, e))
  {
    InvSizes(s, w);
    match e
    case Arrive(c) =>
    case WritePart(i, lo, hi) => WriteStepKeeps(s, w, i, lo, hi);
    case WriteDone(i) => WriteDoneKeeps(s, w, i);
    case Mark => MarkStepKeeps(s, w, e);
    case MarkOne(_) => MarkStepKeeps(s, w, e);
    case WriteError =>
    case WriteBack(lo, hi) => WriteBackKeeps(s, w, lo, hi);
    case TakeSnapshot =>
    case Sync =>
    case Save => SaveKeeps(s, w);
    case Kill =>
    case PowerLoss =>
  }

  ghost predicate RunOk(s: Source, w: State, es: seq<Event>)
    requires Truthful(s)
    decreases |es|
  {
    es == [] || (
      && Enabled(s, w, es[0])
      && |w.cache| == |w.disk| == Offset(s.leaves, |s.leaves|) && |s.leaves| <= 8 * |w.bits.bits|
      && RunOk(s, Step(s, w, es[0]), es[1..]))
  }

  ghost function Run(s: Source, w: State, es: seq<Event>): State
    requires Truthful(s) && RunOk(s, w, es)
    decreases |es|
  {
    if es == [] then w else Run(s, Step(s, w, es[0]), es[1..])
  }

  /** At every point of every run, kills and power losses included: a bit set in the saved sidecar means that leaf's
      right bytes are durable at its offset; a bit set in memory, that reading the file gives them; and when every
      leaf is marked the file is the concatenation of the leaves, whatever the order, repeats and sources of the
      blocks. */
  lemma {:induction false} AlwaysDurable(s: Source, w: State, es: seq<Event>)
    requires Truthful(s) && Inv(s, w) && RunOk(s, w, es)
    ensures var v := Run(s, w, es);
            && Inv(s, v)
            && (forall i: nat :: i < |s.leaves| && PB.Bit(Resumed(s, v.sidecar).bits, i) ==> LeafThere(s, v.disk, i))
            && (PB.AllSet(v.bits) ==> v.cache == Whole(s))
            && v.bits.nset == PB.SetBelow(v.bits.bits, |s.leaves|)
    decreases |es|
  {
    if es == [] {
      if PB.AllSet(w.bits) {
        AllMarkedIsWhole(s, w.cache, w.bits);
      }
    } else {
      StepKeepsInv(s, w, es[0]);
      AlwaysDurable(s, Step(s, w, es[0]), es[1..]);
    }
  }

  // ---- what was fetched stays fetched ----

  /** A step marks exactly the leaves of the block it has written, or the one leaf; and only a crash unmarks any, by
      going back to what the sidecar says. */
  lemma MarksExactly(s: Source, w: State, e: Event, i: nat)
    requires Truthful(s) && Inv(s, w) && Enabled(s, w, e) && i < |s.leaves|
    ensures |w.cache| == |w.disk| == Offset(s.leaves, |s.leaves|) && |s.leaves| <= 8 * |w.bits.bits|
    ensures var v := Step(s, w, e);
            && |s.leaves| <= 8 * |v.bits.bits|
            && (PB.Bit(v.bits.bits, i) <==>
                  match e
                  case Mark => PB.Bit(w.bits.bits, i) || s.leaves[i].c == w.recv.c
                  case MarkOne(j) => PB.Bit(w.bits.bits, i) || i == j
                  case Kill => Saved(s, w, i)
                  case PowerLoss => Saved(s, w, i)
                  case _ => PB.Bit(w.bits.bits, i))
  {
    InvSizes(s, w);
    StepKeepsInv(s, w, e);
    match e
    case Mark => MarkAllMarks(s, w.recv.c, w.bits, |s.leaves|, i);
    case MarkOne(j) => PB.SetLeafFacts(w.bits, j, i);
    case _ =>
  }

  /** The sidecar as it is loads for this fetch, with leaf i marked. */
  predicate Saved(s: Source, w: State, i: nat)
    requires i < |s.leaves|
  {
    var d := PB.Decode(w.sidecar, s.root, s.total, |s.leaves|);
    d.Some? && i / 8 < |d.value.bits| && PB.Bit(d.value.bits, i)
  }

  /** Leaf i is marked in memory, in the sidecar and in whatever the flusher has in hand. */
  ghost predicate Safe(s: Source, w: State, i: nat)
    requires Truthful(s) && Inv(s, w) && i < |s.leaves|
  {
    InvSizes(s, w);
    && PB.Bit(w.bits.bits, i) && Saved(s, w, i)
    && (!w.flush.Resting? ==> i / 8 < |w.flush.snap.bits| && PB.Bit(w.flush.snap.bits, i))
  }

  /** Saving the snapshot is what makes a leaf safe: what was marked when the snapshot was taken is then in the
      sidecar. */
  lemma SaveMakesSafe(s: Source, w: State, i: nat)
    requires Truthful(s) && Inv(s, w) && Enabled(s, w, Save) && i < |s.leaves|
    ensures |w.cache| == |w.disk| == Offset(s.leaves, |s.leaves|) && |s.leaves| <= 8 * |w.bits.bits|
    ensures Inv(s, Step(s, w, Save))
    ensures i / 8 < |w.flush.snap.bits|
    ensures Saved(s, Step(s, w, Save), i) <==> PB.Bit(w.flush.snap.bits, i)
    ensures PB.Bit(w.flush.snap.bits, i) && PB.Bit(w.bits.bits, i) ==> Safe(s, Step(s, w, Save), i)
  {
    InvSizes(s, w);
    StepKeepsInv(s, w, Save);
    PB.RoundTrip(w.flush.snap);
  }

  /** A crash right after a save goes back to exactly the saved snapshot. */
  lemma CrashAfterSave(s: Source, w: State, crash: Event)
    requires Truthful(s) && Inv(s, w) && Enabled(s, w, Save) && (crash == Kill || crash == PowerLoss)
    ensures |w.cache| == |w.disk| == Offset(s.leaves, |s.leaves|) && |s.leaves| <= 8 * |w.bits.bits|
    ensures var v := Step(s, w, Save);
            && |v.cache| == |v.disk| == Offset(s.leaves, |s.leaves|) && |s.leaves| <= 8 * |v.bits.bits|
            && Step(s, v, crash).bits == w.flush.snap
  {
    StepKeepsInv(s, w, Save);
    InvSizes(s, w);
    InvSizes(s, Step(s, w, Save));
    PB.RoundTrip(w.flush.snap);
  }

  lemma StaysSafe(s: Source, w: State, e: Event, i: nat)
    requires Truthful(s) && Inv(s, w) && Enabled(s, w, e) && i < |s.leaves| && Safe(s, w, i)
    ensures |w.cache| == |w.disk| == Offset(s.leaves, |s.leaves|) && |s.leaves| <= 8 * |w.bits.bits|
    ensures Inv(s, Step(s, w, e)) && Safe(s, Step(s, w, e), i)
  {
    InvSizes(s, w);
    StepKeepsInv(s, w, e);
    MarksExactly(s, w, e, i);
    if e.Save? {
      SaveMakesSafe(s, w, i);
    }
  }

  /** A safe leaf stays marked at every point of every later run, kills and power losses included: it is never fetched
      again. */
  lemma {:induction false} NeverFetchedAgain(s: Source, w: State, es: seq<Event>, i: nat)
    requires Truthful(s) && Inv(s, w) && RunOk(s, w, es) && i < |s.leaves| && Safe(s, w, i)
    ensures Inv(s, Run(s, w, es)) && Safe(s, Run(s, w, es), i)
    decreases |es|
  {
    if es != [] {
      StaysSafe(s, w, es[0], i);
      NeverFetchedAgain(s, Step(s, w, es[0]), es[1..], i);
    }
  }

  predicate NoCrash(es: seq<Event>) {
    Kill !in es && PowerLoss !in es
  }

  lemma SnapshotStep(s: Source, w: State, e: Event)
    requires Truthful(s) && Inv(s, w) && Enabled(s, w, e) && e != Kill && e != PowerLoss && e != Save
    requires |w.cache| == |w.disk| == Offset(s.leaves, |s.leaves|) && |s.leaves| <= 8 * |w.bits.bits|
    requires !w.flush.Resting?
    ensures !Step(s, w, e).flush.Resting? && Step(s, w, e).flush.snap == w.flush.snap
  {
  }

  /** A snapshot in hand stays until it is saved. */
  lemma {:induction false} SnapshotStays(s: Source, w: State, es: seq<Event>)
    requires Truthful(s) && Inv(s, w) && RunOk(s, w, es) && NoCrash(es) && Save !in es && !w.flush.Resting?
    ensures !Run(s, w, es).flush.Resting? && Run(s, w, es).flush.snap == w.flush.snap
    decreases |es|
  {
    if es != [] {
      SnapshotStep(s, w, es[0]);
      StepKeepsInv(s, w, es[0]);
      SnapshotStays(s, Step(s, w, es[0]), es[1..]);
    }
  }

  /** Short of a crash a mark stays. */
  lemma {:induction false} MarkStays(s: Source, w: State, es: seq<Event>, i: nat)
    requires Truthful(s) && Inv(s, w) && RunOk(s, w, es) && i < |s.leaves| && NoCrash(es)
    requires |s.leaves| <= 8 * |w.bits.bits| && PB.Bit(w.bits.bits, i)
    ensures Inv(s, Run(s, w, es)) && |s.leaves| <= 8 * |Run(s, w, es).bits.bits| && PB.Bit(Run(s, w, es).bits.bits, i)
    decreases |es|
  {
    if es != [] {
      StepKeepsInv(s, w, es[0]);
      MarksExactly(s, w, es[0], i);
      MarkStays(s, Step(s, w, es[0]), es[1..], i);
    } else {
      InvSizes(s, w);
    }
  }

  /** A leaf marked when a snapshot is taken that goes on to be saved before any crash, is marked at every point
      after: what the flusher saved is what the next attempt resumes from. */
  lemma ResumesWhatWasSaved(s: Source, w: State, es: seq<Event>, later: seq<Event>, i: nat)
    requires Truthful(s) && Inv(s, w) && i < |s.leaves| && |s.leaves| <= 8 * |w.bits.bits| && PB.Bit(w.bits.bits, i)
    requires RunOk(s, w, [TakeSnapshot] + es) && NoCrash(es) && Save !in es
    requires Enabled(s, Run(s, w, [TakeSnapshot] + es), Save)
    ensures var u := Run(s, w, [TakeSnapshot] + es);
            && Inv(s, u) && |u.cache| == |u.disk| == Offset(s.leaves, |s.leaves|) && |s.leaves| <= 8 * |u.bits.bits|
            && (RunOk(s, Step(s, u, Save), later) ==>
                  var v := Run(s, Step(s, u, Save), later);
                  |s.leaves| <= 8 * |v.bits.bits| && PB.Bit(v.bits.bits, i))
  {
    var all := [TakeSnapshot] + es;
    assert all[0] == TakeSnapshot && all[1..] == es;
    StepKeepsInv(s, w, TakeSnapshot);
    var t := Step(s, w, TakeSnapshot);
    MarkStays(s, t, es, i);
    SnapshotStays(s, t, es);
    var u := Run(s, t, es);
    InvSizes(s, u);
    SaveMakesSafe(s, u, i);
    if RunOk(s, Step(s, u, Save), later) {
      NeverFetchedAgain(s, Step(s, u, Save), later, i);
      InvSizes(s, Run(s, Step(s, u, Save), later));
    }
  }

  // ---- the loops, in place ----

  class Transfer {
    const src: Source
    const offs: seq<nat>                // where each leaf starts
    const idxOf: map<Cid, seq<nat>>     // the indices each block occupies
    const file: array<Byte>
    const part: PB.PartialFetch

    ghost predicate Valid()
      reads this, file, part, part.bits
    {
      && Truthful(src) && Indexed(src.leaves, idxOf)
      && |offs| == |src.leaves| && (forall i :: 0 <= i < |offs| ==> offs[i] == Offset(src.leaves, i))
      && file != part.bits
      && MarksTrue(src, file[..], part.State())
    }

    constructor (src: Source, offs: seq<nat>, idxOf: map<Cid, seq<nat>>, file: array<Byte>, part: PB.PartialFetch)
      requires Truthful(src) && Indexed(src.leaves, idxOf)
      requires |offs| == |src.leaves| && (forall i :: 0 <= i < |offs| ==> offs[i] == Offset(src.leaves, i))
      requires file != part.bits && MarksTrue(src, file[..], part.State())
      ensures Valid() && this.src == src && this.file == file && this.part == part && this.idxOf == idxOf
    {
      this.src, this.offs, this.idxOf, this.file, this.part := src, offs, idxOf, file, part;
    }

    method WriteAt(i: nat, b: seq<Byte>)
      requires Valid() && i < |src.leaves| && b == src.data[src.leaves[i].c]
      modifies file
      ensures Valid() && NoWorse(src, old(file[..]), file[..]) && LeafThere(src, file[..], i)
    {
      ghost var was := file[..];
      WriteHelps(src, was, i, 0, |b|);
      assert b[0..|b|] == b;
      for k := 0 to |b|
        invariant forall x :: 0 <= x < file.Length ==>
                    file[x] == if offs[i] <= x < offs[i] + k then b[x - offs[i]] else was[x]
      {
        file[offs[i] + k] := b[k];
      }
      assert file[..] == Patch(was, offs[i], b);
      MarksStayTrue(src, was, file[..], part.State());
    }

    method SetBit(i: nat)
      requires Valid() && i < |src.leaves| && LeafThere(src, file[..], i)
      modifies part, part.bits
      ensures Valid()
      ensures forall j: nat :: j < |src.leaves| ==>
                (PB.Bit(part.State().bits, j) <==> old(PB.Bit(part.State().bits, j)) || j == i)
    {
      MarkOneTrue(src, file[..], part.State(), i);
      part.Set(i);
    }

    /** A block from the session: written at every offset it occupies, then every leaf of it marked. */
    method ReceiveBlock(c: Cid, b: seq<Byte>)
      requires Valid() && c in idxOf && c in src.data && b == src.data[c]
      modifies file, part, part.bits
      ensures Valid()
      ensures forall j: nat :: j < |src.leaves| ==>
                (PB.Bit(part.State().bits, j) <==> old(PB.Bit(part.State().bits, j)) || src.leaves[j].c == c)
    {
      var idx := idxOf[c];
      for k := 0 to |idx|
        invariant Valid() && part.State() == old(part.State())
        invariant forall m :: 0 <= m < k ==> LeafThere(src, file[..], idx[m])
      {
        ghost var was := file[..];
        WriteAt(idx[k], b);
        forall m | 0 <= m < k ensures LeafThere(src, file[..], idx[m]) {
          assert LeafThere(src, was, idx[m]);
        }
      }
      for k := 0 to |idx|
        invariant Valid()
        invariant forall m :: 0 <= m < |idx| ==> LeafThere(src, file[..], idx[m])
        invariant forall j: nat :: j < |src.leaves| ==>
                    (PB.Bit(part.State().bits, j) <==> old(PB.Bit(part.State().bits, j)) || j in idx[..k])
      {
        SetBit(idx[k]);
        assert idx[..k + 1] == idx[..k] + [idx[k]];
      }
      assert idx[..|idx|] == idx;
    }

    /** After a gateway resume: every leaf still missing that the block store now has is written and marked. */
    method FillFromStore(store: map<Cid, seq<Byte>>)
      requires Valid() && forall c :: c in store ==> c in src.data && store[c] == src.data[c]
      modifies file, part, part.bits
      ensures Valid()
      ensures forall j: nat :: j < |src.leaves| ==>
                (PB.Bit(part.State().bits, j) <==> old(PB.Bit(part.State().bits, j)) || src.leaves[j].c in store)
    {
      for i := 0 to |src.leaves|
        invariant Valid()
        invariant forall j: nat :: j < |src.leaves| ==>
                    (PB.Bit(part.State().bits, j) <==>
                     old(PB.Bit(part.State().bits, j)) || (j < i && src.leaves[j].c in store))
      {
        var have := part.Get(i);
        if !have && src.leaves[i].c in store {
          WriteAt(i, store[src.leaves[i].c]);
          SetBit(i);
        }
      }
    }

    /** The blocks to ask for: of the distinct ones, those with a leaf not yet on disk. */
    method Needed(uniq: seq<Cid>) returns (need: seq<Cid>)
      requires Valid() && Listed(uniq, idxOf)
      ensures forall c :: c in need <==>
                exists i: nat :: i < |src.leaves| && src.leaves[i].c == c && !PB.Bit(part.State().bits, i)
      ensures NoDup(need)
    {
      need := [];
      for k := 0 to |uniq|
        invariant forall c :: c in need ==> c in uniq[..k]
        invariant NoDup(need)
        invariant forall m :: 0 <= m < k ==> (uniq[m] in need <==> Missing(uniq[m]))
      {
        var idx := idxOf[uniq[k]];
        assert uniq[..k + 1] == uniq[..k] + [uniq[k]];
        assert uniq[k] !in uniq[..k];
        var m := 0;
        while m < |idx|
          invariant m <= |idx|
          invariant forall x :: 0 <= x < m ==> PB.Bit(part.State().bits, idx[x])
        {
          var have := part.Get(idx[m]);
          if !have {
            break;
          }
          m := m + 1;
        }
        if m < |idx| {
          need := need + [uniq[k]];
        }
      }
    }

    ghost predicate Missing(c: Cid)
      requires Valid()
      reads this, file, part, part.bits
    {
      exists i: nat :: i < |src.leaves| && src.leaves[i].c == c && !PB.Bit(part.State().bits, i)
    }
  }

  /** A fresh start: a file of zeros, nothing marked, and a sidecar that says so. */
  function Fresh(s: Source): State
    requires Truthful(s)
  {
    var n := Offset(s.leaves, |s.leaves|);
    var zeros := seq(n, _ => 0);
    var p := PB.NewPart(s.root, s.total, |s.leaves|);
    State(zeros, zeros, p, Idle, Resting, PB.Encode(p))
  }

  lemma FreshIsTrue(s: Source)
    requires Truthful(s)
    ensures Inv(s, Fresh(s))
  {
    var p := PB.NewPart(s.root, s.total, |s.leaves|);
    PB.NothingSet(p.bits, |s.leaves|);
    ConcatSize(s, |s.leaves|);
    PB.RoundTrip(p);
  }

  // ---- the whole way from the DAG ----

  /** The bytes a DAG stands for. */
  function DagBytes(d: Dag, data: map<Cid, seq<Byte>>): seq<Byte>
    requires forall i :: 0 <= i < |Leaves(d)| ==> Leaves(d)[i].c in data
    decreases d, 1
  {
    match d
    case Raw(c, sz) => assert Leaves(d)[0].c == c; data[c]
    case Node(_, links) => assert Leaves(d) == LeavesOf(links); LinksBytes(links, data)
  }

  function LinksBytes(links: seq<Dag>, data: map<Cid, seq<Byte>>): seq<Byte>
    requires forall i :: 0 <= i < |LeavesOf(links)| ==> LeavesOf(links)[i].c in data
    decreases links, 0
  {
    if links == [] then []
    else
      assert forall i :: 0 <= i < |Leaves(links[0])| ==> LeavesOf(links)[i] == Leaves(links[0])[i];
      assert forall i :: 0 <= i < |LeavesOf(links[1..])| ==>
          LeavesOf(links)[|Leaves(links[0])| + i] == LeavesOf(links[1..])[i];
      DagBytes(links[0], data) + LinksBytes(links[1..], data)
  }

  function BytesOf(leaves: seq<Leaf>, data: map<Cid, seq<Byte>>): seq<Byte>
    requires forall i :: 0 <= i < |leaves| ==> leaves[i].c in data
  {
    if leaves == [] then [] else BytesOf(leaves[..|leaves| - 1], data) + data[leaves[|leaves| - 1].c]
  }

  lemma {:induction false} BytesOfConcat(a: seq<Leaf>, b: seq<Leaf>, data: map<Cid, seq<Byte>>)
    requires forall i :: 0 <= i < |a| ==> a[i].c in data
    requires forall i :: 0 <= i < |b| ==> b[i].c in data
    ensures BytesOf(a + b, data) == BytesOf(a, data) + BytesOf(b, data)
    decreases |b|
  {
    if b == [] {
      assert a + b == a;
    } else {
      assert (a + b)[..|a + b| - 1] == a + b[..|b| - 1];
      BytesOfConcat(a, b[..|b| - 1], data);
    }
  }

  lemma {:induction false} DagIsItsLeaves(d: Dag, data: map<Cid, seq<Byte>>)
    requires forall i :: 0 <= i < |Leaves(d)| ==> Leaves(d)[i].c in data
    ensures DagBytes(d, data) == BytesOf(Leaves(d), data)
    decreases d, 1
  {
    match d
    case Raw(c, sz) => assert Leaves(d)[..0] == [];
    case Node(_, links) =>
      assert Leaves(d) == LeavesOf(links);
      LinksAreTheirLeaves(links, data);
  }

  lemma {:induction false} LinksAreTheirLeaves(links: seq<Dag>, data: map<Cid, seq<Byte>>)
    requires forall i :: 0 <= i < |LeavesOf(links)| ==> LeavesOf(links)[i].c in data
    ensures LinksBytes(links, data) == BytesOf(LeavesOf(links), data)
    decreases links, 0
  {
    if links != [] {
      var a, b, all := Leaves(links[0]), LeavesOf(links[1..]), LeavesOf(links);
      assert all == a + b;
      assert forall i :: 0 <= i < |a| ==> all[i] == a[i];
      assert forall i :: 0 <= i < |b| ==> all[|a| + i] == b[i];
      DagIsItsLeaves(links[0], data);
      LinksAreTheirLeaves(links[1..], data);
      BytesOfConcat(a, b, data);
    }
  }

  lemma {:induction false} ConcatIsBytesOf(s: Source, n: nat)
    requires Truthful(s) && n <= |s.leaves|
    ensures Concat(s, n) == BytesOf(s.leaves[..n], s.data)
  {
    if n > 0 {
      ConcatIsBytesOf(s, n - 1);
      assert s.leaves[..n][..n - 1] == s.leaves[..n - 1];
    }
  }

  /** The file equality: fetching what the spine walk of a root lists, with no interior node repeated below it, from
      any state the invariant allows and through any run, ends with every leaf marked only when the file is the DAG's
      bytes. */
  lemma FileIsTheDag(root: Dag, s: Source, w: State, es: seq<Event>)
    requires Truthful(s) && Inv(s, w) && RunOk(s, w, es)
    requires AllRawLeaves(root) && (root.Raw? || NoDup(InteriorsOf(root.links)))
    requires Enumerate(root).Walk? && s.leaves == Enumerate(root).leaves
    ensures forall i :: 0 <= i < |Leaves(root)| ==> Leaves(root)[i].c in s.data
    ensures PB.AllSet(Run(s, w, es).bits) ==> Run(s, w, es).cache == DagBytes(root, s.data)
  {
    EnumerateExact(root);
    AlwaysDurable(s, w, es);
    DagIsItsLeaves(root, s.data);
    ConcatIsBytesOf(s, |s.leaves|);
    assert s.leaves[..|s.leaves|] == s.leaves;
  }
}
