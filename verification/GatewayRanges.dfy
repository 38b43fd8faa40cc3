/** The ranges a leaf resume asks a gateway for (gatewayRanges in gateway.go).

    Missing spans closer than 1 MiB join into runs; while there are more than eight runs the closest neighbours merge.
    Proved: the result covers every span, keeps to span ends, and re-sends as few bytes as any cover of the runs by
    eight ranges can. */
module GatewayRanges {
  import opened Sets

  const RUN_GAP := 0x10_0000
  const MAX_RANGES := 8

  /** An inclusive span of a file's bytes; an empty leaf's span ends one before it starts. */
  datatype Range = Range(from: int, to: int)

  type Ranges = seq<Range>

  function Size(r: Range): int {
    r.to - r.from + 1
  }

  function Total(rs: Ranges): int {
    if rs == [] then 0 else Size(rs[0]) + Total(rs[1..])
  }

  /** Sorted by offset and not overlapping: what the source asks of its input and gives as its result. */
  ghost predicate Sorted(rs: Ranges) {
    && (forall i :: 0 <= i < |rs| ==> rs[i].from <= rs[i].to + 1)
    && forall i, j :: 0 <= i < j < |rs| ==> rs[i].to < rs[j].from
  }

  predicate Within(a: Range, b: Range) {
    b.from <= a.from && a.to <= b.to
  }

  /** Some range of rs holds the whole of a. */
  predicate Held(a: Range, rs: Ranges) {
    exists j :: 0 <= j < |rs| && Within(a, rs[j])
  }

  ghost predicate Covers(rs: Ranges, spans: Ranges) {
    forall i {:trigger Held(spans[i], rs)} :: 0 <= i < |spans| ==> Held(spans[i], rs)
  }

  ghost predicate StartsASpan(x: int, spans: Ranges) {
    exists i :: 0 <= i < |spans| && spans[i].from == x
  }

  ghost predicate EndsASpan(x: int, spans: Ranges) {
    exists i :: 0 <= i < |spans| && spans[i].to == x
  }

  /** Every range starts where some span starts and ends where some span ends. */
  ghost predicate OnSpanEnds(rs: Ranges, spans: Ranges) {
    && (forall j {:trigger StartsASpan(rs[j].from, spans)} :: 0 <= j < |rs| ==> StartsASpan(rs[j].from, spans))
    && (forall j {:trigger EndsASpan(rs[j].to, spans)} :: 0 <= j < |rs| ==> EndsASpan(rs[j].to, spans))
  }

  /** The bytes between neighbours i and i + 1. */
  function Gap(rs: Ranges, i: int): int
    requires 0 <= i < |rs| - 1
  {
    rs[i + 1].from - rs[i].to - 1
  }

  ghost predicate WideGaps(rs: Ranges) {
    forall i :: 0 <= i < |rs| - 1 ==> Gap(rs, i) > RUN_GAP
  }

  // ---- the first loop: runs ----

  /** One more span: it joins the last run or starts a new one. */
  function AddSpan(out: Ranges, m: Range): Ranges {
    var n := |out|;
    if n > 0 && m.from - out[n - 1].to - 1 <= RUN_GAP then
      out[..n - 1] + [Range(out[n - 1].from, if out[n - 1].to >= m.to then out[n - 1].to else m.to)]
    else out + [m]
  }

  /** The runs of a list of spans: spans at most RUN_GAP apart are one run. */
  function Runs(spans: Ranges): Ranges {
    if spans == [] then [] else AddSpan(Runs(spans[..|spans| - 1]), spans[|spans| - 1])
  }

  lemma AddSpanShape(out: Ranges, m: Range)
    requires Sorted(out) && WideGaps(out) && m.from <= m.to + 1
    requires out != [] ==> out[|out| - 1].to < m.from
    ensures var rs := AddSpan(out, m); Sorted(rs) && WideGaps(rs) && rs != [] && rs[|rs| - 1].to == m.to
  {
    var rs := AddSpan(out, m);
    forall i | 0 <= i < |rs| - 1 ensures Gap(rs, i) > RUN_GAP {
      assert i < |out| - 1 ==> Gap(out, i) > RUN_GAP;
    }
  }

  lemma HeldByMore(a: Range, out: Ranges, m: Range)
    requires Held(a, out) && (out != [] ==> out[|out| - 1].to < m.from <= m.to + 1)
    ensures Held(a, AddSpan(out, m))
  {
    var j :| 0 <= j < |out| && Within(a, out[j]);
    assert Within(a, AddSpan(out, m)[j]);
  }

  /** rs holds the runs of spans: sorted and wide apart, they cover the spans and stand on span ends. */
  ghost predicate RunsRight(spans: Ranges, rs: Ranges) {
    && Sorted(rs) && WideGaps(rs) && Covers(rs, spans) && OnSpanEnds(rs, spans)
    && (spans != [] ==> rs != [] && rs[|rs| - 1].to == spans[|spans| - 1].to
                        && rs[|rs| - 1].from <= spans[|spans| - 1].from)
    && (spans == [] ==> rs == [])
  }

  lemma {:induction false} RunsFacts(spans: Ranges)
    requires Sorted(spans)
    ensures RunsRight(spans, Runs(spans))
    decreases |spans|
  {
    if spans != [] {
      var k := |spans| - 1;
      var init, m := spans[..k], spans[k];
      assert spans == init + [m];
      RunsFacts(init);
      AddSpanRight(init, Runs(init), m);
    }
  }

  lemma AddSpanRight(init: Ranges, out: Ranges, m: Range)
    requires Sorted(init + [m]) && RunsRight(init, out)
    ensures RunsRight(init + [m], AddSpan(out, m))
  {
    var n := |init|;
    assert (init + [m])[n] == m && (n > 0 ==> (init + [m])[n - 1] == init[n - 1]);
    AddSpanShape(out, m);
    AddSpanCovers(init, out, m);
    AddSpanEnds(init, out, m);
  }

  /** Some range of rs holds both. */
  predicate HeldTogether(a: Range, b: Range, rs: Ranges) {
    exists j :: 0 <= j < |rs| && Within(a, rs[j]) && Within(b, rs[j])
  }

  /** Which spans are one run: neighbours lie in the same one if and only if at most RUN_GAP bytes are between them. */
  lemma {:induction false} OneRunExactly(spans: Ranges, i: nat)
    requires Sorted(spans) && i < |spans| - 1
    ensures HeldTogether(spans[i], spans[i + 1], Runs(spans)) <==> spans[i + 1].from - spans[i].to - 1 <= RUN_GAP
    decreases |spans|
  {
    var k := |spans| - 1;
    var init, m := spans[..k], spans[k];
    assert init + [m] == spans && init[k - 1] == spans[k - 1];
    RunsFacts(init);
    if i + 1 < k {
      OneRunExactly(init, i);
      assert Held(init[i + 1], Runs(init));
      TogetherAfter(init, Runs(init), m, i);
    } else {
      LastTogether(Runs(init), spans[i], m);
    }
  }

  /** A further span changes nothing for neighbours before it. */
  lemma TogetherAfter(init: Ranges, out: Ranges, m: Range, i: nat)
    requires Sorted(init + [m]) && i < |init| - 1 && Sorted(out) && out != []
    requires out[|out| - 1].to == init[|init| - 1].to && Held(init[i + 1], out)
    ensures HeldTogether(init[i], init[i + 1], AddSpan(out, m)) <==> HeldTogether(init[i], init[i + 1], out)
  {
    var a, b, rs, n := init[i], init[i + 1], AddSpan(out, m), |out|;
    var all := init + [m];
    assert all[i] == a && all[i + 1] == b && all[|init|] == m && all[|init| - 1] == init[|init| - 1];
    if HeldTogether(a, b, out) {
      var j :| 0 <= j < n && Within(a, out[j]) && Within(b, out[j]);
      assert Within(a, rs[j]) && Within(b, rs[j]);
    }
    if HeldTogether(a, b, rs) {
      var j :| 0 <= j < |rs| && Within(a, rs[j]) && Within(b, rs[j]);
      var h :| 0 <= h < n && Within(b, out[h]);
      assert j < n ==> Within(a, out[j]) && Within(b, out[j]);
    }
  }

  lemma LastTogether(out: Ranges, a: Range, m: Range)
    requires Sorted(out) && out != [] && out[|out| - 1].to == a.to && out[|out| - 1].from <= a.from <= a.to + 1
    requires a.to < m.from <= m.to + 1
    ensures HeldTogether(a, m, AddSpan(out, m)) <==> m.from - a.to - 1 <= RUN_GAP
  {
    var rs, n := AddSpan(out, m), |out|;
    if m.from - a.to - 1 <= RUN_GAP {
      assert Within(a, rs[n - 1]) && Within(m, rs[n - 1]);
    }
  }

  lemma AddSpanCovers(init: Ranges, out: Ranges, m: Range)
    requires Sorted(out) && Covers(out, init) && (out != [] ==> out[|out| - 1].to < m.from) && m.from <= m.to + 1
    ensures Covers(AddSpan(out, m), init + [m])
  {
    var rs, spans := AddSpan(out, m), init + [m];
    forall i | 0 <= i < |spans| ensures Held(spans[i], rs) {
      if i < |init| {
        assert Held(init[i], out);
        HeldByMore(init[i], out, m);
      } else {
        assert Within(m, rs[|rs| - 1]);
      }
    }
  }

  lemma MoreSpans(x: int, init: Ranges, m: Range)
    ensures StartsASpan(x, init) || x == m.from ==> StartsASpan(x, init + [m])
    ensures EndsASpan(x, init) || x == m.to ==> EndsASpan(x, init + [m])
  {
    var spans := init + [m];
    assert spans[|init|] == m && forall i :: 0 <= i < |init| ==> spans[i] == init[i];
  }

  lemma AddSpanEnds(init: Ranges, out: Ranges, m: Range)
    requires OnSpanEnds(out, init)
    ensures OnSpanEnds(AddSpan(out, m), init + [m])
  {
    var rs := AddSpan(out, m);
    forall j | 0 <= j < |rs| ensures StartsASpan(rs[j].from, init + [m]) && EndsASpan(rs[j].to, init + [m]) {
      MoreSpans(rs[j].from, init, m);
      MoreSpans(rs[j].to, init, m);
      assert j < |out| ==> StartsASpan(out[j].from, init) && EndsASpan(out[j].to, init);
    }
  }

  // ---- the second loop: merging down to MAX_RANGES ----

  /** Runs merged except at the gaps in cuts: cuts[i] = k leaves out the gap between runs k and k + 1. */
  ghost predicate IncreasingCuts(runs: Ranges, cuts: seq<nat>) {
    && (forall i :: 0 <= i < |cuts| ==> cuts[i] < |runs| - 1)
    && (forall i, j :: 0 <= i < j < |cuts| ==> cuts[i] < cuts[j])
  }

  function First(cuts: seq<nat>, i: nat): nat
    requires i <= |cuts|
  {
    if i == 0 then 0 else cuts[i - 1] + 1
  }

  function Last(runs: Ranges, cuts: seq<nat>, i: nat): int
    requires i <= |cuts|
  {
    if i == |cuts| then |runs| - 1 else cuts[i]
  }

  ghost predicate Merged(runs: Ranges, cuts: seq<nat>, out: Ranges) {
    && IncreasingCuts(runs, cuts) && |runs| > 0
    && |out| == |cuts| + 1
    && forall i :: 0 <= i < |out| ==> out[i] == Range(runs[First(cuts, i)].from, runs[Last(runs, cuts, i)].to)
  }

  /** The gaps left out are the widest: none that was closed is wider than any of them. */
  ghost predicate WidestKept(runs: Ranges, cuts: seq<nat>)
    requires IncreasingCuts(runs, cuts)
  {
    forall k, i :: 0 <= k < |runs| - 1 && k !in cuts && 0 <= i < |cuts| ==> Gap(runs, k) <= Gap(runs, cuts[i])
  }

  /** The index of the closest neighbours, the first such pair. */
  method Closest(out: Ranges) returns (best: nat)
    requires |out| >= 2
    ensures best < |out| - 1
    ensures forall i :: 0 <= i < |out| - 1 ==> Gap(out, best) <= Gap(out, i)
    ensures forall i :: 0 <= i < best ==> Gap(out, best) < Gap(out, i)
  {
    best := 0;
    for i := 1 to |out| - 1
      invariant best < |out| - 1
      invariant forall k :: 0 <= k < i ==> Gap(out, best) <= Gap(out, k)
      invariant forall k :: 0 <= k < best ==> Gap(out, best) < Gap(out, k)
    {
      if out[i + 1].from - out[i].to < out[best + 1].from - out[best].to {
        best := i;
      }
    }
  }

  function RemoveAt(cuts: seq<nat>, i: nat): seq<nat>
    requires i < |cuts|
  {
    cuts[..i] + cuts[i + 1..]
  }

  /** Neighbours i and i + 1 made one range. */
  function Join(out: Ranges, i: nat): Ranges
    requires i < |out| - 1
  {
    out[..i] + [Range(out[i].from, out[i + 1].to)] + out[i + 2..]
  }

  lemma JoinMerges(runs: Ranges, cuts: seq<nat>, out: Ranges, best: nat)
    requires Merged(runs, cuts, out) && best < |cuts|
    ensures Merged(runs, RemoveAt(cuts, best), Join(out, best))
  {
    var cuts', out' := RemoveAt(cuts, best), Join(out, best);
    assert forall i :: 0 <= i < |cuts'| ==> cuts'[i] == if i < best then cuts[i] else cuts[i + 1];
    forall i | 0 <= i < |out'|
      ensures out'[i] == Range(runs[First(cuts', i)].from, runs[Last(runs, cuts', i)].to)
    {
      if i < best {
        assert out'[i] == out[i];
      } else if i == best {
        assert out'[i] == Range(out[i].from, out[i + 1].to);
      } else {
        assert out'[i] == out[i + 1];
      }
    }
  }

  lemma RemovedOne(cuts: seq<nat>, best: nat, k: nat)
    requires best < |cuts| && k in cuts
    ensures k == cuts[best] || k in RemoveAt(cuts, best)
  {
    var cuts' := RemoveAt(cuts, best);
    var m :| 0 <= m < |cuts| && cuts[m] == k;
    if m < best {
      assert cuts'[m] == k;
    } else if m > best {
      assert cuts'[m - 1] == k;
    }
  }

  lemma JoinKeepsWidest(runs: Ranges, cuts: seq<nat>, out: Ranges, best: nat)
    requires Merged(runs, cuts, out) && WidestKept(runs, cuts) && best < |cuts|
    requires forall i :: 0 <= i < |out| - 1 ==> Gap(out, best) <= Gap(out, i)
    ensures IncreasingCuts(runs, RemoveAt(cuts, best)) && WidestKept(runs, RemoveAt(cuts, best))
  {
    var cuts' := RemoveAt(cuts, best);
    assert forall i :: 0 <= i < |cuts'| ==> cuts'[i] == if i < best then cuts[i] else cuts[i + 1];
    forall k, i | 0 <= k < |runs| - 1 && k !in cuts' && 0 <= i < |cuts'| ensures Gap(runs, k) <= Gap(runs, cuts'[i]) {
      var i' := if i < best then i else i + 1;
      GapsOfMerged(runs, cuts, out, i');
      if k in cuts {
        RemovedOne(cuts, best, k);
        GapsOfMerged(runs, cuts, out, best);
      }
    }
  }

  lemma GapsOfMerged(runs: Ranges, cuts: seq<nat>, out: Ranges, i: nat)
    requires Merged(runs, cuts, out) && i < |cuts|
    ensures Gap(out, i) == Gap(runs, cuts[i])
  {
  }

  lemma MergedSorted(runs: Ranges, cuts: seq<nat>, out: Ranges)
    requires Merged(runs, cuts, out) && Sorted(runs)
    ensures Sorted(out)
  {
    forall i | 0 <= i < |out| ensures First(cuts, i) <= Last(runs, cuts, i) && out[i].from <= out[i].to + 1 {
    }
    forall i, j | 0 <= i < j < |out| ensures out[i].to < out[j].from {
      assert Last(runs, cuts, i) == cuts[i] && First(cuts, j) == cuts[j - 1] + 1;
    }
  }

  lemma MergedWide(runs: Ranges, cuts: seq<nat>, out: Ranges)
    requires Merged(runs, cuts, out) && WideGaps(runs)
    ensures WideGaps(out)
  {
    forall i | 0 <= i < |out| - 1 ensures Gap(out, i) > RUN_GAP {
      GapsOfMerged(runs, cuts, out, i);
      assert Gap(runs, cuts[i]) > RUN_GAP;
    }
  }

  lemma MergedCovers(runs: Ranges, cuts: seq<nat>, out: Ranges)
    requires Merged(runs, cuts, out) && Sorted(runs)
    ensures Covers(out, runs) && OnSpanEnds(out, runs)
  {
    forall k | 0 <= k < |runs| ensures Held(runs[k], out) {
      HolderOf(runs, cuts, out, k, |cuts|);
    }
    forall i | 0 <= i < |out| ensures StartsASpan(out[i].from, runs) && EndsASpan(out[i].to, runs) {
      assert runs[First(cuts, i)].from == out[i].from && runs[Last(runs, cuts, i)].to == out[i].to;
    }
  }

  /** Run k lies in one of the first i + 1 merged ranges, if it is not past the last of them. */
  lemma {:induction false} HolderOf(runs: Ranges, cuts: seq<nat>, out: Ranges, k: nat, i: nat)
    requires Merged(runs, cuts, out) && Sorted(runs) && k < |runs| && i <= |cuts| && k <= Last(runs, cuts, i)
    ensures Held(runs[k], out)
  {
    if First(cuts, i) <= k {
      assert Within(runs[k], out[i]);
    } else {
      HolderOf(runs, cuts, out, k, i - 1);
    }
  }

  // ---- what a cover costs ----

  ghost predicate Ordered(rs: Ranges) {
    forall j :: 0 <= j < |rs| ==> rs[j].from <= rs[j].to + 1
  }

  /** Some range of rs bridges the gap between runs k and k + 1. */
  predicate Joined(runs: Ranges, rs: Ranges, k: int)
    requires 0 <= k < |runs| - 1
  {
    exists j :: 0 <= j < |rs| && Within(runs[k], rs[j]) && Within(runs[k + 1], rs[j])
  }

  /** The bytes of the first n runs that rs holds, and of the gaps between them that it bridges. */
  function Spanned(runs: Ranges, rs: Ranges, n: nat): int
    requires n <= |runs|
  {
    if n == 0 then 0
    else Spanned(runs, rs, n - 1)
         + (if Held(runs[n - 1], rs) then Size(runs[n - 1]) else 0)
         + (if n >= 2 && Joined(runs, rs, n - 2) then Gap(runs, n - 2) else 0)
  }

  lemma {:induction false} SpannedByOne(runs: Ranges, b: Range, n: nat)
    requires Sorted(runs) && n <= |runs| && b.from <= b.to + 1
    ensures Spanned(runs, [b], n) <= Size(b)
    ensures n > 0 && Within(runs[n - 1], b) ==> Spanned(runs, [b], n) <= runs[n - 1].to - b.from + 1
    ensures n > 0 && runs[n - 1].from < b.from ==> Spanned(runs, [b], n) == 0
  {
    assert forall a: Range :: Held(a, [b]) <==> Within(a, b) by {
      forall a: Range ensures Held(a, [b]) <==> Within(a, b) {
        assert [b][0] == b;
      }
    }
    if n > 0 {
      SpannedByOne(runs, b, n - 1);
      if n >= 2 {
        assert Joined(runs, [b], n - 2) <==> Within(runs[n - 2], b) && Within(runs[n - 1], b) by {
          assert [b][0] == b;
        }
      }
    }
  }

  lemma {:induction false} SpannedSplits(runs: Ranges, rs: Ranges, n: nat)
    requires Sorted(runs) && n <= |runs| && rs != []
    ensures Spanned(runs, rs, n) <= Spanned(runs, [rs[0]], n) + Spanned(runs, rs[1..], n)
  {
    if n > 0 {
      SpannedSplits(runs, rs, n - 1);
      assert [rs[0]][0] == rs[0];
      if Held(runs[n - 1], rs) {
        var j :| 0 <= j < |rs| && Within(runs[n - 1], rs[j]);
        assert j > 0 ==> rs[1..][j - 1] == rs[j];
        assert Held(runs[n - 1], [rs[0]]) || Held(runs[n - 1], rs[1..]);
      }
      if n >= 2 && Joined(runs, rs, n - 2) {
        var j :| 0 <= j < |rs| && Within(runs[n - 2], rs[j]) && Within(runs[n - 1], rs[j]);
        assert j > 0 ==> rs[1..][j - 1] == rs[j];
        assert Joined(runs, [rs[0]], n - 2) || Joined(runs, rs[1..], n - 2);
      }
    }
  }

  lemma {:induction false} SpannedByNone(runs: Ranges, n: nat)
    requires n <= |runs|
    ensures Spanned(runs, [], n) == 0
  {
    if n > 0 {
      SpannedByNone(runs, n - 1);
    }
  }

  /** A list of ranges is at least as many bytes as the runs it holds and the gaps it bridges. */
  lemma {:induction false} SpannedBound(runs: Ranges, rs: Ranges)
    requires Sorted(runs) && Ordered(rs)
    ensures Spanned(runs, rs, |runs|) <= Total(rs)
    decreases |rs|
  {
    if rs == [] {
      SpannedByNone(runs, |runs|);
    } else {
      SpannedBound(runs, rs[1..]);
      SpannedByOne(runs, rs[0], |runs|);
      SpannedSplits(runs, rs, |runs|);
    }
  }

  // ---- the gaps a list of ranges leaves open ----

  /** Which of the first n gaps rs leaves open. */
  function Open(runs: Ranges, rs: Ranges, n: nat): set<nat>
    requires n < |runs| || n == 0
  {
    set k: nat | k < n && !Joined(runs, rs, k)
  }

  /** The bytes of the first n gaps that are in s, less t for each. */
  function GapSum(runs: Ranges, s: set<nat>, n: nat, t: int): int
    requires n < |runs| || n == 0
  {
    if n == 0 then 0 else GapSum(runs, s, n - 1, t) + if n - 1 in s then Gap(runs, n - 1) - t else 0
  }

  function CountBelow(s: set<nat>, n: nat): nat {
    if n == 0 then 0 else CountBelow(s, n - 1) + if n - 1 in s then 1 else 0
  }

  /** A cover holds its runs and bridges every gap it does not leave open. */
  lemma {:induction false} SpannedByCover(runs: Ranges, rs: Ranges, n: nat)
    requires Sorted(runs) && Covers(rs, runs) && n < |runs|
    ensures Spanned(runs, rs, n + 1) == runs[n].to - runs[0].from + 1 - GapSum(runs, Open(runs, rs, |runs| - 1), n, 0)
  {
    if n > 0 {
      SpannedByCover(runs, rs, n - 1);
    } else {
      assert Spanned(runs, rs, 0) == 0;
    }
  }

  /** The ranges that hold some run up to n. */
  function Reaching(runs: Ranges, rs: Ranges, n: nat): set<nat>
    requires n < |runs|
  {
    set j: nat | j < |rs| && exists i: nat :: i <= n && Within(runs[i], rs[j])
  }

  /** A range that holds a run past an open gap holds none before it. */
  lemma PastOpenGap(runs: Ranges, rs: Ranges, n: nat, j: nat)
    requires Sorted(runs) && 0 < n < |runs| && j < |rs| && Within(runs[n], rs[j]) && !Joined(runs, rs, n - 1)
    ensures j !in Reaching(runs, rs, n - 1)
  {
    assert forall i: nat :: i <= n - 1 && Within(runs[i], rs[j]) ==> Within(runs[n - 1], rs[j]);
  }

  /** m ranges that cover the runs leave at most m - 1 gaps open: past an open gap it takes a new range. */
  lemma {:induction false} OpenIsFew(runs: Ranges, rs: Ranges, n: nat)
    requires Sorted(runs) && Covers(rs, runs) && n < |runs|
    ensures CountBelow(Open(runs, rs, |runs| - 1), n) + 1 <= |Reaching(runs, rs, n)|
  {
    assert Held(runs[n], rs);
    var j: nat :| j < |rs| && Within(runs[n], rs[j]);
    var r := Reaching(runs, rs, n);
    assert j in r;
    if n == 0 {
      assert {j} <= r;
      SubsetSize({j}, r);
    } else {
      OpenIsFew(runs, rs, n - 1);
      var q := Reaching(runs, rs, n - 1);
      assert q <= r;
      if n - 1 in Open(runs, rs, |runs| - 1) {
        PastOpenGap(runs, rs, n, j);
        SubsetSize(q + {j}, r);
      } else {
        SubsetSize(q, r);
      }
    }
  }

  function Below(n: nat): (s: set<nat>)
    ensures |s| == n && forall j :: j in s <==> 0 <= j < n
  {
    if n == 0 then {} else Below(n - 1) + {n - 1}
  }

  // ---- the widest gaps are the best to leave open ----

  /** A width that separates the gaps left out from those closed. */
  lemma {:induction false} Threshold(runs: Ranges, cuts: seq<nat>, n: nat) returns (t: int)
    requires Sorted(runs) && IncreasingCuts(runs, cuts) && WidestKept(runs, cuts) && n < |runs|
    ensures t >= 0
    ensures forall k :: 0 <= k < n && k !in cuts ==> Gap(runs, k) <= t
    ensures t == 0 || exists k :: 0 <= k < n && k !in cuts && Gap(runs, k) == t
  {
    t := 0;
    if n > 0 {
      t := Threshold(runs, cuts, n - 1);
      if n - 1 !in cuts && Gap(runs, n - 1) > t {
        t := Gap(runs, n - 1);
      }
    }
  }

  lemma {:induction false} ExcessBelow(runs: Ranges, s: set<nat>, c: set<nat>, n: nat, t: int)
    requires n < |runs|
    requires forall k :: 0 <= k < n ==> if k in c then Gap(runs, k) >= t else Gap(runs, k) <= t
    ensures GapSum(runs, s, n, t) <= GapSum(runs, c, n, t)
  {
    if n > 0 {
      ExcessBelow(runs, s, c, n - 1, t);
    }
  }

  lemma {:induction false} SumFromExcess(runs: Ranges, s: set<nat>, n: nat, t: int)
    requires n < |runs| || n == 0
    ensures GapSum(runs, s, n, 0) == GapSum(runs, s, n, t) + t * CountBelow(s, n)
  {
    if n > 0 {
      SumFromExcess(runs, s, n - 1, t);
      var c := CountBelow(s, n - 1);
      assert t * (c + 1) == t * c + t;
    }
  }

  /** No choice of as many gaps is wider in sum than the gaps left out. */
  lemma WidestAreBest(runs: Ranges, cuts: seq<nat>, c: set<nat>, s: set<nat>)
    requires Sorted(runs) && runs != [] && IncreasingCuts(runs, cuts) && WidestKept(runs, cuts)
    requires forall k :: k in c <==> k in cuts
    requires CountBelow(s, |runs| - 1) <= CountBelow(c, |runs| - 1)
    ensures GapSum(runs, s, |runs| - 1, 0) <= GapSum(runs, c, |runs| - 1, 0)
  {
    var n := |runs| - 1;
    var t := Threshold(runs, cuts, n);
    forall k | 0 <= k < n ensures if k in c then Gap(runs, k) >= t else Gap(runs, k) <= t {
      if k in c {
        var i :| 0 <= i < |cuts| && cuts[i] == k;
        assert Gap(runs, cuts[i]) >= t;
      }
    }
    ExcessBelow(runs, s, c, n, t);
    SumFromExcess(runs, s, n, t);
    SumFromExcess(runs, c, n, t);
    Scale(t, CountBelow(s, n), CountBelow(c, n));
  }

  lemma Scale(t: int, x: int, y: int)
    requires t >= 0 && x <= y
    ensures t * x <= t * y
  {
  }

  /** The result's own cost: the whole span of the runs less the gaps left out. */
  lemma {:induction false} MergedTotal(runs: Ranges, cuts: seq<nat>, out: Ranges, c: set<nat>, i: nat)
    requires Merged(runs, cuts, out) && Sorted(runs) && i < |out|
    requires forall k :: k in c <==> k in cuts
    ensures Total(out[..i + 1]) == out[i].to - runs[0].from + 1 - GapSum(runs, c, Last(runs, cuts, i), 0)
    ensures CountBelow(c, Last(runs, cuts, i)) == i
  {
    assert out[..i + 1] == out[..i] + [out[i]];
    TotalAppend(out[..i], out[i]);
    if i > 0 {
      MergedTotal(runs, cuts, out, c, i - 1);
      GapSumStep(runs, c, cuts[i - 1]);
      NoneBetween(runs, cuts, c, i, Last(runs, cuts, i));
    } else {
      NoneBetween(runs, cuts, c, 0, Last(runs, cuts, 0));
    }
  }

  lemma GapSumStep(runs: Ranges, c: set<nat>, k: nat)
    requires k in c && k < |runs| - 1
    ensures GapSum(runs, c, k + 1, 0) == GapSum(runs, c, k, 0) + Gap(runs, k)
    ensures CountBelow(c, k + 1) == CountBelow(c, k) + 1
  {
  }

  lemma {:induction false} NoneBetween(runs: Ranges, cuts: seq<nat>, c: set<nat>, i: nat, m: nat)
    requires IncreasingCuts(runs, cuts) && |runs| > 0 && i <= |cuts| && First(cuts, i) <= m <= Last(runs, cuts, i)
    requires forall k :: k in c <==> k in cuts
    ensures GapSum(runs, c, m, 0) == GapSum(runs, c, First(cuts, i), 0)
    ensures CountBelow(c, m) == CountBelow(c, First(cuts, i))
    decreases m
  {
    if m > First(cuts, i) {
      NoneBetween(runs, cuts, c, i, m - 1);
      assert m - 1 !in c;
    }
  }

  lemma {:induction false} TotalAppend(rs: Ranges, r: Range)
    ensures Total(rs + [r]) == Total(rs) + Size(r)
    decreases |rs|
  {
    if rs == [] {
      assert [] + [r] == [r];
    } else {
      assert (rs + [r])[1..] == rs[1..] + [r];
      TotalAppend(rs[1..], r);
    }
  }

  /** The merging re-sends as few bytes as it can: no cover of the runs by as many ranges is smaller. */
  lemma MergedIsBest(runs: Ranges, cuts: seq<nat>, out: Ranges, rs: Ranges)
    requires Sorted(runs) && Merged(runs, cuts, out) && WidestKept(runs, cuts)
    requires Ordered(rs) && Covers(rs, runs) && (|rs| <= |out| || |cuts| == |runs| - 1)
    ensures Total(out) <= Total(rs)
  {
    var c := set k | k in cuts;
    MergedWhole(runs, cuts, out, c);
    CoverCost(runs, rs);
    CoverWiderGaps(runs, cuts, c, rs);
  }

  /** The gaps a cover by no more ranges leaves open sum to no more than those left out. */
  lemma CoverWiderGaps(runs: Ranges, cuts: seq<nat>, c: set<nat>, rs: Ranges)
    requires Sorted(runs) && runs != [] && IncreasingCuts(runs, cuts) && WidestKept(runs, cuts)
    requires (forall k :: k in c <==> k in cuts) && CountBelow(c, |runs| - 1) == |cuts|
    requires Ordered(rs) && Covers(rs, runs) && (|rs| <= |cuts| + 1 || |cuts| == |runs| - 1)
    ensures GapSum(runs, Open(runs, rs, |runs| - 1), |runs| - 1, 0) <= GapSum(runs, c, |runs| - 1, 0)
  {
    CoverOpensFew(runs, rs);
    WidestAreBest(runs, cuts, c, Open(runs, rs, |runs| - 1));
  }

  lemma MergedWhole(runs: Ranges, cuts: seq<nat>, out: Ranges, c: set<nat>)
    requires Sorted(runs) && Merged(runs, cuts, out)
    requires forall k :: k in c <==> k in cuts
    ensures Total(out) == runs[|runs| - 1].to - runs[0].from + 1 - GapSum(runs, c, |runs| - 1, 0)
    ensures CountBelow(c, |runs| - 1) == |cuts|
  {
    assert out[..|out|] == out;
    MergedTotal(runs, cuts, out, c, |out| - 1);
  }

  lemma CoverCost(runs: Ranges, rs: Ranges)
    requires Sorted(runs) && runs != [] && Ordered(rs) && Covers(rs, runs)
    ensures Total(rs)
            >= runs[|runs| - 1].to - runs[0].from + 1 - GapSum(runs, Open(runs, rs, |runs| - 1), |runs| - 1, 0)
  {
    SpannedByCover(runs, rs, |runs| - 1);
    SpannedBound(runs, rs);
  }

  lemma CoverOpensFew(runs: Ranges, rs: Ranges)
    requires Sorted(runs) && runs != [] && Covers(rs, runs)
    ensures CountBelow(Open(runs, rs, |runs| - 1), |runs| - 1) <= |rs| - 1
    ensures CountBelow(Open(runs, rs, |runs| - 1), |runs| - 1) <= |runs| - 1
  {
    OpenIsFew(runs, rs, |runs| - 1);
    SubsetSize(Reaching(runs, rs, |runs| - 1), Below(|rs|));
    CountAtMost(Open(runs, rs, |runs| - 1), |runs| - 1);
  }

  lemma {:induction false} CountAtMost(s: set<nat>, n: nat)
    ensures CountBelow(s, n) <= n
  {
    if n > 0 {
      CountAtMost(s, n - 1);
    }
  }

  // ---- the function itself ----

  /** The first loop. */
  method CollectRuns(missing: Ranges) returns (out: Ranges)
    ensures out == Runs(missing)
  {
    out := [];
    for k := 0 to |missing|
      invariant out == Runs(missing[..k])
    {
      var m, n := missing[k], |out|;
      assert missing[..k + 1][..k] == missing[..k];
      if n > 0 && m.from - out[n - 1].to - 1 <= RUN_GAP {
        out := out[n - 1 := Range(out[n - 1].from, if out[n - 1].to >= m.to then out[n - 1].to else m.to)];
      } else {
        out := out + [m];
      }
    }
    assert missing[..|missing|] == missing;
  }

  lemma {:induction false} Counting(n: nat) returns (cuts: seq<nat>)
    ensures |cuts| == n && (forall i :: 0 <= i < n ==> cuts[i] == i) && forall k :: 0 <= k < n ==> k in cuts
  {
    cuts := [];
    if n > 0 {
      var less := Counting(n - 1);
      cuts := less + [n - 1];
      assert cuts[n - 1] == n - 1;
      assert forall k :: 0 <= k < n ==> k in less || k == n - 1;
    }
  }

  lemma NothingMerged(runs: Ranges) returns (cuts: seq<nat>)
    requires runs != []
    ensures Merged(runs, cuts, runs) && WidestKept(runs, cuts)
  {
    cuts := Counting(|runs| - 1);
    assert IncreasingCuts(runs, cuts);
    forall i | 0 <= i < |runs| ensures runs[i] == Range(runs[First(cuts, i)].from, runs[Last(runs, cuts, i)].to) {
      assert First(cuts, i) == i && Last(runs, cuts, i) == i;
    }
  }

  lemma JoinInPlace(out: Ranges, i: nat)
    requires i < |out| - 1
    ensures out[i := Range(out[i].from, out[i + 1].to)][..i + 1] + out[i := Range(out[i].from, out[i + 1].to)][i + 2..]
            == Join(out, i)
  {
    var o := out[i := Range(out[i].from, out[i + 1].to)];
    assert o[i + 2..] == out[i + 2..];
    assert o[..i + 1] == out[..i] + [Range(out[i].from, out[i + 1].to)];
  }

  /** The second loop. cuts names the gaps it leaves out. */
  method MergeDown(runs: Ranges) returns (out: Ranges, ghost cuts: seq<nat>)
    requires runs != []
    ensures Merged(runs, cuts, out) && WidestKept(runs, cuts) && |out| <= MAX_RANGES
    ensures |runs| > MAX_RANGES ==> |out| == MAX_RANGES
    ensures |runs| <= MAX_RANGES ==> out == runs
  {
    out := runs;
    cuts := NothingMerged(runs);
    while |out| > MAX_RANGES
      invariant Merged(runs, cuts, out) && WidestKept(runs, cuts)
      invariant |runs| > MAX_RANGES ==> |out| >= MAX_RANGES
      invariant |runs| <= MAX_RANGES ==> out == runs
      decreases |out|
    {
      var best := Closest(out);
      JoinMerges(runs, cuts, out, best);
      JoinKeepsWidest(runs, cuts, out, best);
      cuts := RemoveAt(cuts, best);
      JoinInPlace(out, best);
      out := out[best := Range(out[best].from, out[best + 1].to)];
      out := out[..best + 1] + out[best + 2..];
    }
  }

  /** The ranges to ask a gateway for: sorted, disjoint, covering every missing span, on span ends, at most eight, no
      gap of RUN_GAP or less; the runs themselves if they are few enough, else the runs merged but for the seven
      widest gaps, so that no cover of the runs by eight ranges is smaller. */
  method GatewayRanges(missing: Ranges) returns (out: Ranges)
    requires Sorted(missing)
    ensures |out| <= MAX_RANGES && Sorted(out) && WideGaps(out)
    ensures Covers(out, missing) && OnSpanEnds(out, missing)
    ensures |Runs(missing)| <= MAX_RANGES ==> out == Runs(missing)
    ensures |Runs(missing)| > MAX_RANGES ==> |out| == MAX_RANGES
    ensures |out| < MAX_RANGES ==>
              forall i: nat :: i < |missing| - 1 && missing[i + 1].from - missing[i].to - 1 > RUN_GAP ==>
                !HeldTogether(missing[i], missing[i + 1], out)
    ensures out != [] ==> exists cuts :: Merged(Runs(missing), cuts, out) && WidestKept(Runs(missing), cuts)
    ensures forall rs :: Ordered(rs) && |rs| <= MAX_RANGES && Covers(rs, Runs(missing)) ==> Total(out) <= Total(rs)
  {
    out := CollectRuns(missing);
    ghost var runs := out;
    RunsFacts(missing);
    if out == [] {
      assert missing == [];
      forall rs | Ordered(rs) ensures Total(rs) >= 0 {
        TotalNonNegative(rs);
      }
      return;
    }
    ghost var cuts;
    out, cuts := MergeDown(out);
    MergedSorted(runs, cuts, out);
    MergedWide(runs, cuts, out);
    MergedCovers(runs, cuts, out);
    ThroughRuns(missing, runs, out);
    forall i: nat | i < |missing| - 1
      ensures HeldTogether(missing[i], missing[i + 1], runs) <==> missing[i + 1].from - missing[i].to - 1 <= RUN_GAP
    {
      OneRunExactly(missing, i);
    }
    forall rs | Ordered(rs) && |rs| <= MAX_RANGES && Covers(rs, runs) ensures Total(out) <= Total(rs) {
      MergedIsBest(runs, cuts, out, rs);
    }
  }

  lemma ThroughRuns(spans: Ranges, runs: Ranges, out: Ranges)
    requires Covers(runs, spans) && Covers(out, runs) && OnSpanEnds(runs, spans) && OnSpanEnds(out, runs)
    ensures Covers(out, spans) && OnSpanEnds(out, spans)
  {
    forall i | 0 <= i < |spans| ensures Held(spans[i], out) {
      assert Held(spans[i], runs);
      var j :| 0 <= j < |runs| && Within(spans[i], runs[j]);
      assert Held(runs[j], out);
      var k :| 0 <= k < |out| && Within(runs[j], out[k]);
      assert Within(spans[i], out[k]);
    }
    forall j | 0 <= j < |out| ensures StartsASpan(out[j].from, spans) && EndsASpan(out[j].to, spans) {
      assert StartsASpan(out[j].from, runs) && EndsASpan(out[j].to, runs);
      var i :| 0 <= i < |runs| && runs[i].from == out[j].from;
      assert StartsASpan(runs[i].from, spans);
      var i' :| 0 <= i' < |runs| && runs[i'].to == out[j].to;
      assert EndsASpan(runs[i'].to, spans);
    }
  }

  lemma {:induction false} TotalNonNegative(rs: Ranges)
    requires Ordered(rs)
    ensures Total(rs) >= 0
    decreases |rs|
  {
    if rs != [] {
      TotalNonNegative(rs[1..]);
    }
  }
}
