/** The leaves of a file's DAG in order (the spine walk of writeThrough in fetch.go). */
module LeafSpine {
  type Cid = nat

  /** A DAG as the tree of its occurrences; a raw leaf's size comes with the link to it. */
  datatype Dag = Raw(c: Cid, sz: nat) | Node(c: Cid, links: seq<Dag>)

  datatype Leaf = Leaf(c: Cid, sz: nat)

  /** Every leaf, left to right: the file. */
  function Leaves(d: Dag): seq<Leaf>
    decreases d, 1
  {
    match d
    case Raw(c, sz) => [Leaf(c, sz)]
    case Node(_, links) => LeavesOf(links)
  }

  function LeavesOf(links: seq<Dag>): seq<Leaf>
    decreases links, 0
  {
    if links == [] then [] else Leaves(links[0]) + LeavesOf(links[1..])
  }

  /** The interior nodes below, one entry an occurrence. */
  function Interiors(d: Dag): seq<Cid>
    decreases d, 1
  {
    match d
    case Raw(_, _) => []
    case Node(c, links) => [c] + InteriorsOf(links)
  }

  function InteriorsOf(links: seq<Dag>): seq<Cid>
    decreases links, 0
  {
    if links == [] then [] else Interiors(links[0]) + InteriorsOf(links[1..])
  }

  /** No interior node without links: such a node is a dag-pb leaf, which cannot be referenced. */
  predicate AllRawLeaves(d: Dag)
    decreases d, 1
  {
    d.Node? ==> d.links != [] && AllRawLeavesOf(d.links)
  }

  predicate AllRawLeavesOf(links: seq<Dag>)
    decreases links, 0
  {
    links == [] || (AllRawLeaves(links[0]) && AllRawLeavesOf(links[1..]))
  }

  datatype Walk = NotRawLeaves | Walk(leaves: seq<Leaf>, seen: set<Cid>)

  /** The walk of a node's links: an interior node already seen is passed over. */
  function SpineOf(links: seq<Dag>, seen: set<Cid>): Walk
    decreases links
  {
    if links == [] then Walk([], seen)
    else
      var first := SpineLink(links[0], seen);
      if first.NotRawLeaves? then NotRawLeaves
      else
        var rest := SpineOf(links[1..], first.seen);
        if rest.NotRawLeaves? then NotRawLeaves else Walk(first.leaves + rest.leaves, rest.seen)
  }

  function SpineLink(d: Dag, seen: set<Cid>): Walk
    decreases d
  {
    match d
    case Raw(c, sz) => Walk([Leaf(c, sz)], seen)
    case Node(c, links) =>
      if c in seen then Walk([], seen)
      else if links == [] then NotRawLeaves
      else SpineOf(links, seen + {c})
  }

  /** The whole enumeration: a raw root is its own only leaf. */
  function Enumerate(root: Dag): Walk {
    match root
    case Raw(c, sz) => Walk([Leaf(c, sz)], {})
    case Node(_, links) => if links == [] then NotRawLeaves else SpineOf(links, {})
  }

  ghost predicate NoDup(s: seq<Cid>) {
    forall i, j :: 0 <= i < j < |s| ==> s[i] != s[j]
  }

  /** Interior nodes all distinct, and none met before. */
  ghost predicate Fresh(s: seq<Cid>, seen: set<Cid>) {
    NoDup(s) && forall c :: c in s ==> c !in seen
  }

  function Elements(s: seq<Cid>): set<Cid> {
    set c | c in s
  }

  lemma FreshConcat(a: seq<Cid>, b: seq<Cid>, seen: set<Cid>)
    ensures Fresh(a + b, seen) <==> Fresh(a, seen) && Fresh(b, seen + Elements(a))
  {
    var s := a + b;
    if Fresh(s, seen) {
      forall i, j | 0 <= i < j < |a| ensures a[i] != a[j] { assert s[i] == a[i] && s[j] == a[j]; }
      forall i, j | 0 <= i < j < |b| ensures b[i] != b[j] { assert s[|a| + i] == b[i] && s[|a| + j] == b[j]; }
      forall c | c in b ensures c !in seen + Elements(a) {
        var j :| 0 <= j < |b| && b[j] == c;
        assert s[|a| + j] == c;
        assert forall i :: 0 <= i < |a| ==> s[i] == a[i];
      }
      assert forall c :: c in a ==> c in s;
    }
    if Fresh(a, seen) && Fresh(b, seen + Elements(a)) {
      forall i, j | 0 <= i < j < |s| ensures s[i] != s[j] {
        if i < |a| <= j {
          assert s[i] in Elements(a) && s[j] in b;
        }
      }
    }
  }

  lemma {:induction false} SomeLeaf(d: Dag)
    requires AllRawLeaves(d)
    ensures Leaves(d) != []
    decreases d
  {
    if d.Node? {
      SomeLeaf(d.links[0]);
    }
  }

  /** Where interior nodes are fresh the walk gives every leaf; where one is not, it loses some. */
  lemma {:induction false} LinkExact(d: Dag, seen: set<Cid>)
    requires AllRawLeaves(d)
    ensures var w := SpineLink(d, seen);
            && w.Walk? && |w.leaves| <= |Leaves(d)|
            && (Fresh(Interiors(d), seen) ==> w.leaves == Leaves(d) && w.seen == seen + Elements(Interiors(d)))
            && (!Fresh(Interiors(d), seen) ==> |w.leaves| < |Leaves(d)|)
    decreases d, 1
  {
    match d
    case Raw(_, _) =>
    case Node(c, links) =>
      SomeLeaf(d);
      FreshConcat([c], InteriorsOf(links), seen);
      assert Elements([c]) == {c};
      assert Elements(Interiors(d)) == {c} + Elements(InteriorsOf(links));
      if c in seen {
        assert [c][0] == c;
      } else {
        LinksExact(links, seen + {c});
      }
  }

  lemma {:induction false} LinksExact(links: seq<Dag>, seen: set<Cid>)
    requires AllRawLeavesOf(links)
    ensures var w := SpineOf(links, seen);
            && w.Walk? && |w.leaves| <= |LeavesOf(links)|
            && (Fresh(InteriorsOf(links), seen) ==>
                  w.leaves == LeavesOf(links) && w.seen == seen + Elements(InteriorsOf(links)))
            && (!Fresh(InteriorsOf(links), seen) ==> |w.leaves| < |LeavesOf(links)|)
    decreases links, 0
  {
    if links != [] {
      var a, b := Interiors(links[0]), InteriorsOf(links[1..]);
      LinkExact(links[0], seen);
      LinksExact(links[1..], SpineLink(links[0], seen).seen);
      FreshConcat(a, b, seen);
      assert Elements(a + b) == Elements(a) + Elements(b);
    }
  }

  /** The enumeration is the file's leaves in order if and only if no interior node below the root occurs twice; a
      repeat always loses leaves. */
  lemma EnumerateExact(root: Dag)
    requires AllRawLeaves(root)
    ensures Enumerate(root).Walk?
    ensures Enumerate(root).leaves == Leaves(root) <==> root.Raw? || NoDup(InteriorsOf(root.links))
  {
    if root.Node? {
      LinksExact(root.links, {});
    }
  }

  /** With no interior node repeated, the walk refuses exactly the files with a dag-pb leaf. */
  lemma {:induction false} RefusesExactly(links: seq<Dag>, seen: set<Cid>)
    requires Fresh(InteriorsOf(links), seen)
    ensures SpineOf(links, seen).NotRawLeaves? <==> !AllRawLeavesOf(links)
    decreases links, 0
  {
    if links != [] {
      var a, b := Interiors(links[0]), InteriorsOf(links[1..]);
      FreshConcat(a, b, seen);
      if links[0].Node? {
        var c, ls := links[0].c, links[0].links;
        FreshConcat([c], InteriorsOf(ls), seen);
        assert Elements([c]) == {c};
        assert [c][0] == c;
        RefusesExactly(ls, seen + {c});
      }
      if AllRawLeaves(links[0]) {
        LinkExact(links[0], seen);
        RefusesExactly(links[1..], seen + Elements(a));
      }
    }
  }

  // ---- where each leaf goes ----

  /** Where leaf i starts: the sizes before it. */
  function Offset(leaves: seq<Leaf>, i: nat): nat
    requires i <= |leaves|
  {
    if i == 0 then 0 else Offset(leaves, i - 1) + leaves[i - 1].sz
  }

  lemma {:induction false} OffsetPrefix(leaves: seq<Leaf>, more: seq<Leaf>, i: nat)
    requires i <= |leaves|
    ensures Offset(leaves + more, i) == Offset(leaves, i)
  {
    if i > 0 {
      OffsetPrefix(leaves, more, i - 1);
    }
  }

  /** Every CID that occurs has the indices it occurs at, and only those. */
  ghost predicate Indexed(leaves: seq<Leaf>, idxOf: map<Cid, seq<nat>>) {
    && (forall i :: 0 <= i < |leaves| ==> leaves[i].c in idxOf && i in idxOf[leaves[i].c])
    && (forall c :: c in idxOf ==> idxOf[c] != [])
    && (forall c, k :: c in idxOf && 0 <= k < |idxOf[c]| ==> idxOf[c][k] < |leaves| && leaves[idxOf[c][k]].c == c)
  }

  lemma IndexedAppend(leaves: seq<Leaf>, idxOf: map<Cid, seq<nat>>, l: Leaf)
    requires Indexed(leaves, idxOf)
    ensures Indexed(leaves + [l], idxOf[l.c := (if l.c in idxOf then idxOf[l.c] else []) + [|leaves|]])
  {
    var n := |leaves|;
    var was := if l.c in idxOf then idxOf[l.c] else [];
    var next := idxOf[l.c := was + [n]];
    assert (was + [n])[|was|] == n;
    forall i | 0 <= i < n + 1 ensures (leaves + [l])[i].c in next && i in next[(leaves + [l])[i].c] {
      if i < n && leaves[i].c == l.c {
        var k :| 0 <= k < |was| && was[k] == i;
        assert (was + [n])[k] == i;
      }
    }
    forall c, k | c in next && 0 <= k < |next[c]| ensures next[c][k] <= n && (leaves + [l])[next[c][k]].c == c {
      if c == l.c {
        assert next[c][k] == if k < |was| then was[k] else n;
      } else {
        assert next[c] == idxOf[c];
      }
    }
  }

  /** One more leaf keeps the whole table right. */
  lemma TableAppend(leaves: seq<Leaf>, idxOf: map<Cid, seq<nat>>, uniq: seq<Cid>, l: Leaf)
    requires Indexed(leaves, idxOf) && Listed(uniq, idxOf)
    ensures var next := idxOf[l.c := (if l.c in idxOf then idxOf[l.c] else []) + [|leaves|]];
            && Indexed(leaves + [l], next) && Listed(if l.c in idxOf then uniq else uniq + [l.c], next)
            && Offset(leaves + [l], |leaves| + 1) == Offset(leaves, |leaves|) + l.sz
  {
    OffsetPrefix(leaves, [l], |leaves|);
    IndexedAppend(leaves, idxOf, l);
    ListedMore(uniq, idxOf, l.c, (if l.c in idxOf then idxOf[l.c] else []) + [|leaves|]);
  }

  /** The distinct CIDs, each once. */
  ghost predicate Listed(uniq: seq<Cid>, idxOf: map<Cid, seq<nat>>) {
    NoDup(uniq) && forall c :: c in uniq <==> c in idxOf
  }

  lemma ListedMore(uniq: seq<Cid>, idxOf: map<Cid, seq<nat>>, c: Cid, v: seq<nat>)
    requires Listed(uniq, idxOf)
    ensures Listed(if c in idxOf then uniq else uniq + [c], idxOf[c := v])
  {
    assert forall x :: x in uniq + [c] <==> x in uniq || x == c;
  }

  /** The leaf table built by the walk: every index a CID occupies, its distinct CIDs in order of first occurrence. */
  class LeafTable {
    var leaves: seq<Leaf>
    var idxOf: map<Cid, seq<nat>>
    var uniq: seq<Cid>
    var off: nat
    var seen: set<Cid>

    ghost predicate Valid()
      reads this
    {
      && off == Offset(leaves, |leaves|)
      && Indexed(leaves, idxOf)
      && Listed(uniq, idxOf)
    }

    constructor ()
      ensures Valid() && leaves == [] && seen == {}
    {
      leaves, idxOf, uniq, off, seen := [], map[], [], 0, {};
    }

    method AddLeaf(c: Cid, sz: nat)
      requires Valid()
      modifies this`leaves, this`idxOf, this`uniq, this`off
      ensures Valid() && leaves == old(leaves) + [Leaf(c, sz)]
    {
      TableAppend(leaves, idxOf, uniq, Leaf(c, sz));
      var first := c !in idxOf;
      idxOf := idxOf[c := (if c in idxOf then idxOf[c] else []) + [|leaves|]];
      if first {
        uniq := uniq + [c];
      }
      leaves := leaves + [Leaf(c, sz)];
      off := off + sz;
    }

    /** One interior node's links. */
    method Spine(links: seq<Dag>) returns (ok: bool)
      requires Valid()
      modifies this
      ensures Valid()
      ensures ok <==> SpineOf(links, old(seen)).Walk?
      ensures ok ==> leaves == old(leaves) + SpineOf(links, old(seen)).leaves && seen == SpineOf(links, old(seen)).seen
      decreases links, 0
    {
      ghost var was, before := leaves, seen;
      ghost var w := Walk([], seen);
      for k := 0 to |links|
        invariant Valid()
        invariant w == SpineOf(links[..k], before) && w.Walk?
        invariant leaves == was + w.leaves && seen == w.seen
      {
        SpineAppend(links, k, before);
        ok := Link(links[k]);
        if !ok {
          SpineStuck(links, k + 1, before);
          return;
        }
        w := Walk(w.leaves + SpineLink(links[k], w.seen).leaves, seen);
      }
      assert links[..|links|] == links;
      return true;
    }

    /** One link: a raw leaf is listed, an interior node not seen before is read and walked. */
    method Link(l: Dag) returns (ok: bool)
      requires Valid()
      modifies this
      ensures Valid()
      ensures ok <==> SpineLink(l, old(seen)).Walk?
      ensures ok ==> leaves == old(leaves) + SpineLink(l, old(seen)).leaves && seen == SpineLink(l, old(seen)).seen
      decreases l, 1
    {
      if l.Raw? {
        AddLeaf(l.c, l.sz);
        return true;
      }
      if l.c in seen {
        return true;
      }
      seen := seen + {l.c};
      if l.links == [] {
        return false;
      }
      ok := Spine(l.links);
    }
  }

  /** The walk of one more link, after the walk of those before it. */
  lemma {:induction false} SpineAppend(links: seq<Dag>, k: nat, seen: set<Cid>)
    requires k < |links|
    ensures var a := SpineOf(links[..k], seen);
            SpineOf(links[..k + 1], seen)
            == if a.NotRawLeaves? then NotRawLeaves
               else var b := SpineLink(links[k], a.seen);
                    if b.NotRawLeaves? then NotRawLeaves else Walk(a.leaves + b.leaves, b.seen)
    decreases k
  {
    if k == 0 {
      assert links[..1][1..] == [];
    } else {
      assert links[..k][1..] == links[1..][..k - 1] && links[..k + 1][1..] == links[1..][..k];
      var first := SpineLink(links[0], seen);
      if first.Walk? {
        SpineAppend(links[1..], k - 1, first.seen);
      }
    }
  }

  lemma {:induction false} SpineStuck(links: seq<Dag>, k: nat, seen: set<Cid>)
    requires k <= |links| && SpineOf(links[..k], seen).NotRawLeaves?
    ensures SpineOf(links, seen).NotRawLeaves?
    decreases |links| - k
  {
    if k == |links| {
      assert links[..k] == links;
    } else {
      SpineAppend(links, k, seen);
      SpineStuck(links, k + 1, seen);
    }
  }
}
