/** The visited-set walks over the local block store (heldWhole and cidMissing in query.go), on every finite link
    graph. */
module DagWalk {
  import opened Sets

  type Cid = nat
  type Path = nat

  datatype Store = Store(
    links: map<Cid, seq<Cid>>,  // the links of every dag-pb node there is
    raw: set<Cid>,              // the CIDs of raw codec: leaves
    held: set<Cid>,             // the blocks we have, a filestore reference counting as one
    refs: map<Cid, Path>,       // the filestore references
    files: set<Path>)           // the backing files that exist

  /** Codecs decide what has links, and only raw leaves are referenced into files. */
  predicate WellFormed(s: Store) {
    s.raw !! s.links.Keys && s.refs.Keys <= s.raw
  }

  /** The whole graph, or the part of it the local-only DAG service can read past. */
  datatype View = Whole | Local

  function Kids(s: Store, v: View, c: Cid): seq<Cid> {
    match v
    case Whole => if c !in s.raw && c in s.links then s.links[c] else []
    case Local => if c !in s.refs && c in s.held && c in s.links then s.links[c] else []
  }

  predicate IsPath(s: Store, v: View, p: seq<Cid>) {
    p != [] && forall i :: 0 <= i < |p| - 1 ==> p[i + 1] in Kids(s, v, p[i])
  }

  ghost predicate Reach(s: Store, v: View, c: Cid, x: Cid) {
    exists p: seq<Cid> :: IsPath(s, v, p) && p[0] == c && p[|p| - 1] == x
  }

  /** A block we can serve: held; a leaf's backing file, if it has one, there; an interior node's links readable. */
  predicate Serves(s: Store, c: Cid) {
    c in s.held && if c in s.raw then !LostFile(s, c) else c in s.links
  }

  predicate LostFile(s: Store, c: Cid) {
    c in s.refs && s.refs[c] !in s.files
  }

  lemma ReachSelf(s: Store, v: View, c: Cid)
    ensures Reach(s, v, c, c)
  {
    assert IsPath(s, v, [c]) && [c][0] == c;
  }

  lemma ReachThroughKid(s: Store, v: View, c: Cid, k: Cid, x: Cid)
    requires k in Kids(s, v, c) && Reach(s, v, k, x)
    ensures Reach(s, v, c, x)
  {
    var p: seq<Cid> :| IsPath(s, v, p) && p[0] == k && p[|p| - 1] == x;
    var q := [c] + p;
    assert forall i :: 0 < i < |q| ==> q[i] == p[i - 1];
    assert IsPath(s, v, q) && q[|q| - 1] == x;
  }

  /** What can be reached: the block itself, and what its links reach; a raw leaf has none, and the local view reads no
      further than what is held and not a reference. */
  lemma ReachExactly(s: Store, v: View, c: Cid, x: Cid)
    ensures Reach(s, v, c, x) <==>
              || x == c
              || (c in s.links && (if v == Whole then c !in s.raw else c in s.held && c !in s.refs)
                  && exists k :: k in s.links[c] && Reach(s, v, k, x))
  {
    ReachSelf(s, v, c);
    if Reach(s, v, c, x) && x != c {
      var p: seq<Cid> :| IsPath(s, v, p) && p[0] == c && p[|p| - 1] == x;
      assert |p| > 1 && p[1] in Kids(s, v, p[0]);
      var q := p[1..];
      assert forall i :: 0 <= i < |q| ==> q[i] == p[i + 1];
      assert IsPath(s, v, q) && q[0] == p[1] && q[|q| - 1] == x;
    }
    if c in s.links && (if v == Whole then c !in s.raw else c in s.held && c !in s.refs) {
      forall k | k in s.links[c] && Reach(s, v, k, x) ensures Reach(s, v, c, x) {
        ReachThroughKid(s, v, c, k, x);
      }
    }
  }

  ghost predicate Closed(s: Store, v: View, inside: set<Cid>) {
    forall x, k :: x in inside && k in Kids(s, v, x) ==> k in inside
  }

  /** What is closed under links holds all that can be reached from within it. */
  lemma {:induction false} ReachStaysIn(s: Store, v: View, inside: set<Cid>, p: seq<Cid>)
    requires Closed(s, v, inside) && IsPath(s, v, p) && p[0] in inside
    ensures p[|p| - 1] in inside
    decreases |p|
  {
    if |p| > 1 {
      assert p[1] in Kids(s, v, p[0]);
      var q := p[1..];
      assert forall i :: 0 <= i < |q| ==> q[i] == p[i + 1];
      ReachStaysIn(s, v, inside, q);
    }
  }

  /** Every CID the walks can meet. */
  ghost function Universe(s: Store, c: Cid): set<Cid> {
    {c} + set x, k | x in s.links && k in s.links[x] :: k
  }

  /** The state of one walk: what it visited, and which backing paths it looked up. */
  class Walker {
    const store: Store
    ghost const all: set<Cid>
    var seen: set<Cid>
    var present: map<Path, bool>

    constructor (store: Store, ghost c: Cid)
      ensures this.store == store && all == Universe(store, c) && seen == {} && present == map[]
    {
      this.store := store;
      all := Universe(store, c);
      seen, present := {}, map[];
    }

    ghost predicate Valid()
      reads this
    {
      && seen <= all
      && (forall x, k :: x in store.links && k in store.links[x] ==> k in all)
      && (forall p :: p in present ==> (present[p] <==> p in store.files))
    }

    /** Looks a backing path up once. */
    method Exists(p: Path) returns (ok: bool)
      requires Valid()
      modifies this`present
      ensures Valid() && (ok <==> p in store.files)
    {
      if p in present {
        return present[p];
      }
      ok := p in store.files;
      present := present[p := ok];
    }

    /** heldWhole's walk. */
    method Held(c: Cid) returns (ok: bool)
      requires Valid() && c in all
      modifies this
      ensures Valid() && old(seen) <= seen
      ensures ok ==> c in seen && forall x :: x in seen - old(seen) ==> Serves(store, x)
      ensures ok ==> forall x, k :: x in seen - old(seen) && k in Kids(store, Whole, x) ==> k in seen
      ensures !ok ==> exists x :: Reach(store, Whole, c, x) && !Serves(store, x)
      decreases |all - seen|
    {
      if c in seen {
        return true;
      }
      ghost var before := seen;
      seen := seen + {c};
      assert all - seen < all - before;
      StrictSubsetSize(all - seen, all - before);
      ReachSelf(store, Whole, c);
      if c !in store.held {
        return false;
      }
      if c in store.raw {
        if c in store.refs {
          var there := Exists(store.refs[c]);
          if !there {
            return false;
          }
        }
        return true;
      }
      if c !in store.links {
        return false;
      }
      var ls := store.links[c];
      for i := 0 to |ls|
        invariant Valid() && before + {c} <= seen
        invariant forall x :: x in ls[..i] ==> x in seen
        invariant forall x :: x in seen - before ==> Serves(store, x)
        invariant forall x, k :: x in seen - before - {c} && k in Kids(store, Whole, x) ==> k in seen
      {
        ghost var mid := seen;
        assert all - mid <= all - before - {c};
        StrictSubsetSize(all - seen, all - before);
        ok := Held(ls[i]);
        if !ok {
          ghost var x :| Reach(store, Whole, ls[i], x) && !Serves(store, x);
          ReachThroughKid(store, Whole, c, ls[i], x);
          return;
        }
        assert ls[..i + 1] == ls[..i] + [ls[i]];
      }
      assert ls[..|ls|] == ls;
      return true;
    }

    /** cidMissing's walk. */
    method Missing(c: Cid) returns (gone: bool)
      requires Valid() && c in all
      modifies this
      ensures Valid() && old(seen) <= seen
      ensures !gone ==> c in seen && forall x :: x in seen - old(seen) ==> !LostFile(store, x)
      ensures !gone ==> forall x, k :: x in seen - old(seen) && k in Kids(store, Local, x) ==> k in seen
      ensures gone ==> exists x :: Reach(store, Local, c, x) && LostFile(store, x)
      decreases |all - seen|
    {
      if c in seen {
        return false;
      }
      ghost var before := seen;
      seen := seen + {c};
      StrictSubsetSize(all - seen, all - before);
      ReachSelf(store, Local, c);
      if c in store.refs {
        var there := Exists(store.refs[c]);
        return !there;
      }
      if c !in store.held || c !in store.links {
        return false;
      }
      var ls := store.links[c];
      for i := 0 to |ls|
        invariant Valid() && before + {c} <= seen
        invariant forall x :: x in ls[..i] ==> x in seen
        invariant forall x :: x in seen - before ==> !LostFile(store, x)
        invariant forall x, k :: x in seen - before - {c} && k in Kids(store, Local, x) ==> k in seen
      {
        assert all - seen <= all - before - {c};
        StrictSubsetSize(all - seen, all - before);
        gone := Missing(ls[i]);
        if gone {
          ghost var x :| Reach(store, Local, ls[i], x) && LostFile(store, x);
          ReachThroughKid(store, Local, c, ls[i], x);
          return;
        }
        assert ls[..i + 1] == ls[..i] + [ls[i]];
      }
      assert ls[..|ls|] == ls;
      return false;
    }

    /** dropRef's walk: the closure as far as it can be read. */
    method Gather(c: Cid) returns (cids: seq<Cid>)
      requires Valid() && c in all
      modifies this
      ensures Valid() && old(seen) <= seen && c in seen
      ensures forall x :: x in cids <==> x in seen - old(seen)
      ensures forall x, k :: x in seen - old(seen) && k in Kids(store, Local, x) ==> k in seen
      ensures forall x :: x in cids ==> Reach(store, Local, c, x)
      decreases |all - seen|
    {
      if c in seen {
        return [];
      }
      ghost var before := seen;
      seen := seen + {c};
      StrictSubsetSize(all - seen, all - before);
      ReachSelf(store, Local, c);
      cids := [];
      if c !in store.refs && c in store.held && c in store.links {
        var ls := store.links[c];
        for i := 0 to |ls|
          invariant Valid() && before + {c} <= seen
          invariant forall x :: x in ls[..i] ==> x in seen
          invariant forall x :: x in cids <==> x in seen - before - {c}
          invariant forall x, k :: x in seen - before - {c} && k in Kids(store, Local, x) ==> k in seen
          invariant forall x :: x in cids ==> Reach(store, Local, c, x)
        {
          assert all - seen <= all - before - {c};
          StrictSubsetSize(all - seen, all - before);
          var more := Gather(ls[i]);
          forall x | x in more ensures Reach(store, Local, c, x) {
            ReachThroughKid(store, Local, c, ls[i], x);
          }
          cids := cids + more;
          assert ls[..i + 1] == ls[..i] + [ls[i]];
        }
        assert ls[..|ls|] == ls;
      }
      cids := cids + [c];
    }
  }

  /** heldWhole succeeds exactly when every block reachable from c can be served. */
  method HeldWhole(s: Store, c: Cid) returns (ok: bool)
    ensures ok <==> forall x :: Reach(s, Whole, c, x) ==>
              x in s.held && if x in s.raw then x in s.refs ==> s.refs[x] in s.files else x in s.links
  {
    assert forall x :: Serves(s, x) <==>
        x in s.held && if x in s.raw then x in s.refs ==> s.refs[x] in s.files else x in s.links;
    var w := new Walker(s, c);
    ok := w.Held(c);
    if ok {
      forall x | Reach(s, Whole, c, x) ensures Serves(s, x) {
        var p: seq<Cid> :| IsPath(s, Whole, p) && p[0] == c && p[|p| - 1] == x;
        ReachStaysIn(s, Whole, w.seen, p);
      }
    }
  }

  /** cidMissing is true exactly when some referenced leaf, reached through interiors we hold, lost its file. */
  method CidMissing(s: Store, c: Cid) returns (gone: bool)
    ensures gone <==> exists x :: Reach(s, Local, c, x) && x in s.refs && s.refs[x] !in s.files
  {
    assert forall x :: LostFile(s, x) <==> x in s.refs && s.refs[x] !in s.files;
    var w := new Walker(s, c);
    gone := w.Missing(c);
    if !gone {
      forall x | Reach(s, Local, c, x) ensures !LostFile(s, x) {
        var p: seq<Cid> :| IsPath(s, Local, p) && p[0] == c && p[|p| - 1] == x;
        ReachStaysIn(s, Local, w.seen, p);
      }
    }
  }

  /** dropRef deletes the block and the reference of exactly what it can reach through interiors we hold. */
  method DropRef(s: Store, c: Cid) returns (r: Store)
    ensures r.links == s.links && r.raw == s.raw && r.files == s.files
    ensures forall x :: x in r.held <==> x in s.held && !Reach(s, Local, c, x)
    ensures forall x :: x in r.refs <==> x in s.refs && !Reach(s, Local, c, x)
    ensures forall x :: x in r.refs ==> r.refs[x] == s.refs[x]
  {
    var w := new Walker(s, c);
    var cids := w.Gather(c);
    forall x | Reach(s, Local, c, x) ensures x in cids {
      var p: seq<Cid> :| IsPath(s, Local, p) && p[0] == c && p[|p| - 1] == x;
      ReachStaysIn(s, Local, w.seen, p);
    }
    var gone := set x | x in cids;
    r := s.(held := s.held - gone, refs := s.refs - gone);
  }

  /** Whatever was lost, a dropped root is no longer missing, and no longer held: it is fetched again. */
  lemma DroppedIsClean(s: Store, r: Store, c: Cid, x: Cid)
    requires r.links == s.links && r.raw == s.raw
    requires forall x :: x in r.held <==> x in s.held && !Reach(s, Local, c, x)
    requires forall x :: x in r.refs <==> x in s.refs && !Reach(s, Local, c, x)
    ensures !Serves(r, c) && (Reach(r, Local, c, x) ==> x == c && !LostFile(r, x))
  {
    ReachSelf(s, Local, c);
    if Reach(r, Local, c, x) {
      var p: seq<Cid> :| IsPath(r, Local, p) && p[0] == c && p[|p| - 1] == x;
      assert Kids(r, Local, c) == [];
      ReachStaysIn(r, Local, {c}, p);
    }
  }

  lemma LocalIsWhole(s: Store, c: Cid, x: Cid)
    requires WellFormed(s) && Reach(s, Local, c, x)
    ensures Reach(s, Whole, c, x)
  {
    var p: seq<Cid> :| IsPath(s, Local, p) && p[0] == c && p[|p| - 1] == x;
    assert IsPath(s, Whole, p);
  }

  /** What is held whole is not missing: heldWhole's success rules cidMissing's alarm out. */
  lemma WholeIsNotMissing(s: Store, c: Cid)
    requires WellFormed(s) && forall x :: Reach(s, Whole, c, x) ==> Serves(s, x)
    ensures !exists x :: Reach(s, Local, c, x) && LostFile(s, x)
  {
    forall x | Reach(s, Local, c, x) ensures !LostFile(s, x) {
      LocalIsWhole(s, c, x);
      assert Serves(s, x);
    }
  }

  /** Conversely, with every block held, missing is the only way not to be whole: the two checks then agree. */
  lemma HeldAndNotMissingIsWhole(s: Store, c: Cid)
    requires WellFormed(s)
    requires forall x :: Reach(s, Whole, c, x) ==> x in s.held && (x in s.raw || x in s.links)
    ensures (forall x :: Reach(s, Whole, c, x) ==> Serves(s, x))
            <==> !exists x :: Reach(s, Local, c, x) && LostFile(s, x)
  {
    forall x | Reach(s, Whole, c, x) ensures Reach(s, Local, c, x) {
      var p: seq<Cid> :| IsPath(s, Whole, p) && p[0] == c && p[|p| - 1] == x;
      PathIsLocal(s, c, p);
    }
    forall x | Reach(s, Local, c, x) ensures Reach(s, Whole, c, x) {
      LocalIsWhole(s, c, x);
    }
  }

  lemma PathIsLocal(s: Store, c: Cid, p: seq<Cid>)
    requires WellFormed(s) && IsPath(s, Whole, p) && p[0] == c
    requires forall x :: Reach(s, Whole, c, x) ==> x in s.held
    ensures Reach(s, Local, c, p[|p| - 1])
  {
    forall i | 0 <= i < |p| - 1 ensures p[i + 1] in Kids(s, Local, p[i]) {
      assert p[i + 1] in Kids(s, Whole, p[i]);
      assert IsPath(s, Whole, p[..i + 1]) && p[..i + 1][i] == p[i];
      assert Reach(s, Whole, c, p[i]);
    }
    assert IsPath(s, Local, p);
  }
}
