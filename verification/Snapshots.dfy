/** Coalesced snapshot replication of what we share with friends (friend.go).

    A change to a friend's share map schedules a push of the whole map; a push already scheduled picks the change up.
    Each critical section is one step here, and the steps of all callers interleave freely. */
module Snapshots {
  import opened Sets

  type Peer = int
  type Lib = int
  type Items = seq<int>
  type Libs = map<Lib, Items>

  /** A snapshot as stamped for the wire. */
  datatype Snapshot = Snapshot(to: Peer, stamp: nat, libs: Libs)

  datatype Service = Service(
    accepted: set<Peer>,
    shares: map<Peer, Libs>,
    pending: set<Peer>,        // a push is scheduled and has not read the map yet
    sendSeq: nat,
    about: multiset<Peer>,     // callers past their change (or request), not yet in pushSnapshot
    queued: multiset<Peer>,    // goroutines started by pushSnapshot that have not run yet
    sent: seq<Snapshot>)       // every snapshot stamped, in order

  function Initial(accepted: set<Peer>, clock: nat): Service {
    Service(accepted, map[], {}, clock, multiset{}, multiset{}, [])
  }

  function Current(s: Service, p: Peer): Libs {
    if p in s.shares then s.shares[p] else map[]
  }

  datatype Event =
    | EvSet(p: Peer, lib: Lib, items: Items)
    | EvRemove(p: Peer, lib: Lib)
    | EvRequest(p: Peer)
    | EvPush(p: Peer)
    | EvRun(p: Peer)
    | EvPurge(p: Peer)
    | EvAccept(p: Peer)

  predicate Enabled(s: Service, e: Event) {
    match e
    case EvPush(p) => p in s.about
    case EvRun(p) => p in s.queued
    case _ => true
  }

  function SetShare(s: Service, p: Peer, lib: Lib, items: Items): Service {
    s.(shares := s.shares[p := Current(s, p)[lib := items]], about := s.about + multiset{p})
  }

  function RemoveShare(s: Service, p: Peer, lib: Lib): Service {
    var left := Current(s, p) - {lib};
    s.(shares := if left == map[] then s.shares - {p} else s.shares[p := left], about := s.about + multiset{p})
  }

  /** pushSnapshot up to the goroutine: friends only, and one scheduled push is enough. */
  function Push(s: Service, p: Peer): Service {
    var t := s.(about := s.about - multiset{p});
    if p !in s.accepted || p in s.pending then t
    else t.(pending := s.pending + {p}, queued := s.queued + multiset{p})
  }

  /** The goroutine: clears the mark, reads the map and stamps it under one lock. */
  function RunPush(s: Service, p: Peer): Service {
    s.(pending := s.pending - {p},
       queued := s.queued - multiset{p},
       sendSeq := s.sendSeq + 1,
       sent := s.sent + [Snapshot(p, s.sendSeq + 1, Current(s, p))])
  }

  function Step(s: Service, e: Event): Service
    requires Enabled(s, e)
  {
    match e
    case EvSet(p, lib, items) => SetShare(s, p, lib, items)
    case EvRemove(p, lib) => RemoveShare(s, p, lib)
    case EvRequest(p) => if p in s.accepted then s.(about := s.about + multiset{p}) else s
    case EvPush(p) => Push(s, p)
    case EvRun(p) => RunPush(s, p)
    case EvPurge(p) => s.(accepted := s.accepted - {p}, shares := s.shares - {p}, pending := s.pending - {p})
    case EvAccept(p) => s.(accepted := s.accepted + {p})
  }

  predicate RunOk(s: Service, es: seq<Event>)
    decreases |es|
  {
    es == [] || (Enabled(s, es[0]) && RunOk(Step(s, es[0]), es[1..]))
  }

  function Run(s: Service, es: seq<Event>): Service
    requires RunOk(s, es)
    decreases |es|
  {
    if es == [] then s else Run(Step(s, es[0]), es[1..])
  }

  /** The last snapshot stamped for p, if any. */
  predicate LastSent(sent: seq<Snapshot>, p: Peer, i: nat) {
    i < |sent| && sent[i].to == p && forall j :: i < j < |sent| ==> sent[j].to != p
  }

  predicate NeverSent(sent: seq<Snapshot>, p: Peer) {
    forall j :: 0 <= j < |sent| ==> sent[j].to != p
  }

  ghost predicate UpToDate(s: Service, p: Peer) {
    (NeverSent(s.sent, p) && Current(s, p) == map[])
    || exists i: nat :: LastSent(s.sent, p, i) && s.sent[i].libs == Current(s, p)
  }

  /** The stamps grow, and a mark stands for a goroutine that is still to run. */
  ghost predicate Inv(s: Service, clock: nat) {
    && s.sendSeq >= clock
    && (forall i :: 0 <= i < |s.sent| ==> clock < s.sent[i].stamp <= s.sendSeq)
    && (forall i, j :: 0 <= i < j < |s.sent| ==> s.sent[i].stamp < s.sent[j].stamp)
    && (forall p :: p in s.pending ==> p in s.queued)
  }

  /** A friend's copy is current, or a push that will read the current map is scheduled or about to be. */
  ghost predicate Served(s: Service, p: Peer) {
    p in s.accepted && (p in s.queued || p in s.about || UpToDate(s, p))
  }

  lemma StepKeepsInv(s: Service, e: Event, clock: nat)
    requires Inv(s, clock) && Enabled(s, e)
    ensures Inv(Step(s, e), clock)
  {
  }

  lemma RunServes(s: Service, q: Peer, p: Peer)
    requires q in s.queued && Served(s, p)
    ensures Served(RunPush(s, q), p)
  {
    var t, n := RunPush(s, q), |s.sent|;
    if q == p {
      assert LastSent(t.sent, p, n);
    } else if UpToDate(s, p) && !NeverSent(s.sent, p) {
      var i: nat :| LastSent(s.sent, p, i) && s.sent[i].libs == Current(s, p);
      assert LastSent(t.sent, p, i);
    }
  }

  lemma StepServes(s: Service, e: Event, p: Peer, clock: nat)
    requires Inv(s, clock) && Enabled(s, e) && Served(s, p) && e != EvPurge(p)
    ensures Served(Step(s, e), p)
  {
    match e
    case EvRun(q) => RunServes(s, q, p);
    case EvSet(q, lib, items) => ChangeServes(s, SetShare(s, q, lib, items), q, p);
    case EvRemove(q, lib) => ChangeServes(s, RemoveShare(s, q, lib), q, p);
    case EvPurge(q) => assert Current(Step(s, e), p) == Current(s, p);
    case _ =>
  }

  /** A change to q's shares, with its push about to be. */
  lemma ChangeServes(s: Service, t: Service, q: Peer, p: Peer)
    requires Served(s, p) && t == s.(shares := t.shares, about := s.about + multiset{q})
    requires q != p ==> Current(t, p) == Current(s, p)
    ensures Served(t, p)
  {
    if q != p && UpToDate(s, p) {
      assert UpToDate(t, p);
    }
  }

  /** No update is coalesced away: for a peer accepted throughout, at every step of every run either a push is scheduled
      or about to be, or the highest-stamped snapshot is the current share map. */
  lemma {:induction false} NeverCoalescedAway(s: Service, es: seq<Event>, p: Peer, clock: nat)
    requires Inv(s, clock) && RunOk(s, es) && Served(s, p) && EvPurge(p) !in es
    ensures Inv(Run(s, es), clock) && Served(Run(s, es), p)
    decreases |es|
  {
    if es != [] {
      StepKeepsInv(s, es[0], clock);
      StepServes(s, es[0], p, clock);
      NeverCoalescedAway(Step(s, es[0]), es[1..], p, clock);
    }
  }

  /** Only friends are served, and a push is scheduled exactly when one asks for it and none of its is waiting. */
  lemma PushedExactly(s: Service, e: Event, p: Peer)
    requires Enabled(s, e)
    ensures Step(s, e).queued[p] > s.queued[p] <==> e == EvPush(p) && p in s.accepted && p !in s.pending
    ensures |Step(s, e).sent| > |s.sent| <==> e.EvRun?
  {
  }

  /** However many requests come in, a peer has at most one push waiting to read the map. */
  lemma {:induction false} OnePushWaits(s: Service, es: seq<Event>, p: Peer)
    requires RunOk(s, es) && EvPurge(p) !in es && s.queued[p] == (if p in s.pending then 1 else 0)
    ensures var t := Run(s, es); t.queued[p] == if p in t.pending then 1 else 0
    decreases |es|
  {
    if es != [] {
      OnePushWaits(Step(s, es[0]), es[1..], p);
    }
  }

  // ---- what is shared ----

  datatype Share = Nothing | Items(items: Items)

  /** What the events leave shared with p under lib: what was set last, unless removed since, or the friendship
      ended. */
  function LeftShared(es: seq<Event>, p: Peer, lib: Lib, was: Share): Share
    decreases |es|
  {
    if es == [] then was
    else
      LeftShared(es[1..], p, lib,
                 match es[0]
                 case EvSet(q, l, items) => if q == p && l == lib then Items(items) else was
                 case EvRemove(q, l) => if q == p && l == lib then Nothing else was
                 case EvPurge(q) => if q == p then Nothing else was
                 case _ => was)
  }

  function SharedNow(s: Service, p: Peer, lib: Lib): Share {
    if p in s.shares && lib in s.shares[p] then Items(s.shares[p][lib]) else Nothing
  }

  /** The share map is the history of the toggles: each library shared with each friend is what was last set, and
      toggling one touches no other. */
  lemma {:induction false} SharesAreHistory(s: Service, es: seq<Event>, p: Peer, lib: Lib)
    requires RunOk(s, es)
    ensures SharedNow(Run(s, es), p, lib) == LeftShared(es, p, lib, SharedNow(s, p, lib))
    decreases |es|
  {
    if es != [] {
      StepShares(s, es[0], p, lib);
      SharesAreHistory(Step(s, es[0]), es[1..], p, lib);
    }
  }

  lemma StepShares(s: Service, e: Event, p: Peer, lib: Lib)
    requires Enabled(s, e)
    ensures SharedNow(Step(s, e), p, lib) == LeftShared([e], p, lib, SharedNow(s, p, lib))
  {
    assert [e][1..] == [];
    var now := SharedNow(Step(s, e), p, lib);
    assert LeftShared([], p, lib, now) == now;
    if e.EvRemove? && e.p == p {
      assert lib in Current(s, p) - {e.lib} <==> lib in Current(s, p) && lib != e.lib;
    }
  }

  // ---- the receiver ----

  /** What a friend keeps of us: the highest stamp it has seen, and that snapshot. */
  datatype Record = Record(stamp: nat, libs: Libs)

  function Receive(r: Record, m: Snapshot): Record {
    if m.stamp > r.stamp then Record(m.stamp, m.libs) else r
  }

  /** Deliveries name snapshots of the log, in any order, any number of times. */
  predicate Deliverable(sent: seq<Snapshot>, p: Peer, ds: seq<nat>) {
    forall i :: 0 <= i < |ds| ==> ds[i] < |sent| && sent[ds[i]].to == p
  }

  function ReceiveAll(r: Record, sent: seq<Snapshot>, p: Peer, ds: seq<nat>): Record
    requires Deliverable(sent, p, ds)
    decreases |ds|
  {
    if ds == [] then r else ReceiveAll(Receive(r, sent[ds[0]]), sent, p, ds[1..])
  }

  lemma {:induction false} ReceivesHighest(r: Record, sent: seq<Snapshot>, p: Peer, ds: seq<nat>, last: nat)
    requires Deliverable(sent, p, ds) && last < |sent|
    requires forall i :: 0 <= i < |ds| ==> sent[ds[i]].stamp < sent[last].stamp || ds[i] == last
    requires r == Record(sent[last].stamp, sent[last].libs) || (r.stamp < sent[last].stamp && last in ds)
    ensures ReceiveAll(r, sent, p, ds) == Record(sent[last].stamp, sent[last].libs)
    decreases |ds|
  {
    if ds != [] {
      assert forall x :: x in ds <==> x == ds[0] || x in ds[1..];
      ReceivesHighest(Receive(r, sent[ds[0]]), sent, p, ds[1..], last);
    }
  }

  lemma SomethingSent(sent: seq<Snapshot>, p: Peer, ds: seq<nat>)
    requires Deliverable(sent, p, ds) && ds != []
    ensures !NeverSent(sent, p)
  {
    assert sent[ds[0]].to == p;
  }

  /** Convergence: once nothing is scheduled or about to be, a receiver that starts behind this run's stamps and has had
      the last snapshot holds the current share map, whatever was lost, repeated or reordered before. */
  lemma Converges(s: Service, p: Peer, clock: nat, r: Record, ds: seq<nat>)
    requires Inv(s, clock) && Served(s, p) && p !in s.queued && p !in s.about
    requires r.stamp <= clock && Deliverable(s.sent, p, ds)
    requires forall i: nat :: LastSent(s.sent, p, i) ==> i in ds
    requires NeverSent(s.sent, p) ==> r.libs == map[]
    ensures ReceiveAll(r, s.sent, p, ds).libs == Current(s, p)
  {
    if ds != [] {
      SomethingSent(s.sent, p, ds);
    }
    if !NeverSent(s.sent, p) {
      var i: nat :| LastSent(s.sent, p, i) && s.sent[i].libs == Current(s, p);
      ReceivesHighest(r, s.sent, p, ds, i);
    }
  }

  /** The whole promise, from a service's start: a friend accepted throughout that has had the last snapshot holds
      what we share with it, whatever happened to the snapshots before. */
  lemma FriendConverges(accepted: set<Peer>, clock: nat, es: seq<Event>, p: Peer, ds: seq<nat>)
    requires p in accepted && RunOk(Initial(accepted, clock), es) && EvPurge(p) !in es
    ensures var s := Run(Initial(accepted, clock), es);
            && (p in s.queued || p in s.about || UpToDate(s, p))
            && (p !in s.queued && p !in s.about && Deliverable(s.sent, p, ds)
                && (forall i: nat :: LastSent(s.sent, p, i) ==> i in ds) ==>
                  ReceiveAll(Record(clock, map[]), s.sent, p, ds).libs == Current(s, p))
  {
    var i := Initial(accepted, clock);
    assert UpToDate(i, p);
    NeverCoalescedAway(i, es, p, clock);
    var s := Run(i, es);
    if && p !in s.queued && p !in s.about && Deliverable(s.sent, p, ds)
       && (forall i: nat :: LastSent(s.sent, p, i) ==> i in ds) {
      Converges(s, p, clock, Record(clock, map[]), ds);
    }
  }

  // ---- the service as the source writes it ----

  class FriendService {
    var accepted: set<Peer>
    var shareLibs: map<Peer, Libs>
    var pushPending: set<Peer>
    var sendSeq: nat
    ghost var about: multiset<Peer>
    var queued: multiset<Peer>
    var sent: seq<Snapshot>

    ghost function State(): Service
      reads this
    {
      Service(accepted, shareLibs, pushPending, sendSeq, about, queued, sent)
    }

    constructor (accepted: set<Peer>, clock: nat)
      ensures State() == Initial(accepted, clock)
    {
      this.accepted := accepted;
      shareLibs, pushPending, sendSeq := map[], {}, clock;
      about, queued, sent := multiset{}, multiset{}, [];
    }

    method PushSnapshot(p: Peer)
      modifies this`about, this`pushPending, this`queued
      ensures State() == Push(old(State()), p)
    {
      about := about - multiset{p};
      if p !in accepted {
        return;
      }
      if p in pushPending {
        return;
      }
      pushPending := pushPending + {p};
      queued := queued + multiset{p};
    }

    static method CopyOf(libs: Libs) returns (out: Libs)
      ensures out == libs
    {
      out := map[];
      var left := libs.Keys;
      while left != {}
        invariant left <= libs.Keys
        invariant out == map k | k in libs && k !in left :: libs[k]
        decreases left
      {
        assert AMember(left) in left;
        var k :| k in left;
        out := out[k := libs[k]];
        left := left - {k};
      }
    }

    /** The scheduled goroutine; the map is copied entry by entry before the lock is let go. */
    method SendLatest(p: Peer)
      requires p in queued
      modifies this`pushPending, this`queued, this`sendSeq, this`sent
      ensures State() == RunPush(old(State()), p)
    {
      pushPending, queued := pushPending - {p}, queued - multiset{p};
      var out := CopyOf(if p in shareLibs then shareLibs[p] else map[]);
      sendSeq := sendSeq + 1;
      sent := sent + [Snapshot(p, sendSeq, out)];
    }

    method SetShareLib(p: Peer, lib: Lib, items: Items)
      modifies this`shareLibs, this`about, this`pushPending, this`queued
      ensures State() == Push(SetShare(old(State()), p, lib, items), p)
    {
      if p !in shareLibs {
        shareLibs := shareLibs[p := map[]];
      }
      shareLibs := shareLibs[p := shareLibs[p][lib := items]];
      about := about + multiset{p};
      PushSnapshot(p);
    }

    method RemoveShareLib(p: Peer, lib: Lib)
      modifies this`shareLibs, this`about, this`pushPending, this`queued
      ensures State() == Push(RemoveShare(old(State()), p, lib), p)
    {
      if p in shareLibs {
        var left := shareLibs[p] - {lib};
        shareLibs := if left == map[] then shareLibs - {p} else shareLibs[p := left];
      }
      about := about + multiset{p};
      assert old(State()).shares - {p} == old(State()).shares || p in old(State()).shares;
      PushSnapshot(p);
    }
  }
}
