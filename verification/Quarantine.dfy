/** Taking a peer that sits on our want-blocks out of the download rotation (quarantine.go).

    The ledgers, records and offers are values here; one noteSent, one receiver call and one check are atomic steps.
    Times are nanoseconds, 0 the zero time; a step reads the clock at or after the last reading. */
module Quarantine {
  import opened Bytes
  import opened Options

  type Peer = int
  type Cid = int
  type Time = int

  const AFTER := 3_000_000_000
  const MAX_HOLD := 10_000_000_000
  const COOL := 30_000_000_000
  const MAX_COOL := 600_000_000_000
  const FORGET := 3_600_000_000_000

  datatype Ledger = Ledger(
    wanted: map<Cid, Time>,   // want-blocks sent and not answered or cancelled, and since when
    asked: set<Cid>,          // every want sent and not answered or cancelled
    owed: map<Cid, bool>,     // want-blocks held when taken out, not yet answered (true: it had said HAVE)
    denied: bool,             // it answered with a DONT_HAVE a block it had said it had
    lastBlock: Time,
    gap: int,                 // its usual interval between deliveries
    progress: Time,           // its last block, or its ledger's start
    until: Time,              // out, or on probation, until then (0: in)
    probation: bool,
    linked: bool)

  datatype Record = Record(strikes: nat, last: Time)

  type Haves = map<Cid, set<Peer>>

  datatype Net = Net(peers: map<Peer, Ledger>, records: map<Peer, Record>, haves: Haves)

  datatype Entry = CancelEntry | WantEntry(block: bool, priority: int, sendDontHave: bool)

  datatype Msg = Msg(
    full: bool, wants: map<Cid, Entry>, blocks: set<Cid>, haves: set<Cid>, dontHaves: set<Cid>, pendingBytes: int)

  // ---- one ledger ----

  predicate Held(l: Ledger, t: Time) {
    t < l.until
  }

  predicate OutAt(l: Ledger, t: Time) {
    !l.probation && Held(l, t)
  }

  /** Marked out, whatever the clock says: what the client was last told, until a tick brings the peer back. */
  predicate MarkedOut(l: Ledger) {
    l.until != 0 && !l.probation
  }

  function Hold(l: Ledger): int {
    var d := 3 * l.gap;
    if d < AFTER then AFTER else if d > MAX_HOLD then MAX_HOLD else d
  }

  function NewLedger(now: Time): Ledger {
    Ledger(map[], {}, map[], false, 0, 0, now, 0, false, false)
  }

  function LedgerOf(n: Net, p: Peer, now: Time): Ledger {
    if p in n.peers then n.peers[p] else NewLedger(now)
  }

  // ---- offers ----

  predicate Offers(h: Haves, c: Cid, p: Peer) {
    c in h && p in h[c]
  }

  /** p no longer offers any of cs; a block nobody offers any more has no entry. */
  function DropOffers(h: Haves, cs: set<Cid>, p: Peer): (r: Haves)
    ensures forall c, o :: Offers(r, c, o) <==> Offers(h, c, o) && !(o == p && c in cs)
  {
    assert forall c, o :: c in h && o in h[c] && o != p ==> o in h[c] - {p};
    map c | c in h && (c !in cs || h[c] - {p} != {}) :: if c in cs then h[c] - {p} else h[c]
  }

  function AddOffers(h: Haves, cs: set<Cid>, p: Peer): (r: Haves)
    ensures forall c, o :: Offers(r, c, o) <==> Offers(h, c, o) || (o == p && c in cs)
  {
    map c | c in h.Keys + cs :: (if c in h then h[c] else {}) + (if c in cs then {p} else {})
  }

  predicate OfferedElsewhere(h: Haves, c: Cid, p: Peer) {
    c in h && exists o :: o in h[c] && o != p
  }

  // ---- sending ----

  function Cancels(m: Msg): set<Cid> {
    set c | c in m.wants && m.wants[c].CancelEntry?
  }

  function WantBlocks(m: Msg): set<Cid> {
    set c | c in m.wants && m.wants[c].WantEntry? && m.wants[c].block
  }

  /** noteSent: what a message to p asks, cancels, or (a full list) starts over. */
  function NoteSent(n: Net, p: Peer, m: Msg, now: Time): Net {
    if m.wants == map[] then n
    else
      var l := LedgerOf(n, p, now);
      var out := OutAt(l, now);
      var w := if m.full then map[] else l.wanted;
      var a := if m.full then {} else l.asked;
      var h := if m.full then DropOffers(n.haves, l.asked, p) else n.haves;
      var more := if out then {} else WantBlocks(m);
      var l' := l.(wanted := map c | c in (w.Keys - Cancels(m)) + more :: if c in w then w[c] else now,
                   asked := (a - Cancels(m)) + (m.wants.Keys - Cancels(m)));
      n.(peers := n.peers[p := l'], haves := h - Cancels(m))
  }

  // ---- receiving ----

  /** The interval between deliveries, smoothed; an idle gap is no pace. */
  function NewGap(l: Ledger, now: Time): int {
    var d := now - l.lastBlock;
    if l.lastBlock != 0 && d < MAX_HOLD then if l.gap == 0 then d else (3 * l.gap + d) / 4 else l.gap
  }

  function ReceivedLedger(l: Ledger, m: Msg, now: Time): Ledger {
    var t := l.(wanted := l.wanted - m.blocks - m.dontHaves, asked := l.asked - m.blocks - m.dontHaves);
    if m.blocks == {} then t else t.(gap := NewGap(l, now), progress := now, lastBlock := now)
  }

  /** The HAVEs that count are for what p is still asked for. */
  function ReceivedHaves(h: Haves, p: Peer, l: Ledger, m: Msg): Haves {
    AddOffers(DropOffers(h - m.blocks, m.dontHaves, p), m.haves * (l.asked - m.blocks - m.dontHaves), p)
  }

  /** noteReceived, and the ledger it was given put back. */
  function NoteReceived(n: Net, p: Peer, l: Ledger, m: Msg, now: Time): Net {
    n.(peers := n.peers[p := ReceivedLedger(l, m, now)], haves := ReceivedHaves(n.haves, p, l, m))
  }

  function WantsOnly(m: Msg): Msg {
    Msg(m.full, m.wants, {}, {}, {}, 0)
  }

  function WithoutHaves(m: Msg): Msg {
    Msg(m.full, m.wants, m.blocks, {}, m.dontHaves, m.pendingBytes)
  }

  datatype Admitted = Admitted(net: Net, fwd: Option<Msg>, announce: bool)

  /** What is left of p's debt after a message's blocks and DONT_HAVEs. */
  function Paid(l: Ledger, m: Msg): map<Cid, bool> {
    l.owed - m.blocks - m.dontHaves
  }

  /** It denies a block it had promised. */
  predicate Denies(l: Ledger, m: Msg) {
    exists c :: c in m.dontHaves && c !in m.blocks && c in l.owed && l.owed[c]
  }

  /** The ledger with the message's payments booked. */
  function Booked(l: Ledger, m: Msg): Ledger {
    l.(owed := Paid(l, m), denied := l.denied || Denies(l, m))
  }

  /** admit: what of a message from p reaches bitswap, and whether the client must first be told p is back. */
  function Admit(n: Net, p: Peer, m: Msg, now: Time): Admitted {
    var l := LedgerOf(n, p, now);
    if !Held(l, now) then Admitted(NoteReceived(n, p, l, m, now), Some(m), false)
    else
      var b := Booked(l, m);
      var wasOut := !l.probation;
      if b.owed == map[] then
        var records := if b.denied then n.records else n.records - {p};
        Admitted(NoteReceived(n.(records := records), p, b.(until := 0, probation := false), m, now),
                 Some(m), wasOut && l.linked)
      else if wasOut && m.blocks == {} then
        Admitted(n.(peers := n.peers[p := b]), if m.wants == map[] then None else Some(WantsOnly(m)), false)
      else
        var fwd := WithoutHaves(m);
        Admitted(NoteReceived(n, p, b.(probation := true), fwd, now),
                 if fwd.blocks == {} && fwd.dontHaves == {} && fwd.wants == map[] then None else Some(fwd),
                 wasOut && l.linked)
  }

  // ---- the check ----

  /** A value in a signed 64-bit word. */
  function Wrap64(x: int): int {
    (x + TWO63) % TWO64 - TWO63
  }

  /** The cooldown of the nth offence, with the 64-bit shift as it is. */
  function Cooldown(strikes: nat): int
    requires strikes > 0
  {
    var cool := Wrap64(COOL * Pow2(strikes - 1));
    if cool > MAX_COOL || cool <= 0 then MAX_COOL else cool
  }

  datatype Verdict = Stays | Dropped | Back | Ends | Out

  /** It has held some want-block its whole patience long with nothing delivered, and another peer offers one of
      those. */
  predicate SitsOnWants(n: Net, p: Peer, l: Ledger, now: Time) {
    && !OutAt(l, now) && now - l.progress >= Hold(l)
    && exists c :: c in l.wanted && now - l.wanted[c] >= Hold(l) && OfferedElsewhere(n.haves, c, p)
  }

  function Judge(n: Net, p: Peer, now: Time): Verdict
    requires p in n.peers
  {
    var l := n.peers[p];
    if !l.linked && !Held(l, now) then Dropped
    else if l.until != 0 && !Held(l, now) then if l.probation then Ends else Back
    else if SitsOnWants(n, p, l, now) then Out
    else Stays
  }

  function PutOut(n: Net, p: Peer, now: Time): Net
    requires p in n.peers
  {
    var l := n.peers[p];
    var strikes := 1 + if p in n.records then n.records[p].strikes else 0;
    var debt := map c | c in l.wanted :: Offers(n.haves, c, p);
    Net(n.peers[p := l.(until := now + Cooldown(strikes), probation := false, denied := false,
                        owed := l.owed + debt, wanted := map[], asked := {})],
        n.records[p := Record(strikes, now)],
        DropOffers(n.haves, l.asked, p))
  }

  function ScanOne(n: Net, p: Peer, now: Time, apply: bool): Net
    requires p in n.peers
  {
    var l := n.peers[p];
    match Judge(n, p, now)
    case Stays => n
    case Dropped => n.(peers := n.peers - {p})
    case Back => if apply then n.(peers := n.peers[p := l.(until := 0, probation := false, owed := map[])]) else n
    case Ends => if apply then n.(peers := n.peers[p := l.(until := 0, probation := false, owed := map[])]) else n
    case Out => if apply then PutOut(n, p, now) else n
  }

  /** Records past their time go, but not a held peer's. */
  function Forget(n: Net, now: Time): Net {
    n.(records := map p | p in n.records
                          && !(now - n.records[p].last > FORGET && !(p in n.peers && Held(n.peers[p], now)))
                  :: n.records[p])
  }

  /** The walk of the ledgers, in the order the map gives them. */
  function Walk(n: Net, order: seq<Peer>, now: Time, apply: bool): Net
    requires forall i :: 0 <= i < |order| ==> order[i] in n.peers
    requires forall i, j :: 0 <= i < j < |order| ==> order[i] != order[j]
    decreases |order|
  {
    if order == [] then n else Walk(ScanOne(n, order[0], now, apply), order[1..], now, apply)
  }

  /** Those the walk gives verdict v. */
  function Given(n: Net, order: seq<Peer>, now: Time, apply: bool, v: Verdict): (r: set<Peer>)
    requires forall i :: 0 <= i < |order| ==> order[i] in n.peers
    requires forall i, j :: 0 <= i < j < |order| ==> order[i] != order[j]
    ensures forall p :: p in r ==> p in order && p in n.peers
    decreases |order|
  {
    if order == [] then {}
    else
      assert forall p :: p in order[1..] ==> p in order;
      (if Judge(n, order[0], now) == v then {order[0]} else {})
      + Given(ScanOne(n, order[0], now, apply), order[1..], now, apply, v)
  }

  /** An order in which a map walk may meet the ledgers. */
  predicate Enumerates(order: seq<Peer>, n: Net) {
    && (forall i :: 0 <= i < |order| ==> order[i] in n.peers)
    && (forall i, j :: 0 <= i < j < |order| ==> order[i] != order[j])
    && (forall p :: p in n.peers ==> p in order)
  }

  function Scan(n: Net, order: seq<Peer>, now: Time, apply: bool): Net
    requires Enumerates(order, n)
  {
    Walk(Forget(n, now), order, now, apply)
  }

  /** A dry scan moves nobody: check goes on to the real one only if it would. */
  predicate Moves(n: Net, order: seq<Peer>, now: Time)
    requires Enumerates(order, n)
  {
    var f := Forget(n, now);
    Given(f, order, now, false, Out) + Given(f, order, now, false, Back) + Given(f, order, now, false, Ends) != {}
  }

  // ---- the whole system ----

  /** net, what the client was last told, who is really linked, and the last clock reading. */
  datatype Sys = Sys(net: Net, client: set<Peer>, linked: set<Peer>, clock: Time)

  function Initial(clock: Time): Sys {
    Sys(Net(map[], map[], map[]), {}, {}, clock)
  }

  datatype Event =
    | Sent(p: Peer, m: Msg, now: Time)
    | Received(p: Peer, m: Msg, now: Time)
    | Connected(p: Peer, now: Time)
    | Disconnected(p: Peer, now: Time)
    | Check(dry: seq<Peer>, now: Time, order: seq<Peer>, later: Time)

  /** Messages come from linked peers; the clock does not run back; a walk meets every ledger once. */
  predicate Enabled(s: Sys, e: Event) {
    && e.now >= s.clock
    && match e
       case Received(p, _, _) => p in s.linked
       case Check(dry, now, order, later) =>
         && Enumerates(dry, s.net) && later >= now
         && Enumerates(order, Scan(s.net, dry, now, false))
       case _ => true
  }

  function Connect(n: Net, p: Peer, now: Time): Net {
    n.(peers := n.peers[p := LedgerOf(n, p, now).(linked := true)])
  }

  function Disconnect(n: Net, p: Peer): Net {
    if p in n.peers then
      n.(peers := n.peers[p := n.peers[p].(linked := false, wanted := map[], asked := {})],
         haves := DropOffers(n.haves, n.peers[p].asked, p))
    else n
  }

  function CheckStep(s: Sys, dry: seq<Peer>, now: Time, order: seq<Peer>, later: Time): Sys
    requires Enabled(s, Check(dry, now, order, later))
  {
    var n := Scan(s.net, dry, now, false);
    if !Moves(s.net, dry, now) then s.(net := n, clock := now)
    else
      var f := Forget(n, later);
      s.(net := Walk(f, order, later, true),
         client := s.client - Given(f, order, later, true, Out) + Given(f, order, later, true, Back),
         clock := later)
  }

  function Step(s: Sys, e: Event): Sys
    requires Enabled(s, e)
  {
    match e
    case Sent(p, m, now) => s.(net := NoteSent(s.net, p, m, now), clock := now)
    case Received(p, m, now) =>
      var a := Admit(s.net, p, m, now);
      s.(net := a.net, client := if a.announce then s.client + {p} else s.client, clock := now)
    case Connected(p, now) =>
      s.(net := Connect(s.net, p, now),
         client := if OutAt(LedgerOf(s.net, p, now), now) then s.client else s.client + {p},
         linked := s.linked + {p}, clock := now)
    case Disconnected(p, now) =>
      s.(net := Disconnect(s.net, p), client := s.client - {p}, linked := s.linked - {p}, clock := now)
    case Check(dry, now, order, later) => CheckStep(s, dry, now, order, later)
  }

  predicate RunOk(s: Sys, es: seq<Event>)
    decreases |es|
  {
    es == [] || (Enabled(s, es[0]) && RunOk(Step(s, es[0]), es[1..]))
  }

  function Run(s: Sys, es: seq<Event>): Sys
    requires RunOk(s, es)
    decreases |es|
  {
    if es == [] then s else Run(Step(s, es[0]), es[1..])
  }

  // ---- the invariant ----

  /** What holds of one ledger at the last clock reading. */
  ghost predicate LedgerInv(l: Ledger, clock: Time) {
    && (l.until != 0 <==> l.owed != map[])                 // a held peer owes something, and only a held one
    && (l.probation ==> l.until != 0)
    && (l.until != 0 ==> l.until > 0)
    && (OutAt(l, clock) ==> l.wanted == map[])
    && 0 <= l.gap < MAX_HOLD && 0 <= l.lastBlock <= clock && l.progress <= clock
  }

  /** A held peer's cooldown is its record's last offence plus the cooldown of that many offences. */
  ghost predicate RecordInv(n: Net, p: Peer, clock: Time) {
    && (p in n.records ==> n.records[p].strikes > 0 && n.records[p].last <= clock)
    && (p in n.peers && Held(n.peers[p], clock) ==>
          p in n.records && n.peers[p].until == n.records[p].last + Cooldown(n.records[p].strikes))
  }

  /** Whoever offers a block is linked, was asked for it, and is neither out nor on probation. */
  ghost predicate OfferInv(n: Net, c: Cid, p: Peer, clock: Time) {
    p in n.peers && n.peers[p].linked && c in n.peers[p].asked && !Held(n.peers[p], clock)
  }

  /** The client thinks every linked peer that is not marked out connected; and it thinks so of no other peer, but for
      one whose cooldown has ended before the tick that says so. */
  ghost predicate ClientInv(s: Sys, p: Peer) {
    && (p in s.linked <==> p in s.net.peers && s.net.peers[p].linked)
    && (p in s.linked && !MarkedOut(s.net.peers[p]) ==> p in s.client)
    && (p in s.client ==> p in s.linked && (MarkedOut(s.net.peers[p]) ==> !Held(s.net.peers[p], s.clock)))
  }

  ghost predicate NetInv(n: Net, clock: Time) {
    && clock > 0
    && (forall p :: p in n.peers ==> LedgerInv(n.peers[p], clock))
    && (forall p {:trigger RecordInv(n, p, clock)} {:trigger p in n.records} {:trigger p in n.peers} ::
          RecordInv(n, p, clock))
    && (forall c, p :: Offers(n.haves, c, p) ==> OfferInv(n, c, p, clock))
  }

  ghost predicate Inv(s: Sys) {
    NetInv(s.net, s.clock) && forall p {:trigger ClientInv(s, p)} :: ClientInv(s, p)
  }

  // ---- the cooldown ----

  lemma {:induction false} Pow2Plus(a: nat, b: nat)
    ensures Pow2(a + b) == Pow2(a) * Pow2(b)
  {
    if a > 0 {
      Pow2Plus(a - 1, b);
    }
  }

  lemma {:induction false} Pow2Grows(a: nat, b: nat)
    requires a <= b
    ensures 0 < Pow2(a) <= Pow2(b)
  {
    if b > a {
      Pow2Grows(a, b - 1);
    } else if a > 0 {
      Pow2Grows(a - 1, a - 1);
    }
  }

  lemma Powers()
    ensures Pow2(5) == 32 && Pow2(28) == 0x1000_0000 && Pow2(29) == 0x2000_0000 && Pow2(30) == 0x4000_0000
  {
    assert Pow2(7) == 128;
    Pow2Plus(7, 7);
    Pow2Plus(14, 14);
  }

  const TWO40 := 0x100_0000_0000
  const TWO24 := 0x100_0000

  /** A multiple of 2^40 stays one when it wraps. */
  lemma WrapMultiple(y: int)
    ensures Wrap64(TWO40 * y) == TWO40 * ((y + TWO24 / 2) % TWO24 - TWO24 / 2)
  {
    var u := y + TWO24 / 2;
    var q, r := u / TWO24, u % TWO24;
    assert TWO40 * u == q * TWO64 + TWO40 * r;
    assert 0 <= TWO40 * r < TWO64;
    assert TWO40 * y + TWO63 == TWO40 * u;
    DivideOut(q, TWO40 * r);
  }

  lemma DivideOut(q: int, r: int)
    requires 0 <= r < TWO64
    ensures (q * TWO64 + r) % TWO64 == r
  {
  }

  /** The cooldown of the nth offence, wrap-around included: it doubles from COOL up to MAX_COOL and stays there. */
  lemma CooldownDoubles(n: nat)
    requires n > 0
    ensures Cooldown(n) == if COOL * Pow2(n - 1) < MAX_COOL then COOL * Pow2(n - 1) else MAX_COOL
    ensures COOL <= Cooldown(n) <= MAX_COOL
  {
    var k := n - 1;
    Powers();
    Pow2Grows(0, k);
    if k < 5 {
      assert Pow2(0) == 1 && Pow2(1) == 2 && Pow2(2) == 4 && Pow2(3) == 8 && Pow2(4) == 16;
    } else if k < 29 {
      Pow2Grows(5, k);
      Pow2Grows(k, 28);
    } else if k > 29 {
      Pow2Grows(5, k);
      BigShiftWraps(k);
    }
  }

  /** From the 31st offence on the shift is a multiple of 2^40 before it wraps, and so after. */
  lemma BigShiftWraps(k: nat)
    requires k > 29
    ensures Wrap64(COOL * Pow2(k)) <= 0 || Wrap64(COOL * Pow2(k)) >= TWO40
  {
    Powers();
    Pow2Plus(30, k - 30);
    var y := 29296875 * Pow2(k - 30);
    assert COOL * Pow2(k) == TWO40 * y;
    WrapMultiple(y);
  }

  // ---- every step keeps the invariant ----

  lemma Later(n: Net, clock: Time, now: Time)
    requires NetInv(n, clock) && now >= clock
    ensures NetInv(n, now)
  {
    forall p | RecordInv(n, p, clock) ensures RecordInv(n, p, now) {
    }
    forall c, p | Offers(n.haves, c, p) ensures OfferInv(n, c, p, now) {
      assert OfferInv(n, c, p, clock);
    }
  }

  /** A step that touches one peer's ledger, record and offers, and makes nobody else an offerer. */
  lemma OnePeer(n: Net, r: Net, p: Peer, now: Time)
    requires NetInv(n, now) && p in r.peers && r.peers == n.peers[p := r.peers[p]] && LedgerInv(r.peers[p], now)
    requires forall o :: o != p ==>
               (o in r.records <==> o in n.records) && (o in r.records ==> r.records[o] == n.records[o])
    requires RecordInv(r, p, now)
    requires forall c, o :: Offers(r.haves, c, o) ==> if o == p then OfferInv(r, c, p, now) else Offers(n.haves, c, o)
    ensures NetInv(r, now)
  {
    forall o ensures RecordInv(r, o, now) {
      assert RecordInv(n, o, now);
    }
    forall c, o | Offers(r.haves, c, o) ensures OfferInv(r, c, o, now) {
      if o != p {
        assert OfferInv(n, c, o, now);
      }
    }
  }

  lemma SentKeeps(n: Net, p: Peer, m: Msg, now: Time)
    requires NetInv(n, now)
    ensures NetInv(NoteSent(n, p, m, now), now)
  {
    var r := NoteSent(n, p, m, now);
    if m.wants != map[] {
      assert RecordInv(n, p, now);
      forall c, o | Offers(r.haves, c, o) ensures if o == p then OfferInv(r, c, p, now) else Offers(n.haves, c, o) {
        assert Offers(n.haves, c, o);
        assert OfferInv(n, c, o, now);
      }
      OnePeer(n, r, p, now);
    }
  }

  /** Booking a message into a ledger that is not held, or takes no HAVEs, keeps the offers right. */
  lemma NoteReceivedKeeps(n: Net, p: Peer, l: Ledger, m: Msg, now: Time)
    requires NetInv(n, now) && LedgerInv(l, now) && l.linked
    requires if Held(l, now) then m.haves == {} && (p in n.peers && Held(n.peers[p], now)) else true
    requires p in n.peers ==> l.asked == n.peers[p].asked
    requires RecordInv(n.(peers := n.peers[p := l]), p, now)
    ensures NetInv(NoteReceived(n, p, l, m, now), now)
  {
    var r := NoteReceived(n, p, l, m, now);
    forall c, o | Offers(r.haves, c, o) ensures if o == p then OfferInv(r, c, p, now) else Offers(n.haves, c, o) {
      if Offers(n.haves, c, o) {
        assert OfferInv(n, c, o, now);
      }
    }
    OnePeer(n, r, p, now);
  }

  /** Forgetting the record of a peer that is not held. */
  lemma RecordDropped(n: Net, p: Peer, l: Ledger, now: Time)
    requires NetInv(n, now) && LedgerInv(l, now) && !Held(l, now)
    requires forall c :: Offers(n.haves, c, p) ==> l.linked && c in l.asked
    ensures NetInv(Net(n.peers[p := l], n.records - {p}, n.haves), now)
  {
    var r := Net(n.peers[p := l], n.records - {p}, n.haves);
    OnePeer(n, r, p, now);
  }

  lemma AdmitKeeps(n: Net, p: Peer, m: Msg, now: Time)
    requires NetInv(n, now) && p in n.peers && n.peers[p].linked
    ensures NetInv(Admit(n, p, m, now).net, now)
  {
    var l := n.peers[p];
    assert RecordInv(n, p, now);
    if !Held(l, now) {
      NoteReceivedKeeps(n, p, l, m, now);
    } else {
      var b := Booked(l, m);
      assert forall c :: Offers(n.haves, c, p) ==> OfferInv(n, c, p, now);
      if b.owed == map[] {
        var back := b.(until := 0, probation := false);
        if b.denied {
          NoteReceivedKeeps(n, p, back, m, now);
        } else {
          RecordDropped(n, p, back, now);
          var f := Net(n.peers[p := back], n.records - {p}, n.haves);
          assert NetInv(f, now);
          NoteReceivedKeeps(f, p, back, m, now);
          assert Admit(n, p, m, now).net == NoteReceived(f, p, back, m, now);
        }
      } else if !l.probation && m.blocks == {} {
        var r := n.(peers := n.peers[p := b]);
        OnePeer(n, r, p, now);
      } else {
        NoteReceivedKeeps(n, p, b.(probation := true), WithoutHaves(m), now);
      }
    }
  }

  lemma ConnectKeeps(n: Net, p: Peer, now: Time)
    requires NetInv(n, now)
    ensures NetInv(Connect(n, p, now), now)
  {
    assert RecordInv(n, p, now);
    var r := Connect(n, p, now);
    forall c, o | Offers(r.haves, c, o) ensures if o == p then OfferInv(r, c, p, now) else Offers(n.haves, c, o) {
      assert OfferInv(n, c, o, now);
    }
    OnePeer(n, r, p, now);
  }

  lemma DisconnectKeeps(n: Net, p: Peer, now: Time)
    requires NetInv(n, now)
    ensures NetInv(Disconnect(n, p), now)
  {
    if p in n.peers {
      assert RecordInv(n, p, now);
      var r := Disconnect(n, p);
      forall c, o | Offers(r.haves, c, o) ensures o != p && Offers(n.haves, c, o) {
        assert OfferInv(n, c, o, now);
      }
      OnePeer(n, r, p, now);
    } else {
      forall c, o | Offers(n.haves, c, o) ensures o != p { assert OfferInv(n, c, o, now); }
    }
  }

  lemma ForgetKeeps(n: Net, now: Time)
    requires NetInv(n, now)
    ensures NetInv(Forget(n, now), now)
  {
    var r := Forget(n, now);
    forall p ensures RecordInv(r, p, now) {
      assert RecordInv(n, p, now);
    }
    forall c, p | Offers(r.haves, c, p) ensures OfferInv(r, c, p, now) {
      assert OfferInv(n, c, p, now);
    }
  }

  lemma PutOutKeeps(n: Net, p: Peer, now: Time)
    requires NetInv(n, now) && p in n.peers && n.peers[p].wanted != map[]
    ensures NetInv(PutOut(n, p, now), now)
  {
    assert RecordInv(n, p, now);
    var r := PutOut(n, p, now);
    CooldownDoubles(r.records[p].strikes);
    var c0 :| c0 in n.peers[p].wanted;
    assert c0 in r.peers[p].owed;
    forall c, o | Offers(r.haves, c, o) ensures o != p && Offers(n.haves, c, o) {
      assert OfferInv(n, c, o, now);
    }
    OnePeer(n, r, p, now);
  }

  lemma ScanOneKeeps(n: Net, p: Peer, now: Time, apply: bool)
    requires NetInv(n, now) && p in n.peers
    ensures NetInv(ScanOne(n, p, now, apply), now)
  {
    assert RecordInv(n, p, now);
    var l := n.peers[p];
    var r := ScanOne(n, p, now, apply);
    match Judge(n, p, now)
    case Stays =>
    case Dropped =>
      forall o ensures RecordInv(r, o, now) { assert RecordInv(n, o, now); }
      forall c, o | Offers(r.haves, c, o) ensures OfferInv(r, c, o, now) { assert OfferInv(n, c, o, now); }
    case Out =>
      if apply {
        var c :| c in l.wanted && now - l.wanted[c] >= Hold(l) && OfferedElsewhere(n.haves, c, p);
        PutOutKeeps(n, p, now);
      }
    case _ =>
      if apply {
        forall c, o | Offers(r.haves, c, o) ensures if o == p then OfferInv(r, c, p, now) else Offers(n.haves, c, o) {
          assert OfferInv(n, c, o, now);
        }
        OnePeer(n, r, p, now);
      }
  }

  lemma {:induction false} WalkKeeps(n: Net, order: seq<Peer>, now: Time, apply: bool)
    requires NetInv(n, now)
    requires forall i :: 0 <= i < |order| ==> order[i] in n.peers
    requires forall i, j :: 0 <= i < j < |order| ==> order[i] != order[j]
    ensures NetInv(Walk(n, order, now, apply), now)
    decreases |order|
  {
    if order != [] {
      ScanOneKeeps(n, order[0], now, apply);
      WalkKeeps(ScanOne(n, order[0], now, apply), order[1..], now, apply);
    }
  }

  // ---- what a walk does to one peer ----

  function Strikes(n: Net, p: Peer): nat {
    if p in n.records then n.records[p].strikes else 0
  }

  /** A walk over order that turned n into r, seen from p: put out, brought back, or left (a gone peer's ledger
      dropped, an ended probation cleared). */
  ghost predicate WalkedTo(n: Net, r: Net, p: Peer, now: Time, apply: bool, out: bool, back: bool, walked: bool) {
    && !(out && back) && (out || back ==> walked && p in n.peers)
    && (p in r.peers ==> p in n.peers && r.peers[p].linked == n.peers[p].linked)
    && (p in n.peers && p !in r.peers ==> walked && !out && !back && !n.peers[p].linked && !Held(n.peers[p], now))
    && (walked && p in n.peers && !n.peers[p].linked && !Held(n.peers[p], now) ==> p !in r.peers)
    && (out ==> SitsOnWants(n, p, n.peers[p], now))
    && (back ==> MarkedOut(n.peers[p]) && n.peers[p].linked && !Held(n.peers[p], now))
    && (p in r.peers ==>
          if apply && out then
            && MarkedOut(r.peers[p]) && r.peers[p].until == now + Cooldown(Strikes(n, p) + 1)
            && !r.peers[p].denied && r.peers[p].wanted == map[]
            && p in r.records && r.records[p] == Record(Strikes(n, p) + 1, now)
          else if apply && back then r.peers[p].until == 0 && !r.peers[p].probation
          else r.peers[p] == n.peers[p]
               || (walked && apply && n.peers[p].probation && r.peers[p].until == 0 && !r.peers[p].probation))
    && (!(apply && out) ==> (p in r.records <==> p in n.records) && (p in r.records ==> r.records[p] == n.records[p]))
    && (p in r.peers ==> SamePace(n.peers[p], r.peers[p]))
    && (p in r.peers && apply && out ==>
          r.peers[p].asked == {} && r.peers[p].owed == n.peers[p].owed + DebtOf(n, p, n.peers[p]))
  }

  predicate SamePace(l: Ledger, k: Ledger) {
    k.gap == l.gap && k.lastBlock == l.lastBlock && k.progress == l.progress
  }

  /** The want-blocks p holds, each with whether p has said it has it. */
  function DebtOf(n: Net, p: Peer, l: Ledger): map<Cid, bool> {
    map c | c in l.wanted :: Offers(n.haves, c, p)
  }

  predicate Order(order: seq<Peer>, n: Net) {
    && (forall i :: 0 <= i < |order| ==> order[i] in n.peers)
    && (forall i, j :: 0 <= i < j < |order| ==> order[i] != order[j])
  }

  /** An offer survives a walk exactly when its peer is not put out in it. */
  lemma {:induction false} WalkOffersExactly(n: Net, order: seq<Peer>, now: Time, apply: bool, c: Cid, o: Peer)
    requires Order(order, n)
    requires o in order && Offers(n.haves, c, o) ==> c in n.peers[o].asked
    ensures Offers(Walk(n, order, now, apply).haves, c, o) <==>
              Offers(n.haves, c, o) && !(apply && o in Given(n, order, now, apply, Out))
    decreases |order|
  {
    if order != [] {
      var q, m, rest := order[0], ScanOne(n, order[0], now, apply), order[1..];
      assert o in order <==> o == q || o in rest;
      if o == q {
        assert o !in rest;
      }
      WalkOffersExactly(m, rest, now, apply, c, o);
    }
  }

  lemma {:induction false} WalkOffersShrink(n: Net, order: seq<Peer>, now: Time, apply: bool, c: Cid, o: Peer)
    requires Order(order, n)
    ensures Offers(Walk(n, order, now, apply).haves, c, o) ==> Offers(n.haves, c, o)
    decreases |order|
  {
    if order != [] {
      WalkOffersShrink(ScanOne(n, order[0], now, apply), order[1..], now, apply, c, o);
    }
  }

  lemma {:induction false} WalkOnePeer(n: Net, order: seq<Peer>, now: Time, apply: bool, p: Peer)
    requires Order(order, n) && now > 0
    ensures WalkedTo(n, Walk(n, order, now, apply), p, now, apply,
                     p in Given(n, order, now, apply, Out), p in Given(n, order, now, apply, Back), p in order)
    decreases |order|
  {
    if order != [] {
      var q, m, rest := order[0], ScanOne(n, order[0], now, apply), order[1..];
      WalkOnePeer(m, rest, now, apply, p);
      assert p in order <==> p == q || p in rest;
      var r := Walk(n, order, now, apply);
      if p == q {
        assert p !in rest;
        WalkFirst(n, r, p, now, apply);
      } else {
        var out, back := p in Given(m, rest, now, apply, Out), p in Given(m, rest, now, apply, Back);
        WalkOther(n, r, q, p, now, apply, out, back, p in rest);
      }
    }
  }

  /** The walk comes to p first: the rest of it leaves p as this call does. */
  lemma WalkFirst(n: Net, r: Net, p: Peer, now: Time, apply: bool)
    requires now > 0 && p in n.peers && WalkedTo(ScanOne(n, p, now, apply), r, p, now, apply, false, false, false)
    ensures WalkedTo(n, r, p, now, apply, Judge(n, p, now) == Out, Judge(n, p, now) == Back, true)
  {
    CooldownDoubles(Strikes(n, p) + 1);
  }

  lemma WalkOther(n: Net, r: Net, q: Peer, p: Peer, now: Time, apply: bool, out: bool, back: bool, walked: bool)
    requires q in n.peers && p != q && WalkedTo(ScanOne(n, q, now, apply), r, p, now, apply, out, back, walked)
    ensures WalkedTo(n, r, p, now, apply, out, back, walked)
  {
    var m := ScanOne(n, q, now, apply);
    assert p in m.peers <==> p in n.peers;
    assert p in n.peers ==> m.peers[p] == n.peers[p];
    SitsShrinks(n, m, p, now);
    assert forall c :: Offers(m.haves, c, p) == Offers(n.haves, c, p);
    assert p in n.peers ==> DebtOf(m, p, n.peers[p]) == DebtOf(n, p, n.peers[p]);
  }

  /** A scan step of another peer only takes offers away. */
  lemma SitsShrinks(n: Net, m: Net, p: Peer, now: Time)
    requires p in n.peers ==> p in m.peers && m.peers[p] == n.peers[p]
    requires forall c, o :: Offers(m.haves, c, o) ==> Offers(n.haves, c, o)
    ensures p in n.peers && SitsOnWants(m, p, n.peers[p], now) ==> SitsOnWants(n, p, n.peers[p], now)
  {
    if p in n.peers && SitsOnWants(m, p, n.peers[p], now) {
      var l := n.peers[p];
      var c :| c in l.wanted && now - l.wanted[c] >= Hold(l) && OfferedElsewhere(m.haves, c, p);
      var o :| o in m.haves[c] && o != p;
      assert Offers(m.haves, c, o);
      assert Offers(n.haves, c, o);
    }
  }

  // ---- the client's view ----

  lemma CheckClient(s: Sys, dry: seq<Peer>, now: Time, order: seq<Peer>, later: Time, p: Peer)
    requires Inv(s) && Enabled(s, Check(dry, now, order, later))
    ensures ClientInv(CheckStep(s, dry, now, order, later), p)
  {
    assert ClientInv(s, p);
    var f := Forget(s.net, now);
    var n := Scan(s.net, dry, now, false);
    WalkOnePeer(f, dry, now, false, p);
    if Moves(s.net, dry, now) {
      WalkOnePeer(Forget(n, later), order, later, true, p);
      assert p in n.peers ==> p in order;
    }
  }

  lemma CheckNet(s: Sys, dry: seq<Peer>, now: Time, order: seq<Peer>, later: Time)
    requires Inv(s) && Enabled(s, Check(dry, now, order, later))
    ensures NetInv(CheckStep(s, dry, now, order, later).net, CheckStep(s, dry, now, order, later).clock)
  {
    Later(s.net, s.clock, now);
    ForgetKeeps(s.net, now);
    WalkKeeps(Forget(s.net, now), dry, now, false);
    var n := Scan(s.net, dry, now, false);
    if Moves(s.net, dry, now) {
      Later(n, now, later);
      ForgetKeeps(n, later);
      WalkKeeps(Forget(n, later), order, later, true);
    }
  }

  /** Every step keeps the ledgers, the records, the offers and the client's view right. */
  lemma StepKeepsInv(s: Sys, e: Event)
    requires Inv(s) && Enabled(s, e)
    ensures Inv(Step(s, e))
  {
    StepNet(s, e);
    forall o ensures ClientInv(Step(s, e), o) {
      StepClient(s, e, o);
    }
  }

  lemma StepNet(s: Sys, e: Event)
    requires Inv(s) && Enabled(s, e)
    ensures NetInv(Step(s, e).net, Step(s, e).clock)
  {
    Later(s.net, s.clock, e.now);
    match e
    case Sent(p, m, now) => SentKeeps(s.net, p, m, now);
    case Received(p, m, now) =>
      assert ClientInv(s, p);
      AdmitKeeps(s.net, p, m, now);
    case Connected(p, now) => ConnectKeeps(s.net, p, now);
    case Disconnected(p, now) => DisconnectKeeps(s.net, p, now);
    case Check(dry, now, order, later) => CheckNet(s, dry, now, order, later);
  }

  lemma StepClient(s: Sys, e: Event, o: Peer)
    requires Inv(s) && Enabled(s, e)
    ensures ClientInv(Step(s, e), o)
  {
    assert ClientInv(s, o);
    match e
    case Received(p, m, now) => assert ClientInv(s, p);
    case Check(dry, now, order, later) => CheckClient(s, dry, now, order, later, o);
    case _ =>
  }

  lemma {:induction false} RunKeepsInv(s: Sys, es: seq<Event>)
    requires Inv(s) && RunOk(s, es)
    ensures Inv(Run(s, es))
    decreases |es|
  {
    if es != [] {
      StepKeepsInv(s, es[0]);
      RunKeepsInv(Step(s, es[0]), es[1..]);
    }
  }

  lemma InitialInv(clock: Time)
    requires clock > 0
    ensures Inv(Initial(clock))
  {
    forall o ensures ClientInv(Initial(clock), o) {
    }
  }

  /** In every run from the start: each recorded offer is of a linked peer asked for that block that is neither out
      nor on probation; every linked peer not marked out is one the client was last told is connected; a held peer
      owes something, and is held until its last offence plus the cooldown of that many offences. */
  lemma ReachableIsRight(clock: Time, es: seq<Event>, c: Cid, p: Peer)
    requires clock > 0 && RunOk(Initial(clock), es)
    ensures var s := Run(Initial(clock), es);
            && (Offers(s.net.haves, c, p) ==> OfferInv(s.net, c, p, s.clock))
            && (p in s.linked ==> p in s.net.peers && (!MarkedOut(s.net.peers[p]) ==> p in s.client))
            && (p in s.net.peers && Held(s.net.peers[p], s.clock) ==>
                  && s.net.peers[p].owed != map[]
                  && p in s.net.records && s.net.records[p].strikes > 0
                  && s.net.peers[p].until == s.net.records[p].last + Cooldown(s.net.records[p].strikes))
  {
    var i := Initial(clock);
    InitialInv(clock);
    RunKeepsInv(i, es);
    var s := Run(i, es);
    assert ClientInv(s, p) && RecordInv(s.net, p, s.clock);
  }

  /** What reaches bitswap of a message: every block and every want entry; no HAVE of a held peer, unless the message
      has just settled all it owed; and a peer that was out is announced exactly when it settles or delivers. */
  lemma AdmitForwards(n: Net, p: Peer, m: Msg, now: Time)
    requires p in n.peers
    ensures var l, a := n.peers[p], Admit(n, p, m, now);
            && (a.fwd.None? ==> m.blocks == {} && m.wants == map[])
            && (a.fwd.Some? ==>
                  a.fwd.value.blocks == m.blocks && a.fwd.value.wants == m.wants && a.fwd.value.full == m.full)
            && (a.fwd.Some? && a.fwd.value.haves != {} ==> now >= l.until || l.owed.Keys <= m.blocks + m.dontHaves)
            && (a.fwd.Some? && (now >= l.until || l.owed.Keys <= m.blocks + m.dontHaves) ==> a.fwd.value == m)
            && (a.fwd.Some? && a.fwd.value.dontHaves != m.dontHaves ==> Withheld(l, m, now))
            && (a.fwd.None? ==> now < l.until && !(l.owed.Keys <= m.blocks + m.dontHaves))
            && (a.fwd.None? && l.probation ==> m.dontHaves == {})
            && (a.announce <==>
                  && now < l.until && !l.probation && l.linked
                  && (m.blocks != {} || l.owed.Keys <= m.blocks + m.dontHaves))
  {
    PaidMeans(n.peers[p], m);
  }

  lemma PaidMeans(l: Ledger, m: Msg)
    ensures Paid(l, m) == map[] <==> l.owed.Keys <= m.blocks + m.dontHaves
  {
    var left := l.owed.Keys - m.blocks - m.dontHaves;
    assert Paid(l, m).Keys == left;
    assert forall c :: c in left <==> c in l.owed && c !in m.blocks + m.dontHaves;
    if left == {} {
      assert Paid(l, m) == map[];
    }
  }

  /** The ledger a message leaves, before what it answers is noted: booked, and back in or on probation. */
  function Judged(l: Ledger, m: Msg, now: Time): Ledger {
    if now >= l.until then l
    else if Paid(l, m) == map[] then Booked(l, m).(until := 0, probation := false)
    else if Withheld(l, m, now) then Booked(l, m)
    else Booked(l, m).(probation := true)
  }

  /** Admitting a message in one piece: withheld, it only pays; else it is noted, its HAVEs only if the peer is in or
      has just settled. */
  lemma AdmitInOne(n: Net, p: Peer, m: Msg, now: Time)
    requires p in n.peers
    ensures var r, l := Admit(n, p, m, now).net, n.peers[p];
            var noted := if now >= l.until || Paid(l, m) == map[] then m else WithoutHaves(m);
            && r.peers == n.peers[p := if Withheld(l, m, now) then Judged(l, m, now)
                                       else ReceivedLedger(Judged(l, m, now), noted, now)]
            && r.haves == if Withheld(l, m, now) then n.haves else ReceivedHaves(n.haves, p, l, noted)
  {
    PaidMeans(n.peers[p], m);
  }

  /** Out, and it neither delivers nor settles: what it tells our client is not even noted. */
  predicate Withheld(l: Ledger, m: Msg, now: Time) {
    now < l.until && !l.probation && m.blocks == {} && !(l.owed.Keys <= m.blocks + m.dontHaves)
  }

  // ---- what a peer holds, is asked and offers ----

  /** What a message sent to p changes: its want-blocks are held against p from now, or from when they were first
      sent, unless p is out; cancels, and a full list, end wants and offers. */
  lemma SentExactly(n: Net, p: Peer, m: Msg, now: Time, c: Cid, o: Peer)
    requires m.wants != map[]
    ensures var r, l := NoteSent(n, p, m, now), LedgerOf(n, p, now);
            && p in r.peers
            && (o != p ==> (o in r.peers <==> o in n.peers) && (o in n.peers ==> r.peers[o] == n.peers[o]))
            && (c in r.peers[p].wanted <==>
                  || (c in m.wants && m.wants[c].WantEntry? && m.wants[c].block && !(now < l.until && !l.probation))
                  || (!m.full && c in l.wanted && !(c in m.wants && m.wants[c].CancelEntry?)))
            && (c in r.peers[p].wanted ==>
                  r.peers[p].wanted[c] == if !m.full && c in l.wanted then l.wanted[c] else now)
            && (c in r.peers[p].asked <==>
                  || (c in m.wants && m.wants[c].WantEntry?)
                  || (!m.full && c in l.asked && !(c in m.wants && m.wants[c].CancelEntry?)))
            && (Offers(r.haves, c, o) <==>
                  && Offers(n.haves, c, o) && !(c in m.wants && m.wants[c].CancelEntry?)
                  && !(m.full && o == p && c in l.asked))
            && r.peers[p] == l.(wanted := r.peers[p].wanted, asked := r.peers[p].asked) && r.records == n.records
  {
  }

  /** What a message from p changes: unless withheld, its blocks and DONT_HAVEs end those wants of p, its blocks end
      everybody's offers of them, its DONT_HAVEs its own, and its HAVEs of what it is still asked become offers, if it
      is in or has just settled. */
  lemma ReceivedExactly(n: Net, p: Peer, m: Msg, now: Time, c: Cid, o: Peer)
    requires p in n.peers
    ensures var r, l := Admit(n, p, m, now).net, n.peers[p];
            var settled := now >= l.until || l.owed.Keys <= m.blocks + m.dontHaves;
            && p in r.peers
            && (o != p ==> (o in r.peers <==> o in n.peers) && (o in n.peers ==> r.peers[o] == n.peers[o]))
            && (c in r.peers[p].wanted <==>
                  c in l.wanted && (Withheld(l, m, now) || (c !in m.blocks && c !in m.dontHaves)))
            && (c in r.peers[p].wanted ==> r.peers[p].wanted[c] == l.wanted[c])
            && (c in r.peers[p].asked <==>
                  c in l.asked && (Withheld(l, m, now) || (c !in m.blocks && c !in m.dontHaves)))
            && (Offers(r.haves, c, o) <==>
                  if Withheld(l, m, now) then Offers(n.haves, c, o)
                  else
                    || (Offers(n.haves, c, o) && c !in m.blocks && !(o == p && c in m.dontHaves))
                    || (o == p && settled && c in m.haves && c in l.asked && c !in m.blocks && c !in m.dontHaves))
            && (now < l.until ==>
                  (c in r.peers[p].owed <==> c in l.owed && c !in m.blocks && c !in m.dontHaves)
                  && (c in r.peers[p].owed ==> r.peers[p].owed[c] == l.owed[c]))
  {
    PaidMeans(n.peers[p], m);
    AdmitInOne(n, p, m, now);
  }

  /** p's deliveries set its pace: the first two give its interval, each later one moves it a quarter of the way, an
      idle gap does not count; and each is progress, whatever else the message says. */
  lemma DeliveredExactly(n: Net, p: Peer, m: Msg, now: Time)
    requires p in n.peers
    ensures var r, l := Admit(n, p, m, now).net.peers[p], n.peers[p];
            var d := now - l.lastBlock;
            && p in Admit(n, p, m, now).net.peers
            && (m.blocks == {} ==> SamePace(l, r))
            && (m.blocks != {} ==>
                  && r.progress == now && r.lastBlock == now
                  && r.gap == if l.lastBlock == 0 || d >= 10_000_000_000 then l.gap
                              else if l.gap == 0 then d else (3 * l.gap + d) / 4)
  {
    AdmitInOne(n, p, m, now);
  }

  /** So a peer that delivers at a steady interval keeps exactly that, and any other interval moves it between the
      two. */
  lemma PaceFollows(l: Ledger, now: Time)
    requires l.lastBlock != 0 && 0 <= now - l.lastBlock < MAX_HOLD && l.gap > 0
    ensures now - l.lastBlock == l.gap ==> NewGap(l, now) == l.gap
    ensures now - l.lastBlock > l.gap ==> l.gap <= NewGap(l, now) < now - l.lastBlock
    ensures now - l.lastBlock < l.gap ==> now - l.lastBlock <= NewGap(l, now) < l.gap
  {
  }

  /** What a peer tells the client reaches it with the peer announced, except exactly in this case: the client was
      last told the peer is out, and its cooldown has ended with no tick since. */
  lemma AnnouncedFirst(s: Sys, p: Peer, m: Msg, now: Time)
    requires Inv(s) && Enabled(s, Received(p, m, now))
    ensures var fwd := Admit(s.net, p, m, now).fwd;
            fwd.Some? && (fwd.value.blocks != {} || fwd.value.dontHaves != {} || fwd.value.haves != {}) ==>
              (p !in Step(s, Received(p, m, now)).client <==>
                 p !in s.client && p in s.net.peers && MarkedOut(s.net.peers[p]) && !Held(s.net.peers[p], now))
  {
    assert ClientInv(s, p);
    AdmitForwards(s.net, p, m, now);
    assert Held(s.net.peers[p], now) <==> now < s.net.peers[p].until;
  }

  /** Some run takes s to t. */
  ghost predicate Leads(s: Sys, t: Sys) {
    exists es: seq<Event> :: RunOk(s, es) && Run(s, es) == t
  }

  lemma {:induction false} RunOneMore(s: Sys, es: seq<Event>, e: Event)
    requires RunOk(s, es) && Enabled(Run(s, es), e)
    ensures RunOk(s, es + [e]) && Run(s, es + [e]) == Step(Run(s, es), e)
    decreases |es|
  {
    if es == [] {
      assert RunOk(Step(s, e), []) && [e][1..] == [];
    } else {
      assert (es + [e])[1..] == es[1..] + [e];
      RunOneMore(Step(s, es[0]), es[1..], e);
    }
  }

  lemma LeadsStep(i: Sys, s: Sys, e: Event)
    requires Leads(i, s) && Enabled(s, e)
    ensures Leads(i, Step(s, e))
  {
    var es: seq<Event> :| RunOk(i, es) && Run(i, es) == s;
    RunOneMore(i, es, e);
  }

  function WantOf(c: Cid): Msg {
    Msg(false, map[c := WantEntry(true, 0, true)], {}, {}, {}, 0)
  }

  /** A peer linked since the run began and asked for a block. */
  function AskedLedger(c: Cid): Ledger {
    Ledger(map[c := 1], {c}, map[], false, 0, 0, 1, 0, false, true)
  }

  /** A peer links and is asked for a block, at the start of a run. */
  lemma LinkAndAsk(i: Sys, s: Sys, p: Peer, c: Cid) returns (t: Sys)
    requires Leads(i, s) && p !in s.net.peers && s.net.records == map[] && s.net.haves == map[] && s.clock == 1
    ensures Leads(i, t)
    ensures t == Sys(Net(s.net.peers[p := AskedLedger(c)], map[], map[]), s.client + {p}, s.linked + {p}, 1)
  {
    LeadsStep(i, s, Connected(p, 1));
    var l := Step(s, Connected(p, 1));
    var n := NewLedger(1).(linked := true);
    assert l == Sys(Net(s.net.peers[p := n], map[], map[]), s.client + {p}, s.linked + {p}, 1);
    LeadsStep(i, l, Sent(p, WantOf(c), 1));
    t := Step(l, Sent(p, WantOf(c), 1));
    assert Cancels(WantOf(c)) == {} && WantBlocks(WantOf(c)) == {c};
    assert t.net.peers[p].wanted == map[c := 1] && t.net.peers[p].asked == {c};
    assert t.net.peers[p] == AskedLedger(c);
    assert t.net.peers == s.net.peers[p := AskedLedger(c)];
  }

  /** A block asked of two peers, and offered by the second. */
  lemma AskedOfTwo(p: Peer, q: Peer, c: Cid) returns (s: Sys)
    requires p != q
    ensures Leads(Initial(1), s)
    ensures s == Sys(Net(map[p := AskedLedger(c), q := AskedLedger(c)], map[], map[c := {q}]), {p, q}, {p, q}, 2)
  {
    s := Initial(1);
    assert RunOk(s, []) && Run(s, []) == s;
    s := LinkAndAsk(Initial(1), s, p, c);
    s := LinkAndAsk(Initial(1), s, q, c);
    var m := HaveOf(c);
    LeadsStep(Initial(1), s, Received(q, m, 2));
    FirstOffer(q, c);
    s := Step(s, Received(q, m, 2));
  }

  function HaveOf(c: Cid): Msg {
    Msg(false, map[], {}, {c}, {}, 0)
  }

  lemma FirstOffer(q: Peer, c: Cid)
    ensures ReceivedLedger(AskedLedger(c), HaveOf(c), 2) == AskedLedger(c)
    ensures ReceivedHaves(map[], q, AskedLedger(c), HaveOf(c)) == map[c := {q}]
  {
    var l, m := AskedLedger(c), HaveOf(c);
    assert l.wanted - m.blocks - m.dontHaves == l.wanted && l.asked - m.blocks - m.dontHaves == l.asked;
    var none: Haves := map[];
    assert none - m.blocks == none;
    assert DropOffers(none, m.dontHaves, q) == none;
    assert m.haves * (l.asked - m.blocks - m.dontHaves) == {c};
    var h := AddOffers(none, {c}, q);
    assert h.Keys == {c} && h[c] == {q};
  }

  lemma ReachedInv(s: Sys)
    requires Leads(Initial(1), s)
    ensures Inv(s)
  {
    var es: seq<Event> :| RunOk(Initial(1), es) && Run(Initial(1), es) == s;
    InitialInv(1);
    RunKeepsInv(Initial(1), es);
  }

  lemma FirstIsSitting(n: Net, p: Peer, q: Peer, c: Cid, tick: Time)
    requires p != q && tick == AFTER + 2
    requires n == Net(map[p := AskedLedger(c), q := AskedLedger(c)], map[], map[c := {q}])
    ensures Order([p, q], n) && Walk(n, [p, q], tick, false) == n
    ensures p in Given(n, [p, q], tick, false, Out) && p in Given(n, [p, q], tick, true, Out)
  {
    var order := [p, q];
    assert order[0] == p && order[1] == q && order[1..] == [q] && [q][1..] == [];
    assert Judge(n, q, tick) != Dropped;
    assert Walk(n, [q], tick, false) == n;
    assert SitsOnWants(n, p, n.peers[p], tick) by {
      assert q in n.haves[c] && OfferedElsewhere(n.haves, c, p);
    }
    assert Judge(n, p, tick) == Out;
  }

  /** The first of the two sits on it, and the check puts it out. */
  lemma FirstGoesOut(s: Sys, p: Peer, q: Peer, c: Cid) returns (e: Event, t: Sys)
    requires p != q && Leads(Initial(1), s)
    requires s == Sys(Net(map[p := AskedLedger(c), q := AskedLedger(c)], map[], map[c := {q}]), {p, q}, {p, q}, 2)
    ensures Enabled(s, e) && t == Step(s, e) && Leads(Initial(1), t)
    ensures p in t.linked && p !in t.client && p in t.net.peers && MarkedOut(t.net.peers[p])
    ensures t.clock == AFTER + 2 && t.net.peers[p].until == AFTER + 2 + COOL
  {
    var tick, order := AFTER + 2, [p, q];
    e := Check(order, tick, order, tick);
    assert order[0] == p && order[1] == q;
    assert Enumerates(order, s.net);
    assert Forget(s.net, tick) == s.net;
    FirstIsSitting(s.net, p, q, c, tick);
    LeadsStep(Initial(1), s, e);
    WalkOnePeer(s.net, order, tick, true, p);
    CooldownDoubles(1);
    t := Step(s, e);
  }

  /** The exception is reached: a peer put out, whose cooldown ends, delivers before the next tick; its block is
      forwarded and the client still thinks it gone. */
  lemma ToldTooLate(p: Peer, q: Peer, c: Cid) returns (s: Sys, m: Msg, now: Time)
    requires p != q
    ensures Leads(Initial(1), s) && Inv(s) && Enabled(s, Received(p, m, now))
    ensures Admit(s.net, p, m, now).fwd == Some(m) && c in m.blocks
    ensures p !in Step(s, Received(p, m, now)).client
  {
    s := AskedOfTwo(p, q, c);
    var e;
    e, s := FirstGoesOut(s, p, q, c);
    ReachedInv(s);
    m, now := Msg(false, map[], {c}, {}, {}, 0), AFTER + 2 + COOL;
    assert !Held(s.net.peers[p], now);
    AnnouncedFirst(s, p, m, now);
  }

  // ---- a check never empties the rotation ----

  lemma {:induction false} NobodyOut(n: Net, order: seq<Peer>, now: Time)
    requires Order(order, n) && Given(n, order, now, true, Out) == {}
    ensures Walk(n, order, now, true).haves == n.haves
    decreases |order|
  {
    if order != [] {
      assert order[0] !in Given(n, order, now, true, Out);
      NobodyOut(ScanOne(n, order[0], now, true), order[1..], now);
    }
  }

  /** If the walk puts peers out, then some block one of them was holding is still offered when it ends. */
  lemma {:induction false} WalkLeavesAnOffer(n: Net, order: seq<Peer>, now: Time) returns (c: Cid, p: Peer, o: Peer)
    requires Order(order, n) && Given(n, order, now, true, Out) != {}
    ensures p in Given(n, order, now, true, Out) && c in n.peers[p].wanted
    ensures Offers(Walk(n, order, now, true).haves, c, o)
    decreases |order|
  {
    var q, m, rest := order[0], ScanOne(n, order[0], now, true), order[1..];
    if Given(m, rest, now, true, Out) != {} {
      c, p, o := WalkLeavesAnOffer(m, rest, now);
      assert m.peers[p] == n.peers[p];
    } else {
      NobodyOut(m, rest, now);
      p := q;
      assert Judge(n, q, now) == Out;
      var l := n.peers[q];
      c :| c in l.wanted && now - l.wanted[c] >= Hold(l) && OfferedElsewhere(n.haves, c, q);
      o :| o in n.haves[c] && o != q;
      assert Offers(m.haves, c, o) <==> Offers(n.haves, c, o);
    }
  }

  /** An offer survives a check exactly when its peer is not put out in it: so what a put-out peer was holding is still
      offered when the check ends if and only if not all that offered it went out too. */
  lemma CheckOffersExactly(s: Sys, dry: seq<Peer>, now: Time, order: seq<Peer>, later: Time, c: Cid, o: Peer)
    requires Inv(s) && Enabled(s, Check(dry, now, order, later)) && Moves(s.net, dry, now)
    ensures Offers(CheckStep(s, dry, now, order, later).net.haves, c, o) <==>
              Offers(s.net.haves, c, o)
              && o !in Given(Forget(Scan(s.net, dry, now, false), later), order, later, true, Out)
  {
    if Offers(s.net.haves, c, o) {
      assert OfferInv(s.net, c, o, s.clock);
    }
    WalkOffersExactly(Forget(s.net, now), dry, now, false, c, o);
    WalkOnePeer(Forget(s.net, now), dry, now, false, o);
    WalkOffersExactly(Forget(Scan(s.net, dry, now, false), later), order, later, true, c, o);
  }

  /** Whenever a check puts peers out, in whatever order it walks the map, some peer stays in the rotation that offers
      a block one of them was holding; and each one put out had another peer to ask for a block it was holding, when
      the walk began. (That peer may go out later in the same walk.) */
  lemma CheckNeverEmptiesTheRotation(s: Sys, dry: seq<Peer>, now: Time, order: seq<Peer>, later: Time)
    requires Inv(s) && Enabled(s, Check(dry, now, order, later)) && Moves(s.net, dry, now)
    ensures var f, t := Forget(Scan(s.net, dry, now, false), later), CheckStep(s, dry, now, order, later);
            var outs := Given(f, order, later, true, Out);
            && (outs != {} ==> exists c, p, o :: p in outs && c in f.peers[p].wanted && Offers(t.net.haves, c, o)
                                                 && OfferInv(t.net, c, o, t.clock) && o !in outs)
            && forall p :: p in outs ==>
                 var l := f.peers[p];
                 && !(later < l.until && !l.probation) && later - l.progress >= Hold(l)
                 && exists c, o :: c in l.wanted && later - l.wanted[c] >= Hold(l) && Offers(f.haves, c, o) && o != p
  {
    var f := Forget(Scan(s.net, dry, now, false), later);
    var t := CheckStep(s, dry, now, order, later);
    var outs := Given(f, order, later, true, Out);
    CheckNet(s, dry, now, order, later);
    if outs != {} {
      var c, p, o := WalkLeavesAnOffer(f, order, later);
      assert OfferInv(t.net, c, o, t.clock);
      WalkOnePeer(f, order, later, true, o);
      CooldownDoubles(Strikes(f, o) + 1);
    }
    forall p | p in outs
      ensures SitsOnWants(f, p, f.peers[p], later)
      ensures exists c, o :: c in f.peers[p].wanted && later - f.peers[p].wanted[c] >= Hold(f.peers[p])
                             && Offers(f.haves, c, o) && o != p
    {
      WalkOnePeer(f, order, later, true, p);
      var l := f.peers[p];
      var c :| c in l.wanted && later - l.wanted[c] >= Hold(l) && OfferedElsewhere(f.haves, c, p);
      var o :| o in f.haves[c] && o != p;
      assert Offers(f.haves, c, o);
    }
  }

  /** And none is spared: after the walk nobody still in the rotation sits on wants that another peer offers, but those
      whose cooldown the same walk ended. */
  lemma {:induction false} NoneSpared(n: Net, order: seq<Peer>, now: Time, p: Peer)
    requires Order(order, n) && now > 0 && p in order
    ensures var r := Walk(n, order, now, true);
            p in r.peers && n.peers[p].until == 0 ==>
              !SitsOnWants(r, p, r.peers[p], now)
              && var l := r.peers[p];
                 l.until == 0 && now - l.progress >= Hold(l) ==>
                   forall c, o :: c in l.wanted && now - l.wanted[c] >= Hold(l) && Offers(r.haves, c, o) ==> o == p
    decreases |order|
  {
    var q, m, rest := order[0], ScanOne(n, order[0], now, true), order[1..];
    var r := Walk(n, order, now, true);
    if p in rest {
      NoneSpared(m, rest, now, p);
    } else {
      WalkOnePeer(m, rest, now, true, p);
      forall c, o ensures Offers(r.haves, c, o) ==> Offers(n.haves, c, o) {
        WalkOffersShrink(n, order, now, true, c, o);
      }
      if p in r.peers && Judge(n, p, now) == Stays {
        assert r.peers[p] == n.peers[p];
        SitsShrinks(n, r, p, now);
      }
      NotSittingMeans(r, p, now);
    }
  }

  lemma NotSittingMeans(r: Net, p: Peer, now: Time)
    ensures p in r.peers && !SitsOnWants(r, p, r.peers[p], now) ==>
              var l := r.peers[p];
              l.until <= now && now - l.progress >= Hold(l) ==>
                forall c, o :: c in l.wanted && now - l.wanted[c] >= Hold(l) && Offers(r.haves, c, o) ==> o == p
  {
    if p in r.peers && !SitsOnWants(r, p, r.peers[p], now) {
      var l := r.peers[p];
      forall c, o | c in l.wanted && now - l.wanted[c] >= Hold(l) && Offers(r.haves, c, o) && o != p
        ensures OfferedElsewhere(r.haves, c, p)
      {
        assert o in r.haves[c];
      }
    }
  }

  // ---- records and debts ----

  /** The event puts p out. */
  predicate PutsOut(s: Sys, e: Event, p: Peer)
    requires Enabled(s, e)
  {
    e.Check? && Moves(s.net, e.dry, e.now)
    && p in Given(Forget(Scan(s.net, e.dry, e.now, false), e.later), e.order, e.later, true, Out)
  }

  /** A record goes exactly when its peer, held, settles all it owed with no promised block denied in that stint, or
      when a check finds it older than FORGET and its peer not held, and does not put the peer out at once. */
  lemma RecordGoesOnlyWhen(s: Sys, e: Event, p: Peer)
    requires Inv(s) && Enabled(s, e) && p in s.net.records
    ensures p !in Step(s, e).net.records <==>
              match e
              case Received(q, m, now) =>
                && q == p && p in s.net.peers && now < s.net.peers[p].until
                && s.net.peers[p].owed.Keys <= m.blocks + m.dontHaves
                && !s.net.peers[p].denied
                && forall c :: c in m.dontHaves && c !in m.blocks && c in s.net.peers[p].owed ==>
                     !s.net.peers[p].owed[c]
              case Check(dry, now, order, later) =>
                && !PutsOut(s, e, p)
                && (TooOld(s, p, now) || (Moves(s.net, dry, now) && TooOld(s, p, later)))
              case _ => false
  {
    match e
    case Received(q, m, now) =>
      assert ClientInv(s, q);
      PaidMeans(s.net.peers[q], m);
    case Check(dry, now, order, later) => CheckForgets(s, dry, now, order, later, p);
    case _ =>
  }

  /** p's record is past its time, and p is not held. */
  predicate TooOld(s: Sys, p: Peer, t: Time)
    requires p in s.net.records
  {
    t - s.net.records[p].last > 3_600_000_000_000 && !(p in s.net.peers && t < s.net.peers[p].until)
  }

  lemma CheckForgets(s: Sys, dry: seq<Peer>, now: Time, order: seq<Peer>, later: Time, p: Peer)
    requires Inv(s) && Enabled(s, Check(dry, now, order, later)) && p in s.net.records
    ensures p !in CheckStep(s, dry, now, order, later).net.records <==>
              && !PutsOut(s, Check(dry, now, order, later), p)
              && (TooOld(s, p, now) || (Moves(s.net, dry, now) && TooOld(s, p, later)))
  {
    var f := Forget(s.net, now);
    WalkOnePeer(f, dry, now, false, p);
    if Moves(s.net, dry, now) {
      var n := Scan(s.net, dry, now, false);
      var g := Forget(n, later);
      WalkOnePeer(g, order, later, true, p);
    }
  }

  // ---- what a check does to one peer ----

  /** Going out: every want-block it held is owed, marked with whether it had said it has it; its wants and offers are
      over; its offence counts, and sets its time; and the client is told. */
  lemma PutOutExactly(s: Sys, e: Event, p: Peer, c: Cid)
    requires Inv(s) && Enabled(s, e) && PutsOut(s, e, p)
    ensures var t := Step(s, e);
            && p in s.net.peers && p in t.net.peers && p in t.net.records && p !in t.client
            && var l, r := s.net.peers[p], t.net.peers[p];
               && r.wanted == map[] && r.asked == {} && !r.probation && !r.denied && !Offers(t.net.haves, c, p)
               && (c in r.owed <==> c in l.owed || c in l.wanted)
               && (c in r.owed ==> (r.owed[c] <==> if c in l.wanted then Offers(s.net.haves, c, p) else l.owed[c]))
               && t.net.records[p].last == e.later
               && t.net.records[p].strikes
                  == 1 + (if p in s.net.records && !TooOld(s, p, e.now) && !TooOld(s, p, e.later)
                          then s.net.records[p].strikes else 0)
               && r.until == e.later + Cooldown(t.net.records[p].strikes)
  {
    var f, n := Forget(s.net, e.now), Scan(s.net, e.dry, e.now, false);
    var g := Forget(n, e.later);
    WalkOnePeer(f, e.dry, e.now, false, p);
    WalkOnePeer(g, e.order, e.later, true, p);
    WalkOffersExactly(f, e.dry, e.now, false, c, p) by {
      if Offers(f.haves, c, p) {
        assert OfferInv(s.net, c, p, s.clock);
      }
    }
    CheckOffersExactly(s, e.dry, e.now, e.order, e.later, c, p);
  }

  /** The verdicts that go by the ledger alone fall on exactly the ledgers that earn them. */
  lemma {:induction false} GivenByLedger(n: Net, order: seq<Peer>, now: Time, apply: bool, v: Verdict, p: Peer)
    requires Order(order, n) && (v == Back || v == Ends || v == Dropped)
    ensures p in Given(n, order, now, apply, v) <==> p in order && Judge(n, p, now) == v
    decreases |order|
  {
    if order != [] {
      var q, m, rest := order[0], ScanOne(n, order[0], now, apply), order[1..];
      assert p in order <==> p == q || p in rest;
      GivenByLedger(m, rest, now, apply, v, p);
      if p == q {
        assert p !in rest;
      } else {
        assert p in m.peers <==> p in n.peers;
        assert p in n.peers ==> m.peers[p] == n.peers[p];
      }
    }
  }

  /** After a walk that moves, nobody is held past its time, and no ledger is kept of a peer neither linked nor held. */
  lemma {:induction false} WalkEndsCooldowns(n: Net, order: seq<Peer>, now: Time, p: Peer)
    requires Order(order, n) && now > 0 && p in order
    ensures var r := Walk(n, order, now, true);
            p in r.peers ==>
              && (r.peers[p].until == 0 || now < r.peers[p].until) && (r.peers[p].linked || now < r.peers[p].until)
              && (n.peers[p].until != 0 && n.peers[p].until <= now ==>
                    r.peers[p].until == 0 && r.peers[p].owed == map[])
    decreases |order|
  {
    var q, m, rest := order[0], ScanOne(n, order[0], now, true), order[1..];
    if p in rest {
      assert p != q && m.peers[p] == n.peers[p];
      WalkEndsCooldowns(m, rest, now, p);
    } else {
      assert p == q;
      CooldownDoubles(Strikes(n, p) + 1);
      WalkOnePeer(m, rest, now, true, p);
    }
  }

  /** Everyone comes back in time: after any check, no peer is marked out or on probation past its time as the check
      began, no ledger is kept of a peer neither linked nor held then, and the client has every linked peer that is
      not out. */
  lemma BackInTime(s: Sys, e: Event, p: Peer)
    requires Inv(s) && Enabled(s, e) && e.Check?
    ensures var t := Step(s, e);
            p in t.net.peers ==>
              && (t.net.peers[p].until == 0 || e.now < t.net.peers[p].until)
              && (t.net.peers[p].linked || e.now < t.net.peers[p].until)
              && (t.net.peers[p].linked && t.net.peers[p].until == 0 ==> p in t.client)
  {
    StepKeepsInv(s, e);
    assert ClientInv(Step(s, e), p);
    var f, n := Forget(s.net, e.now), Scan(s.net, e.dry, e.now, false);
    WalkOnePeer(f, e.dry, e.now, false, p);
    if Moves(s.net, e.dry, e.now) {
      if p in n.peers {
        WalkEndsCooldowns(Forget(n, e.later), e.order, e.later, p);
      }
      WalkOnePeer(Forget(n, e.later), e.order, e.later, true, p);
    } else {
      GivenByLedger(f, e.dry, e.now, false, Back, p);
      GivenByLedger(f, e.dry, e.now, false, Ends, p);
    }
  }

  /** And nobody comes back early: a peer held past the check keeps its ledger and its time, unless the check puts it
      out anew; disconnecting and connecting again change neither. */
  lemma NobodyEarly(s: Sys, e: Event, p: Peer)
    requires Inv(s) && Enabled(s, e) && p in s.net.peers
    ensures var t, l := Step(s, e), s.net.peers[p];
            match e
            case Check(_, _, _, later) =>
              later < l.until ==>
                p in t.net.peers
                && (PutsOut(s, e, p) || (t.net.peers[p].until == l.until && t.net.peers[p].probation == l.probation
                                         && t.net.peers[p].owed == l.owed))
            case Connected(q, now) =>
              p in t.net.peers && t.net.peers[p] == (if q == p then l.(linked := true) else l)
              && (p in t.client <==> p in s.client || (q == p && !(now < l.until && !l.probation)))
            case Disconnected(q, _) =>
              p in t.net.peers && t.net.peers[p].until == l.until && t.net.peers[p].probation == l.probation
              && t.net.peers[p].owed == l.owed
            case Sent(_, _, _) =>
              p in t.net.peers && t.net.peers[p].until == l.until && t.net.peers[p].probation == l.probation
              && t.net.peers[p].owed == l.owed
            case Received(q, m, now) =>
              p in t.net.peers
              && (t.net.peers[p].until
                  == if q == p && now < l.until && l.owed.Keys <= m.blocks + m.dontHaves then 0 else l.until)
              && (now < t.net.peers[p].until ==>
                    (t.net.peers[p].probation <==> l.probation || (q == p && m.blocks != {})))
  {
    match e
    case Check(_, _, _, later) =>
      if later < s.net.peers[p].until {
        CheckEarly(s, e, p);
      }
    case Received(q, m, now) => MessageEarly(s, q, m, now, p);
    case _ =>
  }

  lemma CheckEarly(s: Sys, e: Event, p: Peer)
    requires Inv(s) && Enabled(s, e) && e.Check? && p in s.net.peers && e.later < s.net.peers[p].until
    ensures p in Step(s, e).net.peers && (PutsOut(s, e, p) || Step(s, e).net.peers[p] == s.net.peers[p])
  {
    WalkOnePeer(Forget(s.net, e.now), e.dry, e.now, false, p);
    if Moves(s.net, e.dry, e.now) {
      StillHeld(Forget(Scan(s.net, e.dry, e.now, false), e.later), e.order, e.later, p);
    }
  }

  lemma MessageEarly(s: Sys, q: Peer, m: Msg, now: Time, p: Peer)
    requires Inv(s) && Enabled(s, Received(q, m, now)) && p in s.net.peers
    ensures var t, l := Step(s, Received(q, m, now)), s.net.peers[p];
            && p in t.net.peers
            && (t.net.peers[p].until
                == if q == p && now < l.until && l.owed.Keys <= m.blocks + m.dontHaves then 0 else l.until)
            && (now < t.net.peers[p].until ==>
                  (t.net.peers[p].probation <==> l.probation || (q == p && m.blocks != {})))
  {
    assert ClientInv(s, q);
    PaidMeans(s.net.peers[q], m);
    AdmitInOne(s.net, q, m, now);
  }

  lemma {:induction false} StillHeld(n: Net, order: seq<Peer>, now: Time, p: Peer)
    requires Order(order, n) && now > 0 && p in n.peers && now < n.peers[p].until
    ensures var r := Walk(n, order, now, true);
            p in r.peers && (p in Given(n, order, now, true, Out) || r.peers[p] == n.peers[p])
    decreases |order|
  {
    if order != [] {
      var q, m, rest := order[0], ScanOne(n, order[0], now, true), order[1..];
      if p == q {
        assert p !in rest;
        WalkOnePeer(m, rest, now, true, p);
        CooldownDoubles(Strikes(n, p) + 1);
      } else {
        assert m.peers[p] == n.peers[p];
        StillHeld(m, rest, now, p);
      }
    }
  }

  /** A new connection starts a ledger, and the client is told. */
  lemma FirstConnection(s: Sys, p: Peer, now: Time)
    requires now >= s.clock && now > 0 && p !in s.net.peers
    ensures var t := Step(s, Connected(p, now));
            && p in t.net.peers && t.net.peers[p].linked && t.net.peers[p].wanted == map[] && t.net.peers[p].until == 0
            && t.net.peers[p].progress == now && t.net.peers[p].lastBlock == 0 && t.net.peers[p].gap == 0
            && p in t.client && p in t.linked
  {
  }

  /** A disconnection ends what p held and was asked, and every offer of p's and nobody else's. */
  lemma DisconnectExactly(s: Sys, p: Peer, now: Time, c: Cid, o: Peer)
    requires Inv(s) && now >= s.clock
    ensures var t := Step(s, Disconnected(p, now));
            && (Offers(t.net.haves, c, o) <==> Offers(s.net.haves, c, o) && o != p)
            && (p in t.net.peers <==> p in s.net.peers)
            && (p in s.net.peers ==>
                  t.net.peers[p] == s.net.peers[p].(linked := false, wanted := map[], asked := {}))
            && p !in t.client && p !in t.linked
  {
    if Offers(s.net.haves, c, p) {
      assert OfferInv(s.net, c, p, s.clock);
    }
  }

  // ---- a delivery is progress ----

  /** p's ledger, if it has one, has seen progress at t or later. */
  predicate Progressed(s: Sys, p: Peer, t: Time) {
    p in s.net.peers ==> s.net.peers[p].progress >= t
  }

  lemma StepProgressed(s: Sys, e: Event, p: Peer, t: Time)
    requires Inv(s) && Enabled(s, e) && Progressed(s, p, t) && s.clock >= t
    ensures Progressed(Step(s, e), p, t) && Step(s, e).clock >= t
  {
    match e
    case Received(q, m, now) =>
      assert ClientInv(s, q);
      DeliveredExactly(s.net, q, m, now);
      ReceivedExactly(s.net, q, m, now, 0, p);
    case Check(dry, now, order, later) =>
      WalkOnePeer(Forget(s.net, now), dry, now, false, p);
      if Moves(s.net, dry, now) {
        WalkOnePeer(Forget(Scan(s.net, dry, now, false), later), order, later, true, p);
      }
    case _ =>
  }

  lemma {:induction false} RunProgressed(s: Sys, es: seq<Event>, p: Peer, t: Time)
    requires Inv(s) && RunOk(s, es) && Progressed(s, p, t) && s.clock >= t
    ensures Inv(Run(s, es)) && Progressed(Run(s, es), p, t)
    decreases |es|
  {
    if es != [] {
      StepProgressed(s, es[0], p, t);
      StepKeepsInv(s, es[0]);
      RunProgressed(Step(s, es[0]), es[1..], p, t);
    }
  }

  /** A peer that delivers at t is put out by no check before t + AFTER, whatever happens in between. */
  lemma DeliverySpares(s: Sys, p: Peer, m: Msg, t: Time, es: seq<Event>, e: Event)
    requires Inv(s) && Enabled(s, Received(p, m, t)) && m.blocks != {}
    requires RunOk(Step(s, Received(p, m, t)), es)
    requires var u := Run(Step(s, Received(p, m, t)), es); Enabled(u, e) && e.Check? && e.later < t + 3_000_000_000
    ensures !PutsOut(Run(Step(s, Received(p, m, t)), es), e, p)
  {
    var r := Step(s, Received(p, m, t));
    assert ClientInv(s, p);
    DeliveredExactly(s.net, p, m, t);
    StepKeepsInv(s, Received(p, m, t));
    RunProgressed(r, es, p, t);
    var u := Run(r, es);
    if PutsOut(u, e, p) {
      var f, n := Forget(u.net, e.now), Scan(u.net, e.dry, e.now, false);
      WalkOnePeer(f, e.dry, e.now, false, p);
      WalkOnePeer(Forget(n, e.later), e.order, e.later, true, p);
      assert false;
    }
  }

  /** A message from p, held, denies a block it had promised. */
  predicate DeniesNow(s: Sys, e: Event, p: Peer) {
    e.Received? && e.p == p && p in s.net.peers && Held(s.net.peers[p], e.now) && Denies(s.net.peers[p], e.m)
  }

  predicate HeldAt(s: Sys, p: Peer) {
    p in s.net.peers && s.net.peers[p].until != 0
  }

  /** The run lies within one stint of p out or on probation. */
  predicate Stint(s: Sys, es: seq<Event>, p: Peer)
    requires RunOk(s, es)
    decreases |es|
  {
    es == [] || (HeldAt(Step(s, es[0]), p) && !PutsOut(s, es[0], p) && Stint(Step(s, es[0]), es[1..], p))
  }

  /** Some message of the run denies a block p had promised. */
  predicate DeniesIn(s: Sys, es: seq<Event>, p: Peer)
    requires RunOk(s, es)
    decreases |es|
  {
    es != [] && (DeniesNow(s, es[0], p) || DeniesIn(Step(s, es[0]), es[1..], p))
  }

  lemma DeniedByCheck(s: Sys, e: Event, p: Peer)
    requires Inv(s) && Enabled(s, e) && e.Check? && HeldAt(s, p) && HeldAt(Step(s, e), p) && !PutsOut(s, e, p)
    ensures Step(s, e).net.peers[p].denied <==> s.net.peers[p].denied
  {
    WalkOnePeer(Forget(s.net, e.now), e.dry, e.now, false, p);
    if Moves(s.net, e.dry, e.now) {
      WalkOnePeer(Forget(Scan(s.net, e.dry, e.now, false), e.later), e.order, e.later, true, p);
    }
  }

  lemma DeniedByStep(s: Sys, e: Event, p: Peer)
    requires Inv(s) && Enabled(s, e) && HeldAt(s, p) && HeldAt(Step(s, e), p) && !PutsOut(s, e, p)
    ensures Step(s, e).net.peers[p].denied <==> s.net.peers[p].denied || DeniesNow(s, e, p)
  {
    match e
    case Check(_, _, _, _) => DeniedByCheck(s, e, p);
    case Received(_, _, _) => DeniedByMessage(s, e, p);
    case _ =>
  }

  lemma DeniedByMessage(s: Sys, e: Event, p: Peer)
    requires Inv(s) && Enabled(s, e) && e.Received? && HeldAt(s, p) && HeldAt(Step(s, e), p)
    ensures Step(s, e).net.peers[p].denied <==> s.net.peers[p].denied || DeniesNow(s, e, p)
  {
    assert ClientInv(s, e.p);
    AdmitDenies(s.net, e.p, e.m, e.now);
  }

  lemma AdmitDenies(n: Net, p: Peer, m: Msg, now: Time)
    requires p in n.peers
    ensures var l := Admit(n, p, m, now).net.peers[p];
            l.denied <==> n.peers[p].denied || (Held(n.peers[p], now) && Denies(n.peers[p], m))
    ensures forall o :: o in n.peers && o != p ==> Admit(n, p, m, now).net.peers[o] == n.peers[o]
  {
    AdmitInOne(n, p, m, now);
  }

  lemma {:induction false} DeniedInStint(s: Sys, es: seq<Event>, p: Peer)
    requires Inv(s) && RunOk(s, es) && HeldAt(s, p) && Stint(s, es, p)
    ensures HeldAt(Run(s, es), p) && Inv(Run(s, es))
    ensures Run(s, es).net.peers[p].denied <==> s.net.peers[p].denied || DeniesIn(s, es, p)
    decreases |es|
  {
    if es != [] {
      DeniedByStep(s, es[0], p);
      StepKeepsInv(s, es[0]);
      DeniedInStint(Step(s, es[0]), es[1..], p);
    }
  }

  lemma PutOutUndenied(s: Sys, e: Event, p: Peer)
    requires Inv(s) && Enabled(s, e) && PutsOut(s, e, p)
    ensures HeldAt(Step(s, e), p) && !Step(s, e).net.peers[p].denied
  {
    WalkOnePeer(Forget(Scan(s.net, e.dry, e.now, false), e.later), e.order, e.later, true, p);
  }

  /** From the check that puts a peer out to the end of its stint, denied is exactly whether some message of the stint
      denied a block it had promised. */
  lemma DeniedIsHistory(s: Sys, e: Event, es: seq<Event>, p: Peer)
    requires Inv(s) && Enabled(s, e) && PutsOut(s, e, p) && RunOk(Step(s, e), es) && HeldAt(Step(s, e), p)
    requires Stint(Step(s, e), es, p)
    ensures HeldAt(Run(Step(s, e), es), p)
    ensures Run(Step(s, e), es).net.peers[p].denied <==> DeniesIn(Step(s, e), es, p)
  {
    StepKeepsInv(s, e);
    PutOutUndenied(s, e, p);
    DeniedInStint(Step(s, e), es, p);
  }

  /** And when it settles all it owed, its record stays exactly if some message of the stint, the last included,
      denied a promised block. */
  lemma SettlingClearsTheRecord(s: Sys, e: Event, es: seq<Event>, p: Peer, m: Msg, now: Time)
    requires Inv(s) && Enabled(s, e) && PutsOut(s, e, p) && RunOk(Step(s, e), es) && HeldAt(Step(s, e), p)
    requires Stint(Step(s, e), es, p) && Enabled(Run(Step(s, e), es), Received(p, m, now))
    requires HeldAt(Run(Step(s, e), es), p)
    requires var l := Run(Step(s, e), es).net.peers[p]; now < l.until && l.owed.Keys <= m.blocks + m.dontHaves
    ensures var t := Run(Step(s, e), es);
            p in Step(t, Received(p, m, now)).net.records <==>
              DeniesIn(Step(s, e), es, p) || DeniesNow(t, Received(p, m, now), p)
  {
    StepKeepsInv(s, e);
    DeniedIsHistory(s, e, es, p);
    RunKeepsInv(Step(s, e), es);
    var l := Run(Step(s, e), es).net.peers[p];
    assert RecordInv(Run(Step(s, e), es).net, p, Run(Step(s, e), es).clock);
    PaidMeans(l, m);
  }

  /** A peer's patience stays within its two bounds, and is three of its own intervals between them. */
  lemma HoldBounds(l: Ledger)
    ensures AFTER <= Hold(l) <= MAX_HOLD
    ensures AFTER <= 3 * l.gap <= MAX_HOLD ==> Hold(l) == 3 * l.gap
    ensures 3 * l.gap < AFTER ==> Hold(l) == AFTER
    ensures 3 * l.gap > MAX_HOLD ==> Hold(l) == MAX_HOLD
  {
  }
}
