/** The quarantine as the source writes it (quarantine.go): maps updated in place, with loops over them. Every method is
    proved equal to its step in Quarantine, whatever order Go's maps are walked in. */
module QuarantineNet {
  import opened Bytes
  import opened Options
  import opened Quarantine
  import opened Sets

  lemma DropOneMore(h: Haves, done: set<Cid>, c: Cid, p: Peer)
    ensures DropOffers(DropOffers(h, done, p), {c}, p) == DropOffers(h, done + {c}, p)
  {
    var a, b := DropOffers(DropOffers(h, done, p), {c}, p), DropOffers(h, done + {c}, p);
    assert a.Keys == b.Keys;
    forall k | k in a ensures a[k] == b[k] {
      assert (h[k] - {p}) - {p} == h[k] - {p};
    }
  }

  lemma AddOneMore(h: Haves, done: set<Cid>, c: Cid, p: Peer)
    ensures AddOffers(h, done, p)[c := (if c in AddOffers(h, done, p) then AddOffers(h, done, p)[c] else {}) + {p}]
            == AddOffers(h, done + {c}, p)
  {
    var a := AddOffers(h, done, p);
    var b, r := a[c := (if c in a then a[c] else {}) + {p}], AddOffers(h, done + {c}, p);
    assert b.Keys == r.Keys;
    forall k | k in b ensures b[k] == r[k] {
    }
  }

  lemma AddNone(h: Haves, p: Peer)
    ensures AddOffers(h, {}, p) == h
  {
    var a := AddOffers(h, {}, p);
    assert a.Keys == h.Keys;
    forall k | k in h ensures a[k] == h[k] {
      assert a[k] == h[k] + {};
    }
  }

  lemma WantedSince(w: map<Cid, Time>, before: map<Cid, Time>, keys: set<Cid>, now: Time)
    requires w.Keys == keys && forall c :: c in w ==> w[c] == if c in before then before[c] else now
    ensures w == map c | c in keys :: if c in before then before[c] else now
  {
    var all := map c | c in keys :: if c in before then before[c] else now;
    assert w.Keys == all.Keys;
    assert forall c :: c in all ==> all[c] == w[c];
  }

  /** got, and what the walk of rest from m gives verdict v, is what the whole walk of order from n gives it. */
  ghost predicate GotSoFar(n: Net, order: seq<Peer>, m: Net, rest: seq<Peer>, now: Time, apply: bool,
                           v: Verdict, got: set<Peer>)
  {
    && Order(order, n) && Order(rest, m)
    && got + Given(m, rest, now, apply, v) == Given(n, order, now, apply, v)
  }

  lemma OrderLeft(m: Net, order: seq<Peer>, i: nat, now: Time, apply: bool)
    requires i < |order| && Order(order[i..], m)
    ensures order[i] in m.peers && Order(order[i + 1..], ScanOne(m, order[i], now, apply))
    ensures Walk(m, order[i..], now, apply) == Walk(ScanOne(m, order[i], now, apply), order[i + 1..], now, apply)
  {
    var here, rest := order[i..], order[i + 1..];
    assert here[0] == order[i] && here[1..] == rest;
    assert forall j :: 0 <= j < |rest| ==> rest[j] == here[j + 1];
  }

  lemma OneMore(n: Net, order: seq<Peer>, m: Net, i: nat, now: Time, apply: bool, v: Verdict, got: set<Peer>)
    requires i < |order| && GotSoFar(n, order, m, order[i..], now, apply, v, got)
    ensures order[i] in m.peers
    ensures GotSoFar(n, order, ScanOne(m, order[i], now, apply), order[i + 1..], now, apply, v,
                     if Judge(m, order[i], now) == v then got + {order[i]} else got)
  {
    OrderLeft(m, order, i, now, apply);
    assert order[i..][0] == order[i] && order[i..][1..] == order[i + 1..];
  }

  class Quarantined {
    var peers: map<Peer, Ledger>
    var records: map<Peer, Record>
    var haves: Haves
    var client: set<Peer>          // the peers the client was last told are connected
    ghost var linked: set<Peer>    // the peers the network has connected
    ghost var clock: Time

    ghost function State(): Net
      reads this
    {
      Net(peers, records, haves)
    }

    ghost function System(): Sys
      reads this
    {
      Sys(State(), client, linked, clock)
    }

    constructor (ghost clock: Time)
      ensures System() == Initial(clock)
    {
      peers, records, haves, client, linked := map[], map[], map[], {}, {};
      this.clock := clock;
    }

    function LedgerFor(p: Peer, now: Time): Ledger
      reads this
    {
      if p in peers then peers[p] else NewLedger(now)
    }

    method ForgetHave(c: Cid, p: Peer)
      modifies this`haves
      ensures haves == DropOffers(old(haves), {c}, p)
    {
      if c in haves {
        var who := haves[c] - {p};
        haves := if who == {} then haves - {c} else haves[c := who];
      }
      assert haves.Keys == DropOffers(old(haves), {c}, p).Keys;
    }

    method DropAsked(p: Peer, asked: set<Cid>)
      modifies this`haves
      ensures haves == DropOffers(old(haves), asked, p)
    {
      var left := asked;
      ghost var done: set<Cid> := {};
      assert DropOffers(haves, {}, p) == haves;
      while left != {}
        invariant asked == left + done && left !! done
        invariant haves == DropOffers(old(haves), done, p)
        decreases left
      {
        assert AMember(left) in left;
        var c :| c in left;
        DropOneMore(old(haves), done, c, p);
        ForgetHave(c, p);
        left, done := left - {c}, done + {c};
      }
      assert done == asked;
    }

    /** noteSent's loop over the entries of one message. */
    method BookEntries(l0: Ledger, out: bool, m: Msg, now: Time) returns (l: Ledger)
      modifies this`haves
      ensures haves == old(haves) - Cancels(m)
      ensures l == l0.(wanted := l.wanted, asked := (l0.asked - Cancels(m)) + (m.wants.Keys - Cancels(m)))
      ensures l.wanted == map c | c in (l0.wanted.Keys - Cancels(m)) + (if out then {} else WantBlocks(m)) ::
                            if c in l0.wanted then l0.wanted[c] else now
    {
      var wanted, asked := l0.wanted, l0.asked;
      ghost var cancels, more := Cancels(m), if out then {} else WantBlocks(m);
      var left := m.wants.Keys;
      ghost var done: set<Cid> := {};
      while left != {}
        invariant m.wants.Keys == left + done && left !! done
        invariant wanted.Keys == (l0.wanted.Keys - cancels * done) + more * done
        invariant forall c :: c in wanted ==> wanted[c] == if c in l0.wanted then l0.wanted[c] else now
        invariant asked == (l0.asked - cancels * done) + (done - cancels)
        invariant haves == old(haves) - cancels * done
        decreases left
      {
        assert AMember(left) in left;
        var c :| c in left;
        if m.wants[c].CancelEntry? {
          wanted, asked := wanted - {c}, asked - {c};
          haves := haves - {c};
        } else {
          asked := asked + {c};
          if c !in wanted && m.wants[c].block && !out {
            wanted := wanted[c := now];
          }
        }
        left, done := left - {c}, done + {c};
      }
      assert done == m.wants.Keys && cancels * done == cancels && more * done == more;
      WantedSince(wanted, l0.wanted, (l0.wanted.Keys - cancels) + more, now);
      l := l0.(wanted := wanted, asked := asked);
    }

    /** noteSent. */
    method NoteMessage(p: Peer, m: Msg, now: Time)
      modifies this`peers, this`haves
      ensures State() == NoteSent(old(State()), p, m, now)
    {
      if m.wants == map[] {
        return;
      }
      var l := LedgerFor(p, now);
      var out := OutAt(l, now);
      if m.full {
        DropAsked(p, l.asked);
        l := l.(wanted := map[], asked := {});
      }
      l := BookEntries(l, out, m, now);
      peers := peers[p := l];
    }

    /** A message's blocks settle those blocks with everybody, its DONT_HAVEs with p. */
    method BookAnswers(p: Peer, l0: Ledger, m: Msg) returns (l: Ledger)
      modifies this`haves
      ensures l == l0.(wanted := l0.wanted - m.blocks - m.dontHaves, asked := l0.asked - m.blocks - m.dontHaves)
      ensures haves == DropOffers(old(haves) - m.blocks, m.dontHaves, p)
    {
      l := l0;
      var left := m.blocks;
      ghost var done: set<Cid> := {};
      while left != {}
        invariant m.blocks == left + done && left !! done
        invariant l == l0.(wanted := l0.wanted - done, asked := l0.asked - done) && haves == old(haves) - done
        decreases left
      {
        assert AMember(left) in left;
        var c :| c in left;
        l := l.(wanted := l.wanted - {c}, asked := l.asked - {c});
        haves := haves - {c};
        left, done := left - {c}, done + {c};
      }
      assert done == m.blocks;
      ghost var l1, h1 := l, haves;
      left, done := m.dontHaves, {};
      assert DropOffers(h1, {}, p) == h1;
      while left != {}
        invariant m.dontHaves == left + done && left !! done
        invariant l == l1.(wanted := l1.wanted - done, asked := l1.asked - done) && haves == DropOffers(h1, done, p)
        decreases left
      {
        assert AMember(left) in left;
        var c :| c in left;
        l := l.(wanted := l.wanted - {c}, asked := l.asked - {c});
        DropOneMore(h1, done, c, p);
        ForgetHave(c, p);
        left, done := left - {c}, done + {c};
      }
      assert done == m.dontHaves;
    }

    /** A message's HAVEs, of what p is still asked for. */
    method BookHaves(p: Peer, l: Ledger, offered: set<Cid>)
      modifies this`haves
      ensures haves == AddOffers(old(haves), offered * l.asked, p)
    {
      var left := offered;
      ghost var done: set<Cid> := {};
      AddNone(haves, p);
      assert done * l.asked == {};
      while left != {}
        invariant offered == left + done && left !! done
        invariant haves == AddOffers(old(haves), done * l.asked, p)
        decreases left
      {
        assert AMember(left) in left;
        var c :| c in left;
        if c in l.asked {
          AddOneMore(old(haves), done * l.asked, c, p);
          haves := haves[c := (if c in haves then haves[c] else {}) + {p}];
          assert (done + {c}) * l.asked == done * l.asked + {c};
        } else {
          assert (done + {c}) * l.asked == done * l.asked;
        }
        left, done := left - {c}, done + {c};
      }
      assert done == offered;
    }

    /** noteReceived, on the ledger at hand. */
    method NoteAnswers(p: Peer, l0: Ledger, m: Msg, now: Time)
      modifies this`peers, this`haves
      ensures State() == NoteReceived(old(State()), p, l0, m, now)
    {
      var l := BookAnswers(p, l0, m);
      BookHaves(p, l, m.haves);
      if m.blocks != {} {
        var d := now - l.lastBlock;
        if l.lastBlock != 0 && d < MAX_HOLD {
          l := l.(gap := if l.gap == 0 then d else (3 * l.gap + d) / 4);
        }
        l := l.(progress := now, lastBlock := now);
      }
      peers := peers[p := l];
    }

    /** admit. */
    method AdmitMessage(p: Peer, m: Msg, now: Time) returns (fwd: Option<Msg>, announce: bool)
      modifies this`peers, this`records, this`haves
      ensures Admitted(State(), fwd, announce) == Admit(old(State()), p, m, now)
    {
      var l := LedgerFor(p, now);
      if !Held(l, now) {
        NoteAnswers(p, l, m, now);
        return Some(m), false;
      }
      var owed, denied := l.owed - m.blocks, l.denied;
      var left := m.dontHaves;
      ghost var done: set<Cid> := {};
      while left != {}
        invariant m.dontHaves == left + done && left !! done
        invariant owed == l.owed - m.blocks - done
        invariant denied <==> l.denied || exists c :: c in done && c !in m.blocks && c in l.owed && l.owed[c]
        decreases left
      {
        assert AMember(left) in left;
        var c :| c in left;
        if c in owed {
          denied := denied || owed[c];
          owed := owed - {c};
        }
        left, done := left - {c}, done + {c};
      }
      assert done == m.dontHaves;
      var wasOut, delivered := !l.probation, m.blocks != {};
      l := l.(owed := owed, denied := denied);
      assert l == Booked(LedgerOf(old(State()), p, now), m);
      if l.owed == map[] {
        l := l.(until := 0, probation := false);
        if !l.denied {
          records := records - {p};
        }
        NoteAnswers(p, l, m, now);
        return Some(m), wasOut && l.linked;
      }
      if wasOut && !delivered {
        peers := peers[p := l];
        if m.wants == map[] {
          return None, false;
        }
        return Some(WantsOnly(m)), false;
      }
      announce := wasOut && l.linked;
      var f := WithoutHaves(m);
      NoteAnswers(p, l.(probation := true), f, now);
      fwd := if f.blocks == {} && f.dontHaves == {} && f.wants == map[] then None else Some(f);
    }

    /** offeredElsewhere. */
    method OfferedByAnother(c: Cid, p: Peer) returns (offered: bool)
      ensures offered <==> OfferedElsewhere(haves, c, p)
    {
      if c !in haves {
        return false;
      }
      var left := haves[c];
      while left != {}
        invariant left <= haves[c] && forall o :: o in haves[c] && o !in left ==> o == p
        decreases left
      {
        assert AMember(left) in left;
        var o :| o in left;
        if o != p {
          return true;
        }
        left := left - {o};
      }
      return false;
    }

    /** Does p sit on a want-block that another peer offers? The walk of its wants. */
    method Sits(p: Peer, l: Ledger, now: Time) returns (sits: bool)
      ensures sits <==> SitsOnWants(State(), p, l, now)
    {
      var hold := Hold(l);
      if OutAt(l, now) || l.wanted == map[] || now - l.progress < hold {
        return false;
      }
      var held, offered := 0, false;
      var left := l.wanted.Keys;
      ghost var done: set<Cid> := {};
      while left != {}
        invariant l.wanted.Keys == left + done && left !! done
        invariant held == 0 ==> forall c :: c in done ==> now - l.wanted[c] < hold
        invariant held >= 0
        invariant offered <==> exists c :: c in done && now - l.wanted[c] >= hold && OfferedElsewhere(haves, c, p)
        decreases left
      {
        assert AMember(left) in left;
        var c :| c in left;
        if now - l.wanted[c] >= hold {
          held := held + 1;
          if !offered {
            offered := OfferedByAnother(c, p);
          }
        }
        left, done := left - {c}, done + {c};
      }
      assert done == l.wanted.Keys;
      return held != 0 && offered;
    }

    /** What p owes once out: every want-block it holds, and whether it had said HAVE. */
    method Debt(p: Peer, l: Ledger) returns (owed: map<Cid, bool>)
      ensures owed == l.owed + map c | c in l.wanted :: Offers(haves, c, p)
    {
      owed := l.owed;
      var left := l.wanted.Keys;
      ghost var done: set<Cid> := {};
      while left != {}
        invariant l.wanted.Keys == left + done && left !! done
        invariant owed == l.owed + map c | c in done :: Offers(haves, c, p)
        decreases left
      {
        assert AMember(left) in left;
        var c :| c in left;
        owed := owed[c := Offers(haves, c, p)];
        left, done := left - {c}, done + {c};
      }
      assert done == l.wanted.Keys;
      assert (map c | c in done :: Offers(haves, c, p)) == map c | c in l.wanted :: Offers(haves, c, p);
    }

    method TakeOut(p: Peer, now: Time)
      requires p in peers
      modifies this`peers, this`records, this`haves
      ensures State() == PutOut(old(State()), p, now)
    {
      var l := peers[p];
      var strikes := 1 + if p in records then records[p].strikes else 0;
      records := records[p := Record(strikes, now)];
      var cool := Wrap64(COOL * Pow2(strikes - 1));
      if cool > MAX_COOL || cool <= 0 {
        cool := MAX_COOL;
      }
      var owed := Debt(p, l);
      DropAsked(p, l.asked);
      peers := peers[p := l.(until := now + cool, probation := false, denied := false,
                             owed := owed, wanted := map[], asked := {})];
    }

    method ForgetRecords(now: Time)
      modifies this`records
      ensures State() == Forget(old(State()), now)
    {
      var all := records;
      var left := all.Keys;
      while left != {}
        invariant left <= all.Keys
        invariant records == map p | p in all && (p in left || p in Forget(old(State()), now).records) :: all[p]
        decreases left
      {
        assert AMember(left) in left;
        var p :| p in left;
        if now - all[p].last > FORGET && !(p in peers && Held(peers[p], now)) {
          records := records - {p};
        }
        left := left - {p};
      }
    }

    /** The walk of the ledgers after the records'. */
    method WalkLedgers(order: seq<Peer>, now: Time, apply: bool)
      returns (outs: set<Peer>, backs: set<Peer>, ends: set<Peer>)
      requires Order(order, State())
      modifies this`peers, this`records, this`haves
      ensures State() == Walk(old(State()), order, now, apply)
      ensures outs == Given(old(State()), order, now, apply, Out)
      ensures backs == Given(old(State()), order, now, apply, Back)
      ensures ends == Given(old(State()), order, now, apply, Ends)
    {
      outs, backs, ends := {}, {}, {};
      ghost var n := State();
      assert order[0..] == order;
      for i := 0 to |order|
        invariant Order(order[i..], State()) && Walk(State(), order[i..], now, apply) == Walk(n, order, now, apply)
        invariant GotSoFar(n, order, State(), order[i..], now, apply, Out, outs)
        invariant GotSoFar(n, order, State(), order[i..], now, apply, Back, backs)
        invariant GotSoFar(n, order, State(), order[i..], now, apply, Ends, ends)
      {
        var p := order[i];
        OrderLeft(State(), order, i, now, apply);
        OneMore(n, order, State(), i, now, apply, Out, outs);
        OneMore(n, order, State(), i, now, apply, Back, backs);
        OneMore(n, order, State(), i, now, apply, Ends, ends);
        var v := JudgeAndMove(p, now, apply);
        outs := if v == Out then outs + {p} else outs;
        backs := if v == Back then backs + {p} else backs;
        ends := if v == Ends then ends + {p} else ends;
      }
    }

    method JudgeAndMove(p: Peer, now: Time, apply: bool) returns (v: Verdict)
      requires p in peers
      modifies this`peers, this`records, this`haves
      ensures v == Judge(old(State()), p, now) && State() == ScanOne(old(State()), p, now, apply)
    {
      var l := peers[p];
      if !l.linked && !Held(l, now) {
        peers := peers - {p};
        return Dropped;
      }
      if l.until != 0 && !Held(l, now) {
        v := if l.probation then Ends else Back;
        if apply {
          peers := peers[p := l.(until := 0, probation := false, owed := map[])];
        }
        return;
      }
      var sits := Sits(p, l, now);
      if !sits {
        return Stays;
      }
      if apply {
        TakeOut(p, now);
      }
      return Out;
    }

    /** check: a dry scan first; only one that would move somebody goes on to move them, and to tell the client. */
    method CheckLedgers(dry: seq<Peer>, now: Time, order: seq<Peer>, later: Time)
      requires Enabled(System(), Check(dry, now, order, later))
      modifies this
      ensures System() == CheckStep(old(System()), dry, now, order, later)
    {
      ForgetRecords(now);
      var outs, backs, ends := WalkLedgers(dry, now, false);
      clock := now;
      if outs + backs + ends == {} {
        assert !Moves(old(State()), dry, now);
        return;
      }
      ForgetRecords(later);
      outs, backs, ends := WalkLedgers(order, later, true);
      clock := later;
      client := client - outs;
      client := client + backs;
    }

    method ReceiveMessage(p: Peer, m: Msg, now: Time) returns (fwd: Option<Msg>, announce: bool)
      requires Enabled(System(), Received(p, m, now))
      modifies this
      ensures System() == Step(old(System()), Received(p, m, now))
      ensures Admitted(State(), fwd, announce) == Admit(old(State()), p, m, now)
    {
      fwd, announce := AdmitMessage(p, m, now);
      if announce {
        client := client + {p};
      }
      clock := now;
    }

    method PeerConnected(p: Peer, now: Time)
      requires now >= clock
      modifies this
      ensures System() == Step(old(System()), Connected(p, now))
    {
      var l := LedgerFor(p, now).(linked := true);
      peers := peers[p := l];
      var out := OutAt(l, now);
      linked, clock := linked + {p}, now;
      if out {
        return;
      }
      client := client + {p};
    }

    method PeerDisconnected(p: Peer, ghost now: Time)
      requires now >= clock
      modifies this
      ensures System() == Step(old(System()), Disconnected(p, now))
    {
      if p in peers {
        var l := peers[p];
        DropAsked(p, l.asked);
        peers := peers[p := l.(linked := false, wanted := map[], asked := {})];
      }
      client := client - {p};
      linked, clock := linked - {p}, now;
    }
  }
}
