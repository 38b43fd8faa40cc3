/** The provide bookkeeping as the source writes it (provide.go): maps changed in place, records written in batches,
    and the provider called in between. Run with nothing in between, each method is proved to do what its steps in
    Provide do. */
module ProvideNode {
  import opened Options
  import opened Provide
  import opened Sets

  datatype Namespace = Refile | Announced

  /** What the node uses of the sweeping provider. */
  class SweepingProvider {
    var filed: set<Key>
    var queue: set<Key>
    ghost var sent: set<Key>
    var conn: Conn
    var closed: bool

    constructor ()
      ensures filed == {} && queue == {} && sent == {} && conn == Offline && !closed
    {
      filed, queue, sent, conn, closed := {}, {}, {}, Offline, false;
    }

    method StartProviding(force: bool, keys: set<Key>) returns (ok: bool)
      modifies this`filed, this`queue
      ensures ok == !closed
      ensures filed == if ok then old(filed) + keys else old(filed)
      ensures queue == if ok && conn != Offline then old(queue) + (if force then keys else keys - old(filed))
                       else old(queue)
    {
      if closed {
        return false;
      }
      if conn != Offline {
        queue := queue + (if force then keys else keys - filed);
      }
      filed := filed + keys;
      return true;
    }

    method StopProviding(keys: set<Key>) returns (ok: bool)
      modifies this`filed, this`queue, this`sent
      ensures ok == !closed
      ensures filed == (if ok then old(filed) - keys else old(filed))
      ensures queue == (if ok then old(queue) - keys else old(queue))
      ensures sent == (if ok then old(sent) - keys else old(sent))
    {
      if closed {
        return false;
      }
      filed, queue, sent := filed - keys, queue - keys, sent - keys;
      return true;
    }
  }

  class Node {
    var pending: map<Key, bool>
    var unconfirmed: map<Key, Time>
    var handed: set<Key>
    var leftover: Option<set<Key>>
    var seeded: bool
    var wentOffline: bool
    var lostBefore: Time
    var ready: bool
    var installed: bool
    var refile: set<Key>
    var announced: set<Key>
    const provider: SweepingProvider
    ghost var clock: Time
    ghost var wanted: set<Key>
    ghost var voided: set<Key>

    /** The whole state, with op under way. */
    ghost function At(op: Op): State
      reads this, provider
    {
      State(pending, unconfirmed, handed, leftover, seeded, wentOffline, lostBefore, ready, installed, op,
            refile, announced, provider.filed, provider.queue, provider.sent, provider.conn, provider.closed,
            clock, wanted, voided)
    }

    constructor (p: SweepingProvider, ghost now: Time)
      requires p.filed == {} && p.queue == {} && p.sent == {} && p.conn == Offline && !p.closed
      ensures provider == p && At(Idle) == Initial(now)
    {
      pending, unconfirmed, handed, leftover, seeded := map[], map[], {}, None, false;
      wentOffline, lostBefore, ready, installed, refile, announced := false, 0, false, false, {}, {};
      provider, clock, wanted, voided := p, now, {}, {};
    }

    /** setMarks: a batch of records put or deleted, then committed. */
    method SetMarks(ns: Namespace, keys: set<Key>, on: bool)
      modifies this`refile, this`announced
      ensures ns == Refile ==>
                refile == (if on then old(refile) + keys else old(refile) - keys) && announced == old(announced)
      ensures ns == Announced ==>
                announced == (if on then old(announced) + keys else old(announced) - keys) && refile == old(refile)
    {
      if keys == {} {
        return;
      }
      var batch := if ns == Refile then refile else announced;
      var left := keys;
      ghost var done: set<Key> := {};
      ghost var was := batch;
      while left != {}
        invariant keys == left + done && left !! done
        invariant batch == if on then was + done else was - done
        decreases left
      {
        assert AMember(left) in left;
        var k :| k in left;
        batch := if on then batch + {k} else batch - {k};
        left, done := left - {k}, done + {k};
      }
      assert done == keys;
      if ns == Refile {
        refile := batch;
      } else {
        announced := batch;
      }
    }

    method CollectPending() returns (unforced: set<Key>, forced: set<Key>)
      ensures unforced == OfForce(pending, false) && forced == OfForce(pending, true)
    {
      unforced, forced := {}, {};
      var left := pending.Keys;
      ghost var done: set<Key> := {};
      while left != {}
        invariant pending.Keys == left + done && left !! done
        invariant unforced == OfForce(pending, false) * done && forced == OfForce(pending, true) * done
        decreases left
      {
        assert AMember(left) in left;
        var k :| k in left;
        if pending[k] {
          forced := forced + {k};
        } else {
          unforced := unforced + {k};
        }
        left, done := left - {k}, done + {k};
      }
      assert done == pending.Keys;
    }

    method HandUnforced(unforced: set<Key>, forced: set<Key>, track: set<Key>, at: Time) returns (ok: bool)
      modifies provider`filed, provider`queue
      ensures ok ==> At(Flush(FreshHanded, unforced, forced, track, at, {}))
                     == FlushStep(old(At(Flush(Stamped, unforced, forced, track, at, {}))))
      ensures !ok ==> At(Idle) == FlushStep(old(At(Flush(Stamped, unforced, forced, track, at, {}))))
    {
      ok := true;
      assert unforced * {} == {};
      if unforced != {} {
        ok := provider.StartProviding(false, unforced);
      }
    }

    method HandForced(unforced: set<Key>, forced: set<Key>, track: set<Key>, at: Time) returns (ok: bool)
      modifies provider`filed, provider`queue
      ensures ok ==> At(Flush(ForcedHanded, unforced, forced, track, at, {}))
                     == FlushStep(old(At(Flush(FreshHanded, unforced, forced, track, at, {}))))
      ensures !ok ==> At(Idle) == FlushStep(old(At(Flush(FreshHanded, unforced, forced, track, at, {}))))
    {
      ok := true;
      if forced != {} {
        ok := provider.StartProviding(true, forced);
      }
    }

    /** The hand-overs of a flush whose records are written; not ok: the provider is closed. */
    method HandOverAll(unforced: set<Key>, forced: set<Key>, track: set<Key>, at: Time) returns (ok: bool)
      requires at == clock
      modifies provider`filed, provider`queue
      ensures Complete(At(if ok then Flush(ForcedHanded, unforced, forced, track, at, {}) else Idle))
              == Complete(old(At(Flush(Marked, unforced, forced, track, 0, {}))))
    {
      ghost var s := At(Flush(Stamped, unforced, forced, track, at, {}));
      CompleteOne(At(Flush(Marked, unforced, forced, track, 0, {})));
      CompleteOne(s);
      ok := HandUnforced(unforced, forced, track, at);
      if ok {
        CompleteOne(At(Flush(FreshHanded, unforced, forced, track, at, {})));
        ok := HandForced(unforced, forced, track, at);
      }
    }

    /** The rest of a flush that found the provider ready. */
    method HandPending(unforced: set<Key>, forced: set<Key>, at: Time)
      requires at == clock && unforced == OfForce(pending, false) && forced == OfForce(pending, true)
      modifies this`pending, this`unconfirmed, this`refile, this`announced, this`voided, provider`filed, provider`queue
      ensures At(Idle) == Complete(old(At(Flush(Collected, unforced, forced, {}, 0, {}))))
    {
      ghost var s := At(Flush(Collected, unforced, forced, {}, 0, {}));
      CompleteOne(s);
      var track := Unannounced(unforced);
      track := track + forced;
      SetMarks(Refile, track, true);
      assert AdvanceOp(s) == At(Flush(Marked, unforced, forced, track, 0, {}));
      var ok := HandOverAll(unforced, forced, track, at);
      if ok {
        s := At(Flush(ForcedHanded, unforced, forced, track, at, {}));
        Track(unforced, forced, track, at);
        CompleteOne(s);
        CompleteOne(AdvanceOp(s));
        assert At(Idle) == AdvanceOp(AdvanceOp(s));
      }
      CompleteOne(At(Idle));
    }

    /** flushProvides, reading the clock at at. */
    method FlushProvides(r: Reading, at: Time)
      requires at >= clock
      modifies this`ready, this`pending, this`unconfirmed, this`refile, this`announced, this`clock, this`voided
      modifies provider`filed, provider`queue
      ensures At(Idle) == if installed then Complete(BeginFlush(old(At(Idle)).(clock := at), r))
                          else old(At(Idle)).(clock := at)
    {
      clock := at;
      if !installed {
        return;
      }
      ghost var s := At(Idle);
      var unforced, forced := CollectPending();
      assert unforced + forced == pending.Keys;
      if unforced + forced == {} {
        CompleteIdle(s);
        return;
      }
      ReadReadiness(r);
      if !ready {
        assert BeginFlush(s, r) == At(Idle);
        CompleteIdle(At(Idle));
        return;
      }
      assert BeginFlush(s, r) == At(Flush(Collected, unforced, forced, {}, 0, {}));
      HandPending(unforced, forced, at);
    }

    /** providerReady. */
    method ReadReadiness(r: Reading)
      modifies this`ready
      ensures ready == NewReady(old(At(Idle)), r)
    {
      match r
      case Cached =>
      case Fresh => ready := !provider.closed && provider.conn == Online;
      case Failed => ready := false;
    }

    method Unannounced(keys: set<Key>) returns (track: set<Key>)
      ensures track == keys - announced
    {
      track := {};
      var left := keys;
      ghost var done: set<Key> := {};
      while left != {}
        invariant keys == left + done && left !! done
        invariant track == done - announced
        decreases left
      {
        assert AMember(left) in left;
        var k :| k in left;
        if k !in announced {
          track := track + {k};
        }
        left, done := left - {k}, done + {k};
      }
      assert done == keys;
    }

    method TrackPending(track: set<Key>, at: Time) returns (gone: set<Key>)
      modifies this`unconfirmed
      ensures gone == track - pending.Keys - old(unconfirmed).Keys
      ensures unconfirmed == map k | k in old(unconfirmed).Keys + track * pending.Keys ::
                               if k in track && k in pending then at else old(unconfirmed)[k]
    {
      gone := {};
      var left := track;
      ghost var done: set<Key> := {};
      ghost var was := unconfirmed;
      while left != {}
        invariant track == left + done && left !! done
        invariant unconfirmed == map k | k in was.Keys + done * pending.Keys ::
                                   if k in done && k in pending then at else was[k]
        invariant gone == done - pending.Keys - was.Keys
        decreases left
      {
        assert AMember(left) in left;
        var k :| k in left;
        if k in pending {
          unconfirmed := unconfirmed[k := at];
        } else if k !in unconfirmed {
          gone := gone + {k};
        }
        left, done := left - {k}, done + {k};
      }
      assert done == track;
    }

    /** The end of a flush: what is still pending is tracked, and the records of what is not go again. */
    method Track(unforced: set<Key>, forced: set<Key>, track: set<Key>, at: Time)
      modifies this`pending, this`unconfirmed, this`refile, this`announced, this`voided
      ensures At(Idle) == ClearGone(FinishFlush(old(At(Flush(ForcedHanded, unforced, forced, track, at, {})))))
    {
      var gone := TrackPending(track, at);
      pending := pending - unforced - forced;
      SetMarks(Refile, gone, false);
      voided := voided + gone * provider.filed;
    }

    /** The rest of a confirmation whose reading lets it settle. */
    method SettleAndRecord(snap: map<Key, Time>, kept: bool)
      modifies this`unconfirmed, this`pending, this`refile, this`announced
      ensures At(Idle) == Complete(old(At(Read(snap, kept))))
    {
      CompleteOne(At(Read(snap, kept)));
      var settled := SettleAll(snap, kept);
      ghost var s := At(Settled(settled));
      CompleteOne(s);
      SetMarks(Announced, settled, true);
      assert AdvanceOp(s) == At(Recorded(settled));
      CompleteOne(At(Recorded(settled)));
      SetMarks(Refile, settled, false);
      CompleteOne(At(Idle));
    }

    /** confirmUnconfirmed; failed: the stats could not be read. */
    method ConfirmUnconfirmed(failed: bool)
      requires installed
      modifies this`ready, this`unconfirmed, this`pending, this`refile, this`announced
      ensures At(Idle) == if failed then old(At(Idle)) else Complete(BeginConfirm(old(At(Idle))))
    {
      var snap := unconfirmed;
      CompleteOne(At(Idle));
      if snap == map[] || failed {
        return;
      }
      ghost var s := At(Snapped(snap));
      assert BeginConfirm(At(Idle)) == s;
      CompleteOne(s);
      if provider.closed {
        return;
      }
      ready := provider.conn == Online;
      var kept := provider.conn != Offline;
      var drained := provider.queue == {};
      if kept && !drained {
        assert AdvanceOp(s) == At(Idle);
        CompleteOne(At(Idle));
        return;
      }
      assert AdvanceOp(s) == At(Read(snap, kept));
      SettleAndRecord(snap, kept);
    }

    method SettleAll(snap: map<Key, Time>, kept: bool) returns (settled: set<Key>)
      modifies this`unconfirmed, this`pending
      ensures At(Settled(settled)) == Settle(old(At(Read(snap, kept))))
    {
      ghost var t := Settle(At(Read(snap, kept)));
      settled := SettleKeys(snap, kept);
      assert unconfirmed == t.unconfirmed;
      assert settled == t.op.keys;
      assert pending == t.pending;
    }

    method SettleKeys(snap: map<Key, Time>, kept: bool) returns (settled: set<Key>)
      modifies this`unconfirmed, this`pending
      ensures unconfirmed == old(unconfirmed) - snap.Keys
      ensures settled == set k | k in snap && k in old(unconfirmed) && kept && snap[k] > lostBefore
      ensures pending == old(pending) + map k | k in snap.Keys * old(unconfirmed).Keys - settled :: true
    {
      settled := {};
      var left := snap.Keys;
      ghost var done: set<Key> := {};
      ghost var was, before := unconfirmed, pending;
      ghost var back: set<Key> := {};
      while left != {}
        invariant snap.Keys == left + done && left !! done
        invariant unconfirmed == was - done
        invariant settled == set k | k in done && k in was && kept && snap[k] > lostBefore
        invariant back == done * was.Keys - settled && pending == before + map k | k in back :: true
        decreases left
      {
        assert AMember(left) in left;
        var k :| k in left;
        if k in unconfirmed {
          unconfirmed := unconfirmed - {k};
          if kept && snap[k] > lostBefore {
            settled := settled + {k};
          } else {
            pending, back := pending[k := true], back + {k};
          }
        }
        left, done := left - {k}, done + {k};
      }
      assert done == snap.Keys;
    }

    method ForgetKeys(keys: set<Key>)
      modifies this`pending, this`unconfirmed
      ensures pending == old(pending) - keys && unconfirmed == old(unconfirmed) - keys
    {
      var left := keys;
      ghost var done: set<Key> := {};
      while left != {}
        invariant keys == left + done && left !! done
        invariant pending == old(pending) - done && unconfirmed == old(unconfirmed) - done
        decreases left
      {
        assert AMember(left) in left;
        var k :| k in left;
        pending, unconfirmed := pending - {k}, unconfirmed - {k};
        left, done := left - {k}, done + {k};
      }
      assert done == keys;
    }

    /** stopProviding. */
    method StopProviding(keys: set<Key>)
      modifies this`pending, this`unconfirmed, this`refile, this`announced, this`wanted, this`voided
      modifies provider`filed, provider`queue, provider`sent
      ensures At(Idle) == StopKeys(old(At(Idle)), keys)
    {
      ForgetKeys(keys);
      SetMarks(Refile, keys, false);
      SetMarks(Announced, keys, false);
      wanted := wanted - keys;
      TellStopped(keys);
    }

    /** The provider, if there is one, hears that keys are stopped. */
    method TellStopped(keys: set<Key>)
      modifies this`voided, provider`filed, provider`queue, provider`sent
      ensures At(Idle) == if installed then Unprovide(old(At(Idle)), keys)
                          else old(At(Idle)).(voided := old(voided) + keys * provider.filed)
    {
      var ok := false;
      if installed {
        ok := provider.StopProviding(keys);
      }
      voided := if ok then voided - keys else voided + keys * provider.filed;
    }

    method AddPending(keys: set<Key>, force: bool)
      modifies this`pending
      ensures pending == Offered(old(pending), keys, force)
    {
      var left := keys;
      ghost var done: set<Key> := {};
      assert Offered(pending, {}, force) == pending;
      while left != {}
        invariant keys == left + done && left !! done
        invariant pending == Offered(old(pending), done, force)
        decreases left
      {
        assert AMember(left) in left;
        var k :| k in left;
        pending := pending[k := force || (k in pending && pending[k])];
        left, done := left - {k}, done + {k};
      }
      assert done == keys;
    }

    /** offerProvides: a force mark sticks; then a flush. */
    method OfferProvides(keys: set<Key>, force: bool, r: Reading, at: Time)
      requires at >= clock
      modifies this`ready, this`pending, this`unconfirmed, this`refile, this`announced, this`clock, this`voided
      modifies provider`filed, provider`queue
      ensures var s := old(At(Idle)).(pending := Offered(old(pending), keys, force), clock := at);
              At(Idle) == if installed then Complete(BeginFlush(s, r)) else s
    {
      AddPending(keys, force);
      FlushProvides(r, at);
    }

    /** startProviding. */
    method StartProviding(keys: set<Key>, r: Reading, at: Time)
      requires at >= clock
      modifies this`handed, this`wanted
      modifies this`ready, this`pending, this`unconfirmed, this`refile, this`announced, this`clock, this`voided
      modifies provider`filed, provider`queue
      ensures var s := Step(old(At(Idle)), Offer(keys)).(clock := at);
              At(Idle) == if keys == {} then old(At(Idle)) else if installed then Complete(BeginFlush(s, r)) else s
    {
      if keys == {} {
        return;
      }
      handed, wanted := handed + keys, wanted + keys;
      OfferProvides(keys, false, r, at);
    }

    /** The leftovers' records go, then the provider is told. */
    method StopLeftovers(stale: set<Key>)
      requires installed && stale !! handed
      modifies this`pending, this`refile, this`announced, this`voided, provider`filed, provider`queue, provider`sent
      ensures At(Idle) == Complete(old(At(Dropping(stale))))
    {
      ForgetRefiles(stale);
      SetMarks(Announced, stale, false);
      UnprovideLeftovers(stale);
    }

    method ForgetRefiles(stale: set<Key>)
      modifies this`refile, this`announced, this`voided
      ensures Complete(old(At(Dropping(stale)))) == Complete(UnmarkAnnounced(At(Unrefiled(stale))))
    {
      CompleteOne(At(Dropping(stale)));
      SetMarks(Refile, stale, false);
      voided := voided + stale * provider.filed;
      CompleteOne(At(Unrefiled(stale)));
    }

    method UnprovideLeftovers(stale: set<Key>)
      requires installed && stale !! handed
      modifies this`voided, provider`filed, provider`queue, provider`sent
      ensures At(Idle) == Complete(old(At(Unmarked(stale))))
    {
      CompleteOne(At(Unmarked(stale)));
      TellStopped(stale);
      NoneAgain(At(Unprovided(stale)));
    }

    lemma NoneAgain(s: State)
      requires s.op.Unprovided? && s.op.stale !! s.handed
      ensures Complete(s) == s.(op := Idle)
    {
      CompleteOne(s);
      assert s.op.stale * s.handed == {};
      assert Offered(s.pending, {}, true) == s.pending;
      CompleteIdle(s.(op := Idle));
    }

    /** dropLeftovers, nothing handed over meanwhile. */
    method DropLeftovers() returns (dropped: nat)
      modifies this`pending, this`unconfirmed, this`leftover, this`refile, this`announced, this`voided
      modifies provider`filed, provider`queue, provider`sent
      ensures At(Idle) == Complete(BeginDrop(old(At(Idle))))
      ensures dropped == if old(seeded && installed && leftover.Some?) then |old(leftover).value - old(handed)| else 0
    {
      ghost var s := BeginDrop(At(Idle));
      CompleteOne(s);
      if !seeded || !installed || leftover.None? {
        return 0;
      }
      var stale := Forsake(leftover.value);
      leftover := None;
      if stale == {} {
        return 0;
      }
      assert s == At(Dropping(stale));
      StopLeftovers(stale);
      return |stale|;
    }

    /** The leftovers this run has not handed over leave memory. */
    method Forsake(all: set<Key>) returns (stale: set<Key>)
      modifies this`pending, this`unconfirmed
      ensures stale == all - handed && pending == old(pending) - stale && unconfirmed == old(unconfirmed) - stale
    {
      stale := {};
      var left := all;
      ghost var done: set<Key> := {};
      while left != {}
        invariant all == left + done && left !! done
        invariant stale == done - handed && pending == old(pending) - stale && unconfirmed == old(unconfirmed) - stale
        decreases left
      {
        assert AMember(left) in left;
        var k :| k in left;
        if k !in handed {
          stale, pending, unconfirmed := stale + {k}, pending - {k}, unconfirmed - {k};
        }
        left, done := left - {k}, done + {k};
      }
      assert done == all;
    }

    /** restoreRefiles. */
    method RestoreRefiles(r: Reading, at: Time)
      requires at >= clock
      modifies this`ready, this`pending, this`unconfirmed, this`refile, this`announced, this`clock, this`voided
      modifies provider`filed, provider`queue
      ensures var s := old(At(Idle)).(pending := Offered(old(pending), old(refile), true), clock := at);
              At(Idle) == if old(refile) != {} && installed then Complete(BeginFlush(s, r)) else s
    {
      if refile != {} {
        OfferProvides(refile, true, r, at);
      } else {
        clock := at;
        assert Offered(pending, {}, true) == pending;
      }
    }

    /** useProvider, the run's first: its keystore is listed, unless that fails. */
    method UseProvider(listed: bool, r: Reading, at: Time) returns (dropped: nat)
      requires at >= clock && !installed
      modifies this, provider`filed, provider`queue, provider`sent
      ensures var s := Step(old(At(Idle)), Event.UseProvider(listed)).(clock := at);
              At(Idle) == Complete(BeginDrop(if old(refile) != {} then Complete(BeginFlush(s, r)) else s))
    {
      if listed {
        leftover := Some(provider.filed);
      }
      installed := true;
      RestoreRefiles(r, at);
      dropped := DropLeftovers();
    }

    method NoteOffline()
      modifies this`wentOffline
      ensures wentOffline
    {
      wentOffline := true;
    }

    method NoteOnline(now: Time)
      modifies this`wentOffline, this`lostBefore
      ensures !wentOffline && lostBefore == if old(wentOffline) then now else old(lostBefore)
    {
      if wentOffline {
        wentOffline, lostBefore := false, now;
      }
    }
  }
}
