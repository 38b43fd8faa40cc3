/** Handing keys to the sweeping provider (provide.go), across Offline spells, stops and crashes.

    The memory of one run, the node's records on disk, and the provider behind its contract: a durable keystore
    (filed), a volatile queue, and what it has sent since a key was filed. A flush, a confirmation and a dropping of
    leftovers run one call at a time, everything else between their calls; a crash may come anywhere. Times are clock
    readings, 0 the zero time; two readings may be equal. */
module Provide {
  import opened Options

  type Key = int
  type Time = int

  datatype Conn = Online | Disconnected | Offline

  /** How far a flush has come: its marks written, its time read, its two hand-overs made. */
  datatype Stage = Collected | Marked | Stamped | FreshHanded | ForcedHanded

  /** What is under way. stopped: the keys of the flush that were stopped since it read pending. */
  datatype Op =
    | Idle
    | Flush(stage: Stage, unforced: set<Key>, forced: set<Key>, track: set<Key>, at: Time, stopped: set<Key>)
    | Clearing(gone: set<Key>)
    | Snapped(snap: map<Key, Time>)
    | Read(snap: map<Key, Time>, kept: bool)
    | Settled(keys: set<Key>)
    | Recorded(keys: set<Key>)
    | Dropping(stale: set<Key>)
    | Unrefiled(stale: set<Key>)
    | Unmarked(stale: set<Key>)
    | Unprovided(stale: set<Key>)

  datatype State = State(
    // the run's memory
    pending: map<Key, bool>,       // to hand over; true: forced
    unconfirmed: map<Key, Time>,   // handed over, and when
    handed: set<Key>,              // everything the app handed over in this run
    leftover: Option<set<Key>>,    // the keystore as this run found it
    seeded: bool,
    wentOffline: bool,
    lostBefore: Time,
    ready: bool,                   // the last readiness reading
    installed: bool,
    op: Op,
    // disk
    refile: set<Key>,
    announced: set<Key>,
    // the provider
    filed: set<Key>,
    queue: set<Key>,
    sent: set<Key>,                // sent since filed
    conn: Conn,
    closed: bool,
    clock: Time,
    // history
    wanted: set<Key>,              // handed over by the app in this run and not stopped since
    voided: set<Key>)              // records cleared while the keystore held the key, and it still does

  datatype Reading = Cached | Fresh | Failed

  datatype Event =
    | Tick(now: Time)
    | Offer(keys: set<Key>)          // startProviding
    | Stop(keys: set<Key>)           // stopProviding
    | UseProvider(listed: bool)
    | Seeded
    | FlushBegin(reading: Reading)
    | ConfirmBegin
    | DropBegin
    | Advance                        // the next call of what is under way
    | StatsFail
    | GoOffline | GoDisconnected | GoOnline
    | Send(keys: set<Key>)
    | Close
    | Crash(conn: Conn)

  // ---- the provider's contract ----

  /** StartProviding: every key is filed; the new ones (all, when forced) are queued, unless it is Offline. */
  function Hand(s: State, force: bool, keys: set<Key>): State {
    s.(filed := s.filed + keys,
       queue := if s.conn == Offline then s.queue else s.queue + (if force then keys else keys - s.filed))
  }

  /** StopProviding; a closed provider refuses. */
  function Unprovide(s: State, keys: set<Key>): State {
    if s.closed then s.(voided := s.voided + keys * s.filed)
    else s.(filed := s.filed - keys, queue := s.queue - keys, sent := s.sent - keys, voided := s.voided - keys)
  }

  // ---- hand-overs and stops ----

  /** offerProvides, the memory part: a force mark sticks. */
  function Offered(pending: map<Key, bool>, keys: set<Key>, force: bool): map<Key, bool> {
    map k | k in pending.Keys + keys :: (k in pending && pending[k]) || (k in keys && force)
  }

  function StopKeys(s: State, keys: set<Key>): State {
    var t := s.(pending := s.pending - keys, unconfirmed := s.unconfirmed - keys,
                refile := s.refile - keys, announced := s.announced - keys, wanted := s.wanted - keys,
                op := if s.op.Flush? then s.op.(stopped := s.op.stopped + keys * (s.op.unforced + s.op.forced))
                      else s.op);
    if s.installed then Unprovide(t, keys) else t.(voided := t.voided + keys * t.filed)
  }

  /** useProvider: restoreRefiles offers again, forced, what the disk remembers. */
  function Install(s: State, listed: bool): State {
    s.(installed := true, leftover := if listed then Some(s.filed) else s.leftover,
       pending := Offered(s.pending, s.refile, true))
  }

  // ---- flushProvides ----

  function OfForce(pending: map<Key, bool>, force: bool): set<Key> {
    set k | k in pending && pending[k] == force
  }

  function NewReady(s: State, r: Reading): bool {
    match r
    case Cached => s.ready
    case Fresh => !s.closed && s.conn == Online
    case Failed => false
  }

  function BeginFlush(s: State, r: Reading): State {
    if s.pending == map[] then s
    else
      var t := s.(ready := NewReady(s, r));
      if !t.ready then t
      else t.(op := Flush(Collected, OfForce(s.pending, false), OfForce(s.pending, true), {}, 0, {}))
  }

  function MarkRefiles(s: State): State
    requires s.op.Flush?
  {
    var track := (s.op.unforced - s.announced) + s.op.forced;
    s.(refile := s.refile + track, op := s.op.(stage := Marked, track := track))
  }

  /** What was still pending is tracked from now; what was stopped meanwhile is not. */
  function FinishFlush(s: State): State
    requires s.op.Flush?
  {
    var o := s.op;
    s.(unconfirmed := map k | k in s.unconfirmed.Keys + o.track * s.pending.Keys ::
                        if k in o.track && k in s.pending then o.at else s.unconfirmed[k],
       pending := s.pending - o.unforced - o.forced,
       op := Clearing(o.track - s.pending.Keys - s.unconfirmed.Keys))
  }

  /** A hand-over of the flush under way; a key stopped meanwhile is filed all the same. */
  function HandOver(s: State, force: bool, keys: set<Key>, next: Stage): State
    requires s.op.Flush?
  {
    Hand(s, force, keys).(voided := s.voided + keys * s.op.stopped, op := s.op.(stage := next))
  }

  /** Calls left of what is under way, at most. */
  function Left(o: Op): nat {
    match o
    case Idle => 0
    case Flush(stage, _, _, _, _, _) =>
      (match stage
       case Collected => 6
       case Marked => 5
       case Stamped => 4
       case FreshHanded => 3
       case ForcedHanded => 2)
    case Clearing(_) => 1
    case Snapped(_) => 4
    case Read(_, _) => 3
    case Settled(_) => 2
    case Recorded(_) => 1
    case Dropping(_) => 4
    case Unrefiled(_) => 3
    case Unmarked(_) => 2
    case Unprovided(_) => 1
  }

  function Stamp(s: State): State
    requires s.op.Flush?
  {
    s.(op := s.op.(stage := Stamped, at := s.clock))
  }

  function HandUnforced(s: State): State
    requires s.op.Flush?
  {
    if s.op.unforced != {} && s.closed then s.(op := Idle) else HandOver(s, false, s.op.unforced, FreshHanded)
  }

  function HandForced(s: State): State
    requires s.op.Flush?
  {
    if s.op.forced != {} && s.closed then s.(op := Idle) else HandOver(s, true, s.op.forced, ForcedHanded)
  }

  function FlushStep(s: State): (r: State)
    requires s.op.Flush?
    ensures Left(r.op) < Left(s.op)
  {
    match s.op.stage
    case Collected => MarkRefiles(s)
    case Marked => Stamp(s)
    case Stamped => HandUnforced(s)
    case FreshHanded => HandForced(s)
    case ForcedHanded => FinishFlush(s)
  }

  function ClearGone(s: State): State
    requires s.op.Clearing?
  {
    s.(refile := s.refile - s.op.gone, voided := s.voided + s.op.gone * s.filed, op := Idle)
  }

  // ---- confirmUnconfirmed ----

  function BeginConfirm(s: State): State {
    if s.unconfirmed == map[] then s else s.(op := Snapped(s.unconfirmed))
  }

  function ReadStats(s: State): State
    requires s.op.Snapped?
  {
    if s.closed then s.(op := Idle)
    else
      var kept := s.conn != Offline;
      s.(ready := s.conn == Online, op := if kept && s.queue != {} then Idle else Read(s.op.snap, kept))
  }

  function Settle(s: State): State
    requires s.op.Read?
  {
    var live := s.op.snap.Keys * s.unconfirmed.Keys;
    var settled := set k | k in live && s.op.kept && s.op.snap[k] > s.lostBefore;
    s.(unconfirmed := s.unconfirmed - live,
       pending := s.pending + map k | k in live - settled :: true,
       op := Settled(settled))
  }

  function MarkAnnounced(s: State): State
    requires s.op.Settled?
  {
    s.(announced := s.announced + s.op.keys, op := Recorded(s.op.keys))
  }

  function ClearRefiles(s: State): State
    requires s.op.Recorded?
  {
    s.(refile := s.refile - s.op.keys, op := Idle)
  }

  // ---- dropLeftovers ----

  function BeginDrop(s: State): State {
    if !s.seeded || !s.installed || s.leftover.None? then s
    else
      var stale := s.leftover.value - s.handed;
      s.(pending := s.pending - stale, unconfirmed := s.unconfirmed - stale, leftover := None,
         op := if stale == {} then Idle else Dropping(stale))
  }

  function UnmarkRefiles(s: State): State
    requires s.op.Dropping?
  {
    s.(refile := s.refile - s.op.stale, voided := s.voided + s.op.stale * s.filed, op := Unrefiled(s.op.stale))
  }

  function UnmarkAnnounced(s: State): State
    requires s.op.Unrefiled?
  {
    s.(announced := s.announced - s.op.stale, op := Unmarked(s.op.stale))
  }

  function StopStale(s: State): State
    requires s.op.Unmarked?
  {
    Unprovide(s, s.op.stale).(op := Unprovided(s.op.stale))
  }

  function OfferAgain(s: State): State
    requires s.op.Unprovided?
  {
    s.(pending := Offered(s.pending, s.op.stale * s.handed, true), op := Idle)
  }

  /** The next call of what is under way. */
  function AdvanceOp(s: State): (r: State)
    ensures s.op.Idle? || Left(r.op) < Left(s.op)
  {
    match s.op
    case Idle => s
    case Flush(_, _, _, _, _, _) => FlushStep(s)
    case Clearing(_) => ClearGone(s)
    case Snapped(_) => ReadStats(s)
    case Read(_, _) => Settle(s)
    case Settled(_) => MarkAnnounced(s)
    case Recorded(_) => ClearRefiles(s)
    case Dropping(_) => UnmarkRefiles(s)
    case Unrefiled(_) => UnmarkAnnounced(s)
    case Unmarked(_) => StopStale(s)
    case Unprovided(_) => OfferAgain(s)
  }

  /** What is under way, brought to its end with nothing in between. */
  function Complete(s: State): State
    decreases Left(s.op)
  {
    if s.op.Idle? then s else Complete(AdvanceOp(s))
  }

  // ---- runs ----

  /** The state a process starts in. */
  function Restarted(s: State, conn: Conn): State {
    s.(pending := map[], unconfirmed := map[], handed := {}, leftover := None, seeded := false, wentOffline := false,
       lostBefore := 0, ready := false, installed := false, op := Idle,
       queue := {}, conn := conn, closed := false, wanted := {})
  }

  function Initial(clock: Time): State {
    State(map[], map[], {}, None, false, false, 0, false, false, Idle,
          {}, {}, {}, {}, {}, Offline, false, clock, {}, {})
  }

  /** Keys a flush is to forget, having found them stopped. */
  function Stopping(o: Op): set<Key> {
    match o
    case Flush(_, _, _, _, _, stopped) => stopped
    case Clearing(gone) => gone
    case _ => {}
  }

  /** Keys whose announced records are being written. */
  function Settling(o: Op): set<Key> {
    match o
    case Settled(keys) => keys
    case Recorded(keys) => keys
    case _ => {}
  }

  predicate Enabled(s: State, e: Event) {
    match e
    case Tick(now) => now >= s.clock
    case Offer(keys) => keys !! Stopping(s.op)
    case Stop(keys) => keys !! Settling(s.op)
    case UseProvider(_) => !s.installed && s.op.Idle?
    case Seeded => true
    case FlushBegin(_) => s.installed && s.op.Idle?
    case ConfirmBegin => s.installed && s.op.Idle?
    case DropBegin => s.op.Idle?
    case Advance => !s.op.Idle?
    case StatsFail => s.op.Snapped?
    case GoOffline => !s.closed && s.conn != Offline
    case GoDisconnected => !s.closed && s.conn == Online
    case GoOnline => !s.closed && s.conn != Online
    case Send(keys) => !s.closed && s.conn == Online && keys <= s.filed
    case Close => true
    case Crash(conn) => conn != Online
  }

  function Step(s: State, e: Event): State
    requires Enabled(s, e)
  {
    match e
    case Tick(now) => s.(clock := now)
    case Offer(keys) =>
      s.(pending := Offered(s.pending, keys, false), handed := s.handed + keys, wanted := s.wanted + keys)
    case Stop(keys) => StopKeys(s, keys)
    case UseProvider(listed) => Install(s, listed)
    case Seeded => s.(seeded := true)
    case FlushBegin(r) => BeginFlush(s, r)
    case ConfirmBegin => BeginConfirm(s)
    case DropBegin => BeginDrop(s)
    case Advance => AdvanceOp(s)
    case StatsFail => s.(op := Idle)
    case GoOffline => s.(conn := Offline, queue := {}, wentOffline := true)
    case GoDisconnected => s.(conn := Disconnected)
    case GoOnline =>
      s.(conn := Online, wentOffline := false, lostBefore := if s.wentOffline then s.clock else s.lostBefore)
    case Send(keys) => s.(queue := s.queue - keys, sent := s.sent + keys)
    case Close => s.(closed := true, queue := {})
    case Crash(conn) => Restarted(s, conn)
  }

  predicate RunOk(s: State, es: seq<Event>)
    decreases |es|
  {
    es == [] || (Enabled(s, es[0]) && RunOk(Step(s, es[0]), es[1..]))
  }

  function Run(s: State, es: seq<Event>): State
    requires RunOk(s, es)
    decreases |es|
  {
    if es == [] then s else Run(Step(s, es[0]), es[1..])
  }

  // ---- no filed key is forgotten ----

  /** What is being taken out of memory while its records are still to be cleared. */
  function Leaving(o: Op): set<Key> {
    match o
    case Flush(_, _, _, track, _, stopped) => track * stopped
    case Clearing(gone) => gone
    case Settled(keys) => keys
    case Recorded(keys) => keys
    case Dropping(stale) => stale
    case _ => {}
  }

  predicate Keeping(s: State, k: Key) {
    k in s.pending || k in s.unconfirmed
  }

  /** To be handed over again forced, awaiting confirmation, or in the flush under way. */
  predicate InHand(s: State, k: Key) {
    (k in s.pending && (s.pending[k] || (s.op.Flush? && k in s.op.track))) || k in s.unconfirmed
  }

  function StaleOf(o: Op): set<Key> {
    match o
    case Dropping(stale) => stale
    case Unrefiled(stale) => stale
    case Unmarked(stale) => stale
    case Unprovided(stale) => stale
    case _ => {}
  }

  ghost predicate ClockInv(s: State) {
    && 0 <= s.lostBefore <= s.clock && 0 < s.clock
    && (s.op.Flush? ==> s.op.at <= s.clock)
    && (s.wentOffline ==> s.conn == Offline)
    && (s.conn == Offline && !s.wentOffline ==> !s.ready && !s.op.Flush?)   // not online yet
    && (!s.installed ==> s.op.Idle?)
  }

  /** What holds of a key, in every run. */
  ghost predicate KeyInv(s: State, k: Key) {
    && (k in s.queue || k in s.sent || k in s.voided ==> k in s.filed)
    && (k in s.filed && k !in s.refile && k !in s.announced ==> k in s.voided)
    && (s.installed && !s.closed && k in s.refile ==> InHand(s, k) || k in Leaving(s.op))
    && (k in s.wanted ==> Keeping(s, k) || k in s.announced || k in Settling(s.op))
    && (k in Stopping(s.op) ==> k !in s.wanted)
    && (k in s.wanted || (k in s.pending && !s.pending[k]) ==> k in s.handed)
    && (k in s.unconfirmed || k in Settling(s.op) ==> k in s.refile)
    && (k in s.unconfirmed ==> s.installed && s.unconfirmed[k] <= s.clock && (s.conn == Offline ==> s.wentOffline))
    && (k in StaleOf(s.op) && k in s.wanted ==> k in s.pending)
    && (k in Settling(s.op) + StaleOf(s.op) ==> k !in s.unconfirmed)
  }

  ghost predicate OpInv(s: State, k: Key) {
    match s.op
    case Flush(stage, unforced, forced, track, at, stopped) =>
      && (k in unforced + forced ==> k in s.pending || k in stopped)
      && (k in stopped ==> k !in s.pending && k in unforced + forced)
      && (k in unforced && k in s.pending ==> !s.pending[k])
      && (k in forced && k in s.pending ==> s.pending[k])
      && (stage == Collected ==> k !in track)
      && (stage != Collected ==> (k in track ==> k in unforced + forced)
                                 && (k in forced ==> k in track)
                                 && (k in unforced && k !in track ==> k in s.announced || k in stopped)
                                 && (k in track && k !in stopped ==> k in s.refile))
    case Clearing(gone) => k in gone ==> !Keeping(s, k)
    case Snapped(snap) => k in snap && k in s.unconfirmed ==> snap[k] == s.unconfirmed[k]
    case Read(snap, _) => k in snap && k in s.unconfirmed ==> snap[k] == s.unconfirmed[k]
    case Recorded(keys) => k in keys ==> k in s.announced
    case Unrefiled(stale) => k in stale && k in s.filed ==> k in s.voided
    case Unmarked(stale) => k in stale && k in s.filed ==> k in s.voided
    case _ => true
  }

  ghost predicate Inv(s: State) {
    ClockInv(s) && forall k :: KeyInv(s, k) && OpInv(s, k)
  }

  ghost predicate KeyKept(s: State, k: Key) {
    ClockInv(s) && KeyInv(s, k) && OpInv(s, k)
  }

  // ---- when a filed key is forgotten ----

  /** Filed, and neither record says so: no later run offers it again by itself. */
  predicate Forgotten(s: State, k: Key) {
    k in s.filed && k !in s.refile && k !in s.announced
  }

  /** The step forgets k: a stop nobody hears, the end of a flush or a leftover's unmarking takes its last record, or
      a flush files it after it was stopped. */
  predicate Forgets(s: State, e: Event, k: Key) {
    match e
    case Stop(keys) => k in keys && k in s.filed && (!s.installed || s.closed)
    case Advance =>
      (match s.op
       case Clearing(gone) => k in gone && k in s.filed && k !in s.announced
       case Dropping(stale) => k in stale && k in s.filed && k !in s.announced
       case Unrefiled(stale) => k in stale && k in s.filed && k !in s.refile
       case Flush(stage, unforced, forced, _, _, stopped) =>
         && ((stage == Stamped && k in unforced) || (stage == FreshHanded && k in forced))
         && k in stopped && !s.closed && k !in s.filed && k !in s.refile && k !in s.announced
       case _ => false)
    case _ => false
  }

  /** The step remembers a forgotten k: a flush marks it, or the provider hears that it was stopped. */
  predicate Remembers(s: State, e: Event, k: Key) {
    match e
    case Stop(keys) => k in keys && s.installed && !s.closed
    case Advance =>
      (match s.op
       case Flush(stage, unforced, forced, _, _, _) => stage == Collected && (k in unforced || k in forced)
       case Unmarked(stale) => k in stale && !s.closed
       case _ => false)
    case _ => false
  }

  /** The step clears k's records, or files it after they were cleared, with the keystore left holding it. */
  predicate Voids(s: State, e: Event, k: Key) {
    match e
    case Stop(keys) => k in keys && k in s.filed && (!s.installed || s.closed)
    case Advance =>
      (match s.op
       case Clearing(gone) => k in gone && k in s.filed
       case Dropping(stale) => k in stale && k in s.filed
       case Flush(stage, unforced, forced, _, _, stopped) =>
         && ((stage == Stamped && k in unforced) || (stage == FreshHanded && k in forced))
         && k in stopped && !s.closed
       case _ => false)
    case _ => false
  }

  ghost predicate ForgetsRight(s: State, e: Event, t: State, k: Key) {
    && (Forgotten(t, k) <==> if Forgotten(s, k) then !Remembers(s, e, k) else Forgets(s, e, k))
    && (k !in s.voided ==> (k in t.voided <==> Voids(s, e, k)))
    && (e.Advance? ==> t.wanted == s.wanted)
  }

  // ---- an announced record means sent ----

  /** A hand-over at this time may have been lost to an Offline spell. */
  predicate Stale(s: State, at: Time) {
    s.wentOffline || at <= s.lostBefore
  }

  predicate Live(s: State, k: Key) {
    k in s.queue || k in s.sent
  }

  /** The keys the flush under way has handed over and will track. */
  function HandedBy(o: Op): set<Key> {
    if o.Flush? && o.stage == FreshHanded then o.track * o.unforced
    else if o.Flush? && o.stage == ForcedHanded then o.track
    else {}
  }

  /** The flush under way is still to hand k over unforced. */
  predicate ToHand(s: State, k: Key) {
    s.op.Flush? && s.op.stage != FreshHanded && s.op.stage != ForcedHanded && k in s.op.unforced && k in s.pending
  }

  /** Its next call hands k over unforced, and it will track it. */
  predicate HandsNow(s: State, k: Key) {
    ToHand(s, k) && s.op.stage == Stamped && k in s.op.track && !s.closed
  }

  /** That call takes up, as if new, a key already filed but neither queued nor sent, and no Offline spell that would
      send it back is on or has ended since the flush read its time. */
  predicate Unsafe(s: State, k: Key) {
    HandsNow(s, k) && k in s.filed && !Live(s, k) && !Stale(s, s.op.at)
  }

  /** Every hand-over no Offline spell followed is queued or sent; what a confirmation settles is sent. */
  ghost predicate Sure(s: State, k: Key) {
    && (k in s.announced || k in Settling(s.op) ==> k in s.sent)
    && (!s.closed && k in s.unconfirmed && !Stale(s, s.unconfirmed[k]) ==> Live(s, k))
    && (!s.closed && k in HandedBy(s.op) && k in s.pending && !Stale(s, s.op.at) ==> Live(s, k))
    && (!s.closed && ToHand(s, k) && k in s.filed && k !in s.voided ==> k in s.sent || k in s.unconfirmed)
    && (s.op.Read? && s.op.kept && k in s.op.snap && k in s.unconfirmed && s.op.snap[k] > s.lostBefore ==> k in s.sent)
    && (s.op.Unmarked? && k in s.op.stale ==> k !in s.announced)
  }

  // ---- runs the app keeps clean ----

  /** Leftovers still to be stopped. */
  function ToStop(o: Op): set<Key> {
    if o.Unprovided? then {} else StaleOf(o)
  }

  /** What the app wants, or is to be handed over as new, is no key whose records were cleared while the provider kept
      it. */
  ghost predicate Clean(s: State, k: Key) {
    (k in s.pending && !s.pending[k]) || k in s.wanted ==> k !in s.voided || k in ToStop(s.op) || s.closed
  }

  /** The app does not offer k again once its records were cleared while the provider kept it. */
  predicate CleanOffer(s: State, e: Event, k: Key) {
    e.Offer? && k in e.keys ==> k !in s.voided || k in ToStop(s.op)
  }

  /** What a flush is to hand over as new is not unconfirmed. */
  predicate PlainFlush(s: State, k: Key) {
    ToHand(s, k) ==> k !in s.unconfirmed
  }

  // ---- stopped keys, and leftovers ----

  /** The keys what is under way is about. */
  function InOp(o: Op): set<Key> {
    match o
    case Flush(_, unforced, forced, track, _, _) => unforced + forced + track
    case Settled(keys) => keys
    case Recorded(keys) => keys
    case _ => {}
  }

  /** Nothing of k is left with the node, and nothing under way brings it back. */
  ghost predicate Gone(s: State, k: Key) {
    && k !in s.pending && k !in s.unconfirmed && k !in s.refile && k !in s.announced
    && k !in InOp(s.op) && (k in StaleOf(s.op) ==> k !in s.handed)
  }

  /** k, gone, stays gone; and what the provider had dropped it does not take up again. */
  ghost predicate GoneStays(s: State, e: Event, t: State, k: Key) {
    Gone(s, k) && !(e.Offer? && k in e.keys) ==>
      Gone(t, k) && (k !in s.filed && k !in s.queue ==> k !in t.filed && k !in t.queue)
  }

  /** No dropping begins before the app has listed what it holds, and what is under way changes nothing it goes by. */
  ghost predicate DropsRight(s: State, e: Event, t: State) {
    && (StaleOf(s.op) == {} && !s.seeded ==> StaleOf(t.op) == {} && (t.seeded ==> e.Seeded?))
    && (e.Advance? ==> t.handed == s.handed && t.leftover == s.leftover && t.installed == s.installed)
  }

  // ---- what every step keeps ----

  /** A step from s to t is right for k: it keeps what holds of k in every run, what holds in clean ones, and what
      holds short of an unsafe hand-over; and it forgets k or voids its records exactly when told. */
  ghost predicate Right(s: State, e: Event, t: State, k: Key) {
    && KeyKept(t, k) && ForgetsRight(s, e, t, k)
    && (Clean(s, k) && CleanOffer(s, e, k) ==> Clean(t, k))
    && (Sure(s, k) && !(e.Advance? && Unsafe(s, k)) ==> Sure(t, k))
    && (e.Advance? && PlainFlush(s, k) ==> PlainFlush(t, k))
    && GoneStays(s, e, t, k) && DropsRight(s, e, t)
  }

  lemma MarkRefilesRight(s: State, k: Key)
    requires KeyKept(s, k) && s.op.Flush? && s.op.stage == Collected
    ensures Right(s, Advance, MarkRefiles(s), k)
  {
  }

  lemma StampRight(s: State, k: Key)
    requires KeyKept(s, k) && s.op.Flush? && s.op.stage == Marked
    ensures Right(s, Advance, Stamp(s), k)
  {
  }

  lemma AbortRight(s: State, k: Key)
    requires KeyKept(s, k) && s.op.Flush? && s.closed && (s.op.stage == Stamped || s.op.stage == FreshHanded)
    ensures Right(s, Advance, s.(op := Idle), k)
  {
  }

  lemma HandUnforcedRight(s: State, k: Key)
    requires KeyKept(s, k) && s.op.Flush? && s.op.stage == Stamped
    ensures Right(s, Advance, HandUnforced(s), k)
  {
    if s.op.unforced != {} && s.closed {
      AbortRight(s, k);
    }
  }

  lemma HandForcedRight(s: State, k: Key)
    requires KeyKept(s, k) && s.op.Flush? && s.op.stage == FreshHanded
    ensures Right(s, Advance, HandForced(s), k)
  {
    if s.op.forced != {} && s.closed {
      AbortRight(s, k);
    }
  }

  lemma FinishFlushRight(s: State, k: Key)
    requires KeyKept(s, k) && s.op.Flush? && s.op.stage == ForcedHanded
    ensures Right(s, Advance, FinishFlush(s), k)
  {
  }

  lemma FlushRight(s: State, k: Key)
    requires KeyKept(s, k) && s.op.Flush?
    ensures Right(s, Advance, FlushStep(s), k)
  {
    match s.op.stage
    case Collected => MarkRefilesRight(s, k);
    case Marked => StampRight(s, k);
    case Stamped => HandUnforcedRight(s, k);
    case FreshHanded => HandForcedRight(s, k);
    case ForcedHanded => FinishFlushRight(s, k);
  }

  lemma ClearGoneRight(s: State, k: Key)
    requires KeyKept(s, k) && s.op.Clearing?
    ensures Right(s, Advance, ClearGone(s), k)
  {
  }

  lemma ReadStatsRight(s: State, k: Key)
    requires KeyKept(s, k) && s.op.Snapped?
    ensures Right(s, Advance, ReadStats(s), k)
  {
  }

  lemma SettleRight(s: State, k: Key)
    requires KeyKept(s, k) && s.op.Read?
    ensures Right(s, Advance, Settle(s), k)
  {
  }

  lemma MarkAnnouncedRight(s: State, k: Key)
    requires KeyKept(s, k) && s.op.Settled?
    ensures Right(s, Advance, MarkAnnounced(s), k)
  {
  }

  lemma ClearRefilesRight(s: State, k: Key)
    requires KeyKept(s, k) && s.op.Recorded?
    ensures Right(s, Advance, ClearRefiles(s), k)
  {
  }

  lemma UnmarkRefilesRight(s: State, k: Key)
    requires KeyKept(s, k) && s.op.Dropping?
    ensures Right(s, Advance, UnmarkRefiles(s), k)
  {
  }

  lemma UnmarkAnnouncedRight(s: State, k: Key)
    requires KeyKept(s, k) && s.op.Unrefiled?
    ensures Right(s, Advance, UnmarkAnnounced(s), k)
  {
  }

  lemma StopStaleRight(s: State, k: Key)
    requires KeyKept(s, k) && s.op.Unmarked?
    ensures Right(s, Advance, StopStale(s), k)
  {
  }

  lemma OfferAgainRight(s: State, k: Key)
    requires KeyKept(s, k) && s.op.Unprovided?
    ensures Right(s, Advance, OfferAgain(s), k)
  {
  }

  lemma AdvanceRight(s: State, k: Key)
    requires KeyKept(s, k)
    ensures Right(s, Advance, AdvanceOp(s), k)
  {
    match s.op
    case Idle =>
    case Flush(_, _, _, _, _, _) => FlushRight(s, k);
    case Clearing(_) => ClearGoneRight(s, k);
    case Snapped(_) => ReadStatsRight(s, k);
    case Read(_, _) => SettleRight(s, k);
    case Settled(_) => MarkAnnouncedRight(s, k);
    case Recorded(_) => ClearRefilesRight(s, k);
    case Dropping(_) => UnmarkRefilesRight(s, k);
    case Unrefiled(_) => UnmarkAnnouncedRight(s, k);
    case Unmarked(_) => StopStaleRight(s, k);
    case Unprovided(_) => OfferAgainRight(s, k);
  }

  lemma StopUnheardRight(s: State, keys: set<Key>, k: Key)
    requires KeyKept(s, k) && keys !! Settling(s.op) && (!s.installed || s.closed)
    ensures Right(s, Stop(keys), StopKeys(s, keys), k)
  {
  }

  lemma StopHeardRight(s: State, keys: set<Key>, k: Key)
    requires KeyKept(s, k) && keys !! Settling(s.op) && s.installed && !s.closed
    ensures Right(s, Stop(keys), StopKeys(s, keys), k)
  {
  }

  lemma StopRight(s: State, keys: set<Key>, k: Key)
    requires KeyKept(s, k) && keys !! Settling(s.op)
    ensures Right(s, Stop(keys), StopKeys(s, keys), k)
  {
    if s.installed && !s.closed {
      StopHeardRight(s, keys, k);
    } else {
      StopUnheardRight(s, keys, k);
    }
  }

  lemma InstallRight(s: State, listed: bool, k: Key)
    requires KeyKept(s, k) && !s.installed && s.op.Idle?
    ensures Right(s, UseProvider(listed), Install(s, listed), k)
  {
  }

  lemma BeginFlushRight(s: State, r: Reading, k: Key)
    requires KeyKept(s, k) && s.op.Idle? && s.installed
    ensures Right(s, FlushBegin(r), BeginFlush(s, r), k)
  {
  }

  lemma BeginConfirmRight(s: State, k: Key)
    requires KeyKept(s, k) && s.op.Idle? && s.installed
    ensures Right(s, ConfirmBegin, BeginConfirm(s), k)
  {
  }

  lemma DropStartRight(s: State, k: Key)
    requires KeyKept(s, k) && s.op.Idle? && s.seeded && s.installed && s.leftover.Some?
    ensures Right(s, DropBegin, BeginDrop(s), k)
  {
  }

  lemma BeginDropRight(s: State, k: Key)
    requires KeyKept(s, k) && s.op.Idle?
    ensures Right(s, DropBegin, BeginDrop(s), k)
  {
    if s.seeded && s.installed && s.leftover.Some? {
      DropStartRight(s, k);
    }
  }

  lemma RestartRight(s: State, conn: Conn, k: Key)
    requires KeyKept(s, k) && conn != Online
    ensures Right(s, Crash(conn), Restarted(s, conn), k)
  {
  }

  /** The connection comes and goes. */
  lemma ConnRight(s: State, e: Event, k: Key)
    requires KeyKept(s, k) && Enabled(s, e) && (e.GoOffline? || e.GoDisconnected? || e.GoOnline?)
    ensures Right(s, e, Step(s, e), k)
  {
  }

  lemma ProviderRight(s: State, e: Event, k: Key)
    requires KeyKept(s, k) && Enabled(s, e) && (e.Send? || e.Close?)
    ensures Right(s, e, Step(s, e), k)
  {
  }

  lemma OfferRight(s: State, e: Event, k: Key)
    requires KeyKept(s, k) && Enabled(s, e) && e.Offer?
    ensures Right(s, e, Step(s, e), k)
  {
  }

  lemma StatsFailRight(s: State, k: Key)
    requires KeyKept(s, k) && s.op.Snapped?
    ensures Right(s, StatsFail, s.(op := Idle), k)
  {
  }

  lemma OtherRight(s: State, e: Event, k: Key)
    requires KeyKept(s, k) && Enabled(s, e) && (e.Tick? || e.Seeded?)
    ensures Right(s, e, Step(s, e), k)
  {
  }

  lemma StepRight(s: State, e: Event, k: Key)
    requires KeyKept(s, k) && Enabled(s, e)
    ensures Right(s, e, Step(s, e), k)
  {
    match e
    case StatsFail => StatsFailRight(s, k);
    case Offer(_) => OfferRight(s, e, k);
    case Stop(keys) => StopRight(s, keys, k);
    case UseProvider(listed) => InstallRight(s, listed, k);
    case FlushBegin(r) => BeginFlushRight(s, r, k);
    case ConfirmBegin => BeginConfirmRight(s, k);
    case DropBegin => BeginDropRight(s, k);
    case Advance => AdvanceRight(s, k);
    case GoOffline => ConnRight(s, e, k);
    case GoDisconnected => ConnRight(s, e, k);
    case GoOnline => ConnRight(s, e, k);
    case Send(_) => ProviderRight(s, e, k);
    case Close => ProviderRight(s, e, k);
    case Crash(conn) => RestartRight(s, conn, k);
    case _ => OtherRight(s, e, k);
  }

  lemma StepKeepsInv(s: State, e: Event)
    requires Inv(s) && Enabled(s, e)
    ensures Inv(Step(s, e))
  {
    assert KeyInv(s, 0) && OpInv(s, 0);
    StepRight(s, e, 0);
    forall k ensures KeyInv(Step(s, e), k) && OpInv(Step(s, e), k) {
      assert KeyInv(s, k) && OpInv(s, k);
      StepRight(s, e, k);
    }
  }

  lemma {:induction false} RunKeepsInv(s: State, es: seq<Event>)
    requires Inv(s) && RunOk(s, es)
    ensures Inv(Run(s, es))
    decreases |es|
  {
    if es != [] {
      StepKeepsInv(s, es[0]);
      RunKeepsInv(Step(s, es[0]), es[1..]);
    }
  }

  // ---- no filed key is forgotten but by these steps ----

  /** A step leaves a filed key with neither record exactly when it forgets it, or it was so and the step does not
      remember it. */
  lemma ForgottenExactly(s: State, e: Event, k: Key)
    requires Inv(s) && Enabled(s, e)
    ensures Forgotten(Step(s, e), k) <==> if Forgotten(s, k) then !Remembers(s, e, k) else Forgets(s, e, k)
  {
    assert KeyInv(s, k) && OpInv(s, k);
    StepRight(s, e, k);
  }

  /** A key's records are cleared with the key still filed exactly when it is stopped with no provider to tell or a
      closed one, or while the flush that files it runs, or as a leftover; so the app does not want it, or wants it
      since the dropping of leftovers began, which then offers it again. */
  lemma VoidedOnlyByStopping(s: State, e: Event, k: Key)
    requires Inv(s) && Enabled(s, e) && k !in s.voided
    ensures k in Step(s, e).voided <==> Voids(s, e, k)
    ensures Voids(s, e, k) ==> k !in Step(s, e).wanted || (k in s.pending && k in StaleOf(s.op))
  {
    assert KeyInv(s, k) && OpInv(s, k);
    StepRight(s, e, k);
  }

  /** Whether k is forgotten after the run: it was, or was forgotten in it, and has not been remembered since. */
  predicate LeftForgotten(s: State, es: seq<Event>, k: Key, was: bool)
    requires RunOk(s, es)
    decreases |es|
  {
    if es == [] then was
    else LeftForgotten(Step(s, es[0]), es[1..], k, if was then !Remembers(s, es[0], k) else Forgets(s, es[0], k))
  }

  lemma {:induction false} ForgottenInRun(s: State, es: seq<Event>, k: Key)
    requires Inv(s) && RunOk(s, es)
    ensures Forgotten(Run(s, es), k) <==> LeftForgotten(s, es, k, Forgotten(s, k))
    decreases |es|
  {
    if es != [] {
      StepKeepsInv(s, es[0]);
      ForgottenExactly(s, es[0], k);
      ForgottenInRun(Step(s, es[0]), es[1..], k);
    }
  }

  /** In every run, with crashes anywhere: a filed key has one of its two records, unless some step forgot it and none
      has remembered it since; with a provider installed, every refile record's key is to be handed over or awaits
      confirmation, or its record is about to go; and every key the app wants is to be handed over, awaits
      confirmation, or is known announced. */
  lemma NothingForgotten(clock: Time, es: seq<Event>, k: Key)
    requires clock > 0 && RunOk(Initial(clock), es)
    ensures var s := Run(Initial(clock), es);
            && (k in s.filed && k !in s.announced ==> (k in s.refile <==> !LeftForgotten(Initial(clock), es, k, false)))
            && (LeftForgotten(Initial(clock), es, k, false) ==> Forgotten(s, k) && k in s.voided)
            && (s.installed && !s.closed && k in s.refile ==> Keeping(s, k) || k in Leaving(s.op))
            && (k in s.wanted ==> Keeping(s, k) || k in s.announced || k in Settling(s.op))
  {
    ForgottenInRun(Initial(clock), es, k);
    RunKeepsInv(Initial(clock), es);
    assert KeyInv(Run(Initial(clock), es), k);
  }

  // ---- announced records of unsent keys ----

  /** A step breaks Sure for a key exactly when it is an unsafe hand-over of it. */
  lemma HandOverSureExactly(s: State, e: Event, k: Key)
    requires Inv(s) && Sure(s, k) && Enabled(s, e)
    ensures Sure(Step(s, e), k) <==> !(e.Advance? && Unsafe(s, k))
  {
    assert KeyInv(s, k) && OpInv(s, k);
    StepRight(s, e, k);
    if e.Advance? && Unsafe(s, k) {
      UnsafeBreaks(s, k);
    }
  }

  lemma UnsafeBreaks(s: State, k: Key)
    requires Unsafe(s, k)
    ensures !Sure(AdvanceOp(s), k)
  {
    assert AdvanceOp(s) == HandOver(s, false, s.op.unforced, FreshHanded);
  }

  predicate NeverUnsafe(s: State, es: seq<Event>, k: Key)
    requires RunOk(s, es)
    decreases |es|
  {
    es == [] || (!(es[0].Advance? && Unsafe(s, k)) && NeverUnsafe(Step(s, es[0]), es[1..], k))
  }

  lemma {:induction false} SureInRun(s: State, es: seq<Event>, k: Key)
    requires Inv(s) && RunOk(s, es) && NeverUnsafe(s, es, k) && Sure(s, k)
    ensures Sure(Run(s, es), k)
    decreases |es|
  {
    if es != [] {
      StepKeepsInv(s, es[0]);
      HandOverSureExactly(s, es[0], k);
      SureInRun(Step(s, es[0]), es[1..], k);
    }
  }

  /** In every run without an unsafe hand-over of a key, its announced record, or one being written, means that the
      provider has sent it since it filed it. */
  lemma UnsentOnlyThroughUnsafe(clock: Time, es: seq<Event>, k: Key)
    requires clock > 0 && RunOk(Initial(clock), es) && NeverUnsafe(Initial(clock), es, k)
    ensures var s := Run(Initial(clock), es); k in s.announced || k in Settling(s.op) ==> k in s.sent
  {
    SureInRun(Initial(clock), es, k);
  }

  // ---- what the node can see of it ----

  /** The hand-over restamps no unconfirmed key an Offline spell may have lost, and takes up none whose records were
      cleared while the provider kept it. */
  predicate SafeHandOver(s: State, k: Key) {
    HandsNow(s, k) ==> k !in s.voided && (k in s.unconfirmed ==> !Stale(s, s.unconfirmed[k]))
  }

  predicate SafeRun(s: State, es: seq<Event>, k: Key)
    requires RunOk(s, es)
    decreases |es|
  {
    es == [] || ((es[0].Advance? ==> SafeHandOver(s, k)) && SafeRun(Step(s, es[0]), es[1..], k))
  }

  lemma SafeIsNotUnsafe(s: State, k: Key)
    requires Sure(s, k) && SafeHandOver(s, k)
    ensures !Unsafe(s, k)
  {
  }

  lemma {:induction false} SafeIsNeverUnsafe(s: State, es: seq<Event>, k: Key)
    requires Inv(s) && RunOk(s, es) && SafeRun(s, es, k) && Sure(s, k)
    ensures NeverUnsafe(s, es, k)
    decreases |es|
  {
    if es != [] {
      if es[0].Advance? {
        SafeIsNotUnsafe(s, k);
      }
      StepKeepsInv(s, es[0]);
      HandOverSureExactly(s, es[0], k);
      SafeIsNeverUnsafe(Step(s, es[0]), es[1..], k);
    }
  }

  /** So it is in every run whose hand-overs are all safe by what the node knows: its own unconfirmed times, and what it
      stopped. */
  lemma SafeRunIsSent(clock: Time, es: seq<Event>, k: Key)
    requires clock > 0 && RunOk(Initial(clock), es) && SafeRun(Initial(clock), es, k)
    ensures var s := Run(Initial(clock), es); k in s.announced || k in Settling(s.op) ==> k in s.sent
  {
    SafeIsNeverUnsafe(Initial(clock), es, k);
    UnsentOnlyThroughUnsafe(clock, es, k);
  }

  /** The app offers k only cleanly, and no flush restamps it while unconfirmed after an Offline spell. Re-offers with
      no spell since the hand-over are no restamping. */
  predicate CleanRun(s: State, es: seq<Event>, k: Key)
    requires RunOk(s, es)
    decreases |es|
  {
    es == [] || (
      && CleanOffer(s, es[0], k)
      && (es[0].Advance? && HandsNow(s, k) && k in s.unconfirmed ==> !Stale(s, s.unconfirmed[k]))
      && CleanRun(Step(s, es[0]), es[1..], k))
  }

  lemma {:induction false} CleanRunIsSafe(s: State, es: seq<Event>, k: Key)
    requires Inv(s) && RunOk(s, es) && CleanRun(s, es, k) && Clean(s, k)
    ensures SafeRun(s, es, k) && Clean(Run(s, es), k)
    decreases |es|
  {
    if es != [] {
      assert KeyInv(s, k) && OpInv(s, k);
      StepKeepsInv(s, es[0]);
      StepRight(s, es[0], k);
      CleanRunIsSafe(Step(s, es[0]), es[1..], k);
    }
  }

  /** In every clean run an announced record, or one being written, is of a key the provider has sent since it filed
      it; and a wanted key that is filed has one of the two records, but while its leftover is being stopped. */
  lemma AnnouncedIsSent(clock: Time, es: seq<Event>, k: Key)
    requires clock > 0 && RunOk(Initial(clock), es) && CleanRun(Initial(clock), es, k)
    ensures var s := Run(Initial(clock), es);
            && (k in s.announced || k in Settling(s.op) ==> k in s.sent)
            && (k in s.wanted && k in s.filed && !s.closed ==> k in s.refile || k in s.announced || k in ToStop(s.op))
  {
    CleanRunIsSafe(Initial(clock), es, k);
    SafeRunIsSent(clock, es, k);
    RunKeepsInv(Initial(clock), es);
    assert KeyInv(Run(Initial(clock), es), k);
  }

  // ---- recovery ----

  /** After a crash at any point of any run, the next run's provider is offered a filed, unannounced key again,
      forced, exactly when the key is not forgotten. */
  lemma RestartOffersAgain(s: State, conn: Conn, listed: bool, k: Key)
    requires Inv(s) && conn != Online && k in s.filed && k !in s.announced
    ensures var t := Step(Step(s, Crash(conn)), UseProvider(listed));
            (k in t.pending && t.pending[k]) <==> !Forgotten(s, k)
  {
    assert KeyInv(s, k);
  }

  lemma CompleteIdle(s: State)
    requires s.op.Idle?
    ensures Complete(s) == s
  {
  }

  lemma CompleteOne(s: State)
    ensures Complete(s) == if s.op.Idle? then s else Complete(AdvanceOp(s))
  {
  }

  /** A whole flush up to its last hand-over, online and with nothing in between. */
  function AllHanded(s: State): State {
    var plain, forced := OfForce(s.pending, false), OfForce(s.pending, true);
    var track := (plain - s.announced) + forced;
    s.(ready := true, refile := s.refile + track, filed := s.filed + plain + forced,
       queue := s.queue + (plain - s.filed) + forced, op := Flush(ForcedHanded, plain, forced, track, s.clock, {}))
  }

  lemma FlushHands(s: State)
    requires s.op.Idle? && s.conn == Online && !s.closed && s.pending != map[]
    ensures Complete(BeginFlush(s, Fresh)) == Complete(AllHanded(s))
  {
    var u := BeginFlush(s, Fresh);
    var m := AdvanceOp(u);
    var a := AdvanceOp(m);
    var f := AdvanceOp(a);
    CompleteOne(u); CompleteOne(m); CompleteOne(a); CompleteOne(f);
    var plain, forced := OfForce(s.pending, false), OfForce(s.pending, true);
    var track := (plain - s.announced) + forced;
    assert f == s.(ready := true, refile := s.refile + track, filed := s.filed + plain,
                   queue := s.queue + (plain - s.filed), op := Flush(FreshHanded, plain, forced, track, s.clock, {}));
    assert AdvanceOp(f) == AllHanded(s);
  }

  lemma FlushEnds(s: State)
    ensures var plain, forced := OfForce(s.pending, false), OfForce(s.pending, true);
            var track := (plain - s.announced) + forced;
            Complete(AllHanded(s))
            == s.(ready := true, pending := map[], refile := s.refile + track, filed := s.filed + s.pending.Keys,
                  queue := s.queue + (plain - s.filed) + forced, op := Idle,
                  unconfirmed := map k | k in s.unconfirmed.Keys + track ::
                                   if k in track then s.clock else s.unconfirmed[k])
  {
    var plain, forced := OfForce(s.pending, false), OfForce(s.pending, true);
    var track := (plain - s.announced) + forced;
    var g := AllHanded(s);
    var c := FinishFlush(g);
    CompleteOne(g);
    CompleteOne(c);
    CompleteOne(ClearGone(c));
    assert plain + forced == s.pending.Keys && g.filed == s.filed + s.pending.Keys;
    assert track * s.pending.Keys == track && track - s.pending.Keys == {};
    assert s.pending - plain - forced == map[];
    assert c.op.gone == {};
  }

  /** A whole flush, online and with nothing in between, hands over all there is. */
  lemma FlushCompletes(s: State)
    requires s.op.Idle? && s.conn == Online && !s.closed
    ensures var t, plain, forced := Complete(BeginFlush(s, Fresh)), OfForce(s.pending, false), OfForce(s.pending, true);
            var track := (plain - s.announced) + forced;
            t == s.(ready := s.ready || s.pending != map[], pending := map[], refile := s.refile + track,
                    filed := s.filed + s.pending.Keys, queue := s.queue + (plain - s.filed) + forced,
                    unconfirmed := map k | k in s.unconfirmed.Keys + track ::
                                     if k in track then s.clock else s.unconfirmed[k])
  {
    if s.pending == map[] {
      assert OfForce(s.pending, false) == {} && OfForce(s.pending, true) == {};
    } else {
      FlushHands(s);
      FlushEnds(s);
    }
  }

  /** A whole confirmation, with the queue kept and drained and nothing in between, settles all of it either way. */
  lemma ConfirmCompletes(s: State)
    requires s.op.Idle? && s.conn != Offline && !s.closed && s.queue == {}
    ensures var t := Complete(BeginConfirm(s));
            var settled := set k | k in s.unconfirmed && s.unconfirmed[k] > s.lostBefore;
            && t.op.Idle? && t.unconfirmed == map[] && t.conn == s.conn && !t.closed && t.clock == s.clock
            && t.queue == {} && (s.unconfirmed != map[] ==> t.ready == (s.conn == Online))
            && t.announced == s.announced + settled && t.refile == s.refile - settled
            && t.pending == s.pending + (map k | k in s.unconfirmed.Keys - settled :: true)
            && t.sent == s.sent && t.wanted == s.wanted && t.installed == s.installed
            && t.lostBefore == s.lostBefore && t.wentOffline == s.wentOffline
  {
    var u := BeginConfirm(s);
    if s.unconfirmed != map[] {
      var r := AdvanceOp(u);
      var d := AdvanceOp(r);
      var a := AdvanceOp(d);
      var t := AdvanceOp(a);
      CompleteOne(u); CompleteOne(r); CompleteOne(d); CompleteOne(a); CompleteOne(t);
      assert s.unconfirmed.Keys * s.unconfirmed.Keys == s.unconfirmed.Keys;
      assert d.unconfirmed == map[];
    } else {
      CompleteOne(u);
      assert s.unconfirmed.Keys == {};
    }
  }

  /** Offline the queue is gone: a whole confirmation sends back everything, forced, and announces nothing; with keys
      still queued otherwise it waits. */
  lemma ConfirmSendsBack(s: State)
    requires s.op.Idle? && !s.closed && s.unconfirmed != map[]
    ensures var t := Complete(BeginConfirm(s));
            s.conn == Offline ==>
              t == s.(ready := false, unconfirmed := map[],
                      pending := s.pending + map k | k in s.unconfirmed.Keys :: true)
    ensures var t := Complete(BeginConfirm(s));
            s.conn != Offline && s.queue != {} ==> t == s.(ready := s.conn == Online)
  {
    var u := BeginConfirm(s);
    var r := AdvanceOp(u);
    CompleteOne(u);
    CompleteOne(r);
    if s.conn == Offline {
      var d := AdvanceOp(r);
      var a := AdvanceOp(d);
      var t := AdvanceOp(a);
      CompleteOne(d); CompleteOne(a); CompleteOne(t);
      assert s.unconfirmed.Keys * s.unconfirmed.Keys == s.unconfirmed.Keys;
      assert d.unconfirmed == map[] && d.op.keys == {};
      assert s.unconfirmed.Keys - {} == s.unconfirmed.Keys;
      assert s.announced + {} == s.announced && s.refile - {} == s.refile;
    }
  }

  /** A flush goes on to the provider exactly when something is pending and readiness, read now or last time, says
      online. */
  lemma FlushBeginsExactly(s: State, r: Reading)
    requires s.op.Idle?
    ensures var t := BeginFlush(s, r);
            && (!t.op.Idle? <==>
                  s.pending != map[] && (if r == Cached then s.ready else r == Fresh && s.conn == Online && !s.closed))
            && (s.pending != map[] && r != Cached ==> (t.ready <==> r == Fresh && s.conn == Online && !s.closed))
            && (r == Cached || s.pending == map[] ==> t.ready == s.ready)
  {
  }

  lemma PlainIsSafe(s: State, k: Key)
    requires KeyKept(s, k) && Clean(s, k) && PlainFlush(s, k)
    ensures SafeHandOver(s, k)
  {
  }

  lemma {:induction false} CompleteKeeps(s: State, k: Key)
    requires Inv(s)
    ensures Inv(Complete(s))
    ensures Sure(s, k) && Clean(s, k) && PlainFlush(s, k) ==> Sure(Complete(s), k) && Clean(Complete(s), k)
    decreases Left(s.op)
  {
    if !s.op.Idle? {
      assert KeyInv(s, k) && OpInv(s, k);
      assert Step(s, Advance) == AdvanceOp(s);
      StepKeepsInv(s, Advance);
      if Sure(s, k) && Clean(s, k) && PlainFlush(s, k) {
        PlainIsSafe(s, k);
        SafeIsNotUnsafe(s, k);
        AdvanceRight(s, k);
      }
      CompleteKeeps(AdvanceOp(s), k);
    }
  }

  /** e, then whatever it begins. */
  function Whole(s: State, e: Event): State
    requires Enabled(s, e)
  {
    Complete(Step(s, e))
  }

  lemma WholeKeeps(s: State, e: Event, k: Key)
    requires Inv(s) && Enabled(s, e) && !e.Offer? && !e.Advance? && s.op.Idle?
    ensures Inv(Whole(s, e))
    ensures Sure(s, k) && Clean(s, k) && (e.FlushBegin? ==> k !in s.unconfirmed) ==>
              Sure(Whole(s, e), k) && Clean(Whole(s, e), k)
  {
    assert KeyInv(s, k) && OpInv(s, k);
    StepKeepsInv(s, e);
    if Sure(s, k) && Clean(s, k) && (e.FlushBegin? ==> k !in s.unconfirmed) {
      StepRight(s, e, k);
      BeginsPlain(s, e, k);
    }
    CompleteKeeps(Step(s, e), k);
  }

  lemma BeginsPlain(s: State, e: Event, k: Key)
    requires Enabled(s, e) && s.op.Idle? && (e.FlushBegin? ==> k !in s.unconfirmed)
    ensures PlainFlush(Step(s, e), k)
  {
  }

  /** Everything queued is sent, then a whole confirmation. */
  function SentAndConfirmed(s: State): State
    requires !s.closed && s.conn == Online && s.queue <= s.filed && s.installed && s.op.Idle?
  {
    Whole(Step(s, Send(s.queue)), ConfirmBegin)
  }

  lemma SentAndConfirmedIs(s: State, k: Key)
    requires Inv(s) && !s.closed && s.conn == Online && s.queue <= s.filed && s.installed && s.op.Idle?
    ensures var t := SentAndConfirmed(s);
            && Inv(t) && t.op.Idle? && t.installed && t.conn == Online && !t.closed && t.clock == s.clock
            && t.wanted == s.wanted
            && t.queue == {} && t.unconfirmed == map[] && t.lostBefore == s.lostBefore
            && ((k in s.unconfirmed && s.unconfirmed[k] > s.lostBefore) || k in s.announced ==> k in t.announced)
            && ((forall q :: q in s.unconfirmed ==> s.unconfirmed[q] > s.lostBefore) && s.pending == map[] ==>
                  t.pending == map[])
            && (Sure(s, k) && Clean(s, k) ==> Sure(t, k) && Clean(t, k))
  {
    var a := Step(s, Send(s.queue));
    assert a.queue == {};
    WholeKeeps(s, Send(s.queue), k);
    CompleteOne(a);
    ConfirmCompletes(a);
    WholeKeeps(a, ConfirmBegin, k);
    var settled := set q | q in s.unconfirmed && s.unconfirmed[q] > s.lostBefore;
    if forall q :: q in s.unconfirmed ==> s.unconfirmed[q] > s.lostBefore {
      assert s.unconfirmed.Keys - settled == {};
      assert (map q | q in s.unconfirmed.Keys - settled :: true) == map[];
    }
  }

  /** One confirmation, flush and confirmation, with what is queued sent before each confirmation. */
  function Calm(s: State, now: Time): State
    requires Inv(s) && s.op.Idle? && s.installed && s.conn == Online && !s.closed && now > s.clock
  {
    QueuedIsFiled(s);
    SentAndConfirmedIs(s, 0);
    var b := SentAndConfirmed(s).(clock := now);
    CalmFlush(SentAndConfirmed(s), now, 0);
    SentAndConfirmed(Complete(BeginFlush(b, Fresh)))
  }

  lemma QueuedIsFiled(s: State)
    requires Inv(s)
    ensures s.queue <= s.filed
  {
    forall k | k in s.queue ensures k in s.filed {
      assert KeyInv(s, k);
    }
  }

  lemma CalmFlush(s: State, now: Time, k: Key)
    requires Inv(s) && s.op.Idle? && s.installed && s.conn == Online && !s.closed && now > s.clock
    requires s.unconfirmed == map[]
    ensures var t := Complete(BeginFlush(s.(clock := now), Fresh));
            && Inv(t) && t.op.Idle? && t.installed && t.conn == Online && !t.closed && t.wanted == s.wanted
            && t.queue <= t.filed && t.pending == map[]
            && (forall q :: q in t.unconfirmed ==> t.unconfirmed[q] > t.lostBefore)
            && (k in s.wanted ==> k in t.unconfirmed || k in t.announced)
            && (Sure(s, k) && Clean(s, k) ==> Sure(t, k) && Clean(t, k))
  {
    var c := s.(clock := now);
    WholeKeeps(s, Tick(now), k);
    CompleteOne(c);
    FlushCompletes(c);
    WholeKeeps(c, FlushBegin(Fresh), k);
    QueuedIsFiled(Complete(BeginFlush(c, Fresh)));
    assert KeyInv(s, k);
  }

  /** Once the provider is online and stays so, that leaves nothing to hand over, nothing unconfirmed and no refile
      record, and every key the app wants known announced and, when the run's offers were clean, sent. */
  lemma CalmSettlesAll(s: State, now: Time, k: Key)
    requires Inv(s) && s.op.Idle? && s.installed && s.conn == Online && !s.closed && now > s.clock
    ensures var t := Calm(s, now);
            && Inv(t) && t.op.Idle? && t.pending == map[] && t.unconfirmed == map[] && t.queue == {}
            && k !in t.refile && (k in s.wanted ==> k in t.announced)
            && (k in s.wanted && Sure(s, k) && Clean(s, k) ==> k in t.sent)
  {
    QueuedIsFiled(s);
    SentAndConfirmedIs(s, k);
    var b := SentAndConfirmed(s);
    CalmFlush(b, now, k);
    var d := Complete(BeginFlush(b.(clock := now), Fresh));
    SentAndConfirmedIs(d, k);
    assert KeyInv(SentAndConfirmed(d), k);
  }

  // ---- leftovers ----

  /** Dropping starts only once the app has listed what it holds. */
  lemma DropsOnlySeeded(s: State, e: Event)
    requires Inv(s) && Enabled(s, e) && StaleOf(s.op) == {} && !s.seeded
    ensures StaleOf(Step(s, e).op) == {} && (Step(s, e).seeded ==> e.Seeded?)
  {
    assert KeyInv(s, 0) && OpInv(s, 0);
    StepRight(s, e, 0);
  }

  /** In a run in which the app has not listed what it holds since it began or last crashed, nothing is dropped. */
  lemma {:induction false} NoDropUnseeded(s: State, es: seq<Event>)
    requires Inv(s) && RunOk(s, es) && StaleOf(s.op) == {} && !s.seeded && Seeded !in es
    ensures StaleOf(Run(s, es).op) == {} && !Run(s, es).seeded
    decreases |es|
  {
    if es != [] {
      assert es[0] in es;
      DropsOnlySeeded(s, es[0]);
      StepKeepsInv(s, es[0]);
      NoDropUnseeded(Step(s, es[0]), es[1..]);
    }
  }

  /** A whole dropping: not before the app's list, the provider and its listing are there; then exactly what an
      earlier run filed and this one has not handed over leaves memory, disk and provider. */
  lemma DropsExactly(s: State)
    requires s.op.Idle? && !s.closed
    ensures var t := Complete(BeginDrop(s));
            if !s.seeded || !s.installed || s.leftover.None? then t == s
            else
              var gone := s.leftover.value - s.handed;
              && t.filed == s.filed - gone && t.refile == s.refile - gone && t.announced == s.announced - gone
              && t.pending == s.pending - gone && t.unconfirmed == s.unconfirmed - gone && t.queue == s.queue - gone
              && t.leftover.None? && t.op.Idle? && t.handed == s.handed && t.wanted == s.wanted
  {
    var d := BeginDrop(s);
    CompleteOne(d);
    if s.seeded && s.installed && s.leftover.Some? && s.leftover.value - s.handed != {} {
      DropEnds(d);
    }
  }

  /** What the app has handed over while its leftovers were being stopped is offered again, forced, when that is
      done. */
  lemma OffersAgainExactly(s: State, k: Key)
    requires s.op.Unprovided?
    ensures var t := AdvanceOp(s);
            && t.op.Idle?
            && (k in t.pending <==> k in s.pending || (k in s.op.stale && k in s.handed))
            && (k in t.pending && t.pending[k] <==>
                  (k in s.pending && s.pending[k]) || (k in s.op.stale && k in s.handed))
  {
  }

  lemma DropEnds(d: State)
    requires d.op.Dropping? && !d.closed && d.op.stale !! d.handed
    ensures var t, gone := Complete(d), d.op.stale;
            && t.filed == d.filed - gone && t.refile == d.refile - gone && t.announced == d.announced - gone
            && t.pending == d.pending && t.unconfirmed == d.unconfirmed && t.queue == d.queue - gone
            && t.leftover == d.leftover && t.op.Idle? && t.handed == d.handed && t.wanted == d.wanted
  {
    var r := AdvanceOp(d);
    var m := AdvanceOp(r);
    var u := AdvanceOp(m);
    var t := AdvanceOp(u);
    CompleteOne(d); CompleteOne(r); CompleteOne(m); CompleteOne(u); CompleteOne(t);
    assert d.op.stale * d.handed == {};
    assert Offered(d.pending, {}, true) == d.pending;
  }

  /** Everything the app hands over in these events. */
  function OfferedIn(es: seq<Event>): set<Key> {
    if es == [] then {} else (if es[0].Offer? then es[0].keys else {}) + OfferedIn(es[1..])
  }

  /** Until a crash, handed is what the app has handed over, and the listing stays as it was taken until it is used. */
  lemma {:induction false} HandedInRun(s: State, es: seq<Event>)
    requires Inv(s) && RunOk(s, es) && s.installed && (forall e :: e in es ==> !e.Crash? && !e.DropBegin?)
    ensures Run(s, es).installed && Run(s, es).handed == s.handed + OfferedIn(es) && Run(s, es).leftover == s.leftover
    decreases |es|
  {
    if es != [] {
      var t := Step(s, es[0]);
      assert es[0] in es;
      StepHanded(s, es[0]);
      StepKeepsInv(s, es[0]);
      HandedInRun(t, es[1..]);
    }
  }

  lemma StepHanded(s: State, e: Event)
    requires Inv(s) && Enabled(s, e) && s.installed && !e.Crash? && !e.DropBegin?
    ensures var t := Step(s, e);
            t.installed && t.leftover == s.leftover && t.handed == s.handed + if e.Offer? then e.keys else {}
  {
    assert KeyInv(s, 0) && OpInv(s, 0);
    if e.Advance? {
      StepRight(s, e, 0);
    } else if e.FlushBegin? {
      BeginHanded(s, e.reading);
    }
  }

  lemma BeginHanded(s: State, r: Reading)
    ensures var t := BeginFlush(s, r); t.installed == s.installed && t.leftover == s.leftover && t.handed == s.handed
  {
  }

  /** From the install on: of what the keystore then held, a dropping stops providing exactly what the app has handed
      over neither before the install nor since. */
  lemma DropsWhatNobodyWants(s: State, es: seq<Event>)
    requires Inv(s) && Enabled(s, UseProvider(true)) && RunOk(Step(s, UseProvider(true)), es)
    requires forall e :: e in es ==> !e.Crash? && !e.DropBegin?
    requires var u := Run(Step(s, UseProvider(true)), es); u.op.Idle? && !u.closed
    ensures var u := Run(Step(s, UseProvider(true)), es);
            Complete(BeginDrop(u)).filed
            == if u.seeded then u.filed - (s.filed - s.handed - OfferedIn(es)) else u.filed
  {
    var i := Step(s, UseProvider(true));
    StepKeepsInv(s, UseProvider(true));
    HandedInRun(i, es);
    var u := Run(i, es);
    DropsExactly(u);
    assert s.filed - (s.handed + OfferedIn(es)) == s.filed - s.handed - OfferedIn(es);
  }

  // ---- a stopped key is not brought back ----

  lemma StopsWhole(s: State, keys: set<Key>, k: Key)
    requires Enabled(s, Stop(keys)) && k in keys && k !in InOp(s.op) && (k in StaleOf(s.op) ==> k !in s.handed)
    ensures Gone(Step(s, Stop(keys)), k)
    ensures s.installed && !s.closed ==>
              k !in Step(s, Stop(keys)).filed && k !in Step(s, Stop(keys)).queue
  {
  }

  /** A stopped key stays out of everything the node remembers, and out of the provider if it heard of the stop, in
      every run until the app hands it over again: flushes, confirmations, Offline readings, droppings, crashes and
      restarts do not bring it back. */
  lemma {:induction false} StoppedStaysGone(s: State, es: seq<Event>, k: Key)
    requires Inv(s) && RunOk(s, es) && Gone(s, k) && k !in OfferedIn(es)
    ensures Gone(Run(s, es), k)
    ensures k !in s.filed && k !in s.queue ==> k !in Run(s, es).filed && k !in Run(s, es).queue
    decreases |es|
  {
    if es != [] {
      assert KeyInv(s, k) && OpInv(s, k);
      StepRight(s, es[0], k);
      StepKeepsInv(s, es[0]);
      StoppedStaysGone(Step(s, es[0]), es[1..], k);
    }
  }

  // ---- where announced does not mean sent ----

  /** Some run takes s to t. */
  ghost predicate Leads(s: State, t: State) {
    exists es: seq<Event> :: RunOk(s, es) && Run(s, es) == t
  }

  lemma LeadsSelf(s: State)
    ensures Leads(s, s)
  {
    assert RunOk(s, []) && Run(s, []) == s;
  }

  lemma {:induction false} RunOneMore(s: State, es: seq<Event>, e: Event)
    requires RunOk(s, es) && Enabled(Run(s, es), e)
    ensures RunOk(s, es + [e]) && Run(s, es + [e]) == Step(Run(s, es), e)
    decreases |es|
  {
    if es == [] {
      assert RunOk(Step(s, e), []) && [e][1..] == [];
    } else {
      assert (es + [e])[1..] == es[1..] + [e];
      RunOneMore(Step(s, es[0]), es[1..], e);
    }
  }

  lemma LeadsStep(i: State, s: State, e: Event)
    requires Leads(i, s) && Enabled(s, e)
    ensures Leads(i, Step(s, e))
  {
    var es: seq<Event> :| RunOk(i, es) && Run(i, es) == s;
    RunOneMore(i, es, e);
  }

  lemma {:induction false} LeadsComplete(i: State, s: State)
    requires Leads(i, s)
    ensures Leads(i, Complete(s))
    decreases Left(s.op)
  {
    if !s.op.Idle? {
      LeadsStep(i, s, Advance);
      LeadsComplete(i, AdvanceOp(s));
    }
  }

  /** A key handed over, online, from an idle node with nothing else pending; then the flush. */
  lemma HandOne(i: State, s: State, k: Key) returns (t: State)
    requires Leads(i, s) && s.op.Idle? && s.installed && s.conn == Online && !s.closed && s.pending == map[]
    requires k !in s.announced
    ensures Leads(i, t)
    ensures t == s.(ready := true, handed := s.handed + {k}, wanted := s.wanted + {k}, refile := s.refile + {k},
                    filed := s.filed + {k}, queue := s.queue + ({k} - s.filed),
                    unconfirmed := s.unconfirmed[k := s.clock])
  {
    var o := Step(s, Offer({k}));
    LeadsStep(i, s, Offer({k}));
    OfferOne(s, k);
    LeadsStep(i, o, FlushBegin(Fresh));
    LeadsComplete(i, BeginFlush(o, Fresh));
    FlushCompletes(o);
    t := Complete(BeginFlush(o, Fresh));
    assert {k} - s.announced + {} == {k};
    assert t.unconfirmed == s.unconfirmed[k := s.clock];
    assert t.pending == s.pending;
  }

  lemma OfferOne(s: State, k: Key)
    requires s.pending == map[]
    ensures var p := Offered(s.pending, {k}, false);
            p == map[k := false] && OfForce(p, false) == {k} && OfForce(p, true) == {} && p.Keys == {k}
  {
  }

  /** A confirmation of one key, nothing being queued. */
  lemma ConfirmOne(i: State, s: State, k: Key) returns (t: State)
    requires Leads(i, s) && s.op.Idle? && s.installed && s.conn == Online && !s.closed && s.queue == {}
    requires k in s.unconfirmed && s.unconfirmed[k] > s.lostBefore
    ensures Leads(i, t) && k in t.announced && t.sent == s.sent && t.wanted == s.wanted
  {
    LeadsStep(i, s, ConfirmBegin);
    LeadsComplete(i, BeginConfirm(s));
    ConfirmCompletes(s);
    t := Complete(BeginConfirm(s));
  }

  /** An unsafe hand-over goes on to its end: the key is tracked at the flush's time, and still neither queued nor
      sent. */
  lemma UnsafeIsTracked(s: State, k: Key) returns (t: State)
    requires Inv(s) && Unsafe(s, k)
    ensures Leads(s, t) && Inv(t) && t.op.Idle? && t.installed && !t.closed && t.conn == s.conn && k !in t.queue
    ensures k !in t.sent
    ensures k in t.unconfirmed && t.unconfirmed[k] > t.lostBefore && !t.wentOffline
  {
    assert KeyInv(s, k) && OpInv(s, k);
    LeadsSelf(s);
    LeadsStep(s, s, Advance);
    StepKeepsInv(s, Advance);
    var h := HandOver(s, false, s.op.unforced, FreshHanded);
    assert AdvanceOp(s) == h;
    LeadsStep(s, h, Advance);
    StepKeepsInv(h, Advance);
    var f := HandOver(h, true, h.op.forced, ForcedHanded);
    assert AdvanceOp(h) == f;
    LeadsStep(s, f, Advance);
    StepKeepsInv(f, Advance);
    var c := FinishFlush(f);
    assert AdvanceOp(f) == c;
    LeadsStep(s, c, Advance);
    StepKeepsInv(c, Advance);
    t := ClearGone(c);
    assert AdvanceOp(c) == t;
  }

  /** And left alone, once the provider is online and has sent all it has queued, it is taken for announced unsent. So,
      with UnsentOnlyThroughUnsafe, the unsafe hand-overs are exactly what makes announced records of unsent keys. */
  lemma UnsafeEndsUnsent(s: State, k: Key) returns (t: State)
    requires Inv(s) && Unsafe(s, k)
    ensures Leads(s, t) && k in t.announced && k !in t.sent
  {
    t := UnsafeIsTracked(s, k);
    if t.conn != Online {
      LeadsStep(s, t, GoOnline);
      StepKeepsInv(t, GoOnline);
      t := Step(t, GoOnline);
    }
    QueuedIsFiled(t);
    LeadsStep(s, t, Send(t.queue));
    t := Step(t, Send(t.queue));
    assert t.queue == {};
    t := ConfirmOne(s, t, k);
  }

  /** A run's first state with a provider online. */
  lemma Started() returns (s: State)
    ensures Leads(Initial(1), s) && s == Initial(1).(installed := true, leftover := Some({}), conn := Online)
  {
    s := Initial(1);
    LeadsSelf(s);
    LeadsStep(Initial(1), s, UseProvider(true));
    s := Step(s, UseProvider(true));
    assert s.pending == map[];
    LeadsStep(Initial(1), s, GoOnline);
    s := Step(s, GoOnline);
  }

  /** A key handed over, queued, and lost to an Offline spell. */
  lemma LostToASpell(k: Key) returns (s: State)
    ensures Leads(Initial(1), s) && s.op.Idle? && s.installed && s.conn == Online && !s.closed && s.queue == {}
    ensures s.pending == map[]
    ensures s.unconfirmed == map[k := 1] && s.lostBefore == 1 && s.clock == 2 && k in s.filed && k !in s.sent
    ensures k !in s.announced
  {
    s := Started();
    s := HandOne(Initial(1), s, k);
    LeadsStep(Initial(1), s, GoOffline);
    s := Step(s, GoOffline);
    LeadsStep(Initial(1), s, GoOnline);
    s := Step(s, GoOnline);
    LeadsStep(Initial(1), s, Tick(2));
    s := Step(s, Tick(2));
  }

  /** An unconfirmed key offered again after an Offline spell has its hand-over restamped: the provider ignores it,
      and it is taken for announced without ever being sent. */
  lemma RestampedIsNotSent(k: Key) returns (s: State)
    ensures Leads(Initial(1), s) && k in s.announced && k !in s.sent && k in s.wanted
  {
    s := LostToASpell(k);
    s := HandOne(Initial(1), s, k);
    s := ConfirmOne(Initial(1), s, k);
  }

  /** A key handed over and queued in one run, and stopped in the next before the provider was there. */
  lemma StoppedUnheard(k: Key) returns (s: State)
    ensures Leads(Initial(1), s) && s.op.Idle? && s.installed && s.conn == Online && !s.closed && s.queue == {}
    ensures s.pending == map[]
    ensures s.unconfirmed == map[] && s.lostBefore == 0 && s.clock == 1 && k in s.filed && k !in s.sent
    ensures k !in s.announced && k !in s.refile && k in s.voided
  {
    s := Started();
    s := HandOne(Initial(1), s, k);
    LeadsStep(Initial(1), s, Crash(Offline));
    s := Step(s, Crash(Offline));
    LeadsStep(Initial(1), s, Stop({k}));
    s := Step(s, Stop({k}));
    assert s.refile == {};
    LeadsStep(Initial(1), s, UseProvider(true));
    s := Step(s, UseProvider(true));
    LeadsStep(Initial(1), s, GoOnline);
    s := Step(s, GoOnline);
  }

  /** Offered again, that key is still filed, so it is not new: it is taken for announced without ever being sent. */
  lemma StoppedUnheardIsNotSent(k: Key) returns (s: State)
    ensures Leads(Initial(1), s) && k in s.announced && k !in s.sent && k in s.wanted
  {
    s := StoppedUnheard(k);
    s := HandOne(Initial(1), s, k);
    s := ConfirmOne(Initial(1), s, k);
  }

  /** A key stopped after a flush has read it and before its records are written is brought back by a crash in that
      flush: its refile record was written after the stop cleared it. */
  lemma StoppedInAFlushComesBack(k: Key) returns (s: State)
    ensures Leads(Initial(1), s) && k in s.pending && k !in s.wanted && k !in s.handed
  {
    s := Started();
    LeadsStep(Initial(1), s, Offer({k}));
    s := Step(s, Offer({k}));
    OfferOne(Initial(1), k);
    LeadsStep(Initial(1), s, FlushBegin(Fresh));
    s := Step(s, FlushBegin(Fresh));
    LeadsStep(Initial(1), s, Stop({k}));
    s := Step(s, Stop({k}));
    assert k in s.op.unforced && k !in s.announced;
    LeadsStep(Initial(1), s, Advance);
    s := MarkRefiles(s);
    LeadsStep(Initial(1), s, Crash(Offline));
    s := Step(s, Crash(Offline));
    LeadsStep(Initial(1), s, UseProvider(true));
    s := Step(s, UseProvider(true));
  }
}
