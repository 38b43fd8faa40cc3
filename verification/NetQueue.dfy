/** The one network queue (netq.go): a two-class FIFO semaphore.

    Foreground jobs (fetch attempts) go before background ones (provider walks and sends); background work holds one
    slot while a download runs and all but one otherwise. The class at the end is the queue as the source writes it;
    every method is proved equal to a step function here, and the promises are proved of those steps and of all runs. */
module NetQueue {
  /** One call of acquire, identified by the channel it waits on. */
  type Job = nat

  datatype Queue = Queue(
    slots: int,
    active: int,
    fgActive: int,
    fg: seq<Job>,
    bg: seq<Job>,
    holds: nat,
    idle: bool,         // the current fgIdle channel is closed
    fgHeld: set<Job>,   // fetch jobs granted a slot and not yet released
    bgHeld: set<Job>)   // the same of background jobs

  predicate FgBusy(q: Queue) {
    q.fgActive > 0 || |q.fg| > 0 || q.holds > 0
  }

  function BgMax(q: Queue): int {
    if q.slots <= 1 || FgBusy(q) then 1 else q.slots - 1
  }

  function BgActive(q: Queue): int {
    q.active - q.fgActive
  }

  function MarkBusy(q: Queue): Queue {
    q.(idle := false)
  }

  function MarkIdleIf(q: Queue): Queue {
    if FgBusy(q) then q else q.(idle := true)
  }

  function GrantFg(q: Queue): Queue
    requires |q.fg| > 0
  {
    q.(fg := q.fg[1..], fgActive := q.fgActive + 1, active := q.active + 1, fgHeld := q.fgHeld + {q.fg[0]})
  }

  function GrantBg(q: Queue): Queue
    requires |q.bg| > 0
  {
    q.(bg := q.bg[1..], active := q.active + 1, bgHeld := q.bgHeld + {q.bg[0]})
  }

  /** Hands free slots to waiters, foreground first, background only up to BgMax. */
  function Grant(q: Queue): Queue
    decreases |q.fg| + |q.bg|
  {
    if q.active >= q.slots then q
    else if |q.fg| > 0 then Grant(GrantFg(q))
    else if |q.bg| > 0 && BgActive(q) < BgMax(q) then Grant(GrantBg(q))
    else q
  }

  predicate MayEnter(q: Queue, isFg: bool) {
    q.active < q.slots && (isFg || (|q.fg| == 0 && BgActive(q) < BgMax(q)))
  }

  function Enter(q: Queue, j: Job, isFg: bool): Queue {
    var m := if isFg then MarkBusy(q) else q;
    if MayEnter(m, isFg) then
      if isFg then m.(active := m.active + 1, fgActive := m.fgActive + 1, fgHeld := m.fgHeld + {j})
      else m.(active := m.active + 1, bgHeld := m.bgHeld + {j})
    else if isFg then m.(fg := m.fg + [j])
    else m.(bg := m.bg + [j])
  }

  function Without(s: seq<Job>, j: Job): seq<Job> {
    if s == [] then [] else if s[0] == j then s[1..] else [s[0]] + Without(s[1..], j)
  }

  function Drop(q: Queue, j: Job): Queue {
    q.(active := q.active - 1,
       fgActive := if j in q.fgHeld then q.fgActive - 1 else q.fgActive,
       fgHeld := q.fgHeld - {j},
       bgHeld := q.bgHeld - {j})
  }

  function Release(q: Queue, j: Job): Queue {
    MarkIdleIf(Grant(Drop(q, j)))
  }

  /** The caller's context ended: a waiter leaves the queue; one granted while it gave up hands its slot on. */
  function Cancel(q: Queue, j: Job): Queue {
    if j in q.fg then MarkIdleIf(q.(fg := Without(q.fg, j)))
    else if j in q.bg then MarkIdleIf(q.(bg := Without(q.bg, j)))
    else Release(q, j)
  }

  function Hold(q: Queue): Queue {
    MarkBusy(q.(holds := q.holds + 1))
  }

  function Unhold(q: Queue): Queue
    requires q.holds > 0
  {
    MarkIdleIf(Grant(q.(holds := q.holds - 1)))
  }

  function Resize(q: Queue, n: int): Queue {
    q.(slots := if n < 1 then 1 else n)
  }

  function SetSlots(q: Queue, n: int): Queue {
    Grant(Resize(q, n))
  }

  datatype Event =
    | EvEnter(j: Job, isFg: bool)
    | EvCancel(j: Job)
    | EvRelease(j: Job)
    | EvHold
    | EvUnhold
    | EvSetSlots(n: int)

  predicate Known(q: Queue, j: Job) {
    j in q.fg || j in q.bg || j in q.fgHeld || j in q.bgHeld
  }

  /** What callers owe: a new acquire is a new job, release and cancel concern a job of theirs, releases match holds. */
  predicate Enabled(q: Queue, e: Event) {
    match e
    case EvEnter(j, _) => !Known(q, j)
    case EvCancel(j) => Known(q, j)
    case EvRelease(j) => j in q.fgHeld || j in q.bgHeld
    case EvUnhold => q.holds > 0
    case EvHold => true
    case EvSetSlots(_) => true
  }

  function Step(q: Queue, e: Event): Queue
    requires Enabled(q, e)
  {
    match e
    case EvEnter(j, isFg) => Enter(q, j, isFg)
    case EvCancel(j) => Cancel(q, j)
    case EvRelease(j) => Release(q, j)
    case EvHold => Hold(q)
    case EvUnhold => Unhold(q)
    case EvSetSlots(n) => SetSlots(q, n)
  }

  predicate RunOk(q: Queue, es: seq<Event>)
    decreases |es|
  {
    es == [] || (Enabled(q, es[0]) && RunOk(Step(q, es[0]), es[1..]))
  }

  function Run(q: Queue, es: seq<Event>): Queue
    requires RunOk(q, es)
    decreases |es|
  {
    if es == [] then q else Run(Step(q, es[0]), es[1..])
  }

  function Initial(slots: int): Queue {
    Queue(slots, 0, 0, [], [], 0, true, {}, {})
  }

  // ---- the invariant ----

  ghost predicate NoDup(s: seq<Job>) {
    forall i, k :: 0 <= i < k < |s| ==> s[i] != s[k]
  }

  /** Each job is in one place: waiting in one queue, or holding one kind of slot. */
  ghost predicate OnePlace(q: Queue) {
    && NoDup(q.fg) && NoDup(q.bg)
    && (forall j :: j in q.fg ==> j !in q.bg && j !in q.fgHeld && j !in q.bgHeld)
    && (forall j :: j in q.bg ==> j !in q.fgHeld && j !in q.bgHeld)
    && q.fgHeld !! q.bgHeld
  }

  /** The counters are the outstanding grants. */
  ghost predicate Counted(q: Queue) {
    q.active == |q.fgHeld| + |q.bgHeld| && q.fgActive == |q.fgHeld|
  }

  /** A free slot never coexists with a waiter it may go to. */
  predicate NoStrandedSlot(q: Queue) {
    q.active < q.slots ==> q.fg == [] && (q.bg == [] || BgActive(q) >= BgMax(q))
  }

  ghost predicate Shape(q: Queue) {
    q.slots >= 1 && OnePlace(q) && Counted(q)
  }

  ghost predicate Inv(q: Queue) {
    Shape(q) && NoStrandedSlot(q) && (q.idle <==> !FgBusy(q))
  }

  // ---- granting ----

  lemma GrantFgShape(q: Queue)
    requires Shape(q) && |q.fg| > 0
    ensures Shape(GrantFg(q))
  {
    assert q.fg[0] in q.fg;
    assert forall j :: j in q.fg[1..] ==> j in q.fg && j != q.fg[0];
  }

  lemma GrantBgShape(q: Queue)
    requires Shape(q) && |q.bg| > 0
    ensures Shape(GrantBg(q))
  {
    assert q.bg[0] in q.bg;
    assert forall j :: j in q.bg[1..] ==> j in q.bg && j != q.bg[0];
  }

  /** Granting ends with no slot stranded, and changes neither busyness nor the idle signal. */
  lemma {:induction false} GrantShape(q: Queue)
    requires Shape(q)
    ensures var r := Grant(q);
            && Shape(r) && NoStrandedSlot(r)
            && r.idle == q.idle && r.holds == q.holds && r.slots == q.slots && FgBusy(r) == FgBusy(q)
            && q.fgHeld <= r.fgHeld && q.bgHeld <= r.bgHeld
    decreases |q.fg| + |q.bg|
  {
    if q.active >= q.slots {
    } else if |q.fg| > 0 {
      GrantFgShape(q);
      GrantShape(GrantFg(q));
    } else if |q.bg| > 0 && BgActive(q) < BgMax(q) {
      GrantBgShape(q);
      GrantShape(GrantBg(q));
    }
  }

  /** And it never exceeds the slots or, for background jobs, BgMax. */
  lemma {:induction false} GrantKeeps(q: Queue)
    requires Shape(q)
    ensures var r := Grant(q);
            && Shape(r) && NoStrandedSlot(r)
            && r.idle == q.idle && r.holds == q.holds && r.slots == q.slots && FgBusy(r) == FgBusy(q)
            && q.fgHeld <= r.fgHeld && q.bgHeld <= r.bgHeld
            && (r.fgHeld + r.bgHeld != q.fgHeld + q.bgHeld ==> r.active <= r.slots)
            && (r.bgHeld != q.bgHeld ==> BgActive(r) <= BgMax(r))
    decreases |q.fg| + |q.bg|
  {
    GrantShape(q);
    if q.active >= q.slots {
    } else if |q.fg| > 0 {
      GrantFgShape(q);
      GrantKeeps(GrantFg(q));
    } else if |q.bg| > 0 && BgActive(q) < BgMax(q) {
      GrantBgShape(q);
      GrantKeeps(GrantBg(q));
    }
  }

  /** How many fetches one round of granting lets in. */
  function Room(q: Queue): nat {
    if q.active >= q.slots then 0 else if q.slots - q.active < |q.fg| then q.slots - q.active else |q.fg|
  }

  /** Granting serves exactly the oldest waiting fetches, in order; a background job gets a slot only when no fetch is
      left waiting. */
  lemma {:induction false} GrantServesOldest(q: Queue)
    ensures var r := Grant(q); var k := Room(q);
            && r.fg == q.fg[k..]
            && r.fgHeld == q.fgHeld + (set j | j in q.fg[..k])
            && (r.bgHeld != q.bgHeld ==> r.fg == [])
    decreases |q.fg| + |q.bg|
  {
    if q.active >= q.slots {
    } else if |q.fg| > 0 {
      var n := GrantFg(q);
      GrantServesOldest(n);
      var k := Room(q);
      assert Room(n) == k - 1;
      assert q.fg[1..][k - 1..] == q.fg[k..];
      assert q.fg[..k] == [q.fg[0]] + n.fg[..k - 1];
    } else if |q.bg| > 0 && BgActive(q) < BgMax(q) {
      GrantServesOldest(GrantBg(q));
    }
  }

  // ---- every step keeps the invariant ----

  lemma {:induction false} WithoutFacts(s: seq<Job>, j: Job)
    requires NoDup(s) && j in s
    ensures |Without(s, j)| == |s| - 1 && NoDup(Without(s, j))
    ensures forall x :: x in Without(s, j) <==> x in s && x != j
  {
    if s[0] == j {
      assert s == [s[0]] + s[1..];
      assert forall x :: x in s <==> x == s[0] || x in s[1..];
    } else {
      assert forall x :: x in s <==> x == s[0] || x in s[1..];
      WithoutFacts(s[1..], j);
      var w := Without(s[1..], j);
      assert Without(s, j) == [s[0]] + w;
      assert s[0] !in w;
    }
  }

  lemma ReleaseShape(q: Queue, j: Job)
    requires Shape(q) && (j in q.fgHeld || j in q.bgHeld)
    ensures Shape(Drop(q, j))
  {
    if j in q.fgHeld {
      assert q.bgHeld - {j} == q.bgHeld;
    } else {
      assert q.fgHeld - {j} == q.fgHeld;
    }
  }

  /** The jobs a step let in. */
  function Granted(q: Queue, r: Queue): set<Job> {
    (r.fgHeld + r.bgHeld) - (q.fgHeld + q.bgHeld)
  }

  /** What a step promises: the invariant, and that whoever it lets in fits: within the slots, and a background job
      within BgMax. */
  ghost predicate Kept(q: Queue, r: Queue) {
    && Inv(r)
    && (Granted(q, r) != {} ==> r.active <= r.slots)
    && (r.bgHeld - q.bgHeld != {} ==> BgActive(r) <= BgMax(r))
  }

  lemma EnterAtOnce(q: Queue, j: Job, isFg: bool)
    requires Inv(q) && !Known(q, j) && MayEnter(if isFg then MarkBusy(q) else q, isFg)
    ensures Kept(q, Enter(q, j, isFg))
  {
    var r := Enter(q, j, isFg);
    assert OnePlace(r);
    assert FgBusy(r) <==> FgBusy(q) || isFg;
  }

  lemma EnterWaiting(q: Queue, j: Job, isFg: bool)
    requires Inv(q) && !Known(q, j) && !MayEnter(if isFg then MarkBusy(q) else q, isFg)
    ensures Kept(q, Enter(q, j, isFg))
  {
    var r := Enter(q, j, isFg);
    assert forall x :: x in r.fg <==> x in q.fg || (isFg && x == j);
    assert forall x :: x in r.bg <==> x in q.bg || (!isFg && x == j);
    assert OnePlace(r);
    assert Granted(q, r) == {};
  }

  lemma CancelWaitKeeps(q: Queue, j: Job)
    requires Inv(q) && (j in q.fg || j in q.bg)
    ensures Kept(q, Cancel(q, j))
  {
    if j in q.fg {
      WithoutFacts(q.fg, j);
    } else {
      WithoutFacts(q.bg, j);
    }
  }

  lemma ReleaseKeeps(q: Queue, j: Job)
    requires Inv(q) && (j in q.fgHeld || j in q.bgHeld)
    ensures Kept(q, Release(q, j))
  {
    var d := Drop(q, j);
    ReleaseShape(q, j);
    GrantKeeps(d);
    ReleasedKept(q, d, Grant(d));
  }

  lemma ReleasedKept(q: Queue, d: Queue, r: Queue)
    requires Inv(q) && Shape(r) && NoStrandedSlot(r)
    requires d.fgHeld <= q.fgHeld && d.bgHeld <= q.bgHeld && (FgBusy(d) ==> FgBusy(q))
    requires r.idle == q.idle && FgBusy(r) == FgBusy(d)
    requires r.fgHeld + r.bgHeld != d.fgHeld + d.bgHeld ==> r.active <= r.slots
    requires r.bgHeld != d.bgHeld ==> BgActive(r) <= BgMax(r)
    ensures Kept(q, MarkIdleIf(r))
  {
    IdleKeepsInv(q, r);
    GrantedAfterDrop(q, d, r);
    assert Granted(q, MarkIdleIf(r)) == Granted(q, r);
  }

  lemma IdleKeepsInv(q: Queue, r: Queue)
    requires Inv(q) && Shape(r) && NoStrandedSlot(r) && r.idle == q.idle && (FgBusy(r) ==> FgBusy(q))
    ensures Inv(MarkIdleIf(r))
  {
    var m := MarkIdleIf(r);
    assert OnePlace(m) && Counted(m);
  }

  /** Dropping a job and then granting lets in whom the granting let in. */
  lemma GrantedAfterDrop(q: Queue, d: Queue, r: Queue)
    requires d.fgHeld <= q.fgHeld && d.bgHeld <= q.bgHeld
    ensures r.fgHeld + r.bgHeld == d.fgHeld + d.bgHeld ==> Granted(q, r) == {}
    ensures r.bgHeld == d.bgHeld ==> r.bgHeld - q.bgHeld == {}
  {
  }

  lemma UnholdKeeps(q: Queue)
    requires Inv(q) && q.holds > 0
    ensures Kept(q, Unhold(q))
  {
    var d := q.(holds := q.holds - 1);
    GrantKeeps(d);
    ReleasedKept(q, d, Grant(d));
  }

  lemma ResizeKeeps(q: Queue, n: int)
    requires Inv(q)
    ensures Kept(q, SetSlots(q, n))
  {
    var d := Resize(q, n);
    GrantKeeps(d);
    ReleasedKept(q, d, Grant(d));
    assert MarkIdleIf(Grant(d)) == Grant(d);
  }

  /** Every operation keeps the invariant, the cancel path included (it grants nothing: a fetch waits only when no slot
      is free); whoever it lets in fits. */
  lemma StepKeepsInv(q: Queue, e: Event)
    requires Inv(q) && Enabled(q, e)
    ensures Kept(q, Step(q, e))
  {
    match e
    case EvEnter(j, isFg) =>
      if MayEnter(if isFg then MarkBusy(q) else q, isFg) { EnterAtOnce(q, j, isFg); } else { EnterWaiting(q, j, isFg); }
    case EvCancel(j) =>
      if j in q.fg || j in q.bg { CancelWaitKeeps(q, j); } else { ReleaseKeeps(q, j); }
    case EvRelease(j) => ReleaseKeeps(q, j);
    case EvHold =>
    case EvUnhold => UnholdKeeps(q);
    case EvSetSlots(n) => ResizeKeeps(q, n);
  }

  /** The invariant holds in every reachable state of every run. */
  lemma {:induction false} RunKeepsInv(q: Queue, es: seq<Event>)
    requires Inv(q) && RunOk(q, es)
    ensures Inv(Run(q, es))
    decreases |es|
  {
    if es != [] {
      StepKeepsInv(q, es[0]);
      RunKeepsInv(Step(q, es[0]), es[1..]);
    }
  }

  /** The background's share: a step that lets a background job in leaves at most one of them with a slot while a fetch
      holds or waits or somebody holds the foreground, else all slots but one; and a background job waits beside a free
      slot only when that share is used up, a fetch never. */
  lemma BackgroundShare(q: Queue, e: Event)
    requires Inv(q) && Enabled(q, e)
    ensures var r := Step(q, e);
            && (r.bgHeld - q.bgHeld != {} ==>
                  |r.bgHeld|
                  <= if r.slots <= 1 || r.fgHeld != {} || r.fg != [] || r.holds > 0 then 1 else r.slots - 1)
            && (r.active < r.slots ==> r.fg == [])
            && (r.active < r.slots && r.bg != [] ==>
                  |r.bgHeld|
                  >= if r.slots <= 1 || r.fgHeld != {} || r.fg != [] || r.holds > 0 then 1 else r.slots - 1)
  {
    StepKeepsInv(q, e);
  }

  /** Holds of the foreground that a run has left unreleased. */
  function HoldsLeft(es: seq<Event>): int {
    if es == [] then 0
    else (match es[0] case EvHold => 1 case EvUnhold => -1 case _ => 0) + HoldsLeft(es[1..])
  }

  /** The size a run leaves: the last one set, and at least one slot. */
  function SizeLeft(slots: int, es: seq<Event>): int
    decreases |es|
  {
    if es == [] then slots
    else SizeLeft(if es[0].EvSetSlots? then (if es[0].n < 1 then 1 else es[0].n) else slots, es[1..])
  }

  lemma GrantSameSize(q: Queue)
    ensures Grant(q).slots == q.slots && Grant(q).holds == q.holds
    decreases |q.fg| + |q.bg|
  {
    if q.active >= q.slots {
    } else if |q.fg| > 0 {
      GrantSameSize(GrantFg(q));
    } else if |q.bg| > 0 && BgActive(q) < BgMax(q) {
      GrantSameSize(GrantBg(q));
    }
  }

  lemma {:induction false} SizeAndHolds(q: Queue, es: seq<Event>)
    requires RunOk(q, es)
    ensures Run(q, es).holds == q.holds + HoldsLeft(es) && Run(q, es).slots == SizeLeft(q.slots, es)
    decreases |es|
  {
    if es != [] {
      StepSizeAndHolds(q, es[0]);
      SizeAndHolds(Step(q, es[0]), es[1..]);
    }
  }

  lemma StepSizeAndHolds(q: Queue, e: Event)
    requires Enabled(q, e)
    ensures Step(q, e).holds == q.holds + HoldsLeft([e]) && Step(q, e).slots == SizeLeft(q.slots, [e])
  {
    assert HoldsLeft([e][1..]) == 0 && SizeLeft(0, [e][1..]) == 0;
    match e
    case EvCancel(j) => GrantSameSize(Drop(q, j));
    case EvRelease(j) => GrantSameSize(Drop(q, j));
    case EvUnhold => GrantSameSize(q.(holds := q.holds - 1));
    case EvSetSlots(n) => GrantSameSize(Resize(q, n));
    case _ =>
  }

  /** From a new queue, in every run: the size is the last one set, the holds those not released; the counters are the
      outstanding grants, no free slot is stranded, and the foreground reads as idle exactly when no fetch holds or
      waits and nobody holds it. */
  lemma NewQueueRuns(slots: int, es: seq<Event>)
    requires slots >= 1 && RunOk(Initial(slots), es)
    ensures var q := Run(Initial(slots), es);
            && q.slots == SizeLeft(slots, es) && q.holds == HoldsLeft(es)
            && q.active == |q.fgHeld| + |q.bgHeld| && q.fgActive == |q.fgHeld|
            && (q.active < q.slots ==> q.fg == [])
            && (q.active < q.slots && q.bg != [] ==>
                  |q.bgHeld|
                  >= if q.slots <= 1 || q.fgHeld != {} || q.fg != [] || q.holds > 0 then 1 else q.slots - 1)
            && (q.idle <==> q.fgHeld == {} && q.fg == [] && q.holds == 0)
  {
    RunKeepsInv(Initial(slots), es);
    SizeAndHolds(Initial(slots), es);
  }

  // ---- nobody is lost ----

  lemma {:induction false} GrantLosesNobody(q: Queue, j: Job)
    ensures var r := Grant(q);
            && (j in r.fg || j in r.fgHeld <==> j in q.fg || j in q.fgHeld)
            && (j in r.bg || j in r.bgHeld <==> j in q.bg || j in q.bgHeld)
            && (j in q.fgHeld ==> j in r.fgHeld) && (j in q.bgHeld ==> j in r.bgHeld)
    decreases |q.fg| + |q.bg|
  {
    if q.active >= q.slots {
    } else if |q.fg| > 0 {
      assert j in q.fg <==> j == q.fg[0] || j in q.fg[1..];
      GrantLosesNobody(GrantFg(q), j);
    } else if |q.bg| > 0 && BgActive(q) < BgMax(q) {
      assert j in q.bg <==> j == q.bg[0] || j in q.bg[1..];
      GrantLosesNobody(GrantBg(q), j);
    }
  }

  /** A job waits or holds a slot, in its class, exactly from its acquire to its release or cancellation; and once it
      holds one, nothing else takes it away. */
  lemma JobsExactly(q: Queue, e: Event, j: Job)
    requires Inv(q) && Enabled(q, e)
    ensures var r := Step(q, e);
            && (j in r.fg || j in r.fgHeld <==>
                  e == EvEnter(j, true)
                  || ((j in q.fg || j in q.fgHeld) && e != EvCancel(j) && e != EvRelease(j)))
            && (j in r.bg || j in r.bgHeld <==>
                  e == EvEnter(j, false)
                  || ((j in q.bg || j in q.bgHeld) && e != EvCancel(j) && e != EvRelease(j)))
            && (j in q.fgHeld && e != EvCancel(j) && e != EvRelease(j) ==> j in r.fgHeld)
            && (j in q.bgHeld && e != EvCancel(j) && e != EvRelease(j) ==> j in r.bgHeld)
  {
    match e
    case EvEnter(i, isFg) =>
      assert j in q.fg + [i] <==> j in q.fg || j == i;
      assert j in q.bg + [i] <==> j in q.bg || j == i;
    case EvCancel(i) => CancelLosesOne(q, i, j);
    case EvRelease(i) => GrantLosesNobody(Drop(q, i), j);
    case EvHold =>
    case EvUnhold => GrantLosesNobody(q.(holds := q.holds - 1), j);
    case EvSetSlots(n) => GrantLosesNobody(Resize(q, n), j);
  }

  lemma CancelLosesOne(q: Queue, i: Job, j: Job)
    requires Inv(q) && Known(q, i)
    ensures var r := Cancel(q, i);
            && (j in r.fg || j in r.fgHeld <==> (j in q.fg || j in q.fgHeld) && j != i)
            && (j in r.bg || j in r.bgHeld <==> (j in q.bg || j in q.bgHeld) && j != i)
            && (j in q.fgHeld && j != i ==> j in r.fgHeld) && (j in q.bgHeld && j != i ==> j in r.bgHeld)
  {
    if i in q.fg {
      WithoutFacts(q.fg, i);
    } else if i in q.bg {
      WithoutFacts(q.bg, i);
    } else {
      GrantLosesNobody(Drop(q, i), j);
    }
  }

  // ---- fairness ----

  function Index(s: seq<Job>, j: Job): (i: nat)
    requires j in s
    ensures i < |s| && s[i] == j && j !in s[..i]
  {
    if s[0] == j then 0 else 1 + Index(s[1..], j)
  }

  /** While a fetch waits, a step lets in nobody but fetches that were ahead of it: no background job and no later fetch
      overtakes it (unless it gets its own slot in that very step). */
  lemma NoOvertaking(q: Queue, e: Event, f: Job, g: Job)
    requires Inv(q) && Enabled(q, e) && f in q.fg && f in Step(q, e).fg
    requires g in Granted(q, Step(q, e))
    ensures g in q.fg[..Index(q.fg, f)]
  {
    StepKeepsInv(q, e);
    var s := Step(q, e);
    match e
    case EvEnter(j, isFg) =>
    case EvHold =>
    case EvCancel(j) =>
      if j in q.fgHeld || j in q.bgHeld {
        ReleaseOvertakesNobody(q, j, f, g);
      }
    case EvRelease(j) => ReleaseOvertakesNobody(q, j, f, g);
    case EvUnhold =>
    case EvSetSlots(n) => GrantOvertakesNobody(Resize(q, n), f, g);
  }

  lemma GrantOvertakesNobody(q: Queue, f: Job, g: Job)
    requires NoDup(q.fg) && f in q.fg && f in Grant(q).fg && g in Granted(q, Grant(q))
    ensures g in q.fg[..Index(q.fg, f)]
  {
    GrantServesOldest(q);
    var k, i := Room(q), Index(q.fg, f);
    var m: nat :| m < |q.fg[k..]| && q.fg[k..][m] == f;
    assert q.fg[k + m] == f;
    assert k <= i;
    var n: nat :| n < k && q.fg[..k][n] == g;
    assert q.fg[..i][n] == g;
  }

  lemma ReleaseOvertakesNobody(q: Queue, j: Job, f: Job, g: Job)
    requires Inv(q) && (j in q.fgHeld || j in q.bgHeld) && f in q.fg && f in Release(q, j).fg
    requires g in Granted(q, Release(q, j))
    ensures g in q.fg[..Index(q.fg, f)]
  {
    GrantOvertakesNobody(Drop(q, j), f, g);
  }

  /** Granting takes background jobs from the head of their queue too. */
  lemma {:induction false} GrantServesOldestBg(q: Queue) returns (k: nat)
    ensures k <= |q.bg| && Grant(q).bg == q.bg[k..] && Grant(q).bgHeld == q.bgHeld + set j | j in q.bg[..k]
    decreases |q.fg| + |q.bg|
  {
    k := 0;
    if q.active >= q.slots {
    } else if |q.fg| > 0 {
      k := GrantServesOldestBg(GrantFg(q));
    } else if |q.bg| > 0 && BgActive(q) < BgMax(q) {
      var m := GrantServesOldestBg(GrantBg(q));
      k := m + 1;
      assert q.bg[1..][m..] == q.bg[k..];
      assert q.bg[..k] == [q.bg[0]] + q.bg[1..][..m];
    }
  }

  lemma GrantKeepsBgOrder(q: Queue, f: Job, g: Job)
    requires NoDup(q.bg) && f in q.bg && f in Grant(q).bg && g in Grant(q).bgHeld - q.bgHeld
    ensures g in q.bg[..Index(q.bg, f)]
  {
    var k := GrantServesOldestBg(q);
    var i := Index(q.bg, f);
    var m: nat :| m < |q.bg[k..]| && q.bg[k..][m] == f;
    assert q.bg[k + m] == f;
    assert k <= i;
    var n: nat :| n < k && q.bg[..k][n] == g;
    assert q.bg[..i][n] == g;
  }

  /** Background jobs are served in order too: while one waits, a step gives a slot to none that came after it. */
  lemma BackgroundInOrder(q: Queue, e: Event, f: Job, g: Job)
    requires Inv(q) && Enabled(q, e) && f in q.bg && f in Step(q, e).bg
    requires g in Step(q, e).bgHeld - q.bgHeld
    ensures g in q.bg[..Index(q.bg, f)]
  {
    match e
    case EvEnter(j, isFg) =>
    case EvCancel(j) =>
      if j in q.fgHeld || j in q.bgHeld {
        GrantKeepsBgOrder(Drop(q, j), f, g);
      }
    case EvRelease(j) => GrantKeepsBgOrder(Drop(q, j), f, g);
    case EvHold =>
    case EvUnhold => GrantKeepsBgOrder(q.(holds := q.holds - 1), f, g);
    case EvSetSlots(n) => GrantKeepsBgOrder(Resize(q, n), f, g);
  }

  /** How many releases a waiting fetch may still have to see: those ahead of it, itself, and the overhang a shrunk
      queue drains first. */
  function Bypass(q: Queue, f: Job): int
    requires f in q.fg
  {
    Index(q.fg, f) + 1 + (if q.active > q.slots then q.active - q.slots else 0)
  }

  predicate Frees(q: Queue, e: Event) {
    match e
    case EvRelease(_) => true
    case EvCancel(j) => j !in q.fg && j !in q.bg
    case _ => false
  }

  predicate Shrinks(q: Queue, e: Event) {
    e.EvSetSlots? && (if e.n < 1 then 1 else e.n) < q.slots
  }

  lemma IndexIs(s: seq<Job>, j: Job, i: nat)
    requires NoDup(s) && i < |s| && s[i] == j
    ensures j in s && Index(s, j) == i
  {
  }

  lemma {:induction false} WithoutIndex(s: seq<Job>, j: Job, f: Job)
    requires NoDup(s) && j in s && f in s && f != j
    ensures f in Without(s, j) && Index(Without(s, j), f) <= Index(s, f)
  {
    WithoutFacts(s, j);
    if s[0] == j {
      var i := Index(s, f);
      assert s[1..][i - 1] == f;
      IndexIs(s[1..], f, i - 1);
    } else if s[0] != f {
      WithoutIndex(s[1..], j, f);
    }
  }

  lemma SplitIndex(s: seq<Job>, f: Job, k: nat)
    requires NoDup(s) && f in s && k <= |s|
    ensures var i := Index(s, f); if i < k then f in s[..k] else f in s[k..] && Index(s[k..], f) == i - k
  {
    var i := Index(s, f);
    if i < k {
      assert s[..k][i] == f;
    } else {
      assert s[k..][i - k] == f;
      IndexIs(s[k..], f, i - k);
    }
  }

  lemma GrantAdvances(q: Queue, f: Job)
    requires NoDup(q.fg) && f in q.fg
    ensures var r := Grant(q); var i := Index(q.fg, f);
            if i < Room(q) then f in r.fgHeld else f in r.fg && Index(r.fg, f) == i - Room(q)
  {
    GrantServesOldest(q);
    SplitIndex(q.fg, f, Room(q));
  }

  /** f has its slot, or its bypass bound fell by at least d. */
  predicate Closer(q: Queue, r: Queue, f: Job, d: nat)
    requires f in q.fg
  {
    f in r.fgHeld || (f in r.fg && Bypass(r, f) <= Bypass(q, f) - d)
  }

  lemma EnterNoFarther(q: Queue, j: Job, isFg: bool, f: Job)
    requires Inv(q) && !Known(q, j) && f in q.fg
    ensures Closer(q, Enter(q, j, isFg), f, 0)
  {
    var i := Index(q.fg, f);
    var r := Enter(q, j, isFg);
    if isFg {
      assert r.fg == q.fg + [j];
      assert r.fg[i] == f && forall x :: x in r.fg <==> x in q.fg || x == j;
      assert NoDup(r.fg);
      IndexIs(r.fg, f, i);
    } else {
      assert r.fg == q.fg;
    }
  }

  lemma ReleaseBringsCloser(q: Queue, j: Job, f: Job)
    requires Inv(q) && (j in q.fgHeld || j in q.bgHeld) && f in q.fg
    ensures Closer(q, Release(q, j), f, 1)
  {
    var d := Drop(q, j);
    ReleaseShape(q, j);
    GrantAdvances(d, f);
    GrantKeeps(d);
    if d.active >= d.slots {
      assert Grant(d) == d;
    }
  }

  lemma GrantNoFarther(q: Queue, d: Queue, f: Job)
    requires f in q.fg && Shape(d) && d.fg == q.fg && d.fgHeld == q.fgHeld && d.active == q.active && d.slots >= q.slots
    requires q.active >= q.slots
    ensures Closer(q, Grant(d), f, 0)
  {
    GrantAdvances(d, f);
    GrantKeeps(d);
    if d.active >= d.slots {
      assert Grant(d) == d;
    }
  }

  /** Each release brings a waiting fetch one closer; nothing else sends it back, whatever arrives, cancels or holds. */
  lemma StepBringsCloser(q: Queue, e: Event, f: Job)
    requires Inv(q) && Enabled(q, e) && f in q.fg && e != EvCancel(f) && !Shrinks(q, e)
    ensures Closer(q, Step(q, e), f, if Frees(q, e) then 1 else 0)
  {
    match e
    case EvEnter(j, isFg) => EnterNoFarther(q, j, isFg, f);
    case EvCancel(j) =>
      if j in q.fg {
        WithoutIndex(q.fg, j, f);
      } else if j !in q.bg {
        ReleaseBringsCloser(q, j, f);
      }
    case EvRelease(j) => ReleaseBringsCloser(q, j, f);
    case EvHold =>
    case EvUnhold => GrantNoFarther(q, q.(holds := q.holds - 1), f);
    case EvSetSlots(n) => GrantNoFarther(q, Resize(q, n), f);
  }

  function Releases(q: Queue, es: seq<Event>): nat
    requires RunOk(q, es)
    decreases |es|
  {
    if es == [] then 0 else (if Frees(q, es[0]) then 1 else 0) + Releases(Step(q, es[0]), es[1..])
  }

  /** Some state of the run, its first included, has f holding a slot. */
  predicate GetsSlot(q: Queue, es: seq<Event>, f: Job)
    requires RunOk(q, es)
    decreases |es|
  {
    f in q.fgHeld || (es != [] && GetsSlot(Step(q, es[0]), es[1..], f))
  }

  predicate NeverShrinks(q: Queue, es: seq<Event>)
    requires RunOk(q, es)
    decreases |es|
  {
    es == [] || (!Shrinks(q, es[0]) && NeverShrinks(Step(q, es[0]), es[1..]))
  }

  /** Bounded bypass: with slots not shrinking, a fetch waiting behind i others has its slot after at most
      i + 1 + max(0, active - slots) releases. */
  lemma {:induction false} BoundedBypass(q: Queue, es: seq<Event>, f: Job)
    requires Inv(q) && RunOk(q, es) && f in q.fg
    requires NeverShrinks(q, es) && EvCancel(f) !in es
    requires Releases(q, es) >= Index(q.fg, f) + 1 + if q.active > q.slots then q.active - q.slots else 0
    ensures GetsSlot(q, es, f)
    decreases |es|
  {
    var r := Step(q, es[0]);
    StepKeepsInv(q, es[0]);
    StepBringsCloser(q, es[0], f);
    if f in r.fg {
      BoundedBypass(r, es[1..], f);
    } else {
      assert GetsSlot(r, es[1..], f);
    }
  }

  /** A waiting background job is never put farther back: whoever comes later waits behind it. */
  lemma BackgroundNoFarther(q: Queue, e: Event, f: Job)
    requires Inv(q) && Enabled(q, e) && f in q.bg && f in Step(q, e).bg && e != EvCancel(f)
    ensures Index(Step(q, e).bg, f) <= Index(q.bg, f)
  {
    match e
    case EvEnter(j, isFg) => IndexIs(q.bg + [j], f, Index(q.bg, f));
    case EvCancel(j) =>
      if j in q.bg && j !in q.fg {
        WithoutIndex(q.bg, j, f);
      } else if j !in q.fg {
        GrantBgNoFarther(Drop(q, j), f);
      }
    case EvRelease(j) => GrantBgNoFarther(Drop(q, j), f);
    case EvHold =>
    case EvUnhold => GrantBgNoFarther(q.(holds := q.holds - 1), f);
    case EvSetSlots(n) => GrantBgNoFarther(Resize(q, n), f);
  }

  lemma GrantBgNoFarther(q: Queue, f: Job)
    requires NoDup(q.bg) && f in q.bg && f in Grant(q).bg
    ensures Index(Grant(q).bg, f) <= Index(q.bg, f)
  {
    var k := GrantServesOldestBg(q);
    var i := Index(Grant(q).bg, f);
    assert q.bg[k + i] == f;
    IndexIs(q.bg, f, k + i);
  }

  // ---- the queue as the source writes it ----

  class NetworkQueue {
    var slots: int
    var active: int
    var fgActive: int
    var fg: seq<Job>
    var bg: seq<Job>
    var holds: nat
    var idle: bool
    ghost var fgHeld: set<Job>
    ghost var bgHeld: set<Job>

    ghost function State(): Queue
      reads this
    {
      Queue(slots, active, fgActive, fg, bg, holds, idle, fgHeld, bgHeld)
    }

    constructor (slots: int)
      ensures State() == Initial(slots)
    {
      this.slots := slots;
      active, fgActive, fg, bg, holds, idle := 0, 0, [], [], 0, true;
      fgHeld, bgHeld := {}, {};
    }

    predicate Busy()
      reads this
    {
      fgActive > 0 || |fg| > 0 || holds > 0
    }

    function Max(): int
      reads this
    {
      if slots <= 1 || Busy() then 1 else slots - 1
    }

    method GrantLocked()
      modifies this
      ensures State() == Grant(old(State()))
    {
      while active < slots
        invariant Grant(State()) == Grant(old(State()))
        decreases |fg| + |bg|
      {
        ghost var q := State();
        if |fg| > 0 {
          fgHeld := fgHeld + {fg[0]};
          fg := fg[1..];
          fgActive := fgActive + 1;
        } else if |bg| > 0 && active - fgActive < Max() {
          bgHeld := bgHeld + {bg[0]};
          bg := bg[1..];
        } else {
          return;
        }
        active := active + 1;
        assert State() == if |q.fg| > 0 then GrantFg(q) else GrantBg(q);
      }
    }

    method MarkFgIdleIf()
      modifies this`idle
      ensures State() == MarkIdleIf(old(State()))
    {
      if !Busy() {
        idle := true;
      }
    }

    /** The part of acquire under the lock; granted says whether the slot is had at once. */
    method Acquire(j: Job, isFg: bool) returns (granted: bool)
      requires !Known(State(), j)
      modifies this
      ensures State() == Enter(old(State()), j, isFg)
      ensures granted <==> j in fgHeld || j in bgHeld
    {
      if isFg {
        idle := false;
      }
      if active < slots && (isFg || (|fg| == 0 && active - fgActive < Max())) {
        active := active + 1;
        if isFg {
          fgActive := fgActive + 1;
          fgHeld := fgHeld + {j};
        } else {
          bgHeld := bgHeld + {j};
        }
        return true;
      }
      if isFg {
        fg := fg + [j];
      } else {
        bg := bg + [j];
      }
      return false;
    }

    static method RemoveWaiter(list: seq<Job>, j: Job) returns (rest: seq<Job>, found: bool)
      ensures found <==> j in list
      ensures rest == if found then Without(list, j) else list
    {
      for i := 0 to |list|
        invariant j !in list[..i]
      {
        if list[i] == j {
          WithoutAt(list, j, i);
          return list[..i] + list[i + 1..], true;
        }
      }
      return list, false;
    }

    /** Release by a job that acquired with isFg. */
    method ReleaseSlot(ghost j: Job, isFg: bool)
      requires j in fgHeld || j in bgHeld
      requires isFg <==> j in fgHeld
      modifies this
      ensures State() == Release(old(State()), j)
    {
      active := active - 1;
      if isFg {
        fgActive := fgActive - 1;
      }
      fgHeld, bgHeld := fgHeld - {j}, bgHeld - {j};
      GrantLocked();
      MarkFgIdleIf();
    }

    method GiveUp(j: Job, isFg: bool)
      requires Known(State(), j) && (isFg <==> j in fg || j in fgHeld)
      modifies this
      ensures State() == Cancel(old(State()), j)
    {
      var rest, found := RemoveWaiter(fg, j);
      fg := rest;
      if !found {
        rest, found := RemoveWaiter(bg, j);
        bg := rest;
      }
      if found {
        MarkFgIdleIf();
        return;
      }
      ReleaseSlot(j, isFg);
    }

    method HoldForeground()
      modifies this
      ensures State() == Hold(old(State()))
    {
      holds := holds + 1;
      idle := false;
    }

    method ReleaseHold()
      requires holds > 0
      modifies this
      ensures State() == Unhold(old(State()))
    {
      holds := holds - 1;
      GrantLocked();
      MarkFgIdleIf();
    }

    method ResizeTo(n: int)
      modifies this
      ensures State() == SetSlots(old(State()), n)
    {
      slots := if n < 1 then 1 else n;
      GrantLocked();
    }
  }

  lemma {:induction false} WithoutAt(s: seq<Job>, j: Job, i: nat)
    requires i < |s| && s[i] == j && j !in s[..i]
    ensures Without(s, j) == s[..i] + s[i + 1..]
  {
    if i > 0 {
      assert s[..i][0] == s[0];
      assert s[1..][..i - 1] == s[..i][1..];
      WithoutAt(s[1..], j, i - 1);
      assert s[1..][i..] == s[i + 1..];
      assert s[..i] == [s[0]] + s[1..][..i - 1];
    }
  }
}
