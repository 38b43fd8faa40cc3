/** The global want-token pool and the fetches that share it (wantPool and rollingGetBlocks in fetch.go).

    The first part is the concurrent system, one step per access to shared state: a token received from or sent to the
    pool's channel, a change of a fetch's held counter, a controller step under the pool's mutex. The second part is the
    controller's code run on its own. */
module WantPool {
  // ---- the fan of one batch ----

  datatype FanPc =
    | Receiving       // waiting for the batch's next block
    | Counting        // a block arrived; its token is not counted back yet
    | Returning       // counted; the token is not back in the pool yet
    | Forwarding      // handing the block on
    | Draining        // no more blocks: returning what is left
    | DrainReturning
    | Done

  datatype Fan = Fan(batch: nat, delivered: nat, released: nat, pc: FanPc)

  /** The tokens a fan has not returned to the pool. */
  function FanOwned(f: Fan): int {
    f.batch - f.released + if f.pc.Returning? || f.pc.DrainReturning? then 1 else 0
  }

  /** The wants of a batch that are still asked for. */
  function FanOutstanding(f: Fan): int {
    if f.pc.Draining? || f.pc.DrainReturning? || f.pc.Done? then 0 else f.batch - f.delivered
  }

  predicate FanInv(f: Fan) {
    && f.released <= f.batch && f.delivered <= f.batch
    && (match f.pc
        case Counting => f.delivered == f.released + 1
        case Receiving => f.delivered == f.released
        case Returning => f.delivered == f.released
        case Forwarding => f.delivered == f.released
        case Done => f.released == f.batch
        case _ => true)
  }

  // ---- one fetch: its producer and its fans ----

  datatype ProducerPc =
    | Top         // at the head of the loop
    | MayTake     // under its cap: about to take a token (the first of a batch waits for one)
    | Took        // took a token; not counted as held yet
    | Filling     // counted: topping the batch up, or about to ask for it
    | Waiting     // asked for everything, or cancelled: waiting for the fans
    | Closed      // every fan done, the output closed

  datatype Fetch = Fetch(
    need: nat, requested: nat, got: nat, held: int, pc: ProducerPc, cancelled: bool, fans: seq<Fan>)

  function FansOwned(fans: seq<Fan>): int {
    if fans == [] then 0 else FansOwned(fans[..|fans| - 1]) + FanOwned(fans[|fans| - 1])
  }

  function FansUnreleased(fans: seq<Fan>): int {
    if fans == [] then 0
    else FansUnreleased(fans[..|fans| - 1]) + fans[|fans| - 1].batch - fans[|fans| - 1].released
  }

  function FansOutstanding(fans: seq<Fan>): int {
    if fans == [] then 0 else FansOutstanding(fans[..|fans| - 1]) + FanOutstanding(fans[|fans| - 1])
  }

  /** The tokens a fetch has taken from the pool and not sent back. */
  function Owned(f: Fetch): int {
    f.got + (if f.pc.Took? then 1 else 0) + FansOwned(f.fans)
  }

  const MAX_PER_FETCH := 384

  /** The most tokens one fetch may hold: half of what circulates, between 1 and MAX_PER_FETCH. */
  function PerFetch(limit: int): int {
    var c := limit / 2;
    if c < 1 then 1 else if c > MAX_PER_FETCH then MAX_PER_FETCH else c
  }

  ghost predicate FetchInv(f: Fetch) {
    && (forall k :: 0 <= k < |f.fans| ==> FanInv(f.fans[k]))
    && f.held == f.got + FansUnreleased(f.fans)
    && f.held <= MAX_PER_FETCH && (f.pc.MayTake? || f.pc.Took? ==> f.held < MAX_PER_FETCH)
    && f.requested + f.got <= f.need
    && (f.pc.MayTake? || f.pc.Took? ==> f.requested + f.got < f.need)
    && (f.pc.Filling? ==> f.got > 0)
    && (f.pc.Top? || f.pc.Waiting? || f.pc.Closed? ==> f.got == 0)
    && (f.pc.Closed? ==> forall k :: 0 <= k < |f.fans| ==> f.fans[k].pc.Done?)
  }

  datatype FanEvent =
    | Deliver   // a block arrives
    | Uncount   // held - 1
    | Return    // the token sent back
    | Forward   // the block handed on
    | GiveUp    // the batch's channel closed, or the fetch was cancelled
    | Exit

  predicate FanEnabled(f: Fan, e: FanEvent, cancelled: bool) {
    match e
    case Deliver => f.pc.Receiving? && f.delivered < f.batch
    case Uncount => f.pc.Counting? || (f.pc.Draining? && f.released < f.batch)
    case Return => f.pc.Returning? || f.pc.DrainReturning?
    case Forward => f.pc.Forwarding?
    case GiveUp => f.pc.Receiving? || (f.pc.Forwarding? && cancelled)
    case Exit => f.pc.Draining? && f.released == f.batch
  }

  function FanStep(f: Fan, e: FanEvent): Fan {
    match e
    case Deliver => f.(delivered := f.delivered + 1, pc := Counting)
    case Uncount => f.(released := f.released + 1, pc := if f.pc.Counting? then Returning else DrainReturning)
    case Return => f.(pc := if f.pc.Returning? then Forwarding else Draining)
    case Forward => f.(pc := Receiving)
    case GiveUp => f.(pc := Draining)
    case Exit => f.(pc := Done)
  }

  datatype FetchEvent =
    | CheckCap             // the producer reads held below its cap
    | TakeToken            // a token received from the pool's channel
    | CountToken           // held + 1
    | Ask                  // the batch is asked for and gets its fan
    | StopAsking           // everything asked for, or cancelled
    | CloseOutput
    | CancelFetch
    | OfFan(k: nat, e: FanEvent)

  /** batchMax is the refill batch; free and limit are the pool's. */
  predicate FetchEnabled(f: Fetch, e: FetchEvent, free: nat, limit: int, batchMax: nat) {
    match e
    case CheckCap =>
      && f.held < PerFetch(limit) && f.requested + f.got < f.need
      && ((f.pc.Top? && !f.cancelled) || (f.pc.Filling? && f.got < batchMax))
    case TakeToken => f.pc.MayTake? && free > 0
    case CountToken => f.pc.Took?
    case Ask => f.got > 0 && (f.pc.Filling? || f.pc.MayTake?)  // MayTake: the pool is momentarily empty
    case StopAsking =>
      && f.got == 0
      && ((f.pc.Top? && (f.cancelled || f.requested >= f.need)) || (f.pc.MayTake? && f.cancelled))
    case CloseOutput => f.pc.Waiting? && forall k :: 0 <= k < |f.fans| ==> f.fans[k].pc.Done?
    case CancelFetch => true
    case OfFan(k, fe) => k < |f.fans| && FanEnabled(f.fans[k], fe, f.cancelled)
  }

  function FetchStep(f: Fetch, e: FetchEvent): Fetch
    requires e.OfFan? ==> e.k < |f.fans|
  {
    match e
    case CheckCap => f.(pc := MayTake)
    case TakeToken => f.(pc := Took)
    case CountToken => f.(pc := Filling, held := f.held + 1, got := f.got + 1)
    case Ask =>
      f.(pc := Top, requested := f.requested + f.got, got := 0, fans := f.fans + [Fan(f.got, 0, 0, Receiving)])
    case StopAsking => f.(pc := Waiting)
    case CloseOutput => f.(pc := Closed)
    case CancelFetch => f.(cancelled := true)
    case OfFan(k, fe) => f.(fans := f.fans[k := FanStep(f.fans[k], fe)], held := f.held - if fe.Uncount? then 1 else 0)
  }

  // ---- the sums ----

  lemma {:induction false} FansUpdate(fans: seq<Fan>, k: nat, x: Fan)
    requires k < |fans|
    ensures FansOwned(fans[k := x]) == FansOwned(fans) - FanOwned(fans[k]) + FanOwned(x)
    ensures FansOutstanding(fans[k := x]) == FansOutstanding(fans) - FanOutstanding(fans[k]) + FanOutstanding(x)
    ensures FansUnreleased(fans[k := x])
            == FansUnreleased(fans) - (fans[k].batch - fans[k].released) + (x.batch - x.released)
    decreases |fans|
  {
    var n := |fans| - 1;
    if k == n {
      assert fans[k := x][..n] == fans[..n];
    } else {
      assert fans[k := x][..n] == fans[..n][k := x];
      FansUpdate(fans[..n], k, x);
    }
  }

  lemma FansAppend(fans: seq<Fan>, x: Fan)
    ensures FansOwned(fans + [x]) == FansOwned(fans) + FanOwned(x)
    ensures FansUnreleased(fans + [x]) == FansUnreleased(fans) + x.batch - x.released
  {
    assert (fans + [x])[..|fans|] == fans;
  }

  /** A fan's counted and outstanding wants are covered by the tokens it owns. */
  lemma {:induction false} FansCovered(fans: seq<Fan>)
    requires forall k :: 0 <= k < |fans| ==> FanInv(fans[k])
    ensures 0 <= FansOutstanding(fans) <= FansOwned(fans)
    ensures 0 <= FansUnreleased(fans)
    ensures (forall k :: 0 <= k < |fans| ==> fans[k].pc.Done?) ==> FansOwned(fans) == 0
    ensures forall k :: 0 <= k < |fans| ==> FanOwned(fans[k]) <= FansOwned(fans)
    decreases |fans|
  {
    if fans != [] {
      FansCovered(fans[..|fans| - 1]);
    }
  }

  /** What a step takes from the pool (negative: what it returns). */
  function Taken(e: FetchEvent): int {
    match e
    case TakeToken => 1
    case OfFan(_, fe) => if fe.Return? then -1 else 0
    case _ => 0
  }

  lemma FanStepKeeps(f: Fan, e: FanEvent, cancelled: bool)
    requires FanInv(f) && FanEnabled(f, e, cancelled)
    ensures FanInv(FanStep(f, e))
    ensures FanOwned(FanStep(f, e)) == FanOwned(f) - if e.Return? then 1 else 0
    ensures FanStep(f, e).released == f.released + (if e.Uncount? then 1 else 0) && FanStep(f, e).batch == f.batch
  {
  }

  lemma FanOfFetchKeeps(f: Fetch, k: nat, e: FanEvent)
    requires FetchInv(f) && k < |f.fans| && FanEnabled(f.fans[k], e, f.cancelled)
    ensures FetchInv(FetchStep(f, OfFan(k, e)))
    ensures Owned(FetchStep(f, OfFan(k, e))) == Owned(f) + Taken(OfFan(k, e))
  {
    FanStepKeeps(f.fans[k], e, f.cancelled);
    FansUpdate(f.fans, k, FanStep(f.fans[k], e));
  }

  lemma AskKeeps(f: Fetch)
    requires FetchInv(f) && f.got > 0 && (f.pc.Filling? || f.pc.MayTake?)
    ensures FetchInv(FetchStep(f, Ask)) && Owned(FetchStep(f, Ask)) == Owned(f)
  {
    FansAppend(f.fans, Fan(f.got, 0, 0, Receiving));
  }

  /** A step of the producer that leaves its fans alone. */
  lemma ProducerKeeps(f: Fetch, e: FetchEvent, free: nat, limit: int, batchMax: nat)
    requires FetchInv(f) && FetchEnabled(f, e, free, limit, batchMax) && !e.OfFan? && !e.Ask?
    ensures FetchInv(FetchStep(f, e)) && Owned(FetchStep(f, e)) == Owned(f) + Taken(e)
  {
  }

  /** Every step of a fetch keeps its own invariant, and owns exactly what it took. */
  lemma FetchStepKeeps(f: Fetch, e: FetchEvent, free: nat, limit: int, batchMax: nat)
    requires FetchInv(f) && FetchEnabled(f, e, free, limit, batchMax)
    ensures FetchInv(FetchStep(f, e))
    ensures Owned(FetchStep(f, e)) == Owned(f) + Taken(e)
  {
    match e
    case OfFan(k, fe) => FanOfFetchKeeps(f, k, fe);
    case Ask => AskKeeps(f);
    case _ => ProducerKeeps(f, e, free, limit, batchMax);
  }

  // ---- the pool, its controllers, and all fetches ----

  /** Where the one controller inside the mutex is in setLimitLocked(n); n already raised to the floor. */
  datatype Controller =
    | Out
    | Raising(n: int)       // the first loop's head
    | Sent(n: int)          // a parked token sent, parked not yet lowered
    | Lowering(n: int)      // the second loop's head
    | Parking(n: int)       // a token received, parked not yet raised

  datatype Pool = Pool(size: nat, free: nat, parked: int, limit: int, ctl: Controller, fetches: seq<Fetch>)

  const WANT_FLOOR := 32

  function Initial(size: nat): Pool {
    Pool(size, size, 0, size, Out, [])
  }

  function TotalOwned(fs: seq<Fetch>): int {
    if fs == [] then 0 else TotalOwned(fs[..|fs| - 1]) + Owned(fs[|fs| - 1])
  }

  /** The wants outstanding in all fetches. */
  function TotalOutstanding(fs: seq<Fetch>): int {
    if fs == [] then 0 else TotalOutstanding(fs[..|fs| - 1]) + FansOutstanding(fs[|fs| - 1].fans)
  }

  /** The token between the channel and the parked count, while a controller moves it. */
  function InHand(c: Controller): int {
    match c
    case Sent(_) => -1
    case Parking(_) => 1
    case _ => 0
  }

  ghost predicate Inv(p: Pool) {
    && (forall i :: 0 <= i < |p.fetches| ==> FetchInv(p.fetches[i]))
    && p.free + p.parked + InHand(p.ctl) + TotalOwned(p.fetches) == p.size
    && 0 <= p.parked <= p.size && (p.ctl.Sent? ==> p.parked > 0)
    && (p.ctl.Parking? ==> p.parked < p.size)
    && (p.ctl.Out? ==> p.limit == p.size - p.parked)
  }

  datatype Event =
    | Open(need: nat)                          // a fetch starts
    | OfFetch(i: nat, e: FetchEvent, batchMax: nat)
    | SetLimit(n: int)                         // a controller enters the mutex
    | Control                                  // its next access to shared state

  predicate Enabled(p: Pool, e: Event) {
    match e
    case Open(_) => true
    case OfFetch(i, fe, batchMax) => i < |p.fetches| && FetchEnabled(p.fetches[i], fe, p.free, p.limit, batchMax)
    case SetLimit(_) => p.ctl.Out?
    case Control => !p.ctl.Out?
  }

  /** A controller's next step; a send that finds the channel full would block, and is left where it is. */
  function ControlStep(p: Pool): Pool {
    match p.ctl
    case Out => p
    case Raising(n) =>
      if p.size - p.parked < n && p.parked > 0 then
        if p.free < p.size then p.(free := p.free + 1, ctl := Sent(n)) else p
      else p.(ctl := Lowering(n))
    case Sent(n) => p.(parked := p.parked - 1, ctl := Raising(n))
    case Lowering(n) =>
      if p.size - p.parked > n && p.free > 0 then p.(free := p.free - 1, ctl := Parking(n))
      else p.(ctl := Out, limit := p.size - p.parked)
    case Parking(n) => p.(parked := p.parked + 1, ctl := Lowering(n))
  }

  /** release drops the token when it finds the channel full. */
  function Released(p: Pool): nat {
    if p.free < p.size then p.free + 1 else p.free
  }

  function Step(p: Pool, e: Event): Pool
    requires Enabled(p, e)
  {
    match e
    case Open(need) => p.(fetches := p.fetches + [Fetch(need, 0, 0, 0, Top, false, [])])
    case OfFetch(i, fe, _) =>
      p.(fetches := p.fetches[i := FetchStep(p.fetches[i], fe)],
         free := if Taken(fe) == 1 then p.free - 1 else if Taken(fe) == -1 then Released(p) else p.free)
    case SetLimit(n) => p.(ctl := Raising(if n < WANT_FLOOR then WANT_FLOOR else n))
    case Control => ControlStep(p)
  }

  lemma {:induction false} TotalUpdate(fs: seq<Fetch>, i: nat, f: Fetch)
    requires i < |fs|
    ensures TotalOwned(fs[i := f]) == TotalOwned(fs) - Owned(fs[i]) + Owned(f)
    decreases |fs|
  {
    var n := |fs| - 1;
    if i == n {
      assert fs[i := f][..n] == fs[..n];
    } else {
      assert fs[i := f][..n] == fs[..n][i := f];
      TotalUpdate(fs[..n], i, f);
    }
  }

  lemma {:induction false} TotalCovered(fs: seq<Fetch>)
    requires forall i :: 0 <= i < |fs| ==> FetchInv(fs[i])
    ensures 0 <= TotalOutstanding(fs) <= TotalOwned(fs)
    ensures forall i :: 0 <= i < |fs| ==> Owned(fs[i]) <= TotalOwned(fs)
    decreases |fs|
  {
    if fs != [] {
      var n := |fs| - 1;
      TotalCovered(fs[..n]);
      FansCovered(fs[n].fans);
    }
  }

  /** A fan about to send its token back owns it, so the channel has room: release never finds the pool full. */
  lemma ReleaseHasRoom(p: Pool, i: nat, k: nat)
    requires Inv(p) && i < |p.fetches| && k < |p.fetches[i].fans| && FanEnabled(p.fetches[i].fans[k], Return, false)
    ensures p.free < p.size && Released(p) == p.free + 1
  {
    TotalCovered(p.fetches);
    FansCovered(p.fetches[i].fans);
    assert FanOwned(p.fetches[i].fans[k]) >= 1;
    assert Owned(p.fetches[i]) >= 1;
  }

  /** A controller about to send a parked token finds room: the send under the mutex never blocks. */
  lemma ControllerNeverBlocks(p: Pool)
    requires Inv(p) && p.ctl.Raising? && p.size - p.parked < p.ctl.n && p.parked > 0
    ensures p.free < p.size && ControlStep(p).ctl.Sent?
  {
    TotalCovered(p.fetches);
  }

  lemma ControlKeepsInv(p: Pool)
    requires Inv(p) && !p.ctl.Out?
    ensures Inv(ControlStep(p))
  {
    TotalCovered(p.fetches);
    if p.ctl.Raising? && p.size - p.parked < p.ctl.n && p.parked > 0 {
      ControllerNeverBlocks(p);
    }
  }

  lemma StepKeepsInv(p: Pool, e: Event)
    requires Inv(p) && Enabled(p, e)
    ensures Inv(Step(p, e))
  {
    match e
    case Open(need) =>
      var f := Fetch(need, 0, 0, 0, Top, false, []);
      assert (p.fetches + [f])[..|p.fetches|] == p.fetches;
    case OfFetch(i, fe, batchMax) =>
      FetchStepKeeps(p.fetches[i], fe, p.free, p.limit, batchMax);
      TotalUpdate(p.fetches, i, FetchStep(p.fetches[i], fe));
      if fe.OfFan? && fe.e.Return? {
        ReleaseHasRoom(p, i, fe.k);
      }
    case SetLimit(n) =>
    case Control => ControlKeepsInv(p);
  }

  predicate RunOk(p: Pool, es: seq<Event>)
    decreases |es|
  {
    es == [] || (Enabled(p, es[0]) && RunOk(Step(p, es[0]), es[1..]))
  }

  function Run(p: Pool, es: seq<Event>): Pool
    requires RunOk(p, es)
    decreases |es|
  {
    if es == [] then p else Run(Step(p, es[0]), es[1..])
  }

  lemma {:induction false} RunKeepsInv(p: Pool, es: seq<Event>)
    requires Inv(p) && RunOk(p, es)
    ensures Inv(Run(p, es)) && Run(p, es).size == p.size
    decreases |es|
  {
    if es != [] {
      StepKeepsInv(p, es[0]);
      RunKeepsInv(Step(p, es[0]), es[1..]);
    }
  }

  /** In every interleaving, from a fresh pool: no token is made or lost; the outstanding wants stay within the pool
      (and within what circulates, whenever no controller is at work); no fetch holds more than its cap; and a closed
      fetch holds nothing. */
  lemma Conservation(size: nat, es: seq<Event>)
    requires RunOk(Initial(size), es)
    ensures var p := Run(Initial(size), es);
            && p.free + p.parked + InHand(p.ctl) + TotalOwned(p.fetches) == size
            && TotalOutstanding(p.fetches) <= size
            && (p.ctl.Out? ==> TotalOutstanding(p.fetches) <= p.limit)
            && forall i :: 0 <= i < |p.fetches| ==>
                 p.fetches[i].held <= MAX_PER_FETCH
                 && (p.fetches[i].pc.Closed? ==> Owned(p.fetches[i]) == 0 && p.fetches[i].held == 0)
  {
    RunKeepsInv(Initial(size), es);
    var p := Run(Initial(size), es);
    TotalCovered(p.fetches);
    forall i | 0 <= i < |p.fetches|
      ensures p.fetches[i].pc.Closed? ==> Owned(p.fetches[i]) == 0 && p.fetches[i].held == 0
    {
      if p.fetches[i].pc.Closed? {
        FansCovered(p.fetches[i].fans);
        AllReturned(p.fetches[i].fans);
      }
    }
  }

  lemma {:induction false} AllReturned(fans: seq<Fan>)
    requires forall k :: 0 <= k < |fans| ==> FanInv(fans[k]) && fans[k].pc.Done?
    ensures FansUnreleased(fans) == 0
    decreases |fans|
  {
    if fans != [] {
      AllReturned(fans[..|fans| - 1]);
    }
  }

  // ---- every want is asked for ----

  function Batches(fans: seq<Fan>): nat {
    if fans == [] then 0 else Batches(fans[..|fans| - 1]) + fans[|fans| - 1].batch
  }

  /** What was requested is in the batches of its fans, and a fetch stops asking only cancelled or with all
      asked for. */
  ghost predicate Asked(f: Fetch) {
    && f.requested == Batches(f.fans)
    && (f.pc.Waiting? || f.pc.Closed? ==> f.cancelled || f.requested >= f.need)
  }

  lemma {:induction false} BatchesUpdate(fans: seq<Fan>, k: nat, x: Fan)
    requires k < |fans| && x.batch == fans[k].batch
    ensures Batches(fans[k := x]) == Batches(fans)
    decreases |fans|
  {
    var n := |fans| - 1;
    if k == n {
      assert fans[k := x][..n] == fans[..n];
    } else {
      assert fans[k := x][..n] == fans[..n][k := x];
      BatchesUpdate(fans[..n], k, x);
    }
  }

  lemma StepAsked(f: Fetch, e: FetchEvent, free: nat, limit: int, batchMax: nat)
    requires FetchInv(f) && FetchEnabled(f, e, free, limit, batchMax) && Asked(f)
    ensures Asked(FetchStep(f, e))
  {
    match e
    case OfFan(k, fe) => BatchesUpdate(f.fans, k, FanStep(f.fans[k], fe));
    case Ask => assert (f.fans + [Fan(f.got, 0, 0, Receiving)])[..|f.fans|] == f.fans;
    case _ =>
  }

  lemma {:induction false} AskedInRun(p: Pool, es: seq<Event>)
    requires Inv(p) && RunOk(p, es) && forall i :: 0 <= i < |p.fetches| ==> Asked(p.fetches[i])
    ensures forall i :: 0 <= i < |Run(p, es).fetches| ==> Asked(Run(p, es).fetches[i])
    decreases |es|
  {
    if es != [] {
      if es[0].OfFetch? {
        StepAsked(p.fetches[es[0].i], es[0].e, p.free, p.limit, es[0].batchMax);
      }
      StepKeepsInv(p, es[0]);
      AskedInRun(Step(p, es[0]), es[1..]);
    }
  }

  /** In every interleaving, a fetch that closes its output uncancelled has asked for everything it needs, each want
      once. */
  lemma ClosedAskedForAll(size: nat, es: seq<Event>, i: nat)
    requires RunOk(Initial(size), es) && i < |Run(Initial(size), es).fetches|
    ensures var f := Run(Initial(size), es).fetches[i];
            f.pc.Closed? && !f.cancelled ==> Batches(f.fans) == f.need
  {
    RunKeepsInv(Initial(size), es);
    AskedInRun(Initial(size), es);
  }

  // ---- the limit, and a fetch's share of it ----

  /** A controller's steps with nobody else's in between. */
  function Controlled(p: Pool): Pool
    requires 0 <= p.parked <= p.size && (p.ctl.Raising? || p.ctl.Lowering? || p.ctl.Out?)
    requires p.free + p.parked <= p.size
    decreases if p.ctl.Raising? then 2 else if p.ctl.Lowering? then 1 else 0,
              if p.ctl.Raising? then p.parked else p.free
  {
    match p.ctl
    case Raising(n) =>
      if p.size - p.parked < n && p.parked > 0 then Controlled(ControlStep(ControlStep(p)))
      else Controlled(ControlStep(p))
    case Lowering(n) =>
      if p.size - p.parked > n && p.free > 0 then Controlled(ControlStep(ControlStep(p)))
      else Controlled(ControlStep(p))
    case _ => p
  }

  lemma {:induction false} LoweringEnds(p: Pool)
    requires 0 <= p.parked <= p.size && p.ctl.Lowering? && p.free + p.parked <= p.size
    ensures var r, n, c := Controlled(p), p.ctl.n, p.size - p.parked;
            && r.ctl.Out? && r.limit == r.size - r.parked && r.size == p.size && r.free + r.parked == p.free + p.parked
            && r.limit == if c <= n then c else if c - p.free >= n then c - p.free else n
    decreases p.free
  {
    if p.size - p.parked > p.ctl.n && p.free > 0 {
      var q := ControlStep(ControlStep(p));
      assert q == p.(free := p.free - 1, parked := p.parked + 1);
      LoweringEnds(q);
    }
  }

  lemma {:induction false} RaisingEnds(p: Pool)
    requires 0 <= p.parked <= p.size && p.ctl.Raising? && p.free + p.parked <= p.size
    ensures var r, n, c := Controlled(p), p.ctl.n, p.size - p.parked;
            && r.ctl.Out? && r.limit == r.size - r.parked && r.size == p.size && r.free + r.parked == p.free + p.parked
            && (c <= n ==> r.limit == if n <= p.size then n else p.size)
            && (c > n ==> r.limit == if c - p.free >= n then c - p.free else n)
    decreases p.parked
  {
    if p.size - p.parked < p.ctl.n && p.parked > 0 {
      var q := ControlStep(ControlStep(p));
      assert q == p.(free := p.free + 1, parked := p.parked - 1);
      RaisingEnds(q);
    } else {
      LoweringEnds(ControlStep(p));
    }
  }

  /** Undisturbed, setting the limit raises what circulates to n (at least 32, at most the whole pool) at once, and
      lowers it to n as far as free tokens allow: those in use go on circulating. */
  lemma SetLimitSettles(p: Pool, n: int)
    requires Inv(p) && p.ctl.Out? && p.limit == p.size - p.parked
    ensures var q := Step(p, SetLimit(n));
            && q.free + q.parked <= q.size && 0 <= q.parked <= q.size && q.ctl.Raising?
            && var r, m := Controlled(q), if n < 32 then 32 else n;
               && r.ctl.Out? && r.free + r.parked == p.free + p.parked
               && (p.limit <= m ==> r.limit == if m <= p.size then m else p.size)
               && (p.limit > m ==> r.limit == if p.limit - p.free >= m then p.limit - p.free else m)
               && r.limit == Circulating(p.size, p.limit, p.free, n)
  {
    TotalCovered(p.fetches);
    RaisingEnds(Step(p, SetLimit(n)));
  }

  /** A fetch with wants left goes for another token exactly while it holds none, or less than both 384 and half of what
      circulates, rounded down. */
  lemma CapExactly(f: Fetch, free: nat, limit: int, batchMax: nat)
    requires FetchInv(f) && f.pc.Top? && !f.cancelled && f.requested < f.need && 0 <= f.held
    ensures FetchEnabled(f, CheckCap, free, limit, batchMax) <==>
              f.held == 0 || (f.held < 384 && 2 * (f.held + 1) <= limit)
  {
  }

  /** A fetch's share of at most c circulating tokens: one, or half. */
  predicate WithinHalf(f: Fetch, c: int) {
    && (f.held <= 1 || 2 * f.held <= c)
    && (f.pc.MayTake? || f.pc.Took? ==> f.held <= 0 || 2 * (f.held + 1) <= c)
  }

  lemma StepWithinHalf(p: Pool, e: Event, c: int)
    requires Inv(p) && Enabled(p, e) && p.limit <= c
    requires forall i :: 0 <= i < |p.fetches| ==> WithinHalf(p.fetches[i], c)
    ensures forall i :: 0 <= i < |Step(p, e).fetches| ==> WithinHalf(Step(p, e).fetches[i], c)
  {
    if e.OfFetch? {
      FetchWithinHalf(p.fetches[e.i], e.e, p.free, p.limit, e.batchMax, c);
    }
  }

  lemma FetchWithinHalf(f: Fetch, e: FetchEvent, free: nat, limit: int, batchMax: nat, c: int)
    requires FetchInv(f) && FetchEnabled(f, e, free, limit, batchMax) && limit <= c && WithinHalf(f, c)
    ensures WithinHalf(FetchStep(f, e), c)
  {
  }

  /** The limit stays at or below c throughout the run. */
  predicate LimitWithin(p: Pool, es: seq<Event>, c: int)
    requires RunOk(p, es)
    decreases |es|
  {
    p.limit <= c && (es == [] || LimitWithin(Step(p, es[0]), es[1..], c))
  }

  lemma {:induction false} HalfInRun(p: Pool, es: seq<Event>, c: int)
    requires Inv(p) && RunOk(p, es) && LimitWithin(p, es, c)
    requires forall i :: 0 <= i < |p.fetches| ==> WithinHalf(p.fetches[i], c)
    ensures forall i :: 0 <= i < |Run(p, es).fetches| ==> WithinHalf(Run(p, es).fetches[i], c)
    decreases |es|
  {
    if es != [] {
      StepKeepsInv(p, es[0]);
      StepWithinHalf(p, es[0], c);
      HalfInRun(Step(p, es[0]), es[1..], c);
    }
  }

  /** No fetch takes more than half: while at most c tokens circulate, none holds more than one and more than c / 2. */
  lemma HalfAtMost(size: nat, es: seq<Event>, c: int, i: nat)
    requires RunOk(Initial(size), es) && LimitWithin(Initial(size), es, c) && i < |Run(Initial(size), es).fetches|
    ensures var f := Run(Initial(size), es).fetches[i]; f.held <= 1 || 2 * f.held <= c
  {
    HalfInRun(Initial(size), es, c);
  }

  // ---- the controller's code on its own ----

  /** How many tokens circulate after setLimit(n), from how many and with how many of them free. */
  function Circulating(size: nat, before: int, free: nat, n: int): int {
    var want := if n < WANT_FLOOR then WANT_FLOOR else n;
    if before <= want then (if want < size then want else size)
    else if before - free > want then before - free
    else want
  }

  class TokenPool {
    const size: nat
    var tokens: nat        // the channel's length
    var parked: nat
    var limit: int
    var delivered: nat
    var rate: real

    ghost predicate Valid()
      reads this
    {
      tokens + parked <= size
    }

    constructor (n: nat)
      ensures Valid() && size == n && tokens == n && parked == 0 && limit == n && delivered == 0 && rate == 0.0
    {
      size, tokens, parked, limit, delivered, rate := n, n, 0, n, 0, 0.0;
    }

    method TryAcquire() returns (ok: bool)
      modifies this`tokens
      ensures ok <==> old(tokens) > 0
      ensures tokens == old(tokens) - if ok then 1 else 0
    {
      ok := tokens > 0;
      if ok {
        tokens := tokens - 1;
      }
    }

    method Release()
      modifies this`tokens
      ensures tokens == if old(tokens) < size then old(tokens) + 1 else old(tokens)
    {
      if tokens < size {
        tokens := tokens + 1;
      }
    }

    /** Parks or returns tokens toward n circulating: raising reaches n (or the whole pool) at once, lowering parks
        what is free and leaves the rest to a later call. Tokens in use are untouched. */
    method SetLimitLocked(n: int)
      requires Valid()
      modifies this`tokens, this`parked, this`limit
      ensures Valid() && tokens + parked == old(tokens + parked)
      ensures limit == size - parked && limit == Circulating(size, size - old(parked), old(tokens), n)
    {
      var m := if n < WANT_FLOOR then WANT_FLOOR else n;
      while size - parked < m && parked > 0
        invariant Valid() && tokens + parked == old(tokens + parked) && parked <= old(parked)
        invariant parked < old(parked) ==> size - parked <= m
      {
        tokens := tokens + 1;
        parked := parked - 1;
      }
      ghost var raised := parked;
      while size - parked > m
        invariant Valid() && tokens + parked == old(tokens + parked)
        invariant parked > raised ==> size - parked >= m
        invariant parked >= raised
        decreases tokens
      {
        var ok := TryAcquire();
        if !ok {
          break;
        }
        parked := parked + 1;
      }
      limit := size - parked;
    }

    /** One tick: the blocks landed in the last dt seconds, smoothed, set the limit to two seconds' worth. */
    method Tick(dt: real)
      requires Valid()
      modifies this
      ensures Valid() && tokens + parked == old(tokens + parked)
      ensures dt <= 0.0 ==> unchanged(this)
      ensures dt > 0.0 ==> delivered == 0 && rate == 0.5 * old(rate) + 0.5 * (old(delivered) as real / dt)
      ensures dt > 0.0 ==> limit == Circulating(size, size - old(parked), old(tokens), Ceil(rate * 2.0))
    {
      if dt <= 0.0 {
        return;
      }
      rate := 0.5 * rate + 0.5 * (delivered as real / dt);
      delivered := 0;
      SetLimitLocked(Ceil(rate * 2.0));
    }
  }

  function Ceil(x: real): (n: int)
    ensures n as real - 1.0 < x <= n as real
  {
    if x.Floor as real == x then x.Floor else x.Floor + 1
  }
}
