/** The dial budget (netgate.go): one token bucket every new outbound peer dial takes from.

    Times and tokens are reals; the clock is read under the lock, so the attempts of all dialers form one sequence of
    non-decreasing readings. */
module TokenBucket {
  /** Tokens a second, sustained, and the most at once. */
  const DIAL_RATE := 4.0
  const DIAL_BURST := 12.0

  /** started is false until the first attempt fills the bucket. */
  datatype Bucket = Bucket(started: bool, tokens: real, last: real)

  datatype Verdict = Granted | Refused | Wait(delay: real)

  ghost predicate Valid(b: Bucket) {
    b.started ==> 0.0 <= b.tokens <= DIAL_BURST
  }

  function Initial(): Bucket {
    Bucket(false, 0.0, 0.0)
  }

  /** The bucket as an attempt at now finds it: filled at the first one, topped up at the rate after. */
  function Refill(b: Bucket, now: real): Bucket {
    if !b.started then b.(started := true, tokens := DIAL_BURST, last := now)
    else
      var t := b.tokens + (now - b.last) * DIAL_RATE;
      b.(tokens := if t > DIAL_BURST then DIAL_BURST else t, last := now)
  }

  predicate Grants(b: Bucket, now: real) {
    Refill(b, now).tokens >= 1.0
  }

  function Attempt(b: Bucket, now: real): Bucket {
    var r := Refill(b, now);
    if r.tokens >= 1.0 then r.(tokens := r.tokens - 1.0) else r
  }

  /** How long the loop sleeps after a failed attempt that left bucket r. */
  function Delay(r: Bucket): real {
    (1.0 - r.tokens) / DIAL_RATE
  }

  /** The readings of a run's attempts, in the order they took the lock. */
  predicate InOrder(b: Bucket, times: seq<real>) {
    && (b.started && times != [] ==> b.last <= times[0])
    && forall i :: 0 < i < |times| ==> times[i - 1] <= times[i]
  }

  function Run(b: Bucket, times: seq<real>): Bucket
    decreases |times|
  {
    if times == [] then b else Run(Attempt(b, times[0]), times[1..])
  }

  /** How many of the attempts were granted a token. */
  function Count(b: Bucket, times: seq<real>): nat
    decreases |times|
  {
    if times == [] then 0 else (if Grants(b, times[0]) then 1 else 0) + Count(Attempt(b, times[0]), times[1..])
  }

  lemma AttemptValid(b: Bucket, now: real)
    requires Valid(b) && (b.started ==> b.last <= now)
    ensures Valid(Attempt(b, now)) && Attempt(b, now).last == now && Attempt(b, now).started
  {
  }

  lemma {:induction false} RunValid(b: Bucket, times: seq<real>)
    requires Valid(b) && InOrder(b, times)
    ensures Valid(Run(b, times))
    ensures times != [] ==> Run(b, times).started && Run(b, times).last == times[|times| - 1]
    ensures times == [] ==> Run(b, times) == b
    decreases |times|
  {
    if times != [] {
      AttemptValid(b, times[0]);
      RunValid(Attempt(b, times[0]), times[1..]);
    }
  }

  /** The potential argument: what a run grants is paid for by what the bucket held at its first attempt and by what
      flowed in since. */
  lemma {:induction false} CountBound(b: Bucket, times: seq<real>)
    requires Valid(b) && InOrder(b, times) && times != []
    ensures Count(b, times) as real <= Refill(b, times[0]).tokens + DIAL_RATE * (times[|times| - 1] - times[0])
    decreases |times|
  {
    var n, rest := Attempt(b, times[0]), times[1..];
    AttemptValid(b, times[0]);
    if rest != [] {
      CountBound(n, rest);
    }
  }

  /** The budget: in any run, over any window of T seconds, the attempts granted number at most the burst plus the rate
      times T, however many dialers wait and however they interleave. */
  lemma WindowBound(times: seq<real>, i: nat, j: nat, t0: real, T: real)
    requires InOrder(Initial(), times) && i <= j <= |times| && T >= 0.0
    requires forall k :: i <= k < j ==> t0 <= times[k] <= t0 + T
    ensures Count(Run(Initial(), times[..i]), times[i..j]) as real <= DIAL_BURST + DIAL_RATE * T
  {
    RunValid(Initial(), times[..i]);
    var b, w := Run(Initial(), times[..i]), times[i..j];
    assert i > 0 ==> b.last == times[i - 1];
    if w != [] {
      CountBound(b, w);
      assert t0 <= times[i] && times[j - 1] <= t0 + T;
    }
  }

  function AtOnce(n: nat, now: real): seq<real> {
    seq(n, _ => now)
  }

  /** Of n attempts at one instant, a bucket with t tokens then grants as many as t holds whole. */
  lemma {:induction false} BurstOf(b: Bucket, n: nat, now: real, t: nat)
    requires b.started && b.last == now && b.tokens == t as real && t <= 12
    ensures Count(b, AtOnce(n, now)) == if n < t then n else t
    decreases n
  {
    if n > 0 {
      assert AtOnce(n, now)[1..] == AtOnce(n - 1, now);
      BurstOf(Attempt(b, now), n - 1, now, if t > 0 then t - 1 else 0);
    }
  }

  /** A new bucket is full: the first instant grants twelve, no more and no fewer. */
  lemma FirstBurst(n: nat, now: real)
    ensures Count(Initial(), AtOnce(n, now)) == if n < 12 then n else 12
  {
    if n > 0 {
      assert AtOnce(n, now)[1..] == AtOnce(n - 1, now);
      BurstOf(Attempt(Initial(), now), n - 1, now, 11);
    }
  }

  /** The rate is kept up: a run whose attempts come a quarter of a second apart or more is granted every one of
      them. */
  lemma {:induction false} SteadyRate(b: Bucket, times: seq<real>)
    requires Valid(b) && InOrder(b, times) && (times != [] ==> Grants(b, times[0]))
    requires forall i :: 0 < i < |times| ==> times[i] - times[i - 1] >= 0.25
    ensures Count(b, times) == |times|
    decreases |times|
  {
    if times != [] {
      var n, rest := Attempt(b, times[0]), times[1..];
      AttemptValid(b, times[0]);
      if rest != [] {
        assert rest[0] - times[0] >= 0.25;
      }
      SteadyRate(n, rest);
    }
  }

  /** A failed attempt's wait is exact: undisturbed, an attempt at a later time t is granted if and only if t is at or
      past the end of the wait. So a dialer that sleeps it and meets nobody is granted, and one refused could not have
      had a token by its deadline. */
  lemma WaitIsExact(b: Bucket, now: real, t: real)
    requires Valid(b) && (b.started ==> b.last <= now) && !Grants(b, now) && now <= t
    ensures Delay(Attempt(b, now)) > 0.0
    ensures Grants(Attempt(b, now), t) <==> now + Delay(Attempt(b, now)) <= t
  {
    AttemptValid(b, now);
    var r := Attempt(b, now);
    assert Delay(r) * DIAL_RATE == 1.0 - r.tokens;
  }

  /** One attempt in the trace of all dialers' attempts: mine, or somebody else's. */
  datatype Reading = Reading(mine: bool, now: real)

  function Times(trace: seq<Reading>): seq<real> {
    seq(|trace|, i requires 0 <= i < |trace| => trace[i].now)
  }

  lemma {:induction false} RunAppend(b: Bucket, times: seq<real>, now: real)
    ensures Run(b, times + [now]) == Attempt(Run(b, times), now)
    decreases |times|
  {
    if times == [] {
      assert times + [now] == [now];
      assert Run(b, [now]) == Run(Attempt(b, now), []);
    } else {
      assert (times + [now])[1..] == times[1..] + [now];
      RunAppend(Attempt(b, times[0]), times[1..], now);
    }
  }

  class DialBucket {
    var started: bool
    var tokens: real
    var last: real

    ghost function State(): Bucket
      reads this
    {
      Bucket(started, tokens, last)
    }

    constructor ()
      ensures State() == Initial()
    {
      started, tokens, last := false, 0.0, 0.0;
    }

    /** The part of the loop body under the lock. */
    method TryTake(now: real) returns (granted: bool)
      modifies this
      ensures State() == Attempt(old(State()), now)
      ensures granted <==> Grants(old(State()), now)
    {
      if !started {
        started, last, tokens := true, now, DIAL_BURST;
      }
      tokens := tokens + (now - last) * DIAL_RATE;
      if tokens > DIAL_BURST {
        tokens := DIAL_BURST;
      }
      last := now;
      if tokens >= 1.0 {
        tokens := tokens - 1.0;
        return true;
      }
      return false;
    }

    /** The retry loop, over a trace in which other dialers take their turns between mine. It stops at my first attempt
        that is granted, or after which the wait would pass the deadline; used counts the attempts made until then.
        Verdict Wait means the trace ended while still waiting. */
    method Take(deadline: real, trace: seq<Reading>) returns (verdict: Verdict, used: nat)
      requires Valid(State()) && InOrder(State(), Times(trace))
      modifies this
      ensures used <= |trace| && State() == Run(old(State()), Times(trace)[..used])
      ensures verdict.Granted? ==>
                used > 0 && trace[used - 1].mine
                && Grants(Run(old(State()), Times(trace)[..used - 1]), trace[used - 1].now)
      ensures verdict.Refused? ==>
                used > 0 && trace[used - 1].mine
                && forall t :: trace[used - 1].now <= t <= deadline ==> !Grants(State(), t)
      ensures verdict.Wait? ==> used == |trace|
      ensures forall k :: 0 <= k < used - 1 && trace[k].mine ==>
                !Grants(Run(old(State()), Times(trace)[..k]), trace[k].now)
    {
      ghost var b := State();
      ghost var times := Times(trace);
      verdict := Wait(0.0);
      used := 0;
      while used < |trace|
        invariant used <= |trace|
        invariant State() == Run(b, times[..used])
        invariant forall k :: 0 <= k < used && trace[k].mine ==> !Grants(Run(b, times[..k]), trace[k].now)
        invariant verdict.Wait?
      {
        var r := trace[used];
        ghost var before := State();
        RunValid(b, times[..used]);
        RunAppend(b, times[..used], r.now);
        assert times[..used + 1] == times[..used] + [r.now];
        assert before.started ==> before.last <= r.now by {
          assert times[used] == r.now;
          if used > 0 {
            assert times[..used][used - 1] == times[used - 1];
            assert times[used - 1] <= times[used];
          }
        }
        var granted := TryTake(r.now);
        used := used + 1;
        if r.mine {
          if granted {
            return Granted, used;
          }
          var wait := (1.0 - tokens) / DIAL_RATE;
          if r.now + wait > deadline {
            forall t | r.now <= t <= deadline ensures !Grants(State(), t) {
              WaitIsExact(before, r.now, t);
            }
            return Refused, used;
          }
          verdict := Wait(wait);
        }
      }
    }
  }
}
