/** How long a fetch sleeps: the Retry-After floor and the exponential backoff. */
module Backoff {
  import opened Buckets
  import opened FetchModel
  import opened FetchInvariants
  import opened FetchProperties
  import opened FetchCauses
  import opened Sums

  lemma UniformWithin(low: real, high: real, u: UnitInterval)
    ensures MinReal(low, high) <= Uniform(low, high, u) <= MaxReal(low, high)
  {
    if low <= high {
      ProductNonNegative(high - low, u);
      ProductNonNegative(high - low, 1.0 - u);
    } else {
      ProductNonNegative(low - high, u);
      ProductNonNegative(low - high, 1.0 - u);
    }
  }

  lemma ShareOf(part: real, width: real) returns (share: UnitInterval)
    requires 0.0 <= part <= width && 0.0 < width
    ensures width * share == part
  {
    var quotient := part / width;
    assert quotient * width == part;
    if quotient < 0.0 { ProductPositive(width, -quotient); }
    if quotient > 1.0 { ProductPositive(width, quotient - 1.0); }
    share := quotient;
  }

  lemma ProductPositive(a: real, b: real)
    requires 0.0 < a && 0.0 < b
    ensures 0.0 < a * b
  {
  }

  lemma UniformReaches(low: real, high: real, x: real) returns (u: UnitInterval)
    requires low <= x <= high || high <= x <= low
    ensures Uniform(low, high, u) == x
  {
    if low < high {
      u := ShareOf(x - low, high - low);
    } else if high < low {
      u := ShareOf(low - x, low - high);
      assert (high - low) * u == -((low - high) * u);
    } else {
      u := 0.0;
    }
  }

  /** The jitter spreads a sleep over the whole range of its settings; after a Retry-After the
      range starts at no less than 1, and the sleep at no less than that value. */
  lemma JitterReachesAll(cfg: Config, retryAfter: nat, i: nat, x: real) returns (u: UnitInterval)
    requires var low := if retryAfter > 0 && cfg.jitterMin < 1.0 then 1.0 else cfg.jitterMin;
             low <= x <= cfg.jitterMax || cfg.jitterMax <= x <= low
    ensures if retryAfter > 0
            then PlannedSleep(cfg, retryAfter, i, u) == MaxReal(retryAfter as real, retryAfter as real * x)
            else PlannedSleep(cfg, retryAfter, i, u) == (Pow2(i) - 1) as real * cfg.backoffFactor * x
  {
    var low := if retryAfter > 0 then MaxReal(1.0, cfg.jitterMin) else cfg.jitterMin;
    u := UniformReaches(low, cfg.jitterMax, x);
    assert Uniform(low, cfg.jitterMax, u) == x;
  }

  /** Where the jitter range starts: after a Retry-After at no less than 1, so that no part of
      the draw is lost. */
  function LowEnd(cfg: Config, retryAfter: nat): real {
    if retryAfter > 0 && cfg.jitterMin < 1.0 then 1.0 else cfg.jitterMin
  }

  lemma SleepAtDraw(cfg: Config, retryAfter: nat, i: nat, u: UnitInterval)
    requires retryAfter > 0 ==> 1.0 <= cfg.jitterMax
    ensures PlannedSleep(cfg, retryAfter, i, u)
            == BaseDelay(cfg, retryAfter, i) * (LowEnd(cfg, retryAfter) + (cfg.jitterMax - LowEnd(cfg, retryAfter)) * u)
  {
    var factor := Uniform(LowEnd(cfg, retryAfter), cfg.jitterMax, u);
    UniformWithin(LowEnd(cfg, retryAfter), cfg.jitterMax, u);
    if retryAfter > 0 { ProductNonNegative(retryAfter as real, factor - 1.0); }
  }

  lemma EvenGrowth(base: real, low: real, high: real, u: real)
    ensures base * (low + (high - low) * u) == base * low + (base * high - base * low) * u
  {
  }

  /** The ends of the range are what a sleep is at the least and at the greatest draw, and in
      between it grows evenly with the draw. */
  lemma JitterIsUniform(cfg: Config, retryAfter: nat, i: nat, u: UnitInterval)
    requires retryAfter > 0 ==> 1.0 <= cfg.jitterMax
    ensures var base := if retryAfter > 0 then retryAfter as real else Backoff(cfg, i);
            var least, most := base * LowEnd(cfg, retryAfter), base * cfg.jitterMax;
            PlannedSleep(cfg, retryAfter, i, u) == least + (most - least) * u
  {
    SleepAtDraw(cfg, retryAfter, i, u);
    EvenGrowth(BaseDelay(cfg, retryAfter, i), LowEnd(cfg, retryAfter), cfg.jitterMax, u);
  }

  // ----- Retry-After

  lemma RetryAfterSleepWithin(cfg: Config, retryAfter: nat, index: nat, u: UnitInterval)
    requires retryAfter > 0
    ensures retryAfter as real <= PlannedSleep(cfg, retryAfter, index, u)
    ensures PlannedSleep(cfg, retryAfter, index, u)
            <= retryAfter as real * MaxReal(1.0, MaxReal(cfg.jitterMin, cfg.jitterMax))
  {
    var low := MaxReal(1.0, cfg.jitterMin);
    var factor, most := Uniform(low, cfg.jitterMax, u), MaxReal(1.0, MaxReal(cfg.jitterMin, cfg.jitterMax));
    UniformWithin(low, cfg.jitterMax, u);
    ProductNonNegative(retryAfter as real, most - factor);
    ProductNonNegative(retryAfter as real, most - 1.0);
  }

  /** When a reply with a positive Retry-After is retried, the sleep before the next send is
      never shorter than that, whatever the jitter, and never longer than the largest jitter
      multiple of it. */
  lemma RetryAfterIsFloor(cfg: Config, env: nat -> Round, start: real, h: seq<Event>, k: nat)
    ensures var s := Fetched(cfg, env, start, h);
            k < |s.log.sleeps| ==>
              && 1 <= s.log.sleeps[k].index <= |s.log.sends|
              && (AskedDelay(s, k) > 0 ==>
                    && AskedDelay(s, k) as real <= s.log.sleeps[k].duration
                    && s.log.sleeps[k].duration
                       <= AskedDelay(s, k) as real * MaxReal(1.0, MaxReal(cfg.jitterMin, cfg.jitterMax)))
  {
    var s := Fetched(cfg, env, start, h);
    if k < |s.log.sleeps| {
      SleepShape(cfg, env, start, h, k);
      if AskedDelay(s, k) > 0 {
        RetryAfterSleepWithin(cfg, AskedDelay(s, k), s.log.sleeps[k].index, s.log.sleeps[k].unit);
      }
    }
  }

  /** The reply of send k asks for a pause that has passed by the given time. */
  predicate PauseOver(sends: seq<Send>, k: nat, now: real)
    requires k < |sends|
  {
    sends[k].reply.retryAfter > 0 ==> sends[k].at + sends[k].reply.retryAfter as real <= now
  }

  predicate AllPausesOver(sends: seq<Send>) {
    forall k :: 1 <= k < |sends| ==> PauseOver(sends, k - 1, sends[k].at)
  }

  lemma SendsKeepPauses(sends: seq<Send>, x: Send)
    requires AllPausesOver(sends) && (sends != [] ==> PauseOver(sends, |sends| - 1, x.at))
    ensures AllPausesOver(sends + [x])
  {
    forall k | 1 <= k <= |sends| ensures PauseOver(sends + [x], k - 1, (sends + [x])[k].at) {
      if k < |sends| { assert PauseOver(sends, k - 1, sends[k].at); }
    }
  }

  /** Sends keep the pauses asked for, and so will the one the fetch is about to make. */
  predicate PausesKept(s: State) {
    && AllPausesOver(s.log.sends)
    && (s.log.sends != [] ==>
          var n := |s.log.sends| - 1;
          match s.phase
          case Sleeping(d) => PauseOver(s.log.sends, n, s.clock + d)
          case Sending(_) => PauseOver(s.log.sends, n, s.clock)
          case Finished => true
          case _ => s.log.sends[n].at <= s.clock)
  }

  lemma AnswerKeepsPauses(cfg: Config, s: State, w: Round, admitted: bool)
    requires s.phase.Asking? && PausesKept(s)
    requires s.i >= 1 && s.i == |s.log.sends| && s.retry == s.log.sends[s.i - 1].reply.retryAfter
    ensures PausesKept(Answer(cfg, s, w, admitted))
  {
    if s.retry > 0 { RetryAfterSleepWithin(cfg, s.retry, s.i, w.unit); }
    assert Answer(cfg, s, w, admitted).log.sends == s.log.sends;
  }

  lemma TransmitKeepsPauses(cfg: Config, s: State, w: Round)
    requires s.phase.Sending? && PausesKept(s)
    ensures PausesKept(Transmit(cfg, s, w))
  {
    if s.remaining > 0.0 {
      SendsKeepPauses(s.log.sends, Send(s.clock, MinReal(cfg.timeout, s.remaining), w.reply));
    }
  }

  lemma WakeKeepsPauses(cfg: Config, s: State, w: Round)
    requires s.phase.Sleeping? && PausesKept(s)
    ensures PausesKept(Wake(cfg, s, w))
  {
    assert Wake(cfg, s, w).log.sends == s.log.sends;
  }

  lemma ArriveKeepsPauses(cfg: Config, s: State, w: Round)
    requires s.phase.Looping? && PausesKept(s)
    requires s.log.sends != [] ==> s.pending.Some? && s.retry == s.log.sends[|s.log.sends| - 1].reply.retryAfter
    ensures PausesKept(Arrive(cfg, s, w))
  {
    assert Arrive(cfg, s, w).log.sends == s.log.sends;
  }

  lemma LoopingFollowsReply(cfg: Config, s: State)
    requires Inv(cfg, s) && s.phase.Looping? && s.log.sends != []
    ensures s.pending.Some? && s.retry == s.log.sends[|s.log.sends| - 1].reply.retryAfter
  {
  }

  lemma StepKeepsPauses(cfg: Config, s: State, w: Round, admitted: bool)
    requires Inv(cfg, s) && PausesKept(s)
    ensures PausesKept(Step(cfg, s, w, admitted))
  {
    match s.phase
    case Looping =>
      if s.log.sends != [] { LoopingFollowsReply(cfg, s); }
      ArriveKeepsPauses(cfg, s, w);
    case Asking =>
      AskingFollowsReply(cfg, s);
      AnswerKeepsPauses(cfg, s, w, admitted);
    case Sleeping(_) => WakeKeepsPauses(cfg, s, w);
    case Sending(_) => TransmitKeepsPauses(cfg, s, w);
    case Starting => StartingHasSentNothing(cfg, s);
    case Finished =>
  }

  lemma StartingHasSentNothing(cfg: Config, s: State)
    requires Inv(cfg, s) && s.phase.Starting?
    ensures s.log.sends == []
  {
  }

  lemma {:induction false} RunKeepsPauses(cfg: Config, env: nat -> Round, s: State, h: seq<Event>)
    requires Inv(cfg, s) && PausesKept(s)
    ensures PausesKept(Run(cfg, env, s, h).0)
    decreases PassesLeft(cfg, s), Rank(s.phase)
  {
    if !s.phase.Finished? {
      var admitted := Admitted(cfg, HistorySeen(cfg, s, env(s.i), h));
      StepKeepsPauses(cfg, s, env(s.i), admitted);
      StepKeepsInv(cfg, s, env(s.i), admitted);
      RunUnfolds(cfg, env, s, h);
      RunKeepsPauses(cfg, env, Step(cfg, s, env(s.i), admitted),
                     HistoryAfter(cfg, s, HistorySeen(cfg, s, env(s.i), h)));
    }
  }

  /** So the provider never hears from a fetch again before the Retry-After of its last reply
      has passed, whatever the jitter, the clock and the budget do. */
  lemma RetryAfterIsRespected(cfg: Config, env: nat -> Round, start: real, h: seq<Event>, k: nat)
    ensures var sends := Fetched(cfg, env, start, h).log.sends;
            k + 1 < |sends| && sends[k].reply.retryAfter > 0 ==>
              sends[k].at + sends[k].reply.retryAfter as real <= sends[k + 1].at
  {
    InitiallyInv(cfg, start);
    RunKeepsPauses(cfg, env, Initially(start), h);
    var sends := Fetched(cfg, env, start, h).log.sends;
    if k + 1 < |sends| {
      assert PauseOver(sends, k + 1 - 1, sends[k + 1].at);
    }
  }

  // ----- backoff

  /** 2^i - 1. */
  function BackoffMultiple(i: nat): nat {
    PowAtLeast(i);
    Pow2(i) - 1
  }

  /** 2^(n+1) - n - 2, the sum of 2^i - 1 for i from 1 to n. */
  function BackoffSum(n: nat): nat {
    PowAtLeast(n + 1);
    Pow2(n + 1) - n - 2
  }

  lemma BackoffSumStep(n: nat)
    requires n >= 1
    ensures BackoffSum(n) == BackoffSum(n - 1) + BackoffMultiple(n)
  {
  }

  lemma {:induction false} BackoffSumMonotone(m: nat, n: nat)
    requires m <= n
    ensures BackoffSum(m) <= BackoffSum(n)
    decreases n
  {
    if m < n {
      BackoffSumStep(n);
      BackoffSumMonotone(m, n - 1);
    }
  }

  /** The jitter settings may come in either order. */
  function LowJitter(cfg: Config): real { MinReal(cfg.jitterMin, cfg.jitterMax) }
  function HighJitter(cfg: Config): real { MaxReal(cfg.jitterMin, cfg.jitterMax) }

  /** The jitter factor of a backoff sleep. */
  lemma JitterFactor(cfg: Config, delay: real, u: UnitInterval) returns (x: real)
    ensures JitterDelay(cfg, delay, false, u) == delay * x
    ensures LowJitter(cfg) <= x <= HighJitter(cfg)
  {
    x := Uniform(cfg.jitterMin, cfg.jitterMax, u);
    UniformWithin(cfg.jitterMin, cfg.jitterMax, u);
  }

  lemma BackoffSleepIs(cfg: Config, i: nat, u: UnitInterval)
    ensures PlannedSleep(cfg, 0, i, u) == JitterDelay(cfg, BackoffMultiple(i) as real * cfg.backoffFactor, false, u)
  {
    assert BaseDelay(cfg, 0, i) == BackoffMultiple(i) as real * cfg.backoffFactor;
  }

  /** What one unit of backoff comes to under a jitter factor. */
  function Rate(cfg: Config, jitter: real): real { cfg.backoffFactor * jitter }

  lemma RateGrows(cfg: Config, x: real, y: real)
    requires 0.0 <= cfg.backoffFactor && x <= y
    ensures Rate(cfg, x) <= Rate(cfg, y)
  {
    ProductNonNegative(cfg.backoffFactor, y - x);
  }

  lemma UnitsAtRate(cfg: Config, n: nat, x: real)
    ensures n as real * cfg.backoffFactor * x == Repeated(Rate(cfg, x), n)
  {
    RepeatedIsProduct(Rate(cfg, x), n);
    Reorder(n as real, cfg.backoffFactor, x);
  }

  /** A backoff sleep of pass i is 2^i - 1 times a rate between those of the jitter bounds. */
  lemma BackoffSleepRate(cfg: Config, i: nat, u: UnitInterval) returns (x: real)
    ensures LowJitter(cfg) <= x <= HighJitter(cfg)
    ensures PlannedSleep(cfg, 0, i, u) == Repeated(Rate(cfg, x), BackoffMultiple(i))
  {
    x := JitterFactor(cfg, BackoffMultiple(i) as real * cfg.backoffFactor, u);
    BackoffSleepIs(cfg, i, u);
    UnitsAtRate(cfg, BackoffMultiple(i), x);
  }

  /** So it lies between 2^i - 1 times the factor times each jitter bound. */
  lemma BackoffSleepWithin(cfg: Config, i: nat, u: UnitInterval)
    requires 0.0 <= cfg.backoffFactor
    ensures Repeated(Rate(cfg, LowJitter(cfg)), BackoffMultiple(i)) <= PlannedSleep(cfg, 0, i, u)
    ensures PlannedSleep(cfg, 0, i, u) <= Repeated(Rate(cfg, HighJitter(cfg)), BackoffMultiple(i))
  {
    var x := BackoffSleepRate(cfg, i, u);
    RateGrows(cfg, LowJitter(cfg), x);
    RateGrows(cfg, x, HighJitter(cfg));
    RepeatedScales(Rate(cfg, LowJitter(cfg)), Rate(cfg, x), BackoffMultiple(i));
    RepeatedScales(Rate(cfg, x), Rate(cfg, HighJitter(cfg)), BackoffMultiple(i));
  }

  /** The sleeps lie between the two rates, pass by pass. */
  predicate Between(low: real, high: real, sleeps: seq<Sleep>) {
    forall k :: 0 <= k < |sleeps| ==>
      Repeated(low, BackoffMultiple(k + 1)) <= sleeps[k].duration <= Repeated(high, BackoffMultiple(k + 1))
  }

  lemma {:induction false} SleepTimeBetween(low: real, high: real, sleeps: seq<Sleep>)
    requires Between(low, high, sleeps)
    ensures Repeated(low, BackoffSum(|sleeps|)) <= SleepTime(sleeps) <= Repeated(high, BackoffSum(|sleeps|))
  {
    var n := |sleeps|;
    if n == 0 {
      assert BackoffSum(0) == 0;
    } else {
      SleepTimeBetween(low, high, sleeps[..n - 1]);
      assert Repeated(low, BackoffMultiple(n - 1 + 1)) <= sleeps[n - 1].duration;
      assert sleeps[n - 1].duration <= Repeated(high, BackoffMultiple(n - 1 + 1));
      BackoffSumStep(n);
      RepeatedAdds(low, BackoffSum(n - 1), BackoffMultiple(n));
      RepeatedAdds(high, BackoffSum(n - 1), BackoffMultiple(n));
    }
  }

  /** The provider never sent a positive Retry-After. */
  predicate NoRetryAfter(sends: seq<Send>) {
    forall k :: 0 <= k < |sends| ==> sends[k].reply.retryAfter == 0
  }

  lemma FetchSleepsBetween(cfg: Config, env: nat -> Round, start: real, h: seq<Event>)
    requires 0.0 < cfg.backoffFactor
    requires NoRetryAfter(Fetched(cfg, env, start, h).log.sends)
    ensures Between(Rate(cfg, LowJitter(cfg)), Rate(cfg, HighJitter(cfg)),
                    Fetched(cfg, env, start, h).log.sleeps)
  {
    var sleeps := Fetched(cfg, env, start, h).log.sleeps;
    forall k | 0 <= k < |sleeps|
      ensures Repeated(Rate(cfg, LowJitter(cfg)), BackoffMultiple(k + 1)) <= sleeps[k].duration
      ensures sleeps[k].duration <= Repeated(Rate(cfg, HighJitter(cfg)), BackoffMultiple(k + 1))
    {
      SleepShape(cfg, env, start, h, k);
      BackoffSleepWithin(cfg, k + 1, sleeps[k].unit);
    }
  }

  /** The sleeps take between the two rates times 2^(n+1) - n - 2. */
  predicate TimesWithin(low: real, high: real, sleeps: seq<Sleep>) {
    Product(low, BackoffSum(|sleeps|)) <= SleepTime(sleeps) <= Product(high, BackoffSum(|sleeps|))
  }

  lemma BetweenTimes(low: real, high: real, sleeps: seq<Sleep>)
    requires Between(low, high, sleeps)
    ensures TimesWithin(low, high, sleeps)
  {
    SleepTimeBetween(low, high, sleeps);
    RepeatedIsProduct(low, BackoffSum(|sleeps|));
    RepeatedIsProduct(high, BackoffSum(|sleeps|));
  }

  lemma NoBackoffNoDelay(cfg: Config, i: nat)
    requires cfg.backoffFactor <= 0.0
    ensures BaseDelay(cfg, 0, i) <= 0.0
  {
    PowAtLeast(i);
    ProductNonNegative((Pow2(i) - 1) as real, -cfg.backoffFactor);
  }

  /** Without a positive backoff only a Retry-After makes a fetch sleep. */
  lemma NothingToSleepFor(cfg: Config, env: nat -> Round, start: real, h: seq<Event>)
    requires cfg.backoffFactor <= 0.0 && NoRetryAfter(Fetched(cfg, env, start, h).log.sends)
    ensures Fetched(cfg, env, start, h).log.sleeps == []
  {
    var s := Fetched(cfg, env, start, h);
    if s.log.sleeps != [] {
      NoBackoffNoDelay(cfg, s.log.sleeps[0].index);
      SleepShape(cfg, env, start, h, 0);
    }
  }

  lemma NoSleepsNoTime(low: real, high: real)
    ensures TimesWithin(low, high, [])
  {
    assert BackoffSum(0) == 0;
  }

  /** If the provider sends no Retry-After, the n sleeps of a fetch take between jitter_min
      and jitter_max times the factor times 2^(n+1) - n - 2. */
  lemma BackoffSleepTime(cfg: Config, env: nat -> Round, start: real, h: seq<Event>)
    ensures var s := Fetched(cfg, env, start, h);
            NoRetryAfter(s.log.sends) ==>
              TimesWithin(Rate(cfg, LowJitter(cfg)), Rate(cfg, HighJitter(cfg)), s.log.sleeps)
  {
    var s := Fetched(cfg, env, start, h);
    if NoRetryAfter(s.log.sends) && cfg.backoffFactor <= 0.0 {
      NothingToSleepFor(cfg, env, start, h);
      NoSleepsNoTime(Rate(cfg, LowJitter(cfg)), Rate(cfg, HighJitter(cfg)));
    } else if NoRetryAfter(s.log.sends) {
      FetchSleepsBetween(cfg, env, start, h);
      BetweenTimes(Rate(cfg, LowJitter(cfg)), Rate(cfg, HighJitter(cfg)), s.log.sleeps);
    }
  }

  /** All planned sleeping of a fetch fits in its total timeout, for any clock; and each
      completed retry has its sleep, with at most one more. */
  lemma SleepTimeWithinTimeout(cfg: Config, env: nat -> Round, start: real, h: seq<Event>)
    ensures var s := Fetched(cfg, env, start, h);
            && (s.log.sleeps != [] ==> SleepTime(s.log.sleeps) <= cfg.totalTimeout)
            && s.completed <= |s.log.sleeps| <= s.completed + 1
  {
    FetchedInv(cfg, env, start, h);
  }

  lemma FewerRetriesFit(low: real, high: real, sleeps: seq<Sleep>, n: nat, totalTimeout: real)
    requires n <= |sleeps| && 0.0 <= totalTimeout
    requires TimesWithin(low, high, sleeps) && SleepTime(sleeps) <= totalTimeout
    ensures Product(low, BackoffSum(n)) <= totalTimeout
  {
    if low < 0.0 {
      ProductGrows(-low, 0, BackoffSum(n));
      ProductNegates(low, BackoffSum(n));
    } else {
      BackoffSumMonotone(n, |sleeps|);
      ProductGrows(low, BackoffSum(n), BackoffSum(|sleeps|));
    }
  }

  /** So, if the provider sends no Retry-After, the total timeout bounds the number of
      completed retries. */
  lemma BackoffBound(cfg: Config, env: nat -> Round, start: real, h: seq<Event>)
    ensures var s := Fetched(cfg, env, start, h);
            NoRetryAfter(s.log.sends) && s.completed > 0 ==>
              Product(Rate(cfg, LowJitter(cfg)), BackoffSum(s.completed)) <= cfg.totalTimeout
  {
    var s := Fetched(cfg, env, start, h);
    SleepTimeWithinTimeout(cfg, env, start, h);
    BackoffSleepTime(cfg, env, start, h);
    FetchedInv(cfg, env, start, h);
    if NoRetryAfter(s.log.sends) && s.completed > 0 {
      FewerRetriesFit(Rate(cfg, LowJitter(cfg)), Rate(cfg, HighJitter(cfg)),
                      s.log.sleeps, s.completed, cfg.totalTimeout);
    }
  }
}
