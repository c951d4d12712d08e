/** A fetch goes on as long as there is reason to: it retries through retryable replies until
    an authoritative one, given the passes, the time and the budget for it. */
module FetchProgress {
  import opened Wrappers
  import opened Errors
  import opened JsonValues
  import opened Outcome
  import opened Buckets
  import opened FetchModel
  import opened FetchInvariants
  import opened FetchProperties
  import opened Backoff
  import opened Sums

  /** The longest that a retry in pass i can be made to wait, jitter included. */
  function MostSleep(cfg: Config, retryAfter: nat, i: nat): real {
    MaxReal(0.0, BaseDelay(cfg, retryAfter, i)) * MaxReal(1.0, HighJitter(cfg))
  }

  lemma MostSleepIsMost(cfg: Config, retryAfter: nat, i: nat, u: UnitInterval)
    requires BaseDelay(cfg, retryAfter, i) > 0.0
    ensures BaseDelay(cfg, retryAfter, i) <= MostSleep(cfg, retryAfter, i)
    ensures PlannedSleep(cfg, retryAfter, i, u) <= MostSleep(cfg, retryAfter, i)
  {
    var delay, most := BaseDelay(cfg, retryAfter, i), MaxReal(1.0, HighJitter(cfg));
    ProductNonNegative(delay, most - 1.0);
    if retryAfter > 0 {
      RetryAfterSleepWithin(cfg, retryAfter, i, u);
    } else {
      var x := JitterFactor(cfg, delay, u);
      ProductNonNegative(delay, most - x);
    }
  }

  lemma MostSleepNonNegative(cfg: Config, retryAfter: nat, i: nat)
    ensures 0.0 <= MostSleep(cfg, retryAfter, i)
  {
    ProductNonNegative(MaxReal(0.0, BaseDelay(cfg, retryAfter, i)), MaxReal(1.0, HighJitter(cfg)));
  }

  /** The longest it can take, in this world, until the head of pass n and until its send. */
  function TimeToHead(cfg: Config, env: nat -> Round, n: nat): real
    decreases n, 0
  {
    if n == 0 then 0.0 else TimeToSend(cfg, env, n - 1) + env(n - 1).elapsed
  }

  function TimeToSend(cfg: Config, env: nat -> Round, n: nat): real
    decreases n, 1
  {
    TimeToHead(cfg, env, n) + env(n).lag
    + if n == 0 then 0.0 else MostSleep(cfg, env(n - 1).reply.retryAfter, n) + env(n).oversleep
  }

  lemma {:induction false} TimeGrows(cfg: Config, env: nat -> Round, m: nat, n: nat)
    requires m <= n
    ensures TimeToSend(cfg, env, m) <= TimeToSend(cfg, env, n)
    decreases n
  {
    if m < n {
      TimeGrows(cfg, env, m, n - 1);
      MostSleepNonNegative(cfg, env(n - 1).reply.retryAfter, n);
    }
  }

  /** What the first k passes sent. */
  predicate Sent(env: nat -> Round, k: nat, s: State) {
    s.i == k && |s.log.sends| == k && forall j :: 0 <= j < k ==> s.log.sends[j].reply == env(j).reply
  }

  /** Pass k, in time, with tokens left for all passes up to n. */
  predicate OnTime(cfg: Config, deadline: real, limit: real, tokens: int, s: State, h: seq<Event>) {
    s.deadline == deadline && s.clock <= limit && tokens as real <= Level(cfg.budgetCapacity, h)
  }

  /** The head of pass k, all earlier replies having been retryable. */
  predicate AtHead(cfg: Config, env: nat -> Round, start: real, n: nat, k: nat, s: State, h: seq<Event>) {
    && s.phase.Looping? && Sent(env, k, s)
    && OnTime(cfg, start + cfg.totalTimeout, start + TimeToHead(cfg, env, k), if k == 0 then n else n - k + 1, s, h)
    && (if k == 0 then s.pending.None? else s.pending.Some? && s.retry == env(k - 1).reply.retryAfter)
  }

  /** Pass k is about to send. */
  predicate AtSend(cfg: Config, env: nat -> Round, start: real, n: nat, k: nat, s: State, h: seq<Event>) {
    && s.phase.Sending? && Sent(env, k, s) && s.remaining > 0.0
    && OnTime(cfg, start + cfg.totalTimeout, start + TimeToSend(cfg, env, k), n - k, s, h)
  }

  /** The world leaves pass k the passes and the time, and no other request takes its token. */
  predicate CanMake(cfg: Config, env: nat -> Round, n: nat, k: nat) {
    && k <= n <= cfg.totalRetries
    && (k > 0 ==> env(k).others == [])
    && TimeToSend(cfg, env, k) < cfg.totalTimeout
  }

  // ----- the steps of one pass

  lemma ArriveSends(cfg: Config, s: State, w: Round)
    requires s.phase.Looping? && s.i <= cfg.totalRetries && s.clock + w.lag < s.deadline
    requires s.pending.None? || BaseDelay(cfg, s.retry, s.i) <= 0.0
    ensures var t := Arrive(cfg, s, w);
            && t.phase.Sending? && t.i == s.i && t.log.sends == s.log.sends && t.deadline == s.deadline
            && t.clock == s.clock + w.lag && t.remaining == s.deadline - t.clock
  {
  }

  lemma ArriveAsks(cfg: Config, s: State, w: Round)
    requires s.phase.Looping? && s.i <= cfg.totalRetries && s.pending.Some?
    requires 0.0 < BaseDelay(cfg, s.retry, s.i) <= s.deadline - (s.clock + w.lag)
    ensures var t := Arrive(cfg, s, w);
            && t.phase.Asking? && t.i == s.i && t.log.sends == s.log.sends && t.deadline == s.deadline
            && t.clock == s.clock + w.lag && t.remaining == s.deadline - t.clock && t.retry == s.retry
  {
  }

  lemma AnswerSleeps(cfg: Config, s: State, w: Round)
    requires s.phase.Asking? && PlannedSleep(cfg, s.retry, s.i, w.unit) <= s.remaining
    ensures var t := Answer(cfg, s, w, true);
            && t.phase == Sleeping(PlannedSleep(cfg, s.retry, s.i, w.unit))
            && t.i == s.i && t.log.sends == s.log.sends && t.deadline == s.deadline && t.clock == s.clock
  {
  }

  lemma WakeSends(cfg: Config, s: State, w: Round)
    requires s.phase.Sleeping? && s.clock + s.phase.duration + w.oversleep < s.deadline
    ensures var t := Wake(cfg, s, w);
            && t.phase.Sending? && t.i == s.i && t.log.sends == s.log.sends && t.deadline == s.deadline
            && t.clock == s.clock + s.phase.duration + w.oversleep && t.remaining == s.deadline - t.clock
  {
  }

  lemma TransmitSends(cfg: Config, s: State, w: Round)
    requires s.phase.Sending? && s.remaining > 0.0
    ensures var t := Transmit(cfg, s, w);
            && t.deadline == s.deadline && t.clock == s.clock + w.elapsed && t.retry == w.reply.retryAfter
            && |t.log.sends| == |s.log.sends| + 1 && s.log.sends <= t.log.sends
            && t.log.sends[|s.log.sends|].reply == w.reply
            && (if Retryable(cfg, w.reply) then t.phase.Looping? && t.i == s.i + 1 && t.pending.Some?
                else t.phase.Finished? && t.i == s.i)
  {
  }

  /** One step of a run from a state of which only the range is known. */
  lemma RunNext(cfg: Config, env: nat -> Round, s: State, h: seq<Event>, t: State, after: seq<Event>)
    requires InRange(cfg, s) && !s.phase.Finished?
    requires var seen := HistorySeen(cfg, s, env(s.i), h);
             t == Step(cfg, s, env(s.i), Admitted(cfg, seen)) && after == HistoryAfter(cfg, s, seen)
    ensures InRange(cfg, t) && Run(cfg, env, s, h) == Run(cfg, env, t, after)
  {
    RunUnfolds(cfg, env, s, h);
  }

  /** Without a delay, a pass goes straight to its send. */
  lemma HeadToSendAtOnce(cfg: Config, env: nat -> Round, start: real, n: nat, k: nat, s: State, h: seq<Event>)
    returns (t: State)
    requires AtHead(cfg, env, start, n, k, s, h) && CanMake(cfg, env, n, k)
    requires k == 0 || BaseDelay(cfg, s.retry, k) <= 0.0
    ensures AtSend(cfg, env, start, n, k, t, h) && InRange(cfg, s) && InRange(cfg, t)
    ensures Run(cfg, env, s, h) == Run(cfg, env, t, h)
  {
    if k > 0 { MostSleepNonNegative(cfg, env(k - 1).reply.retryAfter, k); }
    t := Arrive(cfg, s, env(k));
    ArriveSends(cfg, s, env(k));
    RunNext(cfg, env, s, h, t, h);
  }

  lemma TokenTaken(cfg: Config, h: seq<Event>)
    requires 1.0 <= Level(cfg.budgetCapacity, h)
    ensures Level(cfg.budgetCapacity, Apply(cfg.budgetCapacity, h, Consume(1.0))) == Level(cfg.budgetCapacity, h) - 1.0
  {
    LevelExtends(cfg.budgetCapacity, h, Taken(1.0));
  }

  /** With a delay, it takes a token and sleeps first. */
  lemma HeadToSendLater(cfg: Config, env: nat -> Round, start: real, n: nat, k: nat, s: State, h: seq<Event>)
    returns (t: State, after: seq<Event>)
    requires AtHead(cfg, env, start, n, k, s, h) && CanMake(cfg, env, n, k)
    requires k > 0 && BaseDelay(cfg, s.retry, k) > 0.0
    ensures AtSend(cfg, env, start, n, k, t, after) && InRange(cfg, s) && InRange(cfg, t)
    ensures Run(cfg, env, s, h) == Run(cfg, env, t, after)
  {
    MostSleepIsMost(cfg, s.retry, k, env(k).unit);
    var asking := Arrive(cfg, s, env(k));
    ArriveAsks(cfg, s, env(k));
    RunNext(cfg, env, s, h, asking, h);
    var sleeping := Answer(cfg, asking, env(k), true);
    after := Apply(cfg.budgetCapacity, h, Consume(1.0));
    AnswerSleeps(cfg, asking, env(k));
    TokenTaken(cfg, h);
    RunNext(cfg, env, asking, h, sleeping, after);
    t := Wake(cfg, sleeping, env(k));
    WakeSends(cfg, sleeping, env(k));
    RunNext(cfg, env, sleeping, after, t, after);
  }

  lemma HeadToSend(cfg: Config, env: nat -> Round, start: real, n: nat, k: nat, s: State, h: seq<Event>)
    returns (t: State, after: seq<Event>)
    requires AtHead(cfg, env, start, n, k, s, h) && CanMake(cfg, env, n, k)
    ensures AtSend(cfg, env, start, n, k, t, after) && InRange(cfg, s) && InRange(cfg, t)
    ensures Run(cfg, env, s, h) == Run(cfg, env, t, after)
  {
    if k == 0 || BaseDelay(cfg, s.retry, k) <= 0.0 {
      t := HeadToSendAtOnce(cfg, env, start, n, k, s, h);
      after := h;
    } else {
      t, after := HeadToSendLater(cfg, env, start, n, k, s, h);
    }
  }

  /** The send itself: on to the next pass, or, with an authoritative reply, to the end. */
  lemma SendOnce(cfg: Config, env: nat -> Round, start: real, n: nat, k: nat, s: State, h: seq<Event>)
    returns (t: State)
    requires AtSend(cfg, env, start, n, k, s, h) && InRange(cfg, s)
    ensures InRange(cfg, t) && Run(cfg, env, s, h) == Run(cfg, env, t, h)
    ensures if Retryable(cfg, env(k).reply) then AtHead(cfg, env, start, n, k + 1, t, h)
            else t.phase.Finished? && |t.log.sends| == k + 1
                 && forall j :: 0 <= j <= k ==> t.log.sends[j].reply == env(j).reply
  {
    t := Transmit(cfg, s, env(k));
    TransmitSends(cfg, s, env(k));
    RunNext(cfg, env, s, h, t, h);
  }

  lemma OnePass(cfg: Config, env: nat -> Round, start: real, n: nat, k: nat, s: State, h: seq<Event>)
    returns (t: State, after: seq<Event>)
    requires AtHead(cfg, env, start, n, k, s, h) && CanMake(cfg, env, n, k)
    ensures InRange(cfg, s) && InRange(cfg, t) && Run(cfg, env, s, h) == Run(cfg, env, t, after)
    ensures if Retryable(cfg, env(k).reply) then AtHead(cfg, env, start, n, k + 1, t, after)
            else t.phase.Finished? && |t.log.sends| == k + 1
                 && forall j :: 0 <= j <= k ==> t.log.sends[j].reply == env(j).reply
  {
    var sending;
    sending, after := HeadToSend(cfg, env, start, n, k, s, h);
    t := SendOnce(cfg, env, start, n, k, sending, after);
  }

  /** Reasons to go on, up to pass n: retryable replies before it, time until it, and passes;
      and no other request in the way. */
  ghost predicate GoesOn(cfg: Config, env: nat -> Round, n: nat) {
    && n <= cfg.totalRetries && TimeToSend(cfg, env, n) < cfg.totalTimeout
    && (forall i: nat :: i < n ==> Retryable(cfg, env(i).reply))
    && (forall i: nat :: 1 <= i <= n ==> env(i).others == [])
  }

  lemma CanGoOn(cfg: Config, env: nat -> Round, n: nat, k: nat)
    requires GoesOn(cfg, env, n) && k <= n
    ensures CanMake(cfg, env, n, k) && (k < n ==> Retryable(cfg, env(k).reply))
  {
    TimeGrows(cfg, env, k, n);
  }

  lemma NextHead(cfg: Config, env: nat -> Round, start: real, n: nat, k: nat, s: State, h: seq<Event>)
    returns (t: State, after: seq<Event>)
    requires GoesOn(cfg, env, n) && k < n && AtHead(cfg, env, start, n, k, s, h)
    ensures InRange(cfg, s) && InRange(cfg, t) && Run(cfg, env, s, h) == Run(cfg, env, t, after)
    ensures AtHead(cfg, env, start, n, k + 1, t, after)
  {
    CanGoOn(cfg, env, n, k);
    t, after := OnePass(cfg, env, start, n, k, s, h);
  }

  lemma Opened(cfg: Config, env: nat -> Round, start: real, n: nat, h: seq<Event>) returns (s: State, after: seq<Event>)
    requires n <= cfg.totalRetries
    requires n as real <= Level(cfg.budgetCapacity, Apply(cfg.budgetCapacity, h, Add(cfg.refillPerInitial)))
    ensures InRange(cfg, s) && AtHead(cfg, env, start, n, 0, s, after)
    ensures Run(cfg, env, Initially(start), h) == Run(cfg, env, s, after)
  {
    s := Open(cfg, Initially(start));
    after := Apply(cfg.budgetCapacity, h, Add(cfg.refillPerInitial));
    RunNext(cfg, env, Initially(start), h, s, after);
  }

  lemma {:induction false} ReachesHead(cfg: Config, env: nat -> Round, start: real, n: nat, k: nat, h: seq<Event>)
    returns (s: State, after: seq<Event>)
    requires GoesOn(cfg, env, n) && k <= n
    requires n as real <= Level(cfg.budgetCapacity, Apply(cfg.budgetCapacity, h, Add(cfg.refillPerInitial)))
    ensures InRange(cfg, s) && AtHead(cfg, env, start, n, k, s, after)
    ensures Run(cfg, env, Initially(start), h) == Run(cfg, env, s, after)
    decreases k
  {
    if k == 0 {
      s, after := Opened(cfg, env, start, n, h);
    } else {
      var head, at := ReachesHead(cfg, env, start, n, k - 1, h);
      s, after := NextHead(cfg, env, start, n, k - 1, head, at);
    }
  }

  /** The first sends of a run's end state are those of any state on the way. */
  lemma ReachesReply(cfg: Config, env: nat -> Round, start: real, n: nat, h: seq<Event>)
    returns (s: State, after: seq<Event>)
    requires GoesOn(cfg, env, n)
    requires n as real <= Level(cfg.budgetCapacity, Apply(cfg.budgetCapacity, h, Add(cfg.refillPerInitial)))
    ensures InRange(cfg, s) && Run(cfg, env, Initially(start), h) == Run(cfg, env, s, after)
    ensures if Retryable(cfg, env(n).reply) then AtHead(cfg, env, start, n, n + 1, s, after)
            else s.phase.Finished? && |s.log.sends| == n + 1
                 && forall j :: 0 <= j <= n ==> s.log.sends[j].reply == env(j).reply
  {
    var head, at := ReachesHead(cfg, env, start, n, n, h);
    CanGoOn(cfg, env, n, n);
    s, after := OnePass(cfg, env, start, n, n, head, at);
  }

  /** What the caller of `fetch` gets for an authoritative reply: the provider's own body, with
      a positive Retry-After added to an error. */
  predicate PassesOn(reply: Reply, result: Body) {
    && result.Keys == reply.body.Keys + (if Error in reply.body && reply.retryAfter > 0 then {RetryAfter} else {})
    && (forall f :: f in reply.body && f != RetryAfter ==> result[f] == reply.body[f])
    && (RetryAfter in result ==>
          result[RetryAfter] == if Error in reply.body && reply.retryAfter > 0 then Number(reply.retryAfter)
                                else Get(reply.body, RetryAfter))
  }

  lemma PassedOn(cfg: Config, env: nat -> Round, start: real, h: seq<Event>)
    ensures var s := Fetched(cfg, env, start, h);
            s.log.sends != [] && !Retryable(cfg, s.log.sends[|s.log.sends| - 1].reply) ==>
              PassesOn(s.log.sends[|s.log.sends| - 1].reply, Returned(s))
  {
    FetchedInv(cfg, env, start, h);
  }

  /** While replies are retryable, the fetch goes on to the first authoritative one and passes
      it on, if passes, time and tokens last until then; and each retry was counted. */
  lemma RetriesUntilAnswered(cfg: Config, env: nat -> Round, start: real, h: seq<Event>, n: nat)
    requires GoesOn(cfg, env, n) && !Retryable(cfg, env(n).reply)
    requires n as real <= Level(cfg.budgetCapacity, Apply(cfg.budgetCapacity, h, Add(cfg.refillPerInitial)))
    ensures var s := Fetched(cfg, env, start, h);
            && |s.log.sends| == n + 1
            && (forall k :: 0 <= k <= n ==> s.log.sends[k].reply == env(k).reply)
            && (cfg.backoffFactor > 0.0 ==> s.completed == n && Skips(s) == 0)
            && PassesOn(env(n).reply, Returned(s))
  {
    var s, after := ReachesReply(cfg, env, start, n, h);
    assert Fetched(cfg, env, start, h) == s;
    PassedOn(cfg, env, start, h);
    AnsweredWithoutSkip(cfg, env, start, h);
  }

  /** After an authoritative reply nothing was skipped and every other send was a retry. */
  lemma AnsweredWithoutSkip(cfg: Config, env: nat -> Round, start: real, h: seq<Event>)
    ensures var s := Fetched(cfg, env, start, h);
            cfg.backoffFactor > 0.0 && s.log.sends != [] && !Retryable(cfg, s.log.sends[|s.log.sends| - 1].reply) ==>
              |s.log.sends| == s.completed + 1 && Skips(s) == 0
  {
    if cfg.backoffFactor > 0.0 {
      var s := Fetched(cfg, env, start, h);
      DisciplinedRunConserves(cfg, env, start, h);
      if s.log.sends != [] {
        CountedRetryable(cfg, s.log.sends[..|s.log.sends| - 1]);
      }
    }
  }

  lemma {:induction false} CountedRetryable(cfg: Config, sends: seq<Send>)
    ensures CountRetryable(cfg, sends) <= |sends|
  {
    if sends != [] { CountedRetryable(cfg, sends[..|sends| - 1]); }
  }

  /** And if no reply is authoritative, it uses up its passes. */
  lemma TriesEveryPass(cfg: Config, env: nat -> Round, start: real, h: seq<Event>)
    requires cfg.totalRetries >= 0 && GoesOn(cfg, env, cfg.totalRetries)
    requires Retryable(cfg, env(cfg.totalRetries).reply)
    requires cfg.totalRetries as real
             <= Level(cfg.budgetCapacity, Apply(cfg.budgetCapacity, h, Add(cfg.refillPerInitial)))
    ensures |Fetched(cfg, env, start, h).log.sends| == cfg.totalRetries + 1
  {
    var s, after := ReachesReply(cfg, env, start, cfg.totalRetries, h);
    RunUnfolds(cfg, env, s, after);
    var t := Step(cfg, s, env(s.i), Admitted(cfg, after));
    assert t.phase.Finished? && t.log.sends == s.log.sends;
    assert Run(cfg, env, s, after) == (t, after);
  }

  // ----- the settings as shipped

  const DEFAULTS: Config := Config(
    20.0, 5.0, 3, 8.0, 0.25, {429, 502, 503, 504}, map["errorTransient" := TemporarilyUnavailable], 0.1, 0.75, 1.25)

  lemma DefaultsLeaveTokens()
    ensures Level(8.0, Apply(8.0, [], Add(0.25))) == 8.0
  {
    LevelExtends(8.0, [], Added(0.25));
  }

  lemma FirstBackoff()
    ensures MostSleep(DEFAULTS, 0, 1) == 0.125
  {
    assert Pow2(1) == 2;
    assert BaseDelay(DEFAULTS, 0, 1) == 0.1;
    assert MaxReal(1.0, HighJitter(DEFAULTS)) == 1.25;
  }

  lemma DefaultsLeaveTime(env: nat -> Round)
    requires env(0).reply.retryAfter == 0
    requires env(0).elapsed <= 5.0 && env(0).lag + env(1).lag + env(1).oversleep <= 1.0
    ensures TimeToSend(DEFAULTS, env, 1) < 20.0
  {
    FirstBackoff();
    assert TimeToSend(DEFAULTS, env, 0) == env(0).lag;
    assert TimeToHead(DEFAULTS, env, 1) == env(0).lag + env(0).elapsed;
  }

  /** One 503 and then a token: with the shipped settings and an idle budget the fetch returns
      the token after one retry, if the provider takes no more than its two timeouts. */
  lemma DefaultsRideOutOne503(env: nat -> Round, start: real, token: Body)
    requires env(0).reply.status == Some(503) && env(0).reply.retryAfter == 0
    requires env(1).reply == Reply(Some(200), token, 0) && env(1).others == []
    requires env(0).elapsed <= 5.0 && env(0).lag + env(1).lag + env(1).oversleep <= 1.0
    ensures var s := Fetched(DEFAULTS, env, start, []);
            |s.log.sends| == 2 && s.completed == 1 && Skips(s) == 0 && PassesOn(env(1).reply, Returned(s))
  {
    DefaultsLeaveTime(env);
    DefaultsLeaveTokens();
    RetriesUntilAnswered(DEFAULTS, env, start, [], 1);
  }
}
