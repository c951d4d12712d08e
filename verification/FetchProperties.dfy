/** What holds of every whole fetch. */
module FetchProperties {
  import opened Wrappers
  import opened Outcome
  import opened Buckets
  import opened FetchModel
  import opened FetchInvariants

  function Fetched(cfg: Config, env: nat -> Round, start: real, h: seq<Event>): State {
    Run(cfg, env, Initially(start), h).0
  }

  lemma FetchedInv(cfg: Config, env: nat -> Round, start: real, h: seq<Event>)
    ensures var s := Fetched(cfg, env, start, h);
            s.phase.Finished? && Inv(cfg, s) && s.begun == start && s.deadline == start + cfg.totalTimeout
  {
    InitiallyInv(cfg, start);
    RunKeepsInv(cfg, env, Initially(start), h);
  }

  // ----- bookkeeping

  /** The reported numbers account for every send, retryable reply, decision and token. */
  predicate Conserved(cfg: Config, s: State) {
    s.log.sends != [] ==>
      && |s.log.sends| == s.completed + 1
      && CountRetryable(cfg, s.log.sends) == s.completed + Skips(s)
      && Skips(s) <= 1
      && |s.log.attempts| == |s.log.sends|
      && (forall k :: 0 <= k < |s.log.attempts| ==> s.log.attempts[k] == if k == 0 then Initial else Retry)
      && s.completed <= RetryDecisions(s) <= s.completed + 1
      && s.completed <= s.log.draws <= s.completed + 1
  }

  ghost predicate AlwaysConserved(cfg: Config) {
    forall env: nat -> Round, start: real, h: seq<Event> :: Conserved(cfg, Fetched(cfg, env, start, h))
  }

  lemma FinishedConserves(cfg: Config, s: State)
    requires cfg.backoffFactor > 0.0 || cfg.totalRetries < 1 || cfg.totalTimeout <= 0.0
    requires Inv(cfg, s) && s.phase.Finished?
    ensures Conserved(cfg, s)
  {
  }

  lemma DisciplinedRunConserves(cfg: Config, env: nat -> Round, start: real, h: seq<Event>)
    requires cfg.backoffFactor > 0.0 || cfg.totalRetries < 1 || cfg.totalTimeout <= 0.0
    ensures Conserved(cfg, Fetched(cfg, env, start, h))
  {
    FetchedInv(cfg, env, start, h);
  }

  /** A provider that always gives the same reply and costs no time. */
  function ConstantProvider(reply: Reply): nat -> Round {
    i => Round(0.0, [], 0.0, 0.0, 0.0, reply)
  }

  /** A provider that never answers. */
  function DeadProvider(): nat -> Round { ConstantProvider(Reply(None, map[], 0)) }

  /** Up to the second pass against that provider. */
  lemma FirstSendUnanswered(cfg: Config, h: seq<Event>) returns (s: State, after: seq<Event>)
    requires cfg.totalRetries >= 1 && cfg.totalTimeout > 0.0
    ensures Inv(cfg, s) && Run(cfg, DeadProvider(), Initially(0.0), h) == Run(cfg, DeadProvider(), s, after)
    ensures s.phase.Looping? && s.i == 1 && s.retry == 0 && s.deadline - s.clock == cfg.totalTimeout
  {
    InitiallyInv(cfg, 0.0);
    var opening, h1 := Advance(cfg, DeadProvider(), Initially(0.0), h);
    assert opening.phase.Looping? && opening.i == 0 && opening.pending.None?;
    var sending, h2 := Advance(cfg, DeadProvider(), opening, h1);
    assert sending.phase == Sending(false) && sending.remaining == cfg.totalTimeout;
    s, after := Advance(cfg, DeadProvider(), sending, h2);
  }

  /** With no backoff, the second send goes out without asking the budget. */
  lemma ResendUnbudgeted(cfg: Config, h: seq<Event>) returns (s: State, after: seq<Event>)
    requires cfg.backoffFactor <= 0.0 && cfg.totalRetries >= 1 && cfg.totalTimeout > 0.0
    ensures Inv(cfg, s) && Run(cfg, DeadProvider(), Initially(0.0), h) == Run(cfg, DeadProvider(), s, after)
    ensures s.phase == Sending(true) && s.remaining == cfg.totalTimeout
  {
    var looping, h1 := FirstSendUnanswered(cfg, h);
    assert BaseDelay(cfg, looping.retry, looping.i) == cfg.backoffFactor by { assert Pow2(1) == 2; }
    s, after := Advance(cfg, DeadProvider(), looping, h1);
  }

  /** So it is not counted as a retry either, and the books do not balance. */
  lemma ZeroBackoffMiscounts(cfg: Config, h: seq<Event>)
    requires cfg.backoffFactor <= 0.0 && cfg.totalRetries >= 1 && cfg.totalTimeout > 0.0
    ensures !Conserved(cfg, Fetched(cfg, DeadProvider(), 0.0, h))
  {
    var sending, h2 := ResendUnbudgeted(cfg, h);
    var sent, h3 := Advance(cfg, DeadProvider(), sending, h2);
    assert sent.log.unbudgeted >= 1 && sent.log.sends != [];
    RunKeepsInv(cfg, DeadProvider(), sent, h3);
  }

  /** The books balance for every run exactly when no resend can go without a delay. */
  lemma BooksBalanceExactly(cfg: Config)
    ensures AlwaysConserved(cfg)
            <==> cfg.backoffFactor > 0.0 || cfg.totalRetries < 1 || cfg.totalTimeout <= 0.0
  {
    if cfg.backoffFactor > 0.0 || cfg.totalRetries < 1 || cfg.totalTimeout <= 0.0 {
      forall env: nat -> Round, start: real, h: seq<Event>
        ensures Conserved(cfg, Fetched(cfg, env, start, h))
      {
        DisciplinedRunConserves(cfg, env, start, h);
      }
    } else {
      ZeroBackoffMiscounts(cfg, []);
    }
  }

  /** A fetch that sends nothing had no pass to make or no time: with a pass it still counts
      the attempt, and skips. */
  lemma NothingSentIsCounted(cfg: Config, env: nat -> Round, start: real, h: seq<Event>)
    ensures var s := Fetched(cfg, env, start, h);
            s.log.sends == [] ==>
              && s.log.attempts == (if cfg.totalRetries < 0 then [] else [Initial])
              && s.log.decisions == (if cfg.totalRetries < 0 then [] else [Decision(Skip, DeadlineExceeded)])
              && s.log.draws == 0 && s.log.sleeps == []
  {
    InitiallyInv(cfg, start);
    var s1, h1 := Advance(cfg, env, Initially(start), h);
    var s2, h2 := Advance(cfg, env, s1, h1);
    if s2.phase.Sending? {
      var s3, h3 := Advance(cfg, env, s2, h2);
      RunKeepsInv(cfg, env, s3, h3);
    }
  }

  // ----- deadline

  /** Every send gets a timeout within the time left, every sleep is planned within it. */
  lemma SendsAndSleepsFit(cfg: Config, env: nat -> Round, start: real, h: seq<Event>)
    ensures var s := Fetched(cfg, env, start, h);
            && (forall k :: 0 <= k < |s.log.sends| ==>
                  var x := s.log.sends[k];
                  && x.at < start + cfg.totalTimeout
                  && x.at + x.timeout <= start + cfg.totalTimeout
                  && x.timeout <= cfg.timeout
                  && (x.timeout == cfg.timeout || x.at + x.timeout == start + cfg.totalTimeout)
                  && (0.0 < x.timeout <==> 0.0 < cfg.timeout))
            && (forall k :: 0 <= k < |s.log.sleeps| ==>
                  s.log.sleeps[k].at + s.log.sleeps[k].duration <= start + cfg.totalTimeout)
  {
    FetchedInv(cfg, env, start, h);
    var s := Fetched(cfg, env, start, h);
    forall k | 0 <= k < |s.log.sends|
      ensures s.log.sends[k].at < start + cfg.totalTimeout
      ensures s.log.sends[k].timeout == MinReal(cfg.timeout, start + cfg.totalTimeout - s.log.sends[k].at)
    {
      assert SendFits(cfg, s.deadline, s.log.sends[k]);
    }
    forall k | 0 <= k < |s.log.sleeps|
      ensures s.log.sleeps[k].at + s.log.sleeps[k].duration <= start + cfg.totalTimeout
    {
      assert SleepFits(cfg, s.deadline, s.log.sleeps[k]);
    }
  }

  /** A fetch is late by no more than the time that lag, oversleeping and sends past their
      timeout cost it. */
  lemma LateOnlyByOverrun(cfg: Config, env: nat -> Round, start: real, h: seq<Event>)
    ensures var s := Fetched(cfg, env, start, h);
            s.clock <= start + MaxReal(0.0, cfg.totalTimeout) + s.log.overrun
  {
    FetchedInv(cfg, env, start, h);
  }

  /** What the first n passes of a world cost beyond the plan: lag, oversleeping, and sends
      that outlast their timeout. */
  function Loss(env: nat -> Round, sends: seq<Send>, n: nat): real {
    if n == 0 then 0.0
    else
      var w := env(n - 1);
      Loss(env, sends, n - 1) + w.lag + w.oversleep
      + if n <= |sends| then MaxReal(0.0, w.elapsed - sends[n - 1].timeout) else 0.0
  }

  lemma {:induction false} LossOfPrefix(env: nat -> Round, sends: seq<Send>, more: seq<Send>, n: nat)
    requires sends <= more && n <= |sends|
    ensures Loss(env, more, n) == Loss(env, sends, n)
  {
    if n > 0 { LossOfPrefix(env, sends, more, n - 1); }
  }

  /** The overrun so far, phase by phase, is no more than the world has cost. */
  predicate LossOk(env: nat -> Round, s: State) {
    var w := env(s.i);
    match s.phase
    case Starting => s.log.overrun <= 0.0
    case Looping => s.log.overrun <= Loss(env, s.log.sends, s.i)
    case Asking => s.log.overrun <= Loss(env, s.log.sends, s.i) + w.lag
    case Sleeping(_) => s.log.overrun <= Loss(env, s.log.sends, s.i) + w.lag
    case Sending(_) => s.log.overrun <= Loss(env, s.log.sends, s.i) + w.lag + w.oversleep
    case Finished => s.log.overrun <= Loss(env, s.log.sends, s.i + 1)
  }

  lemma TransmitLoss(cfg: Config, env: nat -> Round, s: State)
    requires s.phase.Sending? && LossOk(env, s) && |s.log.sends| == s.i
    ensures LossOk(env, Transmit(cfg, s, env(s.i)))
  {
    var t := Transmit(cfg, s, env(s.i));
    LossOfPrefix(env, s.log.sends, t.log.sends, s.i);
  }

  lemma QuietLoss(cfg: Config, env: nat -> Round, s: State, admitted: bool)
    requires !s.phase.Sending? && LossOk(env, s) && (s.phase.Starting? ==> s.i == 0)
    ensures LossOk(env, Step(cfg, s, env(s.i), admitted))
  {
  }

  lemma {:induction false} RunLoss(cfg: Config, env: nat -> Round, s: State, h: seq<Event>)
    requires Inv(cfg, s) && LossOk(env, s)
    ensures LossOk(env, Run(cfg, env, s, h).0)
    decreases PassesLeft(cfg, s), Rank(s.phase)
  {
    if !s.phase.Finished? {
      var seen := HistorySeen(cfg, s, env(s.i), h);
      var admitted := Admitted(cfg, seen);
      StepKeepsLoss(cfg, env, s, admitted);
      StepKeepsInv(cfg, s, env(s.i), admitted);
      RunUnfolds(cfg, env, s, h);
      RunLoss(cfg, env, Step(cfg, s, env(s.i), admitted), HistoryAfter(cfg, s, seen));
    }
  }

  lemma StepKeepsLoss(cfg: Config, env: nat -> Round, s: State, admitted: bool)
    requires Inv(cfg, s) && LossOk(env, s) && !s.phase.Finished?
    ensures LossOk(env, Step(cfg, s, env(s.i), admitted))
  {
    if s.phase.Sending? { TransmitLoss(cfg, env, s); } else { QuietLoss(cfg, env, s, admitted); }
  }

  /** So a fetch is late by no more than the world cost it in the passes it made. */
  lemma LateOnlyByLoss(cfg: Config, env: nat -> Round, start: real, h: seq<Event>)
    ensures var s := Fetched(cfg, env, start, h);
            s.clock <= start + MaxReal(0.0, cfg.totalTimeout) + Loss(env, s.log.sends, s.i + 1)
  {
    InitiallyInv(cfg, start);
    RunLoss(cfg, env, Initially(start), h);
    LateOnlyByOverrun(cfg, env, start, h);
    FetchedInv(cfg, env, start, h);
  }

  /** Time passes only in exact sleeps and in sends that keep their timeout. */
  ghost predicate IdealWorld(env: nat -> Round, sends: seq<Send>) {
    && (forall i: nat :: env(i).lag == 0.0 && env(i).oversleep == 0.0)
    && (forall k :: 0 <= k < |sends| ==> env(k).elapsed <= sends[k].timeout)
  }

  lemma {:induction false} IdealRunHasNoOverrun(cfg: Config, env: nat -> Round, s: State, h: seq<Event>)
    requires Inv(cfg, s) && s.log.overrun == 0.0
    requires IdealWorld(env, Run(cfg, env, s, h).0.log.sends)
    ensures Run(cfg, env, s, h).0.log.overrun == 0.0
    decreases PassesLeft(cfg, s), Rank(s.phase)
  {
    if !s.phase.Finished? {
      var t, after := Advance(cfg, env, s, h);
      RunKeepsInv(cfg, env, t, after);
      if t.log.sends != s.log.sends {
        assert env(s.i).elapsed <= Run(cfg, env, s, h).0.log.sends[s.i].timeout;
      }
      IdealRunHasNoOverrun(cfg, env, t, after);
    }
  }

  /** In such a world the total timeout is kept for every reply sequence and jitter. */
  lemma DeadlineKept(cfg: Config, env: nat -> Round, start: real, h: seq<Event>)
    ensures var s := Fetched(cfg, env, start, h);
            IdealWorld(env, s.log.sends) ==> s.clock <= start + MaxReal(0.0, cfg.totalTimeout)
  {
    if IdealWorld(env, Fetched(cfg, env, start, h).log.sends) {
      InitiallyInv(cfg, start);
      IdealRunHasNoOverrun(cfg, env, Initially(start), h);
      LateOnlyByOverrun(cfg, env, start, h);
    }
  }
}
