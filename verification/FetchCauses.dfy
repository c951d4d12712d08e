/** Why a fetch sleeps and retries: every sleep and decision follows from the reply before it. */
module FetchCauses {
  import opened Wrappers
  import opened Outcome
  import opened Buckets
  import opened FetchModel
  import opened FetchInvariants
  import opened FetchProperties

  /** Every sleep was planned after the reply of its pass: with its Retry-After, and only for
      a positive delay that fits in the time left, before jitter. */
  predicate SleepsFollow(cfg: Config, deadline: real, sleeps: seq<Sleep>, sends: seq<Send>) {
    forall k :: 0 <= k < |sleeps| ==>
      && 1 <= sleeps[k].index <= |sends|
      && sleeps[k].retryAfter == sends[sleeps[k].index - 1].reply.retryAfter
      && 0.0 < BaseDelay(cfg, sleeps[k].retryAfter, sleeps[k].index) <= deadline - sleeps[k].at
  }

  /** The retry decisions are those of the sleeps, each for the reason its reply gave. */
  predicate DecisionsFollow(cfg: Config, decisions: seq<Decision>, sleeps: seq<Sleep>, sends: seq<Send>) {
    forall k :: 0 <= k < |decisions| && decisions[k].action == Retrying ==>
      && k < |sleeps| && 1 <= sleeps[k].index <= |sends|
      && decisions[k].reason == ReasonOf(cfg, sends[sleeps[k].index - 1])
  }

  predicate Follows(cfg: Config, s: State) {
    && SleepsFollow(cfg, s.deadline, s.log.sleeps, s.log.sends)
    && DecisionsFollow(cfg, s.log.decisions, s.log.sleeps, s.log.sends)
  }

  /** The reply that a fetch at the budget would retry. */
  predicate AsksAfterReply(cfg: Config, s: State) {
    && s.i >= 1 && s.i == |s.log.sends| && s.retry == s.log.sends[s.i - 1].reply.retryAfter
    && s.pending == Some(ReasonOf(cfg, s.log.sends[s.i - 1]))
    && 0.0 < BaseDelay(cfg, s.retry, s.i) <= s.deadline - s.clock
    && |s.log.decisions| == |s.log.sleeps|
  }

  lemma AskingFollowsReply(cfg: Config, s: State)
    requires Inv(cfg, s) && s.phase.Asking?
    ensures AsksAfterReply(cfg, s)
  {
    DecisionsAreRetries(s.log.decisions);
  }

  lemma SleepAdded(cfg: Config, s: State, z: Sleep, d: Decision)
    requires Follows(cfg, s) && AsksAfterReply(cfg, s)
    requires z.index == s.i && z.retryAfter == s.retry && z.at == s.clock && d == Decision(Retrying, s.pending.value)
    ensures SleepsFollow(cfg, s.deadline, s.log.sleeps + [z], s.log.sends)
    ensures DecisionsFollow(cfg, s.log.decisions + [d], s.log.sleeps + [z], s.log.sends)
  {
  }

  lemma SkipAdded(cfg: Config, s: State, d: Decision)
    requires Follows(cfg, s) && d.action == Skip
    ensures DecisionsFollow(cfg, s.log.decisions + [d], s.log.sleeps, s.log.sends)
  {
  }

  lemma AnswerFollows(cfg: Config, s: State, w: Round, admitted: bool)
    requires s.phase.Asking? && Follows(cfg, s) && AsksAfterReply(cfg, s)
    ensures Follows(cfg, Answer(cfg, s, w, admitted))
  {
    SkipAdded(cfg, s, Decision(Skip, ResourceExhausted));
    SkipAdded(cfg, s, Decision(Skip, DeadlineExceeded));
    SleepAdded(cfg, s, Sleep(s.clock, s.i, s.retry, w.unit, PlannedSleep(cfg, s.retry, s.i, w.unit)),
               Decision(Retrying, s.pending.value));
  }

  lemma TransmitFollows(cfg: Config, s: State, w: Round)
    requires s.phase.Sending? && Follows(cfg, s)
    ensures Follows(cfg, Transmit(cfg, s, w))
  {
    SkipAdded(cfg, s, Decision(Skip, DeadlineExceeded));
    var t := Transmit(cfg, s, w);
    assert s.log.sends <= t.log.sends && t.log.sleeps == s.log.sleeps;
  }

  /** Only a budget answer plans a sleep, and only a transmission sends; other steps decide
      at most to skip. */
  lemma QuietStep(cfg: Config, s: State, w: Round, admitted: bool)
    requires !s.phase.Asking? && !s.phase.Sending?
    ensures var t := Step(cfg, s, w, admitted);
            && t.log.sleeps == s.log.sleeps && t.log.sends == s.log.sends
            && (s.phase.Starting? || t.deadline == s.deadline)
            && (t.log.decisions == s.log.decisions
                || exists reason :: t.log.decisions == s.log.decisions + [Decision(Skip, reason)])
  {
  }

  lemma QuietFollows(cfg: Config, s: State, w: Round, admitted: bool)
    requires !s.phase.Asking? && !s.phase.Sending? && Follows(cfg, s)
    requires s.phase.Starting? ==> s.log.sleeps == []
    ensures Follows(cfg, Step(cfg, s, w, admitted))
  {
    var t := Step(cfg, s, w, admitted);
    QuietStep(cfg, s, w, admitted);
    if t.log.decisions != s.log.decisions {
      var reason :| t.log.decisions == s.log.decisions + [Decision(Skip, reason)];
      SkipAdded(cfg, s, Decision(Skip, reason));
    }
  }

  lemma StepFollows(cfg: Config, s: State, w: Round, admitted: bool)
    requires Inv(cfg, s) && Follows(cfg, s)
    ensures Follows(cfg, Step(cfg, s, w, admitted))
  {
    match s.phase
    case Asking =>
      AskingFollowsReply(cfg, s);
      AnswerFollows(cfg, s, w, admitted);
    case Sending(_) => TransmitFollows(cfg, s, w);
    case _ => QuietFollows(cfg, s, w, admitted);
  }

  lemma {:induction false} RunFollows(cfg: Config, env: nat -> Round, s: State, h: seq<Event>)
    requires Inv(cfg, s) && Follows(cfg, s)
    ensures Follows(cfg, Run(cfg, env, s, h).0)
    decreases PassesLeft(cfg, s), Rank(s.phase)
  {
    if !s.phase.Finished? {
      var admitted := Admitted(cfg, HistorySeen(cfg, s, env(s.i), h));
      StepFollows(cfg, s, env(s.i), admitted);
      StepKeepsInv(cfg, s, env(s.i), admitted);
      RunUnfolds(cfg, env, s, h);
      RunFollows(cfg, env, Step(cfg, s, env(s.i), admitted),
                 HistoryAfter(cfg, s, HistorySeen(cfg, s, env(s.i), h)));
    }
  }

  lemma FetchedFollows(cfg: Config, env: nat -> Round, start: real, h: seq<Event>)
    ensures Follows(cfg, Fetched(cfg, env, start, h))
  {
    InitiallyInv(cfg, start);
    RunFollows(cfg, env, Initially(start), h);
  }

  /** The Retry-After of the reply that sleep k of a fetch follows. */
  function AskedDelay(s: State, k: nat): nat
    requires k < |s.log.sleeps| && 1 <= s.log.sleeps[k].index <= |s.log.sends|
  {
    s.log.sends[s.log.sleeps[k].index - 1].reply.retryAfter
  }

  /** Every sleep of a fetch is planned from the reply it follows and its pass. */
  lemma SleepShape(cfg: Config, env: nat -> Round, start: real, h: seq<Event>, k: nat)
    requires k < |Fetched(cfg, env, start, h).log.sleeps|
    ensures var s := Fetched(cfg, env, start, h);
            var z := s.log.sleeps[k];
            && 1 <= z.index <= |s.log.sends|
            && z.duration == PlannedSleep(cfg, AskedDelay(s, k), z.index, z.unit)
            && 0.0 < BaseDelay(cfg, AskedDelay(s, k), z.index) <= start + cfg.totalTimeout - z.at
            && (cfg.backoffFactor > 0.0 ==> z.index == k + 1)
  {
    FetchedFollows(cfg, env, start, h);
    FetchedInv(cfg, env, start, h);
    var s := Fetched(cfg, env, start, h);
    assert SleepFits(cfg, s.deadline, s.log.sleeps[k]);
  }

  /** Decisions name their causes. Up to a possible last skip they are retries, the k-th that
      of the k-th sleep, for the reason given by the reply which that sleep follows. A skip is
      for the deadline, for an empty budget or, once the passes are used up, for the reason of
      the last reply. */
  lemma DecisionsNameCauses(cfg: Config, env: nat -> Round, start: real, h: seq<Event>, k: nat)
    ensures var s := Fetched(cfg, env, start, h);
            k < |s.log.decisions| ==>
              var d := s.log.decisions[k];
              if d.action == Retrying then
                && k < |s.log.sleeps| && 1 <= s.log.sleeps[k].index <= |s.log.sends|
                && d.reason == ReasonOf(cfg, s.log.sends[s.log.sleeps[k].index - 1])
              else
                || d.reason == DeadlineExceeded || d.reason == ResourceExhausted
                || (s.i == cfg.totalRetries + 1 && s.log.sends != []
                    && d.reason == ReasonOf(cfg, s.log.sends[|s.log.sends| - 1]))
  {
    FetchedFollows(cfg, env, start, h);
    FetchedInv(cfg, env, start, h);
  }
}
