/** A fetch gives up only for cause: its one skip names a deadline that a delay would have
    passed, a budget that was empty, or passes that were used up. */
module FetchSkips {
  import opened Wrappers
  import opened Outcome
  import opened Buckets
  import opened FetchModel
  import opened FetchInvariants
  import opened FetchProperties

  /** The Retry-After of the last reply. */
  function LastDelay(s: State): nat
    requires s.log.sends != []
  {
    s.log.sends[|s.log.sends| - 1].reply.retryAfter
  }

  /** At the last reading of the clock no time was left, or the retry due then would have
      waited longer than the time left: its delay, for which no token was taken, or only its
      delay as jittered, which is known once a token is taken. */
  predicate TimeWasShort(cfg: Config, unit: UnitInterval, s: State) {
    && s.remaining == s.deadline - s.clock
    && (|| s.remaining <= 0.0
        || (&& s.log.sends != [] && s.i == |s.log.sends|
            && if BaseDelay(cfg, LastDelay(s), s.i) > s.remaining then s.log.draws == s.completed
               else PlannedSleep(cfg, LastDelay(s), s.i, unit) > s.remaining && s.log.draws == s.completed + 1))
  }

  /** The last thing that happened to the budget was a refusal, for want of a token. */
  predicate BudgetWasEmpty(cfg: Config, h: seq<Event>) {
    && h != [] && h[|h| - 1] == Refused(1.0)
    && Level(cfg.budgetCapacity, h[..|h| - 1]) < 1.0
  }

  /** The passes are used up, and the last reply asked for a retry for this reason. */
  predicate PassesUsedUp(cfg: Config, reason: RetryReason, s: State) {
    && s.log.sends != [] && |s.log.sends| == cfg.totalRetries + 1
    && reason == ReasonOf(cfg, s.log.sends[|s.log.sends| - 1])
  }

  predicate SkipJustified(cfg: Config, unit: UnitInterval, s: State, h: seq<Event>, d: Decision) {
    match d.reason
    case DeadlineExceeded => TimeWasShort(cfg, unit, s)
    case ResourceExhausted => BudgetWasEmpty(cfg, h) || PassesUsedUp(cfg, d.reason, s)
    case _ => PassesUsedUp(cfg, d.reason, s)
  }

  /** Only the last decision can be a skip, and then it is justified. */
  predicate Justified(cfg: Config, unit: UnitInterval, s: State, h: seq<Event>) {
    forall k :: 0 <= k < |s.log.decisions| && s.log.decisions[k].action == Skip ==>
      k == |s.log.decisions| - 1 && SkipJustified(cfg, unit, s, h, s.log.decisions[k])
  }

  predicate NoSkipYet(s: State) {
    forall k :: 0 <= k < |s.log.decisions| ==> s.log.decisions[k].action == Retrying
  }

  /** What the invariant says of a fetch that may give up: where it is, and the reply that it
      would retry. */
  predicate MayGiveUp(cfg: Config, s: State) {
    && NoSkipYet(s) && |s.log.sends| == s.i
    && (s.pending.Some? ==>
          s.log.sends != [] && s.retry == LastDelay(s)
          && s.pending.value == ReasonOf(cfg, s.log.sends[|s.log.sends| - 1]))
    && (s.phase.Looping? ==> s.i == 0 || s.i <= cfg.totalRetries + 1)
    && (InLoop(s.phase) ==> s.remaining == s.deadline - s.clock)
    && (s.phase.Asking? ==> s.pending.Some? && BaseDelay(cfg, s.retry, s.i) <= s.remaining)
    && (s.phase.Looping? || s.phase.Asking? ==> s.log.draws == s.completed)
  }

  lemma InvMayGiveUp(cfg: Config, s: State)
    requires Inv(cfg, s) && !s.phase.Finished?
    ensures MayGiveUp(cfg, s)
  {
  }

  lemma ArriveJustified(cfg: Config, s: State, w: Round, h: seq<Event>)
    requires MayGiveUp(cfg, s) && s.phase.Looping?
    ensures Justified(cfg, w.unit, Arrive(cfg, s, w), h)
  {
  }

  lemma AnswerJustified(cfg: Config, s: State, w: Round, h: seq<Event>)
    requires MayGiveUp(cfg, s) && s.phase.Asking?
    ensures Justified(cfg, w.unit, Answer(cfg, s, w, Admitted(cfg, h)), Apply(cfg.budgetCapacity, h, Consume(1.0)))
  {
    var after := Apply(cfg.budgetCapacity, h, Consume(1.0));
    assert after[..|after| - 1] == h;
  }

  lemma WakeJustified(cfg: Config, s: State, w: Round, h: seq<Event>)
    requires MayGiveUp(cfg, s) && s.phase.Sleeping?
    ensures Justified(cfg, w.unit, Wake(cfg, s, w), h)
  {
  }

  lemma TransmitJustified(cfg: Config, s: State, w: Round, h: seq<Event>)
    requires MayGiveUp(cfg, s) && s.phase.Sending?
    ensures Justified(cfg, w.unit, Transmit(cfg, s, w), h)
  {
  }

  lemma StepJustified(cfg: Config, s: State, w: Round, h: seq<Event>)
    requires Inv(cfg, s) && !s.phase.Finished?
    ensures Justified(cfg, w.unit, Step(cfg, s, w, Admitted(cfg, h)), HistoryAfter(cfg, s, h))
  {
    InvMayGiveUp(cfg, s);
    match s.phase
    case Starting =>
    case Looping => ArriveJustified(cfg, s, w, h);
    case Asking => AnswerJustified(cfg, s, w, h);
    case Sleeping(_) => WakeJustified(cfg, s, w, h);
    case Sending(_) => TransmitJustified(cfg, s, w, h);
  }

  /** The round a step takes its last reading in is that of the state it leaves. */
  lemma FinishesInItsPass(cfg: Config, s: State, w: Round, admitted: bool)
    ensures Step(cfg, s, w, admitted).phase.Finished? ==> Step(cfg, s, w, admitted).i == s.i
  {
  }

  lemma {:induction false} RunJustified(cfg: Config, env: nat -> Round, s: State, h: seq<Event>)
    requires Inv(cfg, s) && (s.phase.Finished? ==> Justified(cfg, env(s.i).unit, s, h))
    ensures var (t, after) := Run(cfg, env, s, h);
            Justified(cfg, env(t.i).unit, t, after)
    decreases PassesLeft(cfg, s), Rank(s.phase)
  {
    if !s.phase.Finished? {
      var seen := HistorySeen(cfg, s, env(s.i), h);
      var admitted := Admitted(cfg, seen);
      StepJustified(cfg, s, env(s.i), seen);
      FinishesInItsPass(cfg, s, env(s.i), admitted);
      StepKeepsInv(cfg, s, env(s.i), admitted);
      RunUnfolds(cfg, env, s, h);
      RunJustified(cfg, env, Step(cfg, s, env(s.i), admitted), HistoryAfter(cfg, s, seen));
    }
  }

  /** In every run: a skip for the deadline means that the time left was too short, one for
      the budget that it was empty, and any other that the passes were used up. */
  lemma SkipsAreJustified(cfg: Config, env: nat -> Round, start: real, h: seq<Event>)
    ensures var (s, after) := Run(cfg, env, Initially(start), h);
            Justified(cfg, env(s.i).unit, s, after)
  {
    InitiallyInv(cfg, start);
    RunJustified(cfg, env, Initially(start), h);
  }
}
