/** What every step of a fetch keeps, for any provider, clock, jitter and budget answers. */
module FetchInvariants {
  import opened Outcome
  import opened Buckets
  import opened FetchModel

  // ----- counting

  function CountActions(ds: seq<Decision>, a: Action): nat {
    if ds == [] then 0
    else CountActions(ds[..|ds| - 1], a) + if ds[|ds| - 1].action == a then 1 else 0
  }

  function CountRetryable(cfg: Config, sends: seq<Send>): nat {
    if sends == [] then 0
    else CountRetryable(cfg, sends[..|sends| - 1]) + if Retryable(cfg, sends[|sends| - 1].reply) then 1 else 0
  }

  function SleepTime(sleeps: seq<Sleep>): real {
    if sleeps == [] then 0.0 else SleepTime(sleeps[..|sleeps| - 1]) + sleeps[|sleeps| - 1].duration
  }

  function Skips(s: State): nat { CountActions(s.log.decisions, Skip) }
  function RetryDecisions(s: State): nat { CountActions(s.log.decisions, Retrying) }

  // ----- the invariant, part by part

  /** The head of the loop knows whether a retry is due. */
  predicate ControlOk(cfg: Config, s: State) {
    && InRange(cfg, s)
    && (s.phase.Starting? ==> s == Initially(s.clock))
    && (s.phase.Looping? ==> (s.pending.None? <==> s.i == 0))
    && (s.phase.Asking? ==>
          s.i >= 1 && s.pending.Some? && 0.0 < BaseDelay(cfg, s.retry, s.i) <= s.remaining)
    && (s.phase.Sleeping? ==> s.i >= 1 && s.pending.Some?)
    && (s.phase.Sending? ==> s.pending.None? && (s.i >= 1 && !s.phase.unbudgeted ==> s.remaining > 0.0))
    && (s.phase.Sending? && s.phase.unbudgeted ==> s.i >= 1 && BaseDelay(cfg, s.retry, s.i) <= 0.0)
  }

  predicate SendFits(cfg: Config, deadline: real, x: Send) {
    x.at < deadline && x.timeout == MinReal(cfg.timeout, deadline - x.at)
  }

  predicate SleepFits(cfg: Config, deadline: real, z: Sleep) {
    && z.at + z.duration <= deadline
    && z.duration == PlannedSleep(cfg, z.retryAfter, z.index, z.unit)
    && z.index >= 1
  }

  predicate TimeOk(cfg: Config, s: State) {
    && s.log.overrun >= 0.0
    && (!s.phase.Starting? ==> s.deadline == s.begun + cfg.totalTimeout)
    && s.clock <= MaxReal(s.begun, s.deadline) + s.log.overrun
    && (InLoop(s.phase) ==> s.remaining == s.deadline - s.clock)
    && (s.phase.Sleeping? ==> s.phase.duration <= s.remaining)
    && (forall k :: 0 <= k < |s.log.sends| ==> SendFits(cfg, s.deadline, s.log.sends[k]))
    && (forall k :: 0 <= k < |s.log.sleeps| ==> SleepFits(cfg, s.deadline, s.log.sleeps[k]))
    && s.begun + SleepTime(s.log.sleeps) <= s.clock + (if s.phase.Sleeping? then s.phase.duration else 0.0)
    && (s.log.sleeps != [] ==> SleepTime(s.log.sleeps) <= cfg.totalTimeout)
  }

  /** Counts while the loop is still going: one attempt, send and retryable reply per pass. */
  predicate CountsRunning(cfg: Config, s: State) {
    && |s.log.attempts| == |s.log.sends| == CountRetryable(cfg, s.log.sends) == s.i
    && Skips(s) == 0
    && s.completed + s.log.unbudgeted
       + (match s.phase
          case Looping => if s.i == 0 then 0 else 1
          case Asking => 1
          case Sleeping(_) => 1
          case Sending(unbudgeted) => if unbudgeted then 1 else 0
          case _ => 0) == s.i
    && RetryDecisions(s) == s.log.draws == s.completed + (if s.phase.Sleeping? then 1 else 0)
  }

  /** Counts once the fetch has returned. */
  predicate CountsFinished(cfg: Config, s: State) {
    && Skips(s) <= 1
    && s.completed <= RetryDecisions(s) <= s.log.draws <= s.completed + 1
    && |s.log.sends| <= |s.log.attempts| <= |s.log.sends| + 1
    && (s.log.sends == [] ==> s.completed == 0 && s.log.unbudgeted == 0)
    && (s.log.sends != [] ==>
        && |s.log.sends| == s.completed + s.log.unbudgeted + 1
        && CountRetryable(cfg, s.log.sends) == s.completed + s.log.unbudgeted + Skips(s))
  }

  /** With a real backoff no resend escapes the budget, and passes are numbered by sleeps. */
  predicate Disciplined(s: State) {
    && s.log.unbudgeted == 0
    && (s.log.sends != [] ==> |s.log.attempts| == |s.log.sends|)
    && (forall k :: 0 <= k < |s.log.attempts| ==> s.log.attempts[k] == if k == 0 then Initial else Retry)
    && (forall k :: 0 <= k < |s.log.sleeps| ==> s.log.sleeps[k].index == k + 1)
  }

  predicate BooksOk(cfg: Config, s: State) {
    && |s.log.sleeps| == RetryDecisions(s)
    && (s.phase.Finished? ==> CountsFinished(cfg, s))
    && (!s.phase.Finished? ==> CountsRunning(cfg, s))
  }

  /** No resend can escape the budget when the backoff is positive or there are no resends. */
  predicate DisciplineOk(cfg: Config, s: State) {
    cfg.backoffFactor > 0.0 || cfg.totalRetries < 1 ==> Disciplined(s)
  }

  /** Without any time, or without a single pass, nothing is ever sent. */
  predicate StarvedOk(cfg: Config, s: State) {
    cfg.totalTimeout <= 0.0 || cfg.totalRetries < 0 ==>
      s.log.sends == [] && s.i == 0 && s.pending.None? && (s.phase.Starting? || s.begun <= s.clock)
  }

  /** The kept body, status and Retry-After are those of the last reply. */
  predicate ResultOk(cfg: Config, s: State) {
    if s.log.sends == [] then s.result == UNKNOWN_FAILURE && s.retry == 0 && s.status.None?
    else
      var last := s.log.sends[|s.log.sends| - 1].reply;
      && s.result == KeptBody(cfg, last)
      && s.retry == last.retryAfter
      && s.status == last.status
  }

  /** Why a reply asked for a retry. */
  function ReasonOf(cfg: Config, x: Send): RetryReason { ClassifyReply(cfg, x.reply).retryReason.GetOr(Unknown) }

  /** A pending retry has the reason of the last reply; a skip is for the deadline, the empty
      budget or, once the passes are used up, the reason of the last reply. */
  predicate ReasonsOk(cfg: Config, s: State) {
    && (s.pending.Some? ==>
          s.log.sends != [] && s.pending.value == ReasonOf(cfg, s.log.sends[|s.log.sends| - 1]))
    && |s.log.decisions| <= |s.log.sends| + 1
    && (!s.phase.Finished? ==>
          forall k :: 0 <= k < |s.log.decisions| ==> s.log.decisions[k].action == Retrying)
    && (forall k :: 0 <= k < |s.log.decisions| ==>
          var d := s.log.decisions[k];
          if d.action == Retrying then
            k < |s.log.sends|
          else
            || d.reason == DeadlineExceeded || d.reason == ResourceExhausted
            || (s.i == cfg.totalRetries + 1 && s.log.sends != []
                && d.reason == ReasonOf(cfg, s.log.sends[|s.log.sends| - 1])))
  }

  predicate Inv(cfg: Config, s: State) {
    && ControlOk(cfg, s) && TimeOk(cfg, s) && BooksOk(cfg, s)
    && DisciplineOk(cfg, s) && StarvedOk(cfg, s) && ResultOk(cfg, s) && ReasonsOk(cfg, s)
  }

  // ----- preservation

  lemma BackoffPositive(cfg: Config, i: nat)
    requires cfg.backoffFactor > 0.0 && i >= 1
    ensures Backoff(cfg, i) > 0.0
  {
    PowAtLeast(i);
  }

  lemma {:induction false} PowAtLeast(n: nat)
    ensures Pow2(n) >= n + 1
  {
    if n > 0 { PowAtLeast(n - 1); }
  }

  lemma DelayPositive(cfg: Config, retry: nat, i: nat)
    requires cfg.backoffFactor > 0.0 && i >= 1
    ensures BaseDelay(cfg, retry, i) > 0.0
  {
    BackoffPositive(cfg, i);
  }

  lemma StepKeepsControl(cfg: Config, s: State, w: Round, admitted: bool)
    requires ControlOk(cfg, s)
    ensures ControlOk(cfg, Step(cfg, s, w, admitted))
  {
  }

  lemma AnswerKeepsTime(cfg: Config, s: State, w: Round, admitted: bool)
    requires s.phase.Asking? && ControlOk(cfg, s) && TimeOk(cfg, s)
    ensures TimeOk(cfg, Answer(cfg, s, w, admitted))
  {
    var z := Sleep(s.clock, s.i, s.retry, w.unit, PlannedSleep(cfg, s.retry, s.i, w.unit));
    assert (s.log.sleeps + [z])[..|s.log.sleeps|] == s.log.sleeps;
  }

  lemma TransmitKeepsTime(cfg: Config, s: State, w: Round)
    requires s.phase.Sending? && ControlOk(cfg, s) && TimeOk(cfg, s)
    ensures TimeOk(cfg, Transmit(cfg, s, w))
  {
  }

  lemma ArriveKeepsTime(cfg: Config, s: State, w: Round)
    requires s.phase.Looping? && ControlOk(cfg, s) && TimeOk(cfg, s)
    ensures TimeOk(cfg, Arrive(cfg, s, w))
  {
  }

  lemma WakeKeepsTime(cfg: Config, s: State, w: Round)
    requires s.phase.Sleeping? && ControlOk(cfg, s) && TimeOk(cfg, s)
    ensures TimeOk(cfg, Wake(cfg, s, w))
  {
  }

  lemma StepKeepsTime(cfg: Config, s: State, w: Round, admitted: bool)
    requires ControlOk(cfg, s) && TimeOk(cfg, s)
    ensures TimeOk(cfg, Step(cfg, s, w, admitted))
  {
    match s.phase
    case Starting =>
    case Looping => ArriveKeepsTime(cfg, s, w);
    case Asking => AnswerKeepsTime(cfg, s, w, admitted);
    case Sleeping(_) => WakeKeepsTime(cfg, s, w);
    case Sending(_) => TransmitKeepsTime(cfg, s, w);
    case Finished =>
  }

  /** A skip closes the books of a pass that has sent. */
  lemma SkipKeepsBooks(cfg: Config, s: State, reason: RetryReason)
    requires BooksOk(cfg, s) && s.phase.Looping? && s.i >= 1
    ensures BooksOk(cfg, SkipWith(s, reason))
  {
    var ds := s.log.decisions;
    assert (ds + [Decision(Skip, reason)])[..|ds|] == ds;
  }

  lemma ArriveKeepsBooks(cfg: Config, s: State, w: Round)
    requires s.phase.Looping? && ControlOk(cfg, s) && BooksOk(cfg, s)
    ensures BooksOk(cfg, Arrive(cfg, s, w))
  {
    var now := s.clock + w.lag;
    var s1 := s.(clock := now, remaining := s.deadline - now, log := s.log.(overrun := s.log.overrun + w.lag));
    assert BooksOk(cfg, s1);
    if s.pending.Some? {
      SkipKeepsBooks(cfg, s, s.pending.value);
      SkipKeepsBooks(cfg, s1, DeadlineExceeded);
    }
  }

  lemma AnswerKeepsBooks(cfg: Config, s: State, w: Round, admitted: bool)
    requires s.phase.Asking? && ControlOk(cfg, s) && BooksOk(cfg, s)
    ensures BooksOk(cfg, Answer(cfg, s, w, admitted))
  {
    var t := Answer(cfg, s, w, admitted);
    assert t.log.decisions[..|s.log.decisions|] == s.log.decisions;
  }

  lemma WakeKeepsBooks(cfg: Config, s: State, w: Round)
    requires s.phase.Sleeping? && ControlOk(cfg, s) && BooksOk(cfg, s)
    ensures BooksOk(cfg, Wake(cfg, s, w))
  {
    var t := Wake(cfg, s, w);
    if t.log.decisions != s.log.decisions {
      assert t.log.decisions[..|s.log.decisions|] == s.log.decisions;
    }
  }

  lemma TransmitKeepsBooks(cfg: Config, s: State, w: Round)
    requires s.phase.Sending? && ControlOk(cfg, s) && BooksOk(cfg, s)
    ensures BooksOk(cfg, Transmit(cfg, s, w))
  {
    var t := Transmit(cfg, s, w);
    if s.remaining <= 0.0 {
      assert t.log.decisions[..|s.log.decisions|] == s.log.decisions;
    } else {
      assert t.log.sends[..|s.log.sends|] == s.log.sends;
    }
  }

  lemma StepKeepsBooks(cfg: Config, s: State, w: Round, admitted: bool)
    requires ControlOk(cfg, s) && BooksOk(cfg, s)
    ensures BooksOk(cfg, Step(cfg, s, w, admitted))
  {
    match s.phase
    case Starting =>
    case Looping => ArriveKeepsBooks(cfg, s, w);
    case Asking => AnswerKeepsBooks(cfg, s, w, admitted);
    case Sleeping(_) => WakeKeepsBooks(cfg, s, w);
    case Sending(_) => TransmitKeepsBooks(cfg, s, w);
    case Finished =>
  }

  lemma StepKeepsDiscipline(cfg: Config, s: State, w: Round, admitted: bool)
    requires ControlOk(cfg, s) && BooksOk(cfg, s) && DisciplineOk(cfg, s)
    ensures DisciplineOk(cfg, Step(cfg, s, w, admitted))
  {
    if s.i >= 1 && cfg.backoffFactor > 0.0 { DelayPositive(cfg, s.retry, s.i); }
  }

  lemma StepKeepsStarved(cfg: Config, s: State, w: Round, admitted: bool)
    requires ControlOk(cfg, s) && TimeOk(cfg, s) && StarvedOk(cfg, s)
    ensures StarvedOk(cfg, Step(cfg, s, w, admitted))
  {
  }

  lemma TransmitKeepsResult(cfg: Config, s: State, w: Round)
    requires ResultOk(cfg, s) && s.phase.Sending?
    ensures ResultOk(cfg, Transmit(cfg, s, w))
  {
  }

  lemma StepKeepsResult(cfg: Config, s: State, w: Round, admitted: bool)
    requires ResultOk(cfg, s)
    ensures ResultOk(cfg, Step(cfg, s, w, admitted))
  {
    match s.phase
    case Sending(_) => TransmitKeepsResult(cfg, s, w);
    case _ =>
      var t := Step(cfg, s, w, admitted);
      assert t.result == s.result && t.retry == s.retry && t.status == s.status && t.log.sends == s.log.sends;
  }

  lemma {:induction false} DecisionsAreRetries(ds: seq<Decision>)
    requires forall k :: 0 <= k < |ds| ==> ds[k].action == Retrying
    ensures CountActions(ds, Retrying) == |ds|
  {
    if ds != [] { DecisionsAreRetries(ds[..|ds| - 1]); }
  }

  lemma TransmitKeepsReasons(cfg: Config, s: State, w: Round)
    requires s.phase.Sending? && ControlOk(cfg, s) && CountsRunning(cfg, s) && ReasonsOk(cfg, s)
    ensures ReasonsOk(cfg, Transmit(cfg, s, w))
  {
    DecisionsAreRetries(s.log.decisions);
    assert |s.log.decisions| <= |s.log.sends|;
  }

  lemma AnswerKeepsReasons(cfg: Config, s: State, w: Round, admitted: bool)
    requires s.phase.Asking? && ControlOk(cfg, s) && BooksOk(cfg, s) && DisciplineOk(cfg, s) && ReasonsOk(cfg, s)
    ensures ReasonsOk(cfg, Answer(cfg, s, w, admitted))
  {
    DecisionsAreRetries(s.log.decisions);
    assert |s.log.decisions| < |s.log.sends|;
  }

  lemma ArriveKeepsReasons(cfg: Config, s: State, w: Round)
    requires s.phase.Looping? && ControlOk(cfg, s) && CountsRunning(cfg, s) && ReasonsOk(cfg, s)
    ensures ReasonsOk(cfg, Arrive(cfg, s, w))
  {
    DecisionsAreRetries(s.log.decisions);
    assert |s.log.decisions| <= |s.log.sends|;
  }

  lemma WakeKeepsReasons(cfg: Config, s: State, w: Round)
    requires s.phase.Sleeping? && CountsRunning(cfg, s) && ReasonsOk(cfg, s)
    ensures ReasonsOk(cfg, Wake(cfg, s, w))
  {
    DecisionsAreRetries(s.log.decisions);
    assert |s.log.decisions| <= |s.log.sends|;
  }

  lemma StepKeepsReasons(cfg: Config, s: State, w: Round, admitted: bool)
    requires ControlOk(cfg, s) && BooksOk(cfg, s) && DisciplineOk(cfg, s) && ReasonsOk(cfg, s)
    ensures ReasonsOk(cfg, Step(cfg, s, w, admitted))
  {
    match s.phase
    case Starting =>
    case Looping => ArriveKeepsReasons(cfg, s, w);
    case Asking => AnswerKeepsReasons(cfg, s, w, admitted);
    case Sleeping(_) => WakeKeepsReasons(cfg, s, w);
    case Sending(_) => TransmitKeepsReasons(cfg, s, w);
    case Finished =>
  }

  lemma StepKeepsInv(cfg: Config, s: State, w: Round, admitted: bool)
    requires Inv(cfg, s)
    ensures Inv(cfg, Step(cfg, s, w, admitted))
  {
    StepKeepsControl(cfg, s, w, admitted);
    StepKeepsTime(cfg, s, w, admitted);
    StepKeepsBooks(cfg, s, w, admitted);
    StepKeepsDiscipline(cfg, s, w, admitted);
    StepKeepsStarved(cfg, s, w, admitted);
    StepKeepsResult(cfg, s, w, admitted);
    StepKeepsReasons(cfg, s, w, admitted);
  }

  lemma InitiallyInv(cfg: Config, clock: real)
    ensures Inv(cfg, Initially(clock))
  {
  }

  /** The clock reading that fixes, or will fix, the deadline. */
  function Origin(s: State): real { if s.phase.Starting? then s.clock else s.begun }

  /** Later logs extend earlier ones, and time is only lost where the world loses it. */
  predicate Grows(s: State, t: State, w: Round) {
    && LogGrows(s, t)
    && (t.log.sends == s.log.sends ==> t.log.overrun <= s.log.overrun + w.lag + w.oversleep)
    && (t.log.sends != s.log.sends ==>
          && |s.log.sends| == s.i && |t.log.sends| == s.i + 1
          && t.log.sends[s.i].reply == w.reply
          && t.log.overrun <= s.log.overrun + MaxReal(0.0, w.elapsed - t.log.sends[s.i].timeout))
  }

  predicate LogGrows(s: State, t: State) {
    && s.log.sends <= t.log.sends
    && s.log.unbudgeted <= t.log.unbudgeted
    && Origin(s) == Origin(t)
  }

  lemma StepGrows(cfg: Config, s: State, w: Round, admitted: bool)
    requires s.phase.Sending? ==> |s.log.sends| == s.i
    ensures Grows(s, Step(cfg, s, w, admitted), w)
  {
  }

  /** One step of a run: the invariant holds after it, and the run goes on from there. */
  lemma Advance(cfg: Config, env: nat -> Round, s: State, h: seq<Event>) returns (t: State, after: seq<Event>)
    requires Inv(cfg, s) && !s.phase.Finished?
    ensures Inv(cfg, t) && Run(cfg, env, s, h) == Run(cfg, env, t, after) && Grows(s, t, env(s.i))
    ensures PassesLeft(cfg, t) < PassesLeft(cfg, s)
            || (PassesLeft(cfg, t) == PassesLeft(cfg, s) && Rank(t.phase) < Rank(s.phase))
    ensures s.phase.Asking? || t == Step(cfg, s, env(s.i), true)
  {
    var w := env(s.i);
    var admitted := Admitted(cfg, HistorySeen(cfg, s, w, h));
    after := HistoryAfter(cfg, s, HistorySeen(cfg, s, w, h));
    t := Step(cfg, s, w, admitted);
    StepKeepsInv(cfg, s, w, admitted);
    StepGrows(cfg, s, w, admitted);
    RunUnfolds(cfg, env, s, h);
  }

  /** Every fetch finishes, and in a state that satisfies the invariant. */
  lemma {:induction false} RunKeepsInv(cfg: Config, env: nat -> Round, s: State, h: seq<Event>)
    requires Inv(cfg, s)
    ensures var t := Run(cfg, env, s, h).0;
            t.phase.Finished? && Inv(cfg, t) && LogGrows(s, t)
    decreases PassesLeft(cfg, s), Rank(s.phase)
  {
    if !s.phase.Finished? {
      var t, after := Advance(cfg, env, s, h);
      RunKeepsInv(cfg, env, t, after);
    }
  }
}
