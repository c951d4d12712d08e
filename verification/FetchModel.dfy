/** One `fetch` as a machine that stops at every point where it looks at the clock, the
    shared budget or the provider (oauth/_core.py, `fetch` and `_fetch`). */
module FetchModel {
  import opened Wrappers
  import opened Errors
  import opened JsonValues
  import opened Outcome
  import opened Buckets

  type Duration = r: real | 0.0 <= r
  type UnitInterval = u: real | 0.0 <= u <= 1.0

  datatype Config = Config(
    totalTimeout: real,
    timeout: real,
    totalRetries: int,
    budgetCapacity: real,
    refillPerInitial: real,
    retryStatusCodes: set<int>,
    errorTypes: map<string, OAuthError>,
    backoffFactor: real,
    jitterMin: real,
    jitterMax: real)

  /** What one send brings back; no status means the transport failed. */
  datatype Reply = Reply(status: Option<int>, body: Body, retryAfter: nat)

  /** Everything the world decides during one pass of the retry loop. */
  datatype Round = Round(
    lag: Duration,         // time passed before the pass reads the clock
    others: seq<Op>,       // budget calls of other requests before this one asks
    unit: UnitInterval,    // the random number behind the jitter
    oversleep: Duration,   // by how much the sleep overran
    elapsed: Duration,     // time from the last clock reading to the reply
    reply: Reply)

  datatype AttemptKind = Initial | Retry
  datatype Action = Retrying | Skip
  datatype Decision = Decision(action: Action, reason: RetryReason)

  /** A sleep planned at clock reading `at` in pass `index`, jittered by `unit`. */
  datatype Sleep = Sleep(at: real, index: nat, retryAfter: nat, unit: UnitInterval, duration: real)

  /** A send started after clock reading `at` with the given per-attempt timeout. */
  datatype Send = Send(at: real, timeout: real, reply: Reply)

  /** The counters the source reports, and what is needed to talk about time. */
  datatype Log = Log(
    attempts: seq<AttemptKind>,
    decisions: seq<Decision>,
    draws: nat,            // tokens taken from the budget
    sleeps: seq<Sleep>,
    sends: seq<Send>,
    unbudgeted: nat,       // resends that had no delay, so used no token and were not counted
    overrun: real)         // time lost to lag, oversleeping and sends past their timeout

  datatype Phase =
    | Starting
    | Looping
    | Asking
    | Sleeping(duration: real)
    | Sending(unbudgeted: bool)
    | Finished

  datatype State = State(
    phase: Phase,
    i: nat,
    clock: real,
    begun: real,
    deadline: real,
    remaining: real,
    retry: nat,
    completed: nat,
    status: Option<int>,
    pending: Option<RetryReason>,
    result: Body,
    log: Log)

  const EMPTY_LOG := Log([], [], 0, [], [], 0, 0.0)

  const UNKNOWN_FAILURE: Body := ErrorJson(ServerError, BridgeText)

  function Initially(clock: real): State {
    State(Starting, 0, clock, clock, clock, 0.0, 0, 0, None, None, UNKNOWN_FAILURE, EMPTY_LOG)
  }

  function Pow2(n: nat): nat {
    if n == 0 then 1 else 2 * Pow2(n - 1)
  }

  function Backoff(cfg: Config, i: nat): real {
    (Pow2(i) - 1) as real * cfg.backoffFactor
  }

  /** `retry or backoff`. */
  function BaseDelay(cfg: Config, retry: nat, i: nat): real {
    if retry > 0 then retry as real else Backoff(cfg, i)
  }

  function MaxReal(a: real, b: real): real { if a < b then b else a }
  function MinReal(a: real, b: real): real { if b < a then b else a }

  /** `random.uniform(low, high)`; the bounds may come in either order. */
  function Uniform(low: real, high: real, u: UnitInterval): real {
    low + (high - low) * u
  }

  function JitterDelay(cfg: Config, delay: real, preserveFloor: bool, u: UnitInterval): real {
    delay * Uniform(if preserveFloor then MaxReal(1.0, cfg.jitterMin) else cfg.jitterMin, cfg.jitterMax, u)
  }

  function PlannedSleep(cfg: Config, retry: nat, i: nat, u: UnitInterval): real {
    var jittered := JitterDelay(cfg, BaseDelay(cfg, retry, i), retry > 0, u);
    if retry > 0 then MaxReal(retry as real, jittered) else jittered
  }

  function ClassifyReply(cfg: Config, reply: Reply): TokenEndpointOutcome {
    Classify(reply.status, reply.body, cfg.retryStatusCodes, cfg.errorTypes)
  }

  predicate Retryable(cfg: Config, reply: Reply) { ClassifyReply(cfg, reply).retryable }

  /** The body `fetch` keeps after a reply: a retryable one is replaced by a bridge error. */
  function KeptBody(cfg: Config, reply: Reply): Body {
    var outcome := ClassifyReply(cfg, reply);
    if outcome.retryable
    then ErrorJson(outcome.normalizedError.GetOr(ServerError), Get(reply.body, ErrorDescription))
    else reply.body
  }

  function SkipWith(s: State, reason: RetryReason): State {
    s.(phase := Finished, log := s.log.(decisions := s.log.decisions + [Decision(Skip, reason)]))
  }

  /** The source computes the deadline right after refilling the budget. */
  function Open(cfg: Config, s: State): State {
    s.(phase := Looping, begun := s.clock, deadline := s.clock + cfg.totalTimeout)
  }

  /** The head of the loop, up to the budget call. */
  function Arrive(cfg: Config, s: State, w: Round): State {
    if s.i >= cfg.totalRetries + 1 then
      if s.pending.Some? then SkipWith(s, s.pending.value) else s.(phase := Finished)
    else
      var now := s.clock + w.lag;
      var s1 := s.(clock := now, remaining := s.deadline - now, log := s.log.(overrun := s.log.overrun + w.lag));
      if s.pending.None? then s1.(phase := Sending(false))
      else
        var delay := BaseDelay(cfg, s.retry, s.i);
        if delay > s1.remaining then SkipWith(s1, DeadlineExceeded)
        else if delay > 0.0 then s1.(phase := Asking)
        else s1.(phase := Sending(true), pending := None)
  }

  /** The budget has answered. */
  function Answer(cfg: Config, s: State, w: Round, admitted: bool): State {
    if !admitted then SkipWith(s, ResourceExhausted)
    else
      var s1 := s.(log := s.log.(draws := s.log.draws + 1));
      var duration := PlannedSleep(cfg, s.retry, s.i, w.unit);
      if duration > s.remaining then SkipWith(s1, DeadlineExceeded)
      else
        s1.(phase := Sleeping(duration),
            log := s1.log.(
              decisions := s1.log.decisions + [Decision(Retrying, s.pending.GetOr(Unknown))],
              sleeps := s1.log.sleeps + [Sleep(s.clock, s.i, s.retry, w.unit, duration)]))
  }

  function Wake(cfg: Config, s: State, w: Round): State
    requires s.phase.Sleeping?
  {
    var now := s.clock + s.phase.duration + w.oversleep;
    var s1 := s.(clock := now, remaining := s.deadline - now, log := s.log.(overrun := s.log.overrun + w.oversleep));
    if s1.remaining <= 0.0 then SkipWith(s1, DeadlineExceeded)
    else s1.(phase := Sending(false), completed := s.completed + 1, pending := None)
  }

  function Transmit(cfg: Config, s: State, w: Round): State
    requires s.phase.Sending?
  {
    var kind := if s.completed > 0 then Retry else Initial;
    var s1 := s.(log := s.log.(attempts := s.log.attempts + [kind]));
    if s.remaining <= 0.0 then SkipWith(s1, DeadlineExceeded)
    else
      var timeout := MinReal(cfg.timeout, s.remaining);
      var outcome := ClassifyReply(cfg, w.reply);
      s1.(phase := if outcome.retryable then Looping else Finished,
          i := if outcome.retryable then s.i + 1 else s.i,
          clock := s.clock + w.elapsed,
          retry := w.reply.retryAfter,
          status := w.reply.status,
          result := KeptBody(cfg, w.reply),
          pending := if outcome.retryable then Some(outcome.retryReason.GetOr(Unknown)) else None,
          log := s1.log.(
            sends := s1.log.sends + [Send(s.clock, timeout, w.reply)],
            unbudgeted := s1.log.unbudgeted + (if s.phase.unbudgeted then 1 else 0),
            overrun := s1.log.overrun + MaxReal(0.0, w.elapsed - timeout)))
  }

  /** One step; the answer of the budget matters only while asking. */
  function Step(cfg: Config, s: State, w: Round, admitted: bool): State {
    match s.phase
    case Starting => Open(cfg, s)
    case Looping => Arrive(cfg, s, w)
    case Asking => Answer(cfg, s, w, admitted)
    case Sleeping(_) => Wake(cfg, s, w)
    case Sending(_) => Transmit(cfg, s, w)
    case Finished => s
  }

  /** The call this step makes on the shared budget, if any. */
  function BudgetCall(cfg: Config, s: State): Option<Op> {
    match s.phase
    case Starting => Some(Add(cfg.refillPerInitial))
    case Asking => Some(Consume(1.0))
    case _ => None
  }

  function HistoryAfter(cfg: Config, s: State, h: seq<Event>): seq<Event> {
    match BudgetCall(cfg, s)
    case Some(op) => Apply(cfg.budgetCapacity, h, op)
    case None => h
  }

  predicate Admitted(cfg: Config, h: seq<Event>) { 1.0 <= Level(cfg.budgetCapacity, h) }

  predicate InLoop(phase: Phase) { phase.Asking? || phase.Sleeping? || phase.Sending? }

  /** The loop variable stays in its range. */
  predicate InRange(cfg: Config, s: State) {
    && (s.i == 0 || s.i <= cfg.totalRetries + 1)
    && (InLoop(s.phase) ==> s.i <= cfg.totalRetries)
  }

  function Rank(phase: Phase): nat {
    match phase
    case Starting => 5
    case Looping => 4
    case Asking => 3
    case Sleeping(_) => 2
    case Sending(_) => 1
    case Finished => 0
  }

  function PassesLeft(cfg: Config, s: State): nat {
    if s.i <= cfg.totalRetries + 1 then cfg.totalRetries + 1 - s.i else 0
  }

  /** The history seen by the step: other requests act before this one asks. */
  function HistorySeen(cfg: Config, s: State, w: Round, h: seq<Event>): seq<Event> {
    if s.phase.Asking? then ApplyAll(cfg.budgetCapacity, h, w.others) else h
  }

  /** The whole fetch against a world that answers pass `i` with `env(i)`. */
  function Run(cfg: Config, env: nat -> Round, s: State, h: seq<Event>): (State, seq<Event>)
    requires InRange(cfg, s)
    decreases PassesLeft(cfg, s), Rank(s.phase)
  {
    if s.phase.Finished? then (s, h)
    else
      var seen := HistorySeen(cfg, s, env(s.i), h);
      Run(cfg, env, Step(cfg, s, env(s.i), Admitted(cfg, seen)), HistoryAfter(cfg, s, seen))
  }

  lemma RunUnfolds(cfg: Config, env: nat -> Round, s: State, h: seq<Event>)
    requires InRange(cfg, s) && !s.phase.Finished?
    ensures var seen := HistorySeen(cfg, s, env(s.i), h);
            var t := Step(cfg, s, env(s.i), Admitted(cfg, seen));
            && InRange(cfg, t)
            && (PassesLeft(cfg, t) < PassesLeft(cfg, s)
                || (PassesLeft(cfg, t) == PassesLeft(cfg, s) && Rank(t.phase) < Rank(s.phase)))
            && Run(cfg, env, s, h) == Run(cfg, env, t, HistoryAfter(cfg, s, seen))
  {
  }

  /** From the budget call to the end of the sleep. */
  function Drawn(cfg: Config, s: State, w: Round, h: seq<Event>): (State, seq<Event>) {
    var seen := ApplyAll(cfg.budgetCapacity, h, w.others);
    var t := Answer(cfg, s, w, Admitted(cfg, seen));
    (if t.phase.Sleeping? then Wake(cfg, t, w) else t, Apply(cfg.budgetCapacity, seen, Consume(1.0)))
  }

  /** The retry block of one pass: everything between the loop head and the send. */
  function Paused(cfg: Config, s: State, w: Round, h: seq<Event>): (State, seq<Event>) {
    var t := Arrive(cfg, s, w);
    if t.phase.Asking? then Drawn(cfg, t, w, h) else (t, h)
  }

  /** One whole pass of the loop. */
  function Passed(cfg: Config, s: State, w: Round, h: seq<Event>): (State, seq<Event>) {
    var (t, after) := Paused(cfg, s, w, h);
    (if t.phase.Sending? then Transmit(cfg, t, w) else t, after)
  }

  lemma RunThroughPause(cfg: Config, env: nat -> Round, s: State, h: seq<Event>)
    requires InRange(cfg, s) && s.phase.Looping?
    ensures var (t, after) := Paused(cfg, s, env(s.i), h);
            && InRange(cfg, t) && t.i == s.i && (t.phase.Sending? || t.phase.Finished?)
            && Run(cfg, env, s, h) == Run(cfg, env, t, after)
  {
    RunUnfolds(cfg, env, s, h);
    var s1 := Arrive(cfg, s, env(s.i));
    if s1.phase.Asking? {
      RunUnfolds(cfg, env, s1, h);
      var seen := ApplyAll(cfg.budgetCapacity, h, env(s.i).others);
      var s2 := Answer(cfg, s1, env(s.i), Admitted(cfg, seen));
      if s2.phase.Sleeping? {
        RunUnfolds(cfg, env, s2, Apply(cfg.budgetCapacity, seen, Consume(1.0)));
      }
    }
  }

  /** A run at the loop head: a pass and the rest, or the end of the range. */
  lemma RunThroughPass(cfg: Config, env: nat -> Round, s: State, h: seq<Event>)
    requires InRange(cfg, s) && s.phase.Looping?
    ensures s.i <= cfg.totalRetries ==>
              var (t, after) := Passed(cfg, s, env(s.i), h);
              && InRange(cfg, t) && (t.phase.Looping? || t.phase.Finished?)
              && (PassesLeft(cfg, t) < PassesLeft(cfg, s) || (t.i == s.i && t.phase.Finished?))
              && Run(cfg, env, s, h) == Run(cfg, env, t, after)
    ensures s.i > cfg.totalRetries ==>
              Run(cfg, env, s, h)
              == (if s.pending.Some? then SkipWith(s, s.pending.value) else s.(phase := Finished), h)
  {
    if s.i <= cfg.totalRetries {
      RunThroughPause(cfg, env, s, h);
      var (t, after) := Paused(cfg, s, env(s.i), h);
      if t.phase.Sending? { RunUnfolds(cfg, env, t, after); }
    } else {
      RunUnfolds(cfg, env, s, h);
    }
  }

  /** The value `fetch` returns. */
  function Returned(s: State): Body {
    if Error in s.result && s.retry > 0 then s.result[RetryAfter := Number(s.retry)] else s.result
  }
}
