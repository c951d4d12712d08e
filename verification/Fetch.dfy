/** `fetch` as the source runs it: a loop that updates its locals and the shared bucket. */
module Fetch {
  import opened Wrappers
  import opened Errors
  import opened JsonValues
  import opened Outcome
  import opened Buckets
  import opened FetchModel

  /** The inner part of the retry block: take a token, sleep, and look at the clock again. */
  method Draw(bucket: Bucket, cfg: Config, s: State, w: Round) returns (t: State)
    requires bucket.Valid() && bucket.capacity == cfg.budgetCapacity && s.phase.Asking?
    modifies bucket
    ensures bucket.Valid()
    ensures (t, bucket.history) == Drawn(cfg, s, w, old(bucket.history))
  {
    OtherRequests(bucket, w.others);
    var admitted := bucket.Consume(1.0);
    var log := s.log;
    if !admitted {
      log := log.(decisions := log.decisions + [Decision(Skip, ResourceExhausted)]);
      return s.(phase := Finished, log := log);
    }
    log := log.(draws := log.draws + 1);

    var sleepFor := JitterDelay(cfg, BaseDelay(cfg, s.retry, s.i), s.retry > 0, w.unit);
    if s.retry > 0 {
      sleepFor := MaxReal(s.retry as real, sleepFor);
    }
    if sleepFor > s.remaining {
      log := log.(decisions := log.decisions + [Decision(Skip, DeadlineExceeded)]);
      return s.(phase := Finished, log := log);
    }
    log := log.(decisions := log.decisions + [Decision(Retrying, s.pending.GetOr(Unknown))],
                sleeps := log.sleeps + [Sleep(s.clock, s.i, s.retry, w.unit, sleepFor)],
                overrun := log.overrun + w.oversleep);
    var clock := s.clock + sleepFor + w.oversleep;
    t := s.(clock := clock, remaining := s.deadline - clock, log := log);
    if t.remaining <= 0.0 {
      log := log.(decisions := log.decisions + [Decision(Skip, DeadlineExceeded)]);
      t := t.(phase := Finished, log := log);
    } else {
      t := t.(phase := Sending(false), completed := s.completed + 1, pending := None);
    }
  }

  /** The retry block of the loop body: decide whether there is time for another attempt. */
  method Pause(bucket: Bucket, cfg: Config, s: State, w: Round) returns (t: State)
    requires bucket.Valid() && bucket.capacity == cfg.budgetCapacity
    requires s.phase.Looping? && s.i <= cfg.totalRetries
    modifies bucket
    ensures bucket.Valid()
    ensures (t, bucket.history) == Paused(cfg, s, w, old(bucket.history))
  {
    var backoff := Backoff(cfg, s.i);
    var clock := s.clock + w.lag;
    var remaining := s.deadline - clock;
    t := s.(clock := clock, remaining := remaining, log := s.log.(overrun := s.log.overrun + w.lag));

    if s.pending.None? {
      t := t.(phase := Sending(false));
    } else {
      var delay := if s.retry > 0 then s.retry as real else backoff;
      if delay > remaining {
        t := t.(phase := Finished, log := t.log.(decisions := t.log.decisions + [Decision(Skip, DeadlineExceeded)]));
      } else if delay > 0.0 {
        t := Draw(bucket, cfg, t.(phase := Asking), w);
      } else {
        t := t.(phase := Sending(true), pending := None);
      }
    }
  }

  /** The rest of the loop body: record the attempt, send, classify the reply. */
  method Attempt(cfg: Config, s: State, w: Round) returns (t: State)
    requires s.phase.Sending?
    ensures t == Transmit(cfg, s, w)
  {
    var log := s.log.(attempts := s.log.attempts + [if s.completed > 0 then Retry else Initial]);
    if s.remaining <= 0.0 {
      log := log.(decisions := log.decisions + [Decision(Skip, DeadlineExceeded)]);
      return s.(phase := Finished, log := log);
    }
    var timeout := MinReal(cfg.timeout, s.remaining);
    log := log.(sends := log.sends + [Send(s.clock, timeout, w.reply)],
                unbudgeted := log.unbudgeted + (if s.phase.unbudgeted then 1 else 0),
                overrun := log.overrun + MaxReal(0.0, w.elapsed - timeout));
    var result, status, retry := w.reply.body, w.reply.status, w.reply.retryAfter;
    var outcome := Classify(status, result, cfg.retryStatusCodes, cfg.errorTypes);
    if outcome.retryable {
      result := ErrorJson(outcome.normalizedError.GetOr(ServerError), Get(result, ErrorDescription));
      t := s.(phase := Looping, i := s.i + 1, pending := Some(outcome.retryReason.GetOr(Unknown)));
    } else {
      t := s.(phase := Finished, pending := None);
    }
    t := t.(clock := s.clock + w.elapsed, retry := retry, status := status, result := result, log := log);
  }

  /** The body of the `for` loop. */
  method Pass(bucket: Bucket, cfg: Config, s: State, w: Round) returns (t: State)
    requires bucket.Valid() && bucket.capacity == cfg.budgetCapacity
    requires s.phase.Looping? && s.i <= cfg.totalRetries
    modifies bucket
    ensures bucket.Valid()
    ensures (t, bucket.history) == Passed(cfg, s, w, old(bucket.history))
  {
    t := Pause(bucket, cfg, s, w);
    if t.phase.Sending? {
      t := Attempt(cfg, t, w);
    }
  }

  /** The `for` loop with its `else`. */
  method Loop(bucket: Bucket, cfg: Config, env: nat -> Round, first: State) returns (s: State)
    requires bucket.Valid() && bucket.capacity == cfg.budgetCapacity
    requires first.phase.Looping? && InRange(cfg, first)
    modifies bucket
    ensures bucket.Valid()
    ensures (s, bucket.history) == Run(cfg, env, first, old(bucket.history))
  {
    ghost var goal := Run(cfg, env, first, bucket.history);
    s := first;
    while s.phase.Looping? && s.i < cfg.totalRetries + 1
      invariant bucket.Valid() && InRange(cfg, s) && (s.phase.Looping? || s.phase.Finished?)
      invariant Run(cfg, env, s, bucket.history) == goal
      decreases PassesLeft(cfg, s), Rank(s.phase)
    {
      RunThroughPass(cfg, env, s, bucket.history);
      s := Pass(bucket, cfg, s, env(s.i));
    }
    // Reached without a break: a retry may still be pending.
    if s.phase.Looping? {
      RunThroughPass(cfg, env, s, bucket.history);
      if s.pending.Some? {
        s := SkipWith(s, s.pending.value);
      } else {
        s := s.(phase := Finished);
      }
    }
  }

  /** Runs a fetch. `s` holds the source's locals; its final value carries the counters. */
  method Fetch(bucket: Bucket, cfg: Config, env: nat -> Round, start: real) returns (result: Body, s: State)
    requires bucket.Valid() && bucket.capacity == cfg.budgetCapacity
    modifies bucket
    ensures bucket.Valid()
    ensures (s, bucket.history) == Run(cfg, env, Initially(start), old(bucket.history))
    ensures result == Returned(s)
  {
    bucket.Add(cfg.refillPerInitial);
    s := Open(cfg, Initially(start));
    s := Loop(bucket, cfg, env, s);
    RunUnfolds(cfg, env, Initially(start), old(bucket.history));
    result := s.result;
    if Error in result && s.retry > 0 {
      result := result[RetryAfter := Number(s.retry)];
    }
  }
}
