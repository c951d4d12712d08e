/** How long the gauge can stay wrong once nothing more is written: the worker's bound on
    waiting, carried over to the table and the gauge. */
module GaugeStaleness {
  import opened Wrappers
  import Grants
  import opened MetricsCache
  import C = Coalescing
  import P = CoalescingProofs

  // ----- the worker's part of a step

  /** The step the worker system takes, if any. */
  function WorkerStep(s: State, l: Label): Option<C.Label> {
    match l
    case WriterRequests => if s.writers > 0 && Reachable(s) then Some(C.Request) else None
    case SpawnWorker => if s.service.Registered? then Some(C.Start) else None
    case FirstRequest => if s.service.Spawned? then Some(C.Request) else None
    case ExtraRequest => if s.service.Ready? then Some(C.Request) else None
    case StopWorker => if s.service.Removed? then Some(C.Stop) else None
    case Work(t) => if Refreshing(s) && !s.refresh.Finished? then None else Some(C.Work(t))
    case Tick(d) => Some(C.Tick(d))
    case _ => None
  }

  function WorkerAfter(cfg: C.Timing, s: State, l: Label): C.State {
    match WorkerStep(s, l)
    case Some(w) => C.Step(cfg, s.worker, w)
    case None => s.worker
  }

  lemma StepWorker(cfg: C.Timing, s: State, l: Label)
    ensures Step(cfg, s, l).worker == WorkerAfter(cfg, s, l)
  {
  }

  /** While it is registered the worker is not stopped, and once spawned it has its thread. */
  predicate ServiceOk(s: State) {
    && (s.service.Spawned? || s.service.Ready? || s.service.Removed? ==> s.worker.fields.started)
    && (!s.service.Removed? ==> !s.worker.fields.stopped)
  }

  predicate Ready(cfg: C.Timing, s: State) {
    Inv(s) && ServiceOk(s) && P.DeadlinesOk(cfg, s.worker)
  }

  lemma StepKeepsService(cfg: C.Timing, s: State, l: Label)
    requires ServiceOk(s)
    ensures ServiceOk(Step(cfg, s, l))
  {
    StepWorker(cfg, s, l);
  }

  lemma StepKeepsDeadlines(cfg: C.Timing, s: State, l: Label)
    requires P.Inv(s.worker) && P.DeadlinesOk(cfg, s.worker)
    ensures P.DeadlinesOk(cfg, Step(cfg, s, l).worker)
  {
    StepWorker(cfg, s, l);
    match WorkerStep(s, l)
    case Some(w) =>
      P.ExecNext(cfg, s.worker, w, []);
      P.ExecKeepsDeadlines(cfg, s.worker, [w] + []);
    case None =>
  }

  lemma {:induction false} ExecKeepsReady(cfg: C.Timing, s: State, labels: seq<Label>)
    requires Ready(cfg, s)
    ensures Ready(cfg, Exec(cfg, s, labels))
    decreases |labels|
  {
    if labels != [] {
      StepKeepsInv(cfg, s, labels[0]);
      StepKeepsService(cfg, s, labels[0]);
      StepKeepsDeadlines(cfg, s, labels[0]);
      ExecKeepsReady(cfg, Step(cfg, s, labels[0]), labels[1..]);
    }
  }

  // ----- nothing more is written

  /** Nothing is written, the service stays, and the worker is scheduled promptly. */
  predicate Calm(s: State, l: Label) {
    && !l.CommitInsert? && !l.CommitUpdate? && !l.Remove?
    && (WorkerStep(s, l).Some? ==> P.Prompt(s.worker, WorkerStep(s, l).value))
  }

  predicate CalmRun(cfg: C.Timing, s: State, labels: seq<Label>)
    decreases |labels|
  {
    labels == [] || (Calm(s, labels[0]) && CalmRun(cfg, Step(cfg, s, labels[0]), labels[1..]))
  }

  /** Time spent outside refreshes. */
  function Waited(cfg: C.Timing, s: State, labels: seq<Label>): real
    decreases |labels|
  {
    if labels == [] then 0.0
    else (if labels[0].Tick? && !Refreshing(s) then labels[0].d else 0.0)
         + Waited(cfg, Step(cfg, s, labels[0]), labels[1..])
  }

  /** All writers have made their requests, and the service is up. */
  predicate Written(cfg: C.Timing, s: State) { Ready(cfg, s) && s.service.Ready? && s.writers == 0 }

  predicate Right(s: State) { s.gauge == CountRows(s.rows) }

  lemma CalmStepStaysWritten(cfg: C.Timing, s: State, l: Label)
    requires Written(cfg, s) && Calm(s, l)
    ensures Written(cfg, Step(cfg, s, l))
  {
    StepKeepsInv(cfg, s, l);
    StepKeepsService(cfg, s, l);
    StepKeepsDeadlines(cfg, s, l);
  }

  /** The refresh under way, if it agrees with the table, will still agree. */
  lemma CalmStepStaysAgreed(cfg: C.Timing, s: State, l: Label)
    requires Written(cfg, s) && Calm(s, l) && WillAgree(s)
    ensures WillAgree(Step(cfg, s, l)) && (Right(s) ==> Right(Step(cfg, s, l)))
  {
    P.SingleThread(s.worker);
  }

  lemma {:induction false} RightStays(cfg: C.Timing, s: State, labels: seq<Label>)
    requires Written(cfg, s) && CalmRun(cfg, s, labels) && WillAgree(s) && Right(s)
    ensures Right(Exec(cfg, s, labels))
    decreases |labels|
  {
    if labels != [] {
      CalmStepStaysWritten(cfg, s, labels[0]);
      CalmStepStaysAgreed(cfg, s, labels[0]);
      RightStays(cfg, Step(cfg, s, labels[0]), labels[1..]);
    }
  }

  function Begun(s: State): nat { |s.worker.calls| }

  /** Calls that have begun or are just about to. */
  function Committed(s: State): nat { Begun(s) + if P.Worker(s.worker).Launching? then 1 else 0 }

  /** A wrong gauge that will agree is being refreshed: no waiting, and no further call. */
  lemma AgreeingStep(cfg: C.Timing, s: State, l: Label)
    requires Written(cfg, s) && Calm(s, l) && WillAgree(s) && !Right(s)
    ensures l.Tick? ==> Refreshing(s)
    ensures Committed(Step(cfg, s, l)) == Committed(s)
  {
    P.SingleThread(s.worker);
  }

  lemma {:induction false} AgreeingRun(cfg: C.Timing, s: State, labels: seq<Label>)
    requires Written(cfg, s) && CalmRun(cfg, s, labels) && WillAgree(s) && !Right(Exec(cfg, s, labels))
    ensures Waited(cfg, s, labels) == 0.0 && Begun(Exec(cfg, s, labels)) <= Committed(s)
    decreases |labels|
  {
    if labels != [] {
      if Right(s) { RightStays(cfg, s, labels); }
      AgreeingStep(cfg, s, labels[0]);
      CalmStepStaysWritten(cfg, s, labels[0]);
      CalmStepStaysAgreed(cfg, s, labels[0]);
      AgreeingRun(cfg, Step(cfg, s, labels[0]), labels[1..]);
    }
  }

  /** Before the call that will set it right, the worker's wait left absorbs all waiting. */
  lemma OwingStep(cfg: C.Timing, s: State, l: Label)
    requires Written(cfg, s) && Calm(s, l) && !WillAgree(s)
    ensures var t := Step(cfg, s, l);
            && P.WaitLeft(cfg, t.worker) + (if l.Tick? && !Refreshing(s) then l.d else 0.0) <= P.WaitLeft(cfg, s.worker)
            && Begun(t) == Begun(s)
  {
    StepWorker(cfg, s, l);
    if WorkerStep(s, l).Some? {
      NoCallYet(cfg, s.worker, WorkerStep(s, l).value);
      P.PromptStep(cfg, s.worker, WorkerStep(s, l).value);
    }
  }

  /** Only a worker that is about to launch begins a call. */
  lemma NoCallYet(cfg: C.Timing, w: C.State, l: C.Label)
    requires P.Inv(w) && !P.Worker(w).Launching?
    ensures |C.Step(cfg, w, l).calls| == |w.calls|
  {
  }

  lemma {:induction false} OwingRun(cfg: C.Timing, s: State, labels: seq<Label>)
    requires Written(cfg, s) && CalmRun(cfg, s, labels) && !WillAgree(s) && !Right(Exec(cfg, s, labels))
    ensures Waited(cfg, s, labels) <= P.WaitLeft(cfg, s.worker) && Begun(Exec(cfg, s, labels)) <= Begun(s) + 1
    decreases |labels|
  {
    if labels != [] {
      var t := Step(cfg, s, labels[0]);
      OwingStep(cfg, s, labels[0]);
      CalmStepStaysWritten(cfg, s, labels[0]);
      if WillAgree(t) {
        AgreeingRun(cfg, t, labels[1..]);
      } else {
        OwingRun(cfg, t, labels[1..]);
      }
    }
  }

  /** Bounded staleness: once the writers have stopped and made their requests, as long as the
      gauge is still wrong, the worker has waited no longer than the startup delay and one
      debounce outside its refreshes, and at most one more refresh has begun. */
  lemma StalenessIsBounded(cfg: C.Timing, rows: Grants.Table, gauge: Counts, before: seq<Label>, labels: seq<Label>)
    ensures var s := Exec(cfg, Initially(rows, gauge), before);
            s.service.Ready? && s.writers == 0 && CalmRun(cfg, s, labels) && !Right(Exec(cfg, s, labels)) ==>
              && Waited(cfg, s, labels) <= P.NonNegative(cfg.startupDelay) + P.NonNegative(cfg.debounce)
              && Begun(Exec(cfg, s, labels)) <= Begun(s) + 1
  {
    ExecKeepsReady(cfg, Initially(rows, gauge), before);
    var s := Exec(cfg, Initially(rows, gauge), before);
    if s.service.Ready? && s.writers == 0 && CalmRun(cfg, s, labels) && !Right(Exec(cfg, s, labels)) {
      if WillAgree(s) {
        AgreeingRun(cfg, s, labels);
      } else {
        OwingRun(cfg, s, labels);
      }
    }
  }
}
