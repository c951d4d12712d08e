/** Safety and bounded progress of the worker, for every interleaving of start, request,
    stop, the worker thread and the clock. */
module CoalescingProofs {
  import opened Coalescing

  // ----- the invariant

  function Worker(s: State): Pc { if s.threads == [] then Exited else s.threads[0] }

  predicate ThreadsOk(s: State) {
    |s.threads| == s.fields.spawned && s.fields.spawned == (if s.fields.started then 1 else 0)
  }

  predicate CountersOk(s: State) {
    && s.fields.handled <= s.fields.generation == |s.requestedAt|
    && (forall k :: 0 <= k < |s.requestedAt| ==> s.requestedAt[k] < s.now)
  }

  /** What each place of the worker says about the shared fields. */
  predicate PlaceOk(s: State) {
    var f := s.fields;
    match Worker(s)
    case Booting => true
    case BootWait(_, awake) => awake || !f.stopped
    case Parked(awake) => awake || (f.generation == f.handled && !f.stopped)
    case Claimed(g) => f.handled < g <= f.generation
    case Debouncing(g, _, awake) => f.handled < g <= f.generation && (awake || !f.stopped)
    case Handling(g) => f.handled < g <= f.generation
    case Launching(lo, g, hi) => lo < g <= hi == f.handled
    case Running(lo, g, hi) => lo < g <= hi == f.handled
    case Exited => f.stopped || s.threads == []
  }

  function LastHi(calls: seq<Call>): nat { if calls == [] then 0 else calls[|calls| - 1].hi }

  /** The calls split the handled requests into consecutive non-empty blocks. */
  predicate BlocksOk(calls: seq<Call>) {
    calls == [] ||
    var c := calls[|calls| - 1];
    c.lo == LastHi(calls[..|calls| - 1]) && c.lo < c.claimed <= c.hi && BlocksOk(calls[..|calls| - 1])
  }

  lemma {:induction false} BlockAt(calls: seq<Call>, k: nat)
    requires BlocksOk(calls) && k < |calls|
    ensures calls[k].lo < calls[k].claimed <= calls[k].hi
    ensures calls[k].lo == if k == 0 then 0 else calls[k - 1].hi
    decreases |calls|
  {
    if k < |calls| - 1 { BlockAt(calls[..|calls| - 1], k); }
  }

  predicate HandledOk(s: State) {
    LastHi(s.calls) == if Worker(s).Launching? then Worker(s).lo else s.fields.handled
  }

  /** Each call begins after all requests of its block. */
  predicate CoversOk(s: State) {
    forall k :: 0 <= k < |s.calls| ==>
      && s.calls[k].hi <= |s.requestedAt|
      && forall r :: s.calls[k].lo <= r < s.calls[k].hi ==> s.requestedAt[r] < s.calls[k].began
  }

  /** Calls do not overlap: each ends before the next begins, and only the last may be open. */
  predicate TimesOk(s: State) {
    && (forall k :: 0 <= k < |s.calls| - 1 ==> s.calls[k].began <= s.calls[k].ended <= s.calls[k + 1].began)
    && (s.calls != [] ==>
          var last := s.calls[|s.calls| - 1];
          && last.began < s.now
          && (if Worker(s).Running? then last.ended == UNFINISHED else last.began <= last.ended < s.now))
    && (Worker(s).Running? ==> s.calls != [])
  }

  predicate Inv(s: State) {
    ThreadsOk(s) && CountersOk(s) && PlaceOk(s) && BlocksOk(s.calls) && HandledOk(s) && CoversOk(s) && TimesOk(s)
  }

  lemma SingleThread(s: State)
    requires ThreadsOk(s)
    ensures Notify(s.threads) == NotifyAll(s.threads)
    ensures Notify(s.threads)
            == if s.threads == [] then []
               else [if Waiting(s.threads[0]) then Wake(s.threads[0]) else s.threads[0]]
  {
    if s.threads != [] {
      assert s.threads[1..] == [];
    }
  }

  lemma StepKeepsCounters(cfg: Timing, s: State, l: Label)
    requires Inv(s)
    ensures ThreadsOk(Step(cfg, s, l)) && CountersOk(Step(cfg, s, l))
  {
    SingleThread(s);
  }

  lemma WorkKeepsPlaces(cfg: Timing, s: State)
    requires Inv(s) && Enabled(s, Work(0))
    ensures PlaceOk(Step(cfg, s, Work(0)))
  {
  }

  lemma StepKeepsPlaces(cfg: Timing, s: State, l: Label)
    requires Inv(s)
    ensures PlaceOk(Step(cfg, s, l))
  {
    SingleThread(s);
    if l.Work? && Enabled(s, l) { WorkKeepsPlaces(cfg, s); }
  }

  lemma BlocksGrow(calls: seq<Call>, c: Call)
    requires BlocksOk(calls) && c.lo == LastHi(calls) && c.lo < c.claimed <= c.hi
    ensures BlocksOk(calls + [c]) && LastHi(calls + [c]) == c.hi
  {
    assert (calls + [c])[..|calls|] == calls;
  }

  lemma BlocksEnd(calls: seq<Call>, ended: int)
    requires BlocksOk(calls) && calls != []
    ensures var last := calls[|calls| - 1 := calls[|calls| - 1].(ended := ended)];
            BlocksOk(last) && LastHi(last) == LastHi(calls)
  {
    assert calls[|calls| - 1 := calls[|calls| - 1].(ended := ended)][..|calls| - 1] == calls[..|calls| - 1];
  }

  lemma WorkKeepsBlocks(cfg: Timing, s: State, t: nat)
    requires Inv(s) && Enabled(s, Work(t))
    ensures BlocksOk(Step(cfg, s, Work(t)).calls) && HandledOk(Step(cfg, s, Work(t)))
  {
    match s.threads[t]
    case Launching(lo, g, hi) => BlocksGrow(s.calls, Call(lo, g, hi, s.now, s.clock, UNFINISHED));
    case Running(_, _, _) => BlocksEnd(s.calls, s.now);
    case _ =>
  }

  lemma StepKeepsBlocks(cfg: Timing, s: State, l: Label)
    requires Inv(s)
    ensures BlocksOk(Step(cfg, s, l).calls) && HandledOk(Step(cfg, s, l))
  {
    SingleThread(s);
    if l.Work? && Enabled(s, l) { WorkKeepsBlocks(cfg, s, l.t); }
  }

  lemma StepKeepsCovers(cfg: Timing, s: State, l: Label)
    requires Inv(s)
    ensures CoversOk(Step(cfg, s, l))
  {
    SingleThread(s);
  }

  lemma LaunchKeepsTimes(cfg: Timing, s: State)
    requires Inv(s) && Worker(s).Launching?
    ensures TimesOk(Step(cfg, s, Work(0)))
  {
    var calls, n := Step(cfg, s, Work(0)).calls, |s.calls|;
    assert |calls| == n + 1 && calls[..n] == s.calls;
    assert n > 0 ==> calls[n - 1] == s.calls[n - 1];
  }

  lemma WorkKeepsTimes(cfg: Timing, s: State, t: nat)
    requires Inv(s) && Enabled(s, Work(t))
    ensures TimesOk(Step(cfg, s, Work(t)))
  {
    if Worker(s).Launching? { LaunchKeepsTimes(cfg, s); }
  }

  lemma StepKeepsTimes(cfg: Timing, s: State, l: Label)
    requires Inv(s)
    ensures TimesOk(Step(cfg, s, l))
  {
    SingleThread(s);
    if l.Work? && Enabled(s, l) { WorkKeepsTimes(cfg, s, l.t); }
  }

  lemma StepKeepsInv(cfg: Timing, s: State, l: Label)
    requires Inv(s)
    ensures Inv(Step(cfg, s, l))
  {
    StepKeepsCounters(cfg, s, l);
    StepKeepsPlaces(cfg, s, l);
    StepKeepsBlocks(cfg, s, l);
    StepKeepsCovers(cfg, s, l);
    StepKeepsTimes(cfg, s, l);
  }

  lemma {:induction false} ExecKeepsInv(cfg: Timing, s: State, labels: seq<Label>)
    requires Inv(s)
    ensures Inv(Exec(cfg, s, labels))
    decreases |labels|
  {
    if labels != [] {
      StepKeepsInv(cfg, s, labels[0]);
      ExecKeepsInv(cfg, Step(cfg, s, labels[0]), labels[1..]);
    }
  }

  // ----- safety

  /** No lost wake-up: a worker asleep in `wait_for` has nothing to do and was not stopped. */
  lemma NoLostWakeUp(cfg: Timing, labels: seq<Label>)
    ensures var s := Exec(cfg, INITIAL, labels);
            forall t :: 0 <= t < |s.threads| && s.threads[t] == Parked(false) ==>
              s.fields.generation == s.fields.handled && !s.fields.stopped
  {
    ExecKeepsInv(cfg, INITIAL, labels);
  }

  /** The request numbered r has a call that began after it was made. */
  ghost predicate Answered(s: State, r: nat)
    requires 1 <= r <= |s.requestedAt|
  {
    exists k :: 0 <= k < |s.calls| && s.calls[k].lo < r <= s.calls[k].hi && s.requestedAt[r - 1] < s.calls[k].began
  }

  lemma {:induction false} BlockOf(calls: seq<Call>, r: nat) returns (k: nat)
    requires BlocksOk(calls) && 1 <= r <= LastHi(calls)
    ensures k < |calls| && calls[k].lo < r <= calls[k].hi
    decreases |calls|
  {
    k := |calls| - 1;
    if r <= calls[k].lo {
      k := BlockOf(calls[..k], r);
    }
  }

  /** No lost request: every request numbered at most `handled` has been answered by a call
      that began after it, or the worker is just about to begin that call. */
  lemma NoLostRequest(cfg: Timing, labels: seq<Label>, r: nat)
    ensures var s := Exec(cfg, INITIAL, labels);
            1 <= r <= s.fields.handled ==>
              && r <= |s.requestedAt|
              && (Answered(s, r) || (Worker(s).Launching? && Worker(s).lo < r <= Worker(s).hi))
  {
    ExecKeepsInv(cfg, INITIAL, labels);
    var s := Exec(cfg, INITIAL, labels);
    if 1 <= r <= LastHi(s.calls) {
      var k := BlockOf(s.calls, r);
      assert s.requestedAt[r - 1] < s.calls[k].began;
    }
  }

  lemma {:induction false} CallsWithinBlocks(calls: seq<Call>)
    requires BlocksOk(calls)
    ensures |calls| <= LastHi(calls)
  {
    if calls != [] { CallsWithinBlocks(calls[..|calls| - 1]); }
  }

  /** Call k answers the block right after call k - 1, and reports a count within it: all of
      it exactly when a single request had been made by the time the worker woke. */
  predicate CallAccounts(calls: seq<Call>, k: nat)
    requires k < |calls|
  {
    var c := calls[k];
    && c.lo == (if k == 0 then 0 else calls[k - 1].hi)
    && 1 <= Reported(c) <= c.hi - c.lo
    && (Reported(c) == c.hi - c.lo <==> c.claimed == c.lo + 1)
  }

  /** Accounting: calls answer consecutive non-empty blocks of the handled requests. */
  lemma Accounting(cfg: Timing, labels: seq<Label>)
    ensures var s := Exec(cfg, INITIAL, labels);
            && |s.calls| <= s.fields.handled <= s.fields.generation
            && (forall k :: 0 <= k < |s.calls| ==> CallAccounts(s.calls, k))
  {
    ExecKeepsInv(cfg, INITIAL, labels);
    var s := Exec(cfg, INITIAL, labels);
    CallsWithinBlocks(s.calls);
    forall k | 0 <= k < |s.calls| ensures CallAccounts(s.calls, k) {
      BlockAt(s.calls, k);
    }
  }

  lemma ExecNext(cfg: Timing, s: State, l: Label, rest: seq<Label>)
    ensures Exec(cfg, s, [l] + rest) == Exec(cfg, Step(cfg, s, l), rest)
  {
    assert ([l] + rest)[1..] == rest;
  }

  /** A worker that moves on from `s` alone. */
  lemma ExecWork(cfg: Timing, s: State, rest: seq<Label>) returns (t: State)
    requires |s.threads| == 1 && CanMove(s, s.threads[0])
    ensures t == s.(threads := [NextPc(cfg, s, s.threads[0])], now := s.now + 1, calls := CallsAfter(s, s.threads[0]),
                    fields := if s.threads[0].Handling? && !s.fields.stopped
                              then HandleSection(s.fields, s.threads[0].generation) else s.fields)
    ensures Exec(cfg, s, [Work(0)] + rest) == Exec(cfg, t, rest)
  {
    t := Step(cfg, s, Work(0));
    ExecNext(cfg, s, Work(0), rest);
  }

  const BURST: seq<Label> := [Start, Request, Request]

  lemma BurstArrives(cfg: Timing, rest: seq<Label>) returns (s: State)
    ensures s == State(Shared(2, 0, true, false, 1), [Booting], 0.0, 3, [1, 2], [0.0, 0.0], 0.0, [])
    ensures Exec(cfg, INITIAL, BURST + rest) == Exec(cfg, s, rest)
  {
    var s1 := Step(cfg, INITIAL, Start);
    var s2 := Step(cfg, s1, Request);
    s := Step(cfg, s2, Request);
    SingleThread(s1);
    SingleThread(s2);
    assert s1 == State(Shared(0, 0, true, false, 1), [Booting], 0.0, 1, [], [], 0.0, []);
    assert s2 == State(Shared(1, 0, true, false, 1), [Booting], 0.0, 2, [1], [0.0], 0.0, []);
    ExecNext(cfg, INITIAL, Start, [Request, Request] + rest);
    ExecNext(cfg, s1, Request, [Request] + rest);
    ExecNext(cfg, s2, Request, rest);
    assert BURST + rest == [Start] + ([Request, Request] + rest);
    assert [Request, Request] + rest == [Request] + ([Request] + rest);
  }

  const FIVE_MOVES: seq<Label> := [Work(0)] + ([Work(0)] + ([Work(0)] + ([Work(0)] + ([Work(0)] + []))))

  /** The reported count can fall short: two requests made before the worker woke are
      answered by one call that reports one. */
  lemma TwoRequestsReportedAsOne()
    ensures var calls := Exec(Timing(0.0, 0.0), INITIAL, BURST + FIVE_MOVES).calls;
            |calls| == 1 && calls[0].hi - calls[0].lo == 2 && Reported(calls[0]) == 1
  {
    var cfg := Timing(0.0, 0.0);
    var s := BurstArrives(cfg, FIVE_MOVES);
    s := ExecWork(cfg, s, FIVE_MOVES[1..]);
    s := ExecWork(cfg, s, FIVE_MOVES[2..]);
    s := ExecWork(cfg, s, FIVE_MOVES[3..]);
    s := ExecWork(cfg, s, FIVE_MOVES[4..]);
    s := ExecWork(cfg, s, []);
  }

  /** There is at most one worker thread, and calls of the work never overlap. */
  lemma OneWorkerNoOverlap(cfg: Timing, labels: seq<Label>)
    ensures var s := Exec(cfg, INITIAL, labels);
            && |s.threads| <= 1
            && (forall j, k :: 0 <= j < k < |s.calls| ==>
                  s.calls[j].ended != UNFINISHED && s.calls[j].ended <= s.calls[k].began)
  {
    ExecKeepsInv(cfg, INITIAL, labels);
    var s := Exec(cfg, INITIAL, labels);
    forall j, k | 0 <= j < k < |s.calls|
      ensures s.calls[j].ended != UNFINISHED && s.calls[j].ended <= s.calls[k].began
    {
      EndsBefore(s, j, k);
    }
  }

  lemma {:induction false} EndsBefore(s: State, j: nat, k: nat)
    requires TimesOk(s) && j < k < |s.calls|
    ensures 0 <= s.calls[j].ended <= s.calls[k].began
    decreases k
  {
    if j < k - 1 { EndsBefore(s, j, k - 1); }
  }

  lemma {:induction false} StartedStays(cfg: Timing, s: State, labels: seq<Label>)
    requires Inv(s) && s.fields.started
    ensures Exec(cfg, s, labels).fields.started
    decreases |labels|
  {
    if labels != [] {
      StepKeepsInv(cfg, s, labels[0]);
      StartedStays(cfg, Step(cfg, s, labels[0]), labels[1..]);
    }
  }

  /** Whenever it comes, even after `stop`, the first `start` creates the thread. */
  lemma StartCreatesThread(cfg: Timing, before: seq<Label>, after: seq<Label>)
    ensures |Exec(cfg, Step(cfg, Exec(cfg, INITIAL, before), Start), after).threads| == 1
  {
    ExecKeepsInv(cfg, INITIAL, before);
    var s := Exec(cfg, INITIAL, before);
    StepKeepsInv(cfg, s, Start);
    StartedStays(cfg, Step(cfg, s, Start), after);
    ExecKeepsInv(cfg, Step(cfg, s, Start), after);
  }

  /** Calls that have begun or can no longer be prevented. */
  function Committed(s: State): nat { |s.calls| + if Worker(s).Launching? then 1 else 0 }

  lemma {:induction false} StoppedCommitsNothing(cfg: Timing, s: State, labels: seq<Label>)
    requires Inv(s) && s.fields.stopped
    ensures var t := Exec(cfg, s, labels);
            t.fields.stopped && |s.calls| <= |t.calls| && Committed(t) <= Committed(s)
    decreases |labels|
  {
    if labels != [] {
      SingleThread(s);
      StepKeepsInv(cfg, s, labels[0]);
      StoppedCommitsNothing(cfg, Step(cfg, s, labels[0]), labels[1..]);
    }
  }

  /** Stop safety: after `stop` at most one more call begins, and only if the worker had
      already taken its requests over; none if `stop` came before the first `start`. */
  lemma StopSafety(cfg: Timing, before: seq<Label>, after: seq<Label>)
    ensures var s := Step(cfg, Exec(cfg, INITIAL, before), Stop);
            var more := |Exec(cfg, s, after).calls| - |s.calls|;
            && 0 <= more <= (if Worker(s).Launching? then 1 else 0)
            && (s.threads == [] ==> more == 0)
  {
    ExecKeepsInv(cfg, INITIAL, before);
    StepKeepsInv(cfg, Exec(cfg, INITIAL, before), Stop);
    StoppedCommitsNothing(cfg, Step(cfg, Exec(cfg, INITIAL, before), Stop), after);
  }

  /** Moves a stopped worker still has to make; a refresh under way is one of them. */
  function MovesToExit(pc: Pc): nat {
    match pc
    case Exited => 0
    case Launching(_, _, _) => 3
    case Running(_, _, _) => 2
    case Booting => 2
    case Claimed(_) => 2
    case _ => 1
  }

  /** A stopped worker can always move, each move brings it nearer to its end, and nothing else
      holds it up: it never sleeps again. */
  lemma StoppedWorkerLeaves(cfg: Timing, before: seq<Label>, l: Label)
    ensures var s := Exec(cfg, INITIAL, before);
            s.fields.stopped && !Worker(s).Exited? ==>
              && Enabled(s, Work(0))
              && MovesToExit(Worker(Step(cfg, s, Work(0)))) < MovesToExit(Worker(s)) <= 3
              && (!l.Work? ==> MovesToExit(Worker(Step(cfg, s, l))) == MovesToExit(Worker(s)))
  {
    ExecKeepsInv(cfg, INITIAL, before);
    var s := Exec(cfg, INITIAL, before);
    if s.fields.stopped && !Worker(s).Exited? { StoppedStep(cfg, s, l); }
  }

  lemma StoppedStep(cfg: Timing, s: State, l: Label)
    requires Inv(s) && s.fields.stopped && !Worker(s).Exited?
    ensures Enabled(s, Work(0))
    ensures MovesToExit(Worker(Step(cfg, s, Work(0)))) < MovesToExit(Worker(s)) <= 3
    ensures !l.Work? ==> MovesToExit(Worker(Step(cfg, s, l))) == MovesToExit(Worker(s))
  {
    SingleThread(s);
  }

  // ----- progress

  /** A call is owed: something was requested that no begun call covers. */
  predicate Owing(s: State) {
    !s.fields.stopped && s.threads != [] && (s.fields.generation > s.fields.handled || Worker(s).Launching?)
  }

  function NonNegative(x: real): real { if x < 0.0 then 0.0 else x }

  /** Time the worker may still spend asleep before the next call begins. */
  function WaitLeft(cfg: Timing, s: State): real {
    match Worker(s)
    case Booting => NonNegative(cfg.startupDelay) + NonNegative(cfg.debounce)
    case BootWait(d, _) => NonNegative(d - s.clock) + NonNegative(cfg.debounce)
    case Parked(_) => NonNegative(cfg.debounce)
    case Claimed(_) => NonNegative(cfg.debounce)
    case Debouncing(_, d, _) => NonNegative(d - s.clock)
    case Running(_, _, _) => NonNegative(cfg.debounce)
    case _ => 0.0
  }

  /** Moves the worker still has to make; being woken early costs it one more. */
  function MovesLeft(s: State): nat {
    match Worker(s)
    case Running(_, _, _) => 16
    case Booting => 14
    case BootWait(_, awake) => if awake then 13 else 12
    case Parked(awake) => if awake then 11 else 10
    case Claimed(_) => 8
    case Debouncing(_, _, awake) => if awake then 7 else 6
    case Handling(_) => 4
    case Launching(_, _, _) => 2
    case Exited => 0
  }

  /** The worker sleeps in a timed wait that is not over. */
  predicate Asleep(s: State) {
    match Worker(s)
    case BootWait(d, awake) => !awake && s.clock < d
    case Debouncing(_, d, awake) => !awake && s.clock < d
    case _ => false
  }

  /** The deadline it sleeps to. */
  function Due(s: State): real {
    match Worker(s)
    case BootWait(d, _) => d
    case Debouncing(_, d, _) => d
    case _ => s.clock
  }

  /** A prompt schedule: nobody stops the worker, and outside the work itself time passes
      only while the worker sleeps, at most to its deadline. */
  predicate Prompt(s: State, l: Label) {
    match l
    case Stop => false
    case Tick(d) => d > 0.0 && (Worker(s).Running? || (Asleep(s) && s.clock + d <= Due(s)))
    case Work(t) => Enabled(s, l)
    case _ => true
  }

  predicate PromptRun(cfg: Timing, s: State, labels: seq<Label>)
    decreases |labels|
  {
    labels == [] || (Prompt(s, labels[0]) && PromptRun(cfg, Step(cfg, s, labels[0]), labels[1..]))
  }

  /** Time spent outside the work. */
  function Waited(cfg: Timing, s: State, labels: seq<Label>): real
    decreases |labels|
  {
    if labels == [] then 0.0
    else (if labels[0].Tick? && !Worker(s).Running? then labels[0].d else 0.0)
         + Waited(cfg, Step(cfg, s, labels[0]), labels[1..])
  }

  function Moves(labels: seq<Label>): nat {
    if labels == [] then 0 else (if labels[0].Work? then 1 else 0) + Moves(labels[1..])
  }

  function Requests(labels: seq<Label>): nat {
    if labels == [] then 0 else (if labels[0].Request? then 1 else 0) + Requests(labels[1..])
  }

  /** One prompt step that begins no call: the wait left absorbs the time that passes, the
      moves left absorb the worker's moves, and a request only ever adds one early wake-up. */
  lemma PromptStep(cfg: Timing, s: State, l: Label)
    requires Inv(s) && Owing(s) && Prompt(s, l) && |Step(cfg, s, l).calls| == |s.calls|
    ensures var t := Step(cfg, s, l);
            && Owing(t)
            && WaitLeft(cfg, t) + (if l.Tick? && !Worker(s).Running? then l.d else 0.0) <= WaitLeft(cfg, s)
            && MovesLeft(t) + (if l.Work? then 1 else 0) <= MovesLeft(s) + (if l.Request? then 1 else 0)
  {
    SingleThread(s);
  }

  lemma StepCalls(cfg: Timing, s: State, l: Label)
    ensures |s.calls| <= |Step(cfg, s, l).calls|
  {
  }

  lemma {:induction false} ExecCalls(cfg: Timing, s: State, labels: seq<Label>)
    ensures |s.calls| <= |Exec(cfg, s, labels).calls|
    decreases |labels|
  {
    if labels != [] {
      StepCalls(cfg, s, labels[0]);
      ExecCalls(cfg, Step(cfg, s, labels[0]), labels[1..]);
    }
  }

  lemma {:induction false} BoundedProgress(cfg: Timing, s: State, labels: seq<Label>)
    requires Inv(s) && Owing(s) && PromptRun(cfg, s, labels)
    requires |Exec(cfg, s, labels).calls| == |s.calls|
    ensures var t := Exec(cfg, s, labels);
            && Inv(t) && Owing(t)
            && WaitLeft(cfg, t) + Waited(cfg, s, labels) <= WaitLeft(cfg, s)
            && MovesLeft(t) + Moves(labels) <= MovesLeft(s) + Requests(labels)
    decreases |labels|
  {
    if labels != [] {
      StepCalls(cfg, s, labels[0]);
      ExecCalls(cfg, Step(cfg, s, labels[0]), labels[1..]);
      PromptStep(cfg, s, labels[0]);
      StepKeepsInv(cfg, s, labels[0]);
      BoundedProgress(cfg, Step(cfg, s, labels[0]), labels[1..]);
    }
  }

  /** Deadlines are fixed once, when a wait begins. */
  predicate DeadlinesOk(cfg: Timing, s: State) {
    match Worker(s)
    case BootWait(d, _) => d <= s.clock + cfg.startupDelay && 0.0 < cfg.startupDelay
    case Debouncing(_, d, _) => d <= s.clock + cfg.debounce && 0.0 < cfg.debounce
    case _ => true
  }

  lemma {:induction false} ExecKeepsDeadlines(cfg: Timing, s: State, labels: seq<Label>)
    requires ThreadsOk(s) && DeadlinesOk(cfg, s)
    ensures DeadlinesOk(cfg, Exec(cfg, s, labels))
    decreases |labels|
  {
    if labels != [] {
      SingleThread(s);
      ExecKeepsDeadlines(cfg, Step(cfg, s, labels[0]), labels[1..]);
    }
  }

  /** While a call is owed the system is never stuck: the worker can move or is asleep. */
  lemma NeverStuck(s: State)
    requires Inv(s) && Owing(s)
    ensures Enabled(s, Work(0)) || (Asleep(s) && Prompt(s, Tick(Due(s) - s.clock)))
  {
  }

  lemma OwedCallBegins(cfg: Timing, s: State, labels: seq<Label>)
    requires Inv(s) && DeadlinesOk(cfg, s) && Owing(s) && PromptRun(cfg, s, labels)
    requires |Exec(cfg, s, labels).calls| == |s.calls|
    ensures Waited(cfg, s, labels) <= NonNegative(cfg.startupDelay) + NonNegative(cfg.debounce)
    ensures Moves(labels) <= 16 + Requests(labels)
  {
    BoundedProgress(cfg, s, labels);
  }

  /** Bounded progress under request storms: however many requests arrive, an owed call
      begins before the worker has slept longer than the startup delay and one debounce, and
      the worker makes at most sixteen moves plus one for each request. */
  lemma RequestStormsCannotStarve(cfg: Timing, before: seq<Label>, labels: seq<Label>)
    ensures var s := Exec(cfg, INITIAL, before);
            Owing(s) && PromptRun(cfg, s, labels) && |Exec(cfg, s, labels).calls| == |s.calls| ==>
              && Waited(cfg, s, labels) <= NonNegative(cfg.startupDelay) + NonNegative(cfg.debounce)
              && Moves(labels) <= 16 + Requests(labels)
  {
    ExecKeepsInv(cfg, INITIAL, before);
    ExecKeepsDeadlines(cfg, INITIAL, before);
    var s := Exec(cfg, INITIAL, before);
    ExecCalls(cfg, s, labels);
    if Owing(s) && PromptRun(cfg, s, labels) && |Exec(cfg, s, labels).calls| == |s.calls| {
      OwedCallBegins(cfg, s, labels);
    }
  }
}
