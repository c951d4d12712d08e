/** The background worker that runs once per burst of requests (utils/coalescing.py). */
module Coalescing {

  /** The fields the condition protects. `spawned` counts threads created. */
  datatype Shared = Shared(generation: nat, handled: nat, started: bool, stopped: bool, spawned: nat)

  // ----- critical sections

  /** `start`. */
  function StartSection(f: Shared): Shared {
    if f.started then f else f.(started := true, spawned := f.spawned + 1)
  }

  /** `request`. */
  function RequestSection(f: Shared): Shared { f.(generation := f.generation + 1) }

  /** The locked part of `stop`. */
  function StopSection(f: Shared): Shared { f.(stopped := true) }

  /** The predicate of `wait_for`. */
  predicate ShouldWake(f: Shared) { f.stopped || f.generation != f.handled }

  /** The second critical section of `_run`, when not stopped. */
  function HandleSection(f: Shared, claimed: nat): Shared {
    f.(handled := if claimed > f.generation then claimed else f.generation)
  }

  const INITIAL_FIELDS := Shared(0, 0, false, false, 0)

  // ----- the threads

  /** Where a worker thread is. A thread that is not `awake` is in the wait set of the
      condition; an awake one is about to evaluate its loop condition under the lock. */
  datatype Pc =
    | Booting
    | BootWait(deadline: real, awake: bool)
    | Parked(awake: bool)                                       // in wait_for
    | Claimed(generation: nat)
    | Debouncing(generation: nat, deadline: real, awake: bool)
    | Handling(generation: nat)
    | Launching(lo: nat, generation: nat, hi: nat)              // handled updated, work not begun
    | Running(lo: nat, generation: nat, hi: nat)
    | Exited

  predicate Waiting(pc: Pc) {
    match pc
    case BootWait(_, awake) => !awake
    case Parked(awake) => !awake
    case Debouncing(_, _, awake) => !awake
    case _ => false
  }

  function Wake(pc: Pc): Pc {
    match pc
    case BootWait(d, _) => BootWait(d, true)
    case Parked(_) => Parked(true)
    case Debouncing(g, d, _) => Debouncing(g, d, true)
    case _ => pc
  }

  /** `notify`: the first waiting thread. */
  function Notify(threads: seq<Pc>): seq<Pc> {
    if threads == [] then []
    else if Waiting(threads[0]) then [Wake(threads[0])] + threads[1..]
    else [threads[0]] + Notify(threads[1..])
  }

  /** `notify_all`. */
  function NotifyAll(threads: seq<Pc>): seq<Pc> {
    seq(|threads|, k requires 0 <= k < |threads| => if Waiting(threads[k]) then Wake(threads[k]) else threads[k])
  }

  /** One call of the work. It answers the requests after `lo` up to `hi`, of which the
      worker had seen those up to `claimed` when it woke. `began` and `ended` count steps of
      the system, `at` is the clock when it began. */
  datatype Call = Call(lo: nat, claimed: nat, hi: nat, began: nat, at: real, ended: int)

  const UNFINISHED := -1

  /** The span attribute `worker.coalesced_requests`. */
  function Reported(c: Call): int { c.hi - c.claimed + 1 }

  datatype State = State(
    fields: Shared,
    threads: seq<Pc>,
    clock: real,
    now: nat,                  // steps so far
    requestedAt: seq<nat>,     // when each request was made, in steps
    requestClocks: seq<real>,  // and on the clock
    startedAt: real,           // the clock when the thread was created
    calls: seq<Call>)          // calls of the work, oldest first

  const INITIAL := State(INITIAL_FIELDS, [], 0.0, 0, [], [], 0.0, [])

  datatype Timing = Timing(startupDelay: real, debounce: real)

  datatype Label = Start | Request | Stop | Work(t: nat) | Tick(d: real)

  predicate CanMove(s: State, pc: Pc) {
    match pc
    case BootWait(d, awake) => awake || d <= s.clock
    case Parked(awake) => awake
    case Debouncing(_, d, awake) => awake || d <= s.clock
    case Exited => false
    case _ => true
  }

  /** The next place of a thread that moves. `_wait` returns at once for no delay. */
  function NextPc(cfg: Timing, s: State, pc: Pc): Pc {
    var f := s.fields;
    match pc
    case Booting =>
      if cfg.startupDelay > 0.0 then BootWait(s.clock + cfg.startupDelay, true)
      else if f.stopped then Exited else Parked(true)
    case BootWait(d, _) =>
      if f.stopped then Exited else if d <= s.clock then Parked(true) else BootWait(d, false)
    case Parked(_) =>
      if !ShouldWake(f) then Parked(false) else if f.stopped then Exited else Claimed(f.generation)
    case Claimed(g) =>
      if cfg.debounce > 0.0 then Debouncing(g, s.clock + cfg.debounce, true)
      else if f.stopped then Exited else Handling(g)
    case Debouncing(g, d, _) =>
      if f.stopped then Exited else if d <= s.clock then Handling(g) else Debouncing(g, d, false)
    case Handling(g) =>
      if f.stopped then Exited else Launching(f.handled, g, HandleSection(f, g).handled)
    case Launching(lo, g, hi) => Running(lo, g, hi)
    case Running(_, _, _) => Parked(true)
    case Exited => Exited
  }

  function CallsAfter(s: State, pc: Pc): seq<Call> {
    match pc
    case Launching(lo, g, hi) => s.calls + [Call(lo, g, hi, s.now, s.clock, UNFINISHED)]
    case Running(_, _, _) =>
      if s.calls == [] then [] else s.calls[|s.calls| - 1 := s.calls[|s.calls| - 1].(ended := s.now)]
    case _ => s.calls
  }

  predicate Enabled(s: State, l: Label) {
    match l
    case Work(t) => t < |s.threads| && CanMove(s, s.threads[t])
    case Tick(d) => d > 0.0
    case _ => true
  }

  /** One atomic step; a label that is not enabled changes nothing but the step count. */
  function Step(cfg: Timing, s: State, l: Label): State {
    var t := if Enabled(s, l) then Effect(cfg, s, l) else s;
    t.(now := s.now + 1)
  }

  function Effect(cfg: Timing, s: State, l: Label): State
    requires Enabled(s, l)
  {
    match l
    case Start =>
      s.(fields := StartSection(s.fields),
         startedAt := if s.fields.started then s.startedAt else s.clock,
         threads := if StartSection(s.fields).spawned > s.fields.spawned then s.threads + [Booting] else s.threads)
    case Request =>
      s.(fields := RequestSection(s.fields), threads := Notify(s.threads), requestedAt := s.requestedAt + [s.now],
         requestClocks := s.requestClocks + [s.clock])
    case Stop => s.(fields := StopSection(s.fields), threads := NotifyAll(s.threads))
    case Work(t) =>
      var pc := s.threads[t];
      s.(threads := s.threads[t := NextPc(cfg, s, pc)],
         fields := if pc.Handling? && !s.fields.stopped then HandleSection(s.fields, pc.generation) else s.fields,
         calls := CallsAfter(s, pc))
    case Tick(d) => s.(clock := s.clock + d)
  }

  function Exec(cfg: Timing, s: State, labels: seq<Label>): State
    decreases |labels|
  {
    if labels == [] then s else Exec(cfg, Step(cfg, s, labels[0]), labels[1..])
  }

  // ----- the worker object

  /** The worker and its condition: each method is one critical section, and `threads` has the
      places of the threads it created. `Claim` and `Handle` are the two that `_run` enters
      itself; they say where the thread goes on. */
  class CoalescingWorker {
    var generation: nat
    var handledGeneration: nat
    var started: bool
    var stopped: bool
    var threads: seq<Pc>

    function Fields(): Shared reads this {
      Shared(generation, handledGeneration, started, stopped, |threads|)
    }

    /** The object is where the step system is. */
    ghost predicate At(s: State) reads this {
      Fields() == s.fields && threads == s.threads
    }

    constructor ()
      ensures Fields() == INITIAL_FIELDS && At(INITIAL)
    {
      generation, handledGeneration, started, stopped, threads := 0, 0, false, false, [];
    }

    method Start()
      modifies this
      ensures Fields() == StartSection(old(Fields()))
      ensures forall cfg: Timing, s: State :: old(At(s)) ==> At(Step(cfg, s, Label.Start))
    {
      if started { return; }
      started := true;
      threads := threads + [Booting];
    }

    method Request()
      modifies this
      ensures Fields() == RequestSection(old(Fields()))
      ensures forall cfg: Timing, s: State :: old(At(s)) ==> At(Step(cfg, s, Label.Request))
    {
      generation := generation + 1;
      NotifyKeepsLength(threads);
      threads := Notify(threads);
    }

    /** The locked part; joining the thread only waits. */
    method Stop()
      modifies this
      ensures Fields() == StopSection(old(Fields()))
      ensures forall cfg: Timing, s: State :: old(At(s)) ==> At(Step(cfg, s, Label.Stop))
    {
      stopped := true;
      threads := NotifyAll(threads);
    }

    /** Thread t is about to test the predicate of `wait_for`. Afterwards it sleeps, has left,
        or goes on with the generation it saw, as the step system has it. */
    method Claim(t: nat)
      requires t < |threads| && threads[t] == Parked(true)
      modifies this
      ensures forall cfg: Timing, s: State :: old(At(s)) ==> At(Step(cfg, s, Work(t)))
    {
      if !stopped && generation == handledGeneration {
        threads := threads[t := Parked(false)];
      } else if stopped {
        threads := threads[t := Exited];
      } else {
        threads := threads[t := Claimed(generation)];
      }
    }

    /** Thread t has debounced: unless stopped it takes over every request made so far. */
    method Handle(t: nat)
      requires t < |threads| && threads[t].Handling?
      modifies this
      ensures forall cfg: Timing, s: State :: old(At(s)) ==> At(Step(cfg, s, Work(t)))
    {
      if stopped {
        threads := threads[t := Exited];
        return;
      }
      var claimed, lo := threads[t].generation, handledGeneration;
      handledGeneration := if claimed > generation then claimed else generation;
      threads := threads[t := Launching(lo, claimed, handledGeneration)];
    }
  }

  lemma {:induction false} NotifyKeepsLength(threads: seq<Pc>)
    ensures |Notify(threads)| == |threads|
  {
    if threads != [] && !Waiting(threads[0]) { NotifyKeepsLength(threads[1..]); }
  }
}
