/** When calls of the work begin: never before the startup delay and a whole debounce, which
    gathers every request made meanwhile. */
module CoalescingClocks {
  import opened Coalescing
  import opened CoalescingProofs
  import opened Sums

  function Debounce(cfg: Timing): real { NonNegative(cfg.debounce) }
  function Startup(cfg: Timing): real { NonNegative(cfg.startupDelay) }

  // ----- the invariant

  /** Requests are dated, in order, up to now. */
  predicate DatesOk(s: State) {
    && |s.requestClocks| == |s.requestedAt|
    && (forall r :: 0 <= r < |s.requestClocks| ==> s.requestClocks[r] <= s.clock)
    && (forall q, r :: 0 <= q < r < |s.requestClocks| ==> s.requestClocks[q] <= s.requestClocks[r])
  }

  /** The clock when the last call began, if there was one. */
  function LastBegan(s: State): real { if s.calls == [] then s.startedAt else s.calls[|s.calls| - 1].at }

  /** A call for the requests after `lo` may begin at this time: a debounce after the first of
      them, after the call before it, and after the startup delay. */
  predicate Gathered(cfg: Timing, s: State, lo: nat, time: real) {
    && lo < |s.requestClocks| && s.requestClocks[lo] + Debounce(cfg) <= time
    && s.startedAt + Startup(cfg) + Debounce(cfg) <= time
    && LastBegan(s) + Debounce(cfg) <= time
  }

  /** Requests left for later calls came a debounce or more after the first of the block. */
  predicate LeavesOnlyLate(cfg: Timing, clocks: seq<real>, lo: nat, hi: nat) {
    lo < |clocks| && forall r :: hi <= r < |clocks| ==> clocks[lo] + Debounce(cfg) <= clocks[r]
  }

  predicate PlaceInTime(cfg: Timing, s: State) {
    match Worker(s)
    case Booting => true
    case BootWait(d, _) => s.startedAt + Startup(cfg) <= d
    case Parked(_) => s.startedAt + Startup(cfg) <= s.clock
    case Claimed(_) => s.startedAt + Startup(cfg) <= s.clock
    case Debouncing(_, d, _) => Gathered(cfg, s, s.fields.handled, d)
    case Handling(_) => Gathered(cfg, s, s.fields.handled, s.clock)
    case Launching(lo, _, hi) => Gathered(cfg, s, lo, s.clock) && LeavesOnlyLate(cfg, s.requestClocks, lo, hi)
    case Running(_, _, _) => s.startedAt + Startup(cfg) <= s.clock
    case Exited => true
  }

  predicate CallInTime(cfg: Timing, s: State, k: nat)
    requires k < |s.calls|
  {
    var c := s.calls[k];
    && LeavesOnlyLate(cfg, s.requestClocks, c.lo, c.hi)
    && s.requestClocks[c.lo] + Debounce(cfg) <= c.at <= s.clock
    && s.startedAt + Startup(cfg) + Debounce(cfg) <= c.at
    && (k > 0 ==> s.calls[k - 1].at + Debounce(cfg) <= c.at)
  }

  predicate ClocksOk(cfg: Timing, s: State) {
    && DatesOk(s) && PlaceInTime(cfg, s) && s.startedAt <= s.clock
    && (s.threads == [] ==> s.calls == [])
    && (forall k :: 0 <= k < |s.calls| ==> CallInTime(cfg, s, k))
  }

  // ----- preservation

  /** Nothing that has happened to the calls so far is changed: time goes on, more requests are
      dated, a call ends. */
  predicate Later(s: State, t: State) {
    && s.clock <= t.clock && s.requestClocks <= t.requestClocks
    && (forall r :: |s.requestClocks| <= r < |t.requestClocks| ==> t.requestClocks[r] == s.clock)
    && (t.startedAt == s.startedAt || s.calls == [])
    && |t.calls| == |s.calls|
    && (forall k :: 0 <= k < |s.calls| ==> t.calls[k] == s.calls[k].(ended := t.calls[k].ended))
  }

  lemma CallsStayInTime(cfg: Timing, s: State, t: State)
    requires ClocksOk(cfg, s) && Later(s, t)
    ensures forall k :: 0 <= k < |t.calls| ==> CallInTime(cfg, t, k)
    ensures LastBegan(s) <= s.clock
  {
    if s.calls != [] { assert CallInTime(cfg, s, |s.calls| - 1); }
    forall k | 0 <= k < |t.calls| ensures CallInTime(cfg, t, k) { assert CallInTime(cfg, s, k); }
  }

  /** Whatever is not a launch is no more than that. */
  lemma StepIsLater(cfg: Timing, s: State, l: Label)
    requires Inv(s) && ClocksOk(cfg, s) && (l.Work? && Enabled(s, l) ==> !Worker(s).Launching?)
    ensures Later(s, Step(cfg, s, l))
  {
  }

  lemma StartKeepsClocks(cfg: Timing, s: State)
    requires Inv(s) && ClocksOk(cfg, s)
    ensures ClocksOk(cfg, Step(cfg, s, Start))
  {
    StepIsLater(cfg, s, Start);
    CallsStayInTime(cfg, s, Step(cfg, s, Start));
  }

  lemma StopKeepsClocks(cfg: Timing, s: State)
    requires Inv(s) && ClocksOk(cfg, s)
    ensures ClocksOk(cfg, Step(cfg, s, Stop))
  {
    SingleThread(s);
    StepIsLater(cfg, s, Stop);
    CallsStayInTime(cfg, s, Step(cfg, s, Stop));
  }

  lemma TickKeepsClocks(cfg: Timing, s: State, d: real)
    requires Inv(s) && ClocksOk(cfg, s) && d > 0.0
    ensures ClocksOk(cfg, Step(cfg, s, Tick(d)))
  {
    StepIsLater(cfg, s, Tick(d));
    CallsStayInTime(cfg, s, Step(cfg, s, Tick(d)));
  }

  /** A block that a call has taken, or is about to, leaves out a request made now. */
  lemma RequestKeepsClocks(cfg: Timing, s: State)
    requires Inv(s) && ClocksOk(cfg, s)
    ensures ClocksOk(cfg, Step(cfg, s, Request))
  {
    SingleThread(s);
    StepIsLater(cfg, s, Request);
    CallsStayInTime(cfg, s, Step(cfg, s, Request));
  }

  lemma LaunchKeepsClocks(cfg: Timing, s: State)
    requires Inv(s) && ClocksOk(cfg, s) && Worker(s).Launching?
    ensures ClocksOk(cfg, Step(cfg, s, Work(0)))
  {
    var t, n := Step(cfg, s, Work(0)), |s.calls|;
    assert t.calls[..n] == s.calls && |t.calls| == n + 1;
    forall k | 0 <= k < |t.calls| ensures CallInTime(cfg, t, k) {
      if k < n { assert CallInTime(cfg, s, k); }
    }
  }

  lemma NextPlaceInTime(cfg: Timing, s: State)
    requires Inv(s) && ClocksOk(cfg, s) && Enabled(s, Work(0)) && !Worker(s).Launching? && LastBegan(s) <= s.clock
    ensures PlaceInTime(cfg, Step(cfg, s, Work(0)))
  {
  }

  lemma WorkKeepsClocks(cfg: Timing, s: State)
    requires Inv(s) && ClocksOk(cfg, s) && Enabled(s, Work(0)) && !Worker(s).Launching?
    ensures ClocksOk(cfg, Step(cfg, s, Work(0)))
  {
    StepIsLater(cfg, s, Work(0));
    CallsStayInTime(cfg, s, Step(cfg, s, Work(0)));
    NextPlaceInTime(cfg, s);
  }

  lemma StepKeepsClocks(cfg: Timing, s: State, l: Label)
    requires Inv(s) && ClocksOk(cfg, s)
    ensures ClocksOk(cfg, Step(cfg, s, l))
  {
    if !Enabled(s, l) {
      StepIsLater(cfg, s, l);
      CallsStayInTime(cfg, s, Step(cfg, s, l));
    } else {
      match l
      case Start => StartKeepsClocks(cfg, s);
      case Request => RequestKeepsClocks(cfg, s);
      case Stop => StopKeepsClocks(cfg, s);
      case Work(t) => if Worker(s).Launching? { LaunchKeepsClocks(cfg, s); } else { WorkKeepsClocks(cfg, s); }
      case Tick(d) => TickKeepsClocks(cfg, s, d);
    }
  }

  lemma {:induction false} ExecKeepsClocks(cfg: Timing, s: State, labels: seq<Label>)
    requires Inv(s) && ClocksOk(cfg, s)
    ensures ClocksOk(cfg, Exec(cfg, s, labels))
    decreases |labels|
  {
    if labels != [] {
      StepKeepsClocks(cfg, s, labels[0]);
      StepKeepsInv(cfg, s, labels[0]);
      ExecKeepsClocks(cfg, Step(cfg, s, labels[0]), labels[1..]);
    }
  }

  // ----- what holds in every run

  /** Every call begins a whole debounce after the first request it answers, and no sooner than
      the startup delay and a debounce after the thread was created. */
  lemma DebounceKept(cfg: Timing, labels: seq<Label>, k: nat)
    ensures var s := Exec(cfg, INITIAL, labels);
            k < |s.calls| ==>
              && s.calls[k].lo < |s.requestClocks|
              && s.requestClocks[s.calls[k].lo] + Debounce(cfg) <= s.calls[k].at
              && s.startedAt + Startup(cfg) + Debounce(cfg) <= s.calls[k].at
  {
    ExecKeepsClocks(cfg, INITIAL, labels);
    var s := Exec(cfg, INITIAL, labels);
    if k < |s.calls| { assert CallInTime(cfg, s, k); }
  }

  /** A burst is gathered into one call: all requests made within a debounce of the first one
      that a call answers are answered by that call. */
  lemma BurstsCoalesce(cfg: Timing, labels: seq<Label>, k: nat, r: nat)
    ensures var s := Exec(cfg, INITIAL, labels);
            k < |s.calls| && s.calls[k].lo <= r < |s.requestClocks|
            && s.requestClocks[r] < s.requestClocks[s.calls[k].lo] + Debounce(cfg) ==>
              s.calls[k].lo < s.calls[k].hi && r < s.calls[k].hi
  {
    ExecKeepsInv(cfg, INITIAL, labels);
    ExecKeepsClocks(cfg, INITIAL, labels);
    var s := Exec(cfg, INITIAL, labels);
    if k < |s.calls| {
      assert CallInTime(cfg, s, k);
      BlockAt(s.calls, k);
    }
  }

  lemma {:induction false} CallsSpaced(cfg: Timing, s: State, i: nat, j: nat)
    requires ClocksOk(cfg, s) && i <= j < |s.calls|
    ensures s.calls[i].at + Repeated(Debounce(cfg), j - i) <= s.calls[j].at
    decreases j
  {
    if i < j {
      CallsSpaced(cfg, s, i, j - 1);
      assert CallInTime(cfg, s, j);
    }
  }

  /** However many requests arrive, calls begin at least a debounce apart: the calls that begin
      within some time are, but for one, no more than the debounces that fit in it. */
  lemma RateIsLimited(cfg: Timing, labels: seq<Label>, i: nat, j: nat)
    ensures var s := Exec(cfg, INITIAL, labels);
            i <= j < |s.calls| ==> Product(Debounce(cfg), j - i) <= s.calls[j].at - s.calls[i].at
  {
    ExecKeepsClocks(cfg, INITIAL, labels);
    var s := Exec(cfg, INITIAL, labels);
    if i <= j < |s.calls| {
      CallsSpaced(cfg, s, i, j);
      RepeatedIsProduct(Debounce(cfg), j - i);
    }
  }
}
