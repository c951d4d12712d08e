/** Any number of fetches sharing the process's one retry budget (oauth/_retry.py,
    get_retry_limiter), interleaved at every point where a fetch can be preempted. */
module RetryBudget {
  import opened Buckets
  import opened FetchModel
  import opened FetchInvariants
  import opened Sums
  import FetchProperties

  datatype System = System(fetches: seq<State>, history: seq<Event>)

  /** Fetch `who` takes one step, in a world that does `w` to it. */
  datatype Turn = Turn(who: nat, w: Round)

  function Next(cfg: Config, sys: System, turn: Turn): System {
    if turn.who >= |sys.fetches| then sys
    else
      var s := sys.fetches[turn.who];
      System(sys.fetches[turn.who := Step(cfg, s, turn.w, Admitted(cfg, sys.history))],
             HistoryAfter(cfg, s, sys.history))
  }

  function Exec(cfg: Config, sys: System, turns: seq<Turn>): System {
    if turns == [] then sys else Next(cfg, Exec(cfg, sys, turns[..|turns| - 1]), turns[|turns| - 1])
  }

  /** Fetches that are yet to start, at the given clock readings. */
  function Unstarted(clocks: seq<real>, h: seq<Event>): System {
    System(seq(|clocks|, j requires 0 <= j < |clocks| => Initially(clocks[j])), h)
  }

  // ----- totals over all fetches

  function Total(f: State -> nat, fetches: seq<State>): nat {
    if fetches == [] then 0 else Total(f, fetches[..|fetches| - 1]) + f(fetches[|fetches| - 1])
  }

  function CompletedRetries(s: State): nat { s.completed }
  function HasDrawn(s: State): nat { if s.phase.Sleeping? then 1 else 0 }
  function TokensDrawn(s: State): nat { s.log.draws }
  function HasStarted(s: State): nat { if s.phase.Starting? then 0 else 1 }

  lemma {:induction false} TotalUpdate(f: State -> nat, fetches: seq<State>, k: nat, s: State)
    requires k < |fetches|
    ensures Total(f, fetches[k := s]) == Total(f, fetches) - f(fetches[k]) + f(s)
  {
    var n := |fetches| - 1;
    if k == n {
      assert fetches[k := s][..n] == fetches[..n];
    } else {
      TotalUpdate(f, fetches[..n], k, s);
      assert fetches[k := s][..n] == fetches[..n][k := s];
    }
  }

  // ----- the shared history

  /** Only fetches use the budget: one token a draw, one refill a start. */
  predicate HistoryOk(cfg: Config, h: seq<Event>) {
    && Genuine(cfg.budgetCapacity, h)
    && UnitDraws(h)
    && EqualRefills(cfg.refillPerInitial, h)
  }

  predicate UnitDraws(h: seq<Event>) {
    forall k :: 0 <= k < |h| && h[k].Taken? ==> h[k].amount == 1.0
  }

  predicate EqualRefills(refill: real, h: seq<Event>) {
    forall k :: 0 <= k < |h| && h[k].Added? ==> h[k].amount == refill
  }

  /** The window one step adds to the history. */
  function TurnEvents(cfg: Config, sys: System, turn: Turn): seq<Event> {
    if turn.who >= |sys.fetches| then []
    else
      match BudgetCall(cfg, sys.fetches[turn.who])
      case None => []
      case Some(Add(t)) => [Added(t)]
      case Some(Consume(t)) => [if Admitted(cfg, sys.history) then Taken(t) else Refused(t)]
  }

  function Retries(sys: System): int { Total(CompletedRetries, sys.fetches) }
  function Holders(sys: System): int { Total(HasDrawn, sys.fetches) }
  function Started(sys: System): int { Total(HasStarted, sys.fetches) }

  function Draws(h: seq<Event>): nat {
    if h == [] then 0 else Draws(h[..|h| - 1]) + if h[|h| - 1].Taken? then 1 else 0
  }

  function Refills(h: seq<Event>): nat {
    if h == [] then 0 else Refills(h[..|h| - 1]) + if h[|h| - 1].Added? then 1 else 0
  }

  /** Over the window, the tokens taken are the fetches' draws, each retry was paid for by
      one, and each start made one refill. */
  predicate Accounted(s: System, t: System, window: seq<Event>) {
    && t.history == s.history + window
    && Total(TokensDrawn, t.fetches) - Total(TokensDrawn, s.fetches) == Draws(window)
    && Retries(t) + Holders(t) - Retries(s) - Holders(s) <= Draws(window)
    && Started(t) - Started(s) == Refills(window)
  }

  lemma AmountsGrow(refill: real, h: seq<Event>, e: Event)
    requires UnitDraws(h) && (e.Taken? ==> e.amount == 1.0)
    requires EqualRefills(refill, h) && (e.Added? ==> e.amount == refill)
    ensures UnitDraws(h + [e]) && EqualRefills(refill, h + [e])
  {
  }

  lemma HistoryGrows(cfg: Config, h: seq<Event>, op: Op)
    requires HistoryOk(cfg, h) && (op == Add(cfg.refillPerInitial) || op == Consume(1.0))
    ensures HistoryOk(cfg, Apply(cfg.budgetCapacity, h, op))
  {
    var e := if op.Add? then Added(op.amount)
             else if op.amount <= Level(cfg.budgetCapacity, h) then Taken(op.amount)
             else Refused(op.amount);
    AmountsGrow(cfg.refillPerInitial, h, e);
    LevelExtends(cfg.budgetCapacity, h, e);
    assert Apply(cfg.budgetCapacity, h, op) == h + [e];
  }

  lemma NextKeepsHistoryOk(cfg: Config, sys: System, turn: Turn)
    requires HistoryOk(cfg, sys.history)
    ensures HistoryOk(cfg, Next(cfg, sys, turn).history)
    ensures Next(cfg, sys, turn).history == sys.history + TurnEvents(cfg, sys, turn)
  {
    if turn.who < |sys.fetches| {
      match BudgetCall(cfg, sys.fetches[turn.who])
      case Some(op) => HistoryGrows(cfg, sys.history, op);
      case None =>
    }
  }

  /** What one step of one fetch does to the totals. */
  lemma StepCounts(cfg: Config, s: State, w: Round, admitted: bool) returns (t: State)
    ensures t == Step(cfg, s, w, admitted)
    ensures TokensDrawn(t) - TokensDrawn(s) == if s.phase.Asking? && admitted then 1 else 0
    ensures CompletedRetries(t) + HasDrawn(t) - CompletedRetries(s) - HasDrawn(s) <= TokensDrawn(t) - TokensDrawn(s)
    ensures HasStarted(t) - HasStarted(s) == if s.phase.Starting? then 1 else 0
  {
    t := Step(cfg, s, w, admitted);
  }

  lemma NextAccounted(cfg: Config, sys: System, turn: Turn)
    requires HistoryOk(cfg, sys.history)
    ensures Accounted(sys, Next(cfg, sys, turn), TurnEvents(cfg, sys, turn))
  {
    NextKeepsHistoryOk(cfg, sys, turn);
    if turn.who < |sys.fetches| {
      var t := StepCounts(cfg, sys.fetches[turn.who], turn.w, Admitted(cfg, sys.history));
      TotalUpdate(CompletedRetries, sys.fetches, turn.who, t);
      TotalUpdate(HasDrawn, sys.fetches, turn.who, t);
      TotalUpdate(TokensDrawn, sys.fetches, turn.who, t);
      TotalUpdate(HasStarted, sys.fetches, turn.who, t);
    }
  }

  lemma {:induction false} CountsSplit(a: seq<Event>, b: seq<Event>)
    ensures Draws(a + b) == Draws(a) + Draws(b) && Refills(a + b) == Refills(a) + Refills(b)
  {
    if b == [] {
      assert a + b == a;
    } else {
      CountsSplit(a, b[..|b| - 1]);
      assert (a + b)[..|a + b| - 1] == a + b[..|b| - 1];
    }
  }

  lemma AccountedJoins(s: System, t: System, u: System, w1: seq<Event>, w2: seq<Event>)
    requires Accounted(s, t, w1) && Accounted(t, u, w2)
    ensures Accounted(s, u, w1 + w2)
  {
    CountsSplit(w1, w2);
    assert s.history + (w1 + w2) == s.history + w1 + w2;
  }

  /** With unit draws and equal refills, amounts are counts. */
  lemma {:induction false} AmountsAreCounts(refill: real, h: seq<Event>)
    requires UnitDraws(h) && EqualRefills(refill, h)
    ensures Spent(h) == Draws(h) as real && Refilled(h) == Repeated(refill, Refills(h))
  {
    if h != [] { AmountsAreCounts(refill, h[..|h| - 1]); }
  }

  lemma {:induction false} WindowAccounted(cfg: Config, sys: System, turns: seq<Turn>) returns (window: seq<Event>)
    requires HistoryOk(cfg, sys.history)
    ensures HistoryOk(cfg, Exec(cfg, sys, turns).history)
    ensures Accounted(sys, Exec(cfg, sys, turns), window)
  {
    if turns == [] {
      window := [];
      assert sys.history + window == sys.history;
    } else {
      var before := WindowAccounted(cfg, sys, turns[..|turns| - 1]);
      var mid, turn := Exec(cfg, sys, turns[..|turns| - 1]), turns[|turns| - 1];
      NextKeepsHistoryOk(cfg, mid, turn);
      NextAccounted(cfg, mid, turn);
      AccountedJoins(sys, mid, Next(cfg, mid, turn), before, TurnEvents(cfg, mid, turn));
      window := before + TurnEvents(cfg, mid, turn);
    }
  }

  lemma HistoryWithinBounds(cfg: Config, h: seq<Event>)
    requires HistoryOk(cfg, h) && 0.0 <= cfg.budgetCapacity && 0.0 <= cfg.refillPerInitial
    ensures 0.0 <= Level(cfg.budgetCapacity, h) <= cfg.budgetCapacity
  {
    LevelWithinBounds(cfg.budgetCapacity, h);
  }

  /** For every interleaving, the budget level stays between empty and full. */
  lemma LevelStaysWithinBounds(cfg: Config, sys: System, turns: seq<Turn>)
    requires HistoryOk(cfg, sys.history)
    requires 0.0 <= cfg.budgetCapacity && 0.0 <= cfg.refillPerInitial
    ensures 0.0 <= Level(cfg.budgetCapacity, Exec(cfg, sys, turns).history) <= cfg.budgetCapacity
  {
    var _ := WindowAccounted(cfg, sys, turns);
    HistoryWithinBounds(cfg, Exec(cfg, sys, turns).history);
  }

  /** What the budget allows in a window with so many starts and tokens already held. */
  predicate WithinBudget(cfg: Config, retries: int, starts: int, held: int) {
    retries as real <= cfg.budgetCapacity + cfg.refillPerInitial * starts as real + held as real
  }

  lemma HeldTokensAddOn(cfg: Config, retries: int, draws: int, starts: int, held: int)
    requires WithinBudget(cfg, draws, starts, 0) && retries <= draws + held
    ensures WithinBudget(cfg, retries, starts, held)
  {
  }

  lemma WindowDraws(cfg: Config, before: seq<Event>, window: seq<Event>)
    requires HistoryOk(cfg, before + window)
    requires 0.0 <= cfg.budgetCapacity && 0.0 <= cfg.refillPerInitial
    ensures Draws(window) as real <= cfg.budgetCapacity + Repeated(cfg.refillPerInitial, Refills(window))
  {
    HistoryWithinBounds(cfg, before + window);
    WindowSpending(cfg.budgetCapacity, before, window);
    forall k | 0 <= k < |window| ensures window[k] == (before + window)[|before| + k] {}
    AmountsAreCounts(cfg.refillPerInitial, window);
  }

  lemma WindowBudget(cfg: Config, draws: nat, refills: nat)
    requires draws as real <= cfg.budgetCapacity + Repeated(cfg.refillPerInitial, refills)
    ensures WithinBudget(cfg, draws, refills, 0)
  {
    RepeatedIsProduct(cfg.refillPerInitial, refills);
  }

  /** For every interleaving of any number of fetches, retries completed in any window are
      at most the capacity, plus the refills of the fetches started in it, plus one for each
      fetch that held a token when the window opened. */
  lemma GlobalRetryBudget(cfg: Config, sys: System, turns: seq<Turn>)
    requires HistoryOk(cfg, sys.history)
    requires 0.0 <= cfg.budgetCapacity && 0.0 <= cfg.refillPerInitial
    ensures var t := Exec(cfg, sys, turns);
            WithinBudget(cfg, Retries(t) - Retries(sys), Started(t) - Started(sys), Holders(sys))
  {
    var window := WindowAccounted(cfg, sys, turns);
    WindowDraws(cfg, sys.history, window);
    WindowBudget(cfg, Draws(window), Refills(window));
    var t := Exec(cfg, sys, turns);
    HeldTokensAddOn(cfg, Retries(t) - Retries(sys), Draws(window), Started(t) - Started(sys), Holders(sys));
  }

  /** Interleaving does not disturb what each fetch keeps on its own. */
  lemma {:induction false} EachFetchKeepsInv(cfg: Config, sys: System, turns: seq<Turn>)
    requires forall k :: 0 <= k < |sys.fetches| ==> Inv(cfg, sys.fetches[k])
    ensures var t := Exec(cfg, sys, turns);
            |t.fetches| == |sys.fetches| && forall k :: 0 <= k < |t.fetches| ==> Inv(cfg, t.fetches[k])
  {
    if turns != [] {
      var earlier, turn := turns[..|turns| - 1], turns[|turns| - 1];
      EachFetchKeepsInv(cfg, sys, earlier);
      var mid := Exec(cfg, sys, earlier);
      if turn.who < |mid.fetches| {
        StepKeepsInv(cfg, mid.fetches[turn.who], turn.w, Admitted(cfg, mid.history));
      }
    }
  }

  /** So every fetch that finishes among others has balanced books and is late only by overrun. */
  lemma InterleavedFetchesConserve(cfg: Config, clocks: seq<real>, h: seq<Event>, turns: seq<Turn>, k: nat)
    requires cfg.backoffFactor > 0.0 || cfg.totalRetries < 1 || cfg.totalTimeout <= 0.0
    ensures var t := Exec(cfg, Unstarted(clocks, h), turns);
            k < |t.fetches| && t.fetches[k].phase.Finished? ==>
              && FetchProperties.Conserved(cfg, t.fetches[k])
              && t.fetches[k].clock
                 <= t.fetches[k].begun + MaxReal(0.0, cfg.totalTimeout) + t.fetches[k].log.overrun
  {
    var start := Unstarted(clocks, h);
    forall j | 0 <= j < |start.fetches| ensures Inv(cfg, start.fetches[j]) {
      InitiallyInv(cfg, clocks[j]);
    }
    EachFetchKeepsInv(cfg, start, turns);
    var t := Exec(cfg, start, turns);
    if k < |t.fetches| && t.fetches[k].phase.Finished? {
      FetchProperties.FinishedConserves(cfg, t.fetches[k]);
    }
  }
}
