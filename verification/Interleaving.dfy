/** Every fetch among others is a fetch on its own, in a world whose other requests are the
    budget calls that the others made. So what holds of every fetch holds of each of them. */
module Interleaving {
  import opened Buckets
  import opened FetchModel
  import opened FetchProperties
  import opened Backoff
  import opened RetryBudget
  import opened Sums

  // ----- worlds that differ only in what is over

  /** The rounds agree on everything a fetch in this phase of the pass still looks at. */
  predicate SameAhead(a: Round, b: Round, phase: Phase) {
    match phase
    case Starting => a == b
    case Looping => a == b
    case Asking => a.others == b.others && a.unit == b.unit && a.oversleep == b.oversleep
                   && a.elapsed == b.elapsed && a.reply == b.reply
    case Sleeping(_) => a.oversleep == b.oversleep && a.elapsed == b.elapsed && a.reply == b.reply
    case Sending(_) => a.elapsed == b.elapsed && a.reply == b.reply
    case Finished => true
  }

  ghost predicate SameWorld(a: nat -> Round, b: nat -> Round, s: State) {
    SameAhead(a(s.i), b(s.i), s.phase) && forall i: nat :: i > s.i ==> a(i) == b(i)
  }

  lemma StepSame(cfg: Config, s: State, a: Round, b: Round, admitted: bool)
    requires SameAhead(a, b, s.phase)
    ensures Step(cfg, s, a, admitted) == Step(cfg, s, b, admitted)
  {
  }

  /** A step stays in its pass and gets on with it, or goes to the next pass. */
  lemma StepMovesOn(cfg: Config, s: State, w: Round, admitted: bool, a: Round, b: Round)
    requires SameAhead(a, b, s.phase)
    ensures var t := Step(cfg, s, w, admitted);
            (t.i == s.i && SameAhead(a, b, t.phase)) || (t.i == s.i + 1 && t.phase.Looping?)
  {
  }

  lemma {:induction false} RunSame(cfg: Config, a: nat -> Round, b: nat -> Round, s: State, h: seq<Event>)
    requires InRange(cfg, s) && SameWorld(a, b, s)
    ensures Run(cfg, a, s, h) == Run(cfg, b, s, h)
    decreases PassesLeft(cfg, s), Rank(s.phase)
  {
    if !s.phase.Finished? {
      var seen := HistorySeen(cfg, s, a(s.i), h);
      var admitted := Admitted(cfg, seen);
      StepSame(cfg, s, a(s.i), b(s.i), admitted);
      StepMovesOn(cfg, s, a(s.i), admitted, a(s.i), b(s.i));
      RunUnfolds(cfg, a, s, h);
      RunUnfolds(cfg, b, s, h);
      RunSame(cfg, a, b, Step(cfg, s, a(s.i), admitted), HistoryAfter(cfg, s, seen));
    }
  }

  // ----- a world for one step more

  /** The round with what a fetch in this phase looks at replaced. */
  function Patch(base: Round, phase: Phase, w: Round, others: seq<Op>): Round {
    match phase
    case Looping => base.(lag := w.lag)
    case Asking => base.(unit := w.unit, others := others)
    case Sleeping(_) => base.(oversleep := w.oversleep)
    case Sending(_) => base.(elapsed := w.elapsed, reply := w.reply)
    case _ => base
  }

  function Patched(env: nat -> Round, s: State, w: Round, others: seq<Op>): nat -> Round {
    (i: nat) => if i == s.i then Patch(env(i), s.phase, w, others) else env(i)
  }

  /** The step the fetch takes under w, it takes in the patched world as well. */
  lemma StepPatched(cfg: Config, s: State, base: Round, w: Round, others: seq<Op>, admitted: bool)
    ensures Step(cfg, s, Patch(base, s.phase, w, others), admitted) == Step(cfg, s, w, admitted)
  {
  }

  /** What is replaced is over after the step. */
  lemma PatchIsBehind(cfg: Config, s: State, env: nat -> Round, w: Round, others: seq<Op>, admitted: bool)
    requires !s.phase.Finished?
    ensures SameWorld(Patched(env, s, w, others), env, Step(cfg, s, w, admitted))
  {
  }

  lemma AskingStepMore(cfg: Config, s: State, w: Round, others: seq<Op>, env: nat -> Round, h: seq<Event>)
    requires InRange(cfg, s) && s.phase.Asking?
    ensures var seen := ApplyAll(cfg.budgetCapacity, h, others);
            var t := Step(cfg, s, w, Admitted(cfg, seen));
            && InRange(cfg, t)
            && Run(cfg, Patched(env, s, w, others), s, h)
               == Run(cfg, env, t, Apply(cfg.budgetCapacity, seen, Consume(1.0)))
  {
    var all := Patched(env, s, w, others);
    var seen := HistorySeen(cfg, s, all(s.i), h);
    RunUnfolds(cfg, all, s, h);
    StepPatched(cfg, s, env(s.i), w, others, Admitted(cfg, seen));
    PatchIsBehind(cfg, s, env, w, others, Admitted(cfg, seen));
    RunSame(cfg, all, env, Step(cfg, s, w, Admitted(cfg, seen)), HistoryAfter(cfg, s, seen));
  }

  lemma QuietStepMore(cfg: Config, s: State, w: Round, others: seq<Op>, env: nat -> Round, h: seq<Event>,
                      admitted: bool)
    requires InRange(cfg, s) && !s.phase.Asking? && !s.phase.Finished? && !s.phase.Starting?
    ensures var t := Step(cfg, s, w, admitted);
            InRange(cfg, t) && Run(cfg, Patched(env, s, w, others), s, h) == Run(cfg, env, t, h)
  {
    var all := Patched(env, s, w, others);
    RunUnfolds(cfg, all, s, h);
    OnlyAskingAsks(cfg, s, all(s.i), admitted, Admitted(cfg, h));
    StepPatched(cfg, s, env(s.i), w, others, admitted);
    PatchIsBehind(cfg, s, env, w, others, admitted);
    RunSame(cfg, all, env, Step(cfg, s, w, admitted), h);
  }

  lemma OnlyAskingAsks(cfg: Config, s: State, w: Round, a: bool, b: bool)
    requires s.phase.Asking? ==> a == b
    ensures Step(cfg, s, w, a) == Step(cfg, s, w, b)
  {
  }

  // ----- one fetch of many

  lemma {:induction false} ExecFront(cfg: Config, sys: System, turn: Turn, rest: seq<Turn>)
    ensures Exec(cfg, sys, [turn] + rest) == Exec(cfg, Next(cfg, sys, turn), rest)
    decreases |rest|
  {
    var turns := [turn] + rest;
    if rest == [] {
      assert turns[..0] == [] && turns[0] == turn;
    } else {
      ExecFront(cfg, sys, turn, rest[..|rest| - 1]);
      assert turns[..|turns| - 1] == [turn] + rest[..|rest| - 1];
    }
  }

  /** Where fetch k ends. */
  predicate EndsAs(cfg: Config, sys: System, turns: seq<Turn>, k: nat, u: State) {
    var t := Exec(cfg, sys, turns);
    k < |t.fetches| && t.fetches[k] == u && u.phase.Finished?
  }

  lemma EndsAsNext(cfg: Config, sys: System, turns: seq<Turn>, k: nat, u: State)
    requires turns != [] && EndsAs(cfg, sys, turns, k, u)
    ensures EndsAs(cfg, Next(cfg, sys, turns[0]), turns[1..], k, u)
  {
    assert turns == [turns[0]] + turns[1..];
    ExecFront(cfg, sys, turns[0], turns[1..]);
  }

  /** What the turn of another fetch adds to the calls this one has not seen. */
  function Unseen(cfg: Config, sys: System, turn: Turn, ops: seq<Op>): seq<Op> {
    if turn.who >= |sys.fetches| then ops
    else
      match BudgetCall(cfg, sys.fetches[turn.who])
      case Some(op) => ops + [op]
      case None => ops
  }

  lemma OtherTurn(cfg: Config, sys: System, turn: Turn, k: nat, h: seq<Event>, ops: seq<Op>)
    requires k < |sys.fetches| && turn.who != k && sys.history == ApplyAll(cfg.budgetCapacity, h, ops)
    ensures var next := Next(cfg, sys, turn);
            && |next.fetches| == |sys.fetches| && next.fetches[k] == sys.fetches[k]
            && next.history == ApplyAll(cfg.budgetCapacity, h, Unseen(cfg, sys, turn, ops))
  {
    var more := Unseen(cfg, sys, turn, ops);
    if more != ops {
      assert more[..|more| - 1] == ops;
    }
  }

  lemma OwnNext(cfg: Config, sys: System, turn: Turn)
    requires turn.who < |sys.fetches| && !sys.fetches[turn.who].phase.Starting?
    ensures var s, next := sys.fetches[turn.who], Next(cfg, sys, turn);
            && |next.fetches| == |sys.fetches|
            && next.fetches[turn.who] == Step(cfg, s, turn.w, Admitted(cfg, sys.history))
            && next.history == (if s.phase.Asking? then Apply(cfg.budgetCapacity, sys.history, Consume(1.0))
                                else sys.history)
  {
  }

  /** Its own turn: a world for the rest is a world from here once this turn is patched in. */
  lemma OwnTurn(cfg: Config, sys: System, turn: Turn, h: seq<Event>, ops: seq<Op>)
    returns (next: System, after: seq<Event>, unseen: seq<Op>)
    requires turn.who < |sys.fetches| && InRange(cfg, sys.fetches[turn.who])
    requires !sys.fetches[turn.who].phase.Starting? && !sys.fetches[turn.who].phase.Finished?
    requires sys.history == ApplyAll(cfg.budgetCapacity, h, ops)
    ensures next == Next(cfg, sys, turn) && |next.fetches| == |sys.fetches|
    ensures InRange(cfg, next.fetches[turn.who]) && !next.fetches[turn.who].phase.Starting?
    ensures next.history == ApplyAll(cfg.budgetCapacity, after, unseen)
    ensures forall env: nat -> Round ::
              Run(cfg, Patched(env, sys.fetches[turn.who], turn.w, ops), sys.fetches[turn.who], h)
              == Run(cfg, env, next.fetches[turn.who], after)
  {
    var s := sys.fetches[turn.who];
    next := Next(cfg, sys, turn);
    after, unseen := if s.phase.Asking? then next.history else h, if s.phase.Asking? then [] else ops;
    OwnNext(cfg, sys, turn);
    StaysStarted(cfg, s, turn.w, Admitted(cfg, sys.history));
    forall env: nat -> Round
      ensures InRange(cfg, next.fetches[turn.who])
      ensures Run(cfg, Patched(env, s, turn.w, ops), s, h) == Run(cfg, env, next.fetches[turn.who], after)
    {
      if s.phase.Asking? {
        AskingStepMore(cfg, s, turn.w, ops, env, h);
      } else {
        QuietStepMore(cfg, s, turn.w, ops, env, h, Admitted(cfg, sys.history));
      }
    }
  }

  lemma StaysStarted(cfg: Config, s: State, w: Round, admitted: bool)
    requires InRange(cfg, s) && !s.phase.Starting?
    ensures InRange(cfg, Step(cfg, s, w, admitted)) && !Step(cfg, s, w, admitted).phase.Starting?
  {
  }

  /** A started fetch runs on as it would alone, from the history of its last budget call and
      with the calls made by others since then. */
  lemma {:induction false} OwnRun(cfg: Config, sys: System, turns: seq<Turn>, k: nat, u: State,
                                  h: seq<Event>, ops: seq<Op>)
    returns (env: nat -> Round)
    requires k < |sys.fetches| && InRange(cfg, sys.fetches[k]) && !sys.fetches[k].phase.Starting?
    requires sys.history == ApplyAll(cfg.budgetCapacity, h, ops) && EndsAs(cfg, sys, turns, k, u)
    ensures Run(cfg, env, sys.fetches[k], h).0 == u
    decreases |turns|
  {
    env := DeadProvider();
    if turns != [] {
      EndsAsNext(cfg, sys, turns, k, u);
      if turns[0].who != k {
        OtherTurn(cfg, sys, turns[0], k, h, ops);
        env := OwnRun(cfg, Next(cfg, sys, turns[0]), turns[1..], k, u, h, Unseen(cfg, sys, turns[0], ops));
      } else if sys.fetches[k].phase.Finished? {
        FinishedTurn(cfg, sys, turns[0]);
        env := OwnRun(cfg, sys, turns[1..], k, u, h, ops);
      } else {
        var next, after, unseen := OwnTurn(cfg, sys, turns[0], h, ops);
        var rest := OwnRun(cfg, next, turns[1..], k, u, after, unseen);
        env := Patched(rest, sys.fetches[k], turns[0].w, ops);
      }
    }
  }

  lemma FinishedTurn(cfg: Config, sys: System, turn: Turn)
    requires turn.who < |sys.fetches| && sys.fetches[turn.who].phase.Finished?
    ensures Next(cfg, sys, turn) == sys
  {
  }

  /** A fetch that has not started takes the history as it finds it. */
  lemma {:induction false} OwnFetch(cfg: Config, sys: System, turns: seq<Turn>, k: nat, u: State)
    returns (env: nat -> Round, h: seq<Event>)
    requires k < |sys.fetches| && sys.fetches[k].phase.Starting? && InRange(cfg, sys.fetches[k])
    requires EndsAs(cfg, sys, turns, k, u)
    ensures Run(cfg, env, sys.fetches[k], h).0 == u
    decreases |turns|
  {
    var next := Next(cfg, sys, turns[0]);
    EndsAsNext(cfg, sys, turns, k, u);
    if turns[0].who != k {
      OtherTurn(cfg, sys, turns[0], k, sys.history, []);
      env, h := OwnFetch(cfg, next, turns[1..], k, u);
    } else {
      h := sys.history;
      RunUnfolds(cfg, DeadProvider(), sys.fetches[k], h);
      env := OwnRun(cfg, next, turns[1..], k, u, next.history, []);
      RunUnfolds(cfg, env, sys.fetches[k], h);
    }
  }

  /** For every interleaving, each fetch that finishes ends as a fetch on its own does. */
  lemma EachFetchIsARun(cfg: Config, clocks: seq<real>, h: seq<Event>, turns: seq<Turn>, k: nat)
    returns (env: nat -> Round, seen: seq<Event>)
    requires k < |clocks|
    ensures var t := Exec(cfg, Unstarted(clocks, h), turns);
            k < |t.fetches| && t.fetches[k].phase.Finished? ==>
              t.fetches[k] == Fetched(cfg, env, clocks[k], seen)
  {
    env, seen := DeadProvider(), [];
    var t := Exec(cfg, Unstarted(clocks, h), turns);
    if k < |t.fetches| && t.fetches[k].phase.Finished? {
      env, seen := OwnFetch(cfg, Unstarted(clocks, h), turns, k, t.fetches[k]);
    }
  }

  /** So each of them respects Retry-After, and its retries fit the total timeout. */
  lemma InterleavedFetchesWait(cfg: Config, clocks: seq<real>, h: seq<Event>, turns: seq<Turn>, k: nat, j: nat)
    requires k < |clocks|
    ensures var t := Exec(cfg, Unstarted(clocks, h), turns);
            k < |t.fetches| && t.fetches[k].phase.Finished? ==>
              var s := t.fetches[k];
              && (j + 1 < |s.log.sends| && s.log.sends[j].reply.retryAfter > 0 ==>
                    s.log.sends[j].at + s.log.sends[j].reply.retryAfter as real <= s.log.sends[j + 1].at)
              && (NoRetryAfter(s.log.sends) && s.completed > 0 ==>
                    Product(Rate(cfg, LowJitter(cfg)), BackoffSum(s.completed)) <= cfg.totalTimeout)
  {
    var env, seen := EachFetchIsARun(cfg, clocks, h, turns, k);
    RetryAfterIsRespected(cfg, env, clocks[k], seen, j);
    BackoffBound(cfg, env, clocks[k], seen);
  }
}
