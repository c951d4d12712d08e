/** Verdicts written to a row they were not reached on: exactly when the handlers in flight
    cannot do that, as long as new readers come one at a time. */
module GrantRaces {
  import opened Crypto
  import opened Grants
  import opened GrantOrder

  // ----- verdicts and the rows they were reached on

  /** The row as the handler read it. */
  function RowRead(h: Handler): Row
    requires Snapshot(h).Some?
  {
    Live(Seal(h.secret, Snapshot(h).value))
  }

  /** At most one handler holds a snapshot, and that is still the row. */
  predicate Fresh(s: State, id: ClientId) {
    && AtMostOneHolds(s, id)
    && (forall k :: 0 <= k < |s.handlers| && Holds(s, k, id) ==> id in s.rows && s.rows[id] == RowRead(s.handlers[k]))
  }

  lemma UntouchedStaysFresh(cfg: Config, s: State, t: State, id: ClientId)
    requires Fresh(s, id) && Untouched(cfg, s, t, id)
    ensures Fresh(t, id)
  {
    forall j, k | 0 <= j < |t.handlers| && 0 <= k < |t.handlers| && j != k && Holds(t, j, id) ensures !Holds(t, k, id) {
      assert Holds(s, j, id) && !Holds(s, k, id);
    }
  }

  /** A handler that opens the row it just read holds that row. */
  lemma LookupStaysFresh(cfg: Config, s: State, l: Label, id: ClientId)
    requires Inv(cfg, s) && Idle(s, id) && l.Lookup?
    requires l.k < |s.handlers| && s.handlers[l.k].id == id && s.handlers[l.k].Requested?
    ensures Fresh(Step(cfg, s, l), id)
  {
    var t := Step(cfg, s, l);
    assert HandlerOk(cfg, s, s.handlers[l.k]);
    forall j | 0 <= j < |t.handlers| && j != l.k ensures !Holds(t, j, id) {
      assert !Holds(s, j, id);
    }
    if Holds(t, l.k, id) {
      assert RowOk(s, id, s.rows[id]);
    }
  }

  /** The only holder moves on without a write, or writes and is done. */
  lemma HolderMoved(s: State, t: State, k: nat, id: ClientId)
    requires Fresh(s, id) && Holds(s, k, id) && OnlyMoved(s, t, k, id)
    requires Holds(t, k, id) ==>
               t.rows == s.rows && t.handlers[k].secret == s.handlers[k].secret
               && Snapshot(t.handlers[k]) == Snapshot(s.handlers[k])
    ensures Fresh(t, id)
  {
    forall j | 0 <= j < |t.handlers| && j != k ensures !Holds(t, j, id) {
      assert !Holds(s, j, id);
    }
  }

  lemma StepStaysFresh(cfg: Config, s: State, l: Label, id: ClientId)
    requires Inv(cfg, s) && id in s.rows && Fresh(s, id) && SerialStep(s, l, id)
    ensures Fresh(Step(cfg, s, l), id)
  {
    if Unconcerned(s, l, id) {
      UnconcernedStep(cfg, s, l, id);
      UntouchedStaysFresh(cfg, s, Step(cfg, s, l), id);
    } else {
      match l
      case Lookup(_, _) => LookupStaysFresh(cfg, s, l, id);
      case Decrypt(k) =>
        DecryptStep(cfg, s, k, id);
        HolderMoved(s, Step(cfg, s, l), k, id);
      case Refreshed(k, result) =>
        RefreshedStep(cfg, s, k, id, result);
        HolderMoved(s, Step(cfg, s, l), k, id);
      case Update(k) =>
        UpdateStep(cfg, s, k, id);
        HolderMoved(s, Step(cfg, s, l), k, id);
    }
  }

  lemma {:induction false} RunStaysFresh(cfg: Config, s: State, labels: seq<Label>, id: ClientId)
    requires Inv(cfg, s) && id in s.rows && id in s.issued && Fresh(s, id) && Serial(cfg, s, labels, id)
    ensures Fresh(Exec(cfg, s, labels), id)
    decreases |labels|
  {
    if labels != [] {
      StepStaysFresh(cfg, s, labels[0], id);
      StepKeepsInv(cfg, s, labels[0]);
      RunStaysFresh(cfg, Step(cfg, s, labels[0]), labels[1..], id);
    }
  }

  /** A verdict is about to be written to a row other than the one it was reached on. */
  predicate Misdirected(s: State, k: nat, id: ClientId) {
    Pending(s, k, id) && !(id in s.rows && s.rows[id] == RowRead(s.handlers[k]))
  }

  ghost predicate SerialVerdictsAlwaysLand(cfg: Config, s: State, id: ClientId) {
    forall labels: seq<Label>, k: nat ::
      Serial(cfg, s, labels, id) ==> !Misdirected(Exec(cfg, s, labels), k, id)
  }

  lemma StaleHolderMisdirects(cfg: Config, s: State, id: ClientId, k: nat) returns (labels: seq<Label>)
    requires Inv(cfg, s) && Holds(s, k, id) && id in s.rows && s.rows[id] != RowRead(s.handlers[k])
    ensures Serial(cfg, s, labels, id) && Misdirected(Exec(cfg, s, labels), k, id)
  {
    if Pending(s, k, id) {
      labels := [];
    } else {
      var t;
      labels, t := Rotate(cfg, s, k, id, Row.Revoked);
      SameSecret(cfg, s, t, k, id);
    }
  }

  /** A verdict never leaves the row as it was read. */
  lemma VerdictChangesRow(cfg: Config, s: State, k: nat, id: ClientId)
    requires Inv(cfg, s) && Pending(s, k, id)
    ensures s.handlers[k].row != RowRead(s.handlers[k])
  {
    assert HandlerOk(cfg, s, s.handlers[k]);
  }

  lemma PendingOvertaken(cfg: Config, s: State, id: ClientId, j: nat, k: nat) returns (labels: seq<Label>)
    requires Inv(cfg, s) && j != k && Pending(s, j, id) && Holds(s, k, id)
    requires id in s.rows && s.rows[id] == RowRead(s.handlers[j]) == RowRead(s.handlers[k])
    ensures Serial(cfg, s, labels, id) && Misdirected(Exec(cfg, s, labels), k, id)
  {
    UpdateStep(cfg, s, j, id);
    VerdictChangesRow(cfg, s, j, id);
    var t := Step(cfg, s, Update(j));
    assert t.handlers[k] == s.handlers[k];
    var rest := StaleHolderMisdirects(cfg, t, id, k);
    LeadsNext(cfg, s, Update(j), rest, Exec(cfg, t, rest), id);
    labels := [Update(j)] + rest;
  }

  lemma TwoHoldersMisdirect(cfg: Config, s: State, id: ClientId, j: nat, k: nat) returns (labels: seq<Label>)
    requires Inv(cfg, s) && j != k && Holds(s, j, id) && Holds(s, k, id)
    requires id in s.rows && s.rows[id] == RowRead(s.handlers[j]) == RowRead(s.handlers[k])
    ensures Serial(cfg, s, labels, id) && Misdirected(Exec(cfg, s, labels), k, id)
  {
    if Pending(s, j, id) {
      labels := PendingOvertaken(cfg, s, id, j, k);
    } else {
      var first, t := Rotate(cfg, s, j, id, Row.Revoked);
      SameSecret(cfg, s, t, j, id);
      assert t.handlers[k] == s.handlers[k];
      var second := PendingOvertaken(cfg, t, id, j, k);
      LeadsJoin(cfg, s, first, t, second, Exec(cfg, t, second), id);
      labels := first + second;
    }
  }

  lemma SameSecret(cfg: Config, s: State, t: State, k: nat, id: ClientId)
    requires Inv(cfg, s) && Inv(cfg, t) && OnlyMoved(s, t, k, id)
    requires Holds(s, k, id) && Holds(t, k, id)
    ensures t.handlers[k].secret == s.handlers[k].secret
  {
    assert HandlerOk(cfg, s, s.handlers[k]) && HandlerOk(cfg, t, t.handlers[k]);
  }

  /** If new readers come one at a time: every verdict that is ever written goes to the very
      row it was reached on, exactly when at most one handler holds a snapshot and the row is
      still as it read it. */
  lemma SerialVerdictsLandExactly(cfg: Config, s: State, id: ClientId)
    requires Inv(cfg, s) && id in s.rows && id in s.issued
    ensures SerialVerdictsAlwaysLand(cfg, s, id) <==> Fresh(s, id)
  {
    if Fresh(s, id) {
      forall labels: seq<Label>, k: nat | Serial(cfg, s, labels, id)
        ensures !Misdirected(Exec(cfg, s, labels), k, id)
      {
        RunStaysFresh(cfg, s, labels, id);
      }
    } else if k :| 0 <= k < |s.handlers| && Holds(s, k, id) && s.rows[id] != RowRead(s.handlers[k]) {
      var labels := StaleHolderMisdirects(cfg, s, id, k);
    } else {
      var j, k :| 0 <= j < |s.handlers| && 0 <= k < |s.handlers| && j != k && Holds(s, j, id) && Holds(s, k, id);
      var labels := TwoHoldersMisdirect(cfg, s, id, j, k);
    }
  }

  lemma IdleIsFresh(s: State, id: ClientId)
    requires Idle(s, id)
    ensures Fresh(s, id)
  {
  }

  lemma {:induction false} SerialRefreshesStayFresh(cfg: Config, s: State, labels: seq<Label>, id: ClientId)
    requires Inv(cfg, s) && id !in s.rows && Serial(cfg, s, labels, id)
    ensures id in Exec(cfg, s, labels).rows ==> Fresh(Exec(cfg, s, labels), id)
    decreases |labels|
  {
    if labels != [] {
      var t := Step(cfg, s, labels[0]);
      StepKeepsInv(cfg, s, labels[0]);
      if id in t.rows {
        IssuedIdle(cfg, s, labels[0], id);
        IdleIsFresh(t, id);
        RunStaysFresh(cfg, t, labels[1..], id);
      } else {
        SerialRefreshesStayFresh(cfg, t, labels[1..], id);
      }
    }
  }

  /** In every run in which each row is read by one handler at a time, verdicts land on the
      row they were reached on, and a row with nothing pending is what the newest reply
      called for. */
  lemma SerialRefreshesAreSafe(cfg: Config, labels: seq<Label>, id: ClientId)
    requires Serial(cfg, EMPTY, labels, id)
    ensures var t := Exec(cfg, EMPTY, labels);
            id in t.rows ==>
              && (forall k :: 0 <= k < |t.handlers| ==> !Misdirected(t, k, id))
              && id in t.issued && (NonePending(t, id) ==> t.rows[id] == Newest(cfg, t, id))
  {
    SerialRefreshesStayFresh(cfg, EMPTY, labels, id);
    SerialRefreshesStayOrderly(cfg, EMPTY, labels, id);
  }
}
