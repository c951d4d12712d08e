/** The code as written, which lets any number of requests read a row at once: exactly which
    grants the newest reply always wins, and exactly which never get a misdirected verdict. */
module GrantOverlap {
  import opened Wrappers
  import opened Outcome
  import opened Grants
  import opened GrantOrder
  import opened GrantRaces

  /** The grant came without a refresh token. */
  predicate Unrefreshable(s: State, id: ClientId)
    requires id in s.issued
  {
    RefreshToken !in s.issued[id].record
  }

  lemma UnrefreshableIsIdle(cfg: Config, s: State, id: ClientId)
    requires Inv(cfg, s) && id in s.issued && Unrefreshable(s, id)
    ensures Idle(s, id)
  {
    forall k | 0 <= k < |s.handlers| ensures !Holds(s, k, id) {
      assert HandlerOk(cfg, s, s.handlers[k]);
    }
  }

  /** A lookup by one of the client's handlers changes that handler only, and hands it no
      snapshot if the row is revoked or cannot be refreshed. */
  lemma LookupStep(cfg: Config, s: State, l: Label, id: ClientId)
    requires Inv(cfg, s) && id in s.rows && l.Lookup?
    requires l.k < |s.handlers| && s.handlers[l.k].id == id && s.handlers[l.k].Requested?
    ensures var t := Step(cfg, s, l);
            && id in s.issued && OnlyMoved(s, t, l.k, id) && t.rows == s.rows && t.replies == s.replies
            && (Unrefreshable(s, id) || s.rows[id] == Row.Revoked ==> !Holds(t, l.k, id))
  {
    assert RowOk(s, id, s.rows[id]);
  }

  // ----- safe for good

  /** All that is still to be written to a null row is another null. */
  predicate OnlyRevocationsPending(s: State, id: ClientId) {
    forall k :: 0 <= k < |s.handlers| && Holds(s, k, id) ==> Pending(s, k, id) && s.handlers[k].row == Row.Revoked
  }

  /** The row is up to date, and either never changes or is null for good. */
  predicate UpToDateForGood(cfg: Config, s: State, id: ClientId) {
    && id in s.issued && id in s.rows && s.rows[id] == Newest(cfg, s, id)
    && (Unrefreshable(s, id) || (s.rows[id] == Row.Revoked && OnlyRevocationsPending(s, id)))
  }

  /** No verdict is pending and none can come to be. */
  predicate ClosedForGood(s: State, id: ClientId) {
    && id in s.issued && id in s.rows
    && (Unrefreshable(s, id) || (s.rows[id] == Row.Revoked && Idle(s, id)))
  }

  lemma UnconcernedKeepsGood(cfg: Config, s: State, l: Label, id: ClientId)
    requires Inv(cfg, s) && id in s.rows && Unconcerned(s, l, id)
    ensures UpToDateForGood(cfg, s, id) ==> UpToDateForGood(cfg, Step(cfg, s, l), id)
    ensures ClosedForGood(s, id) ==> ClosedForGood(Step(cfg, s, l), id)
  {
    UnconcernedStep(cfg, s, l, id);
    UnconcernedRow(cfg, s, l, id);
    var t := Step(cfg, s, l);
    forall k | 0 <= k < |t.handlers| ensures Holds(t, k, id) ==> k < |s.handlers| && Holds(s, k, id) {}
  }

  /** A move of one handler that leaves it without a snapshot, and the row as it was. */
  lemma MoveKeepsGood(cfg: Config, s: State, t: State, k: nat, id: ClientId)
    requires id in s.rows && OnlyMoved(s, t, k, id) && !Holds(t, k, id) && t.replies == s.replies
    requires t.rows[id] == s.rows[id]
    ensures UpToDateForGood(cfg, s, id) ==> UpToDateForGood(cfg, t, id)
    ensures ClosedForGood(s, id) ==> ClosedForGood(t, id)
  {
    forall j | 0 <= j < |t.handlers| && j != k
      ensures Holds(t, j, id) == Holds(s, j, id) && Pending(t, j, id) == Pending(s, j, id)
    {
    }
  }

  lemma StepKeepsGood(cfg: Config, s: State, l: Label, id: ClientId)
    requires Inv(cfg, s) && (UpToDateForGood(cfg, s, id) || ClosedForGood(s, id))
    ensures UpToDateForGood(cfg, s, id) ==> UpToDateForGood(cfg, Step(cfg, s, l), id)
    ensures ClosedForGood(s, id) ==> ClosedForGood(Step(cfg, s, l), id)
  {
    if Unconcerned(s, l, id) {
      UnconcernedKeepsGood(cfg, s, l, id);
    } else {
      if Unrefreshable(s, id) { UnrefreshableIsIdle(cfg, s, id); }
      match l
      case Lookup(k, _) =>
        LookupStep(cfg, s, l, id);
        MoveKeepsGood(cfg, s, Step(cfg, s, l), k, id);
      case Update(k) =>
        UpdateStep(cfg, s, k, id);
        MoveKeepsGood(cfg, s, Step(cfg, s, l), k, id);
      case _ =>
    }
  }

  lemma {:induction false} RunKeepsGood(cfg: Config, s: State, labels: seq<Label>, id: ClientId)
    requires Inv(cfg, s) && (UpToDateForGood(cfg, s, id) || ClosedForGood(s, id))
    ensures Inv(cfg, Exec(cfg, s, labels))
    ensures UpToDateForGood(cfg, s, id) ==> UpToDateForGood(cfg, Exec(cfg, s, labels), id)
    ensures ClosedForGood(s, id) ==> ClosedForGood(Exec(cfg, s, labels), id)
    decreases |labels|
  {
    if labels != [] {
      StepKeepsInv(cfg, s, labels[0]);
      StepKeepsGood(cfg, s, labels[0], id);
      RunKeepsGood(cfg, Step(cfg, s, labels[0]), labels[1..], id);
    }
  }

  // ----- two new readers

  /** Two more handlers have read the row. */
  predicate TwoReadersAdded(s: State, t: State, id: ClientId) {
    && id in s.rows && id in s.issued && t.rows == s.rows && t.issued == s.issued && t.replies == s.replies
    && |t.handlers| == |s.handlers| + 2
    && (forall k :: |s.handlers| <= k < |t.handlers| ==> ReadsRow(t, k, id))
  }

  /** The handler has just read the row as it is. */
  predicate ReadsRow(s: State, k: nat, id: ClientId) {
    && Holds(s, k, id) && !Pending(s, k, id)
    && id in s.rows && s.rows[id] == RowRead(s.handlers[k])
  }

  /** A row that is read now opens with the secret of the client. */
  lemma NewReader(cfg: Config, s: State, k: nat, id: ClientId)
    requires Inv(cfg, s) && id in s.rows && id in s.issued && !Unrefreshable(s, id) && s.rows[id].Live?
    requires k < |s.handlers| && s.handlers[k] == Requested(id, s.issued[id].secret)
    ensures var t := Step(cfg, s, Lookup(k, None));
            t == s.(handlers := s.handlers[k := t.handlers[k]]) && |t.handlers| == |s.handlers| && ReadsRow(t, k, id)
  {
    assert RowOk(s, id, s.rows[id]);
  }

  lemma NewRequest(cfg: Config, s: State, id: ClientId)
    requires Inv(cfg, s) && id in s.issued && id in s.rows
    ensures Step(cfg, s, Arrive(id, s.issued[id].secret))
            == s.(handlers := s.handlers + [Requested(id, s.issued[id].secret)])
  {
    assert RowOk(s, id, s.rows[id]);
  }

  /** A live row that can be refreshed can always be read by two more handlers. */
  lemma TwoMoreReaders(cfg: Config, s: State, id: ClientId) returns (labels: seq<Label>, t: State)
    requires Inv(cfg, s) && id in s.rows && id in s.issued && !Unrefreshable(s, id) && s.rows[id].Live?
    ensures t == Exec(cfg, s, labels) && Inv(cfg, t) && TwoReadersAdded(s, t, id)
  {
    var n, secret := |s.handlers|, s.issued[id].secret;
    var arrive := Arrive(id, secret);
    NewRequest(cfg, s, id);
    StepKeepsInv(cfg, s, arrive);
    var s1 := Step(cfg, s, arrive);
    NewRequest(cfg, s1, id);
    StepKeepsInv(cfg, s1, arrive);
    var s2 := Step(cfg, s1, arrive);
    NewReader(cfg, s2, n, id);
    StepKeepsInv(cfg, s2, Lookup(n, None));
    var s3 := Step(cfg, s2, Lookup(n, None));
    NewReader(cfg, s3, n + 1, id);
    StepKeepsInv(cfg, s3, Lookup(n + 1, None));
    t := Step(cfg, s3, Lookup(n + 1, None));
    assert ReadsRow(t, n, id) by { assert ReadsRow(s3, n, id); }
    labels := [arrive, arrive] + [Lookup(n, None), Lookup(n + 1, None)];
    ExecTwo(cfg, s, arrive, arrive);
    ExecTwo(cfg, s2, Lookup(n, None), Lookup(n + 1, None));
    ExecJoin(cfg, s, [arrive, arrive], [Lookup(n, None), Lookup(n + 1, None)]);
  }

  // ----- the newest reply

  /** Nobody holds a snapshot, and the row is not what the newest reply called for. */
  predicate Stale(cfg: Config, s: State, id: ClientId) {
    Idle(s, id) && id in s.rows && id in s.issued && s.rows[id] != Newest(cfg, s, id)
  }

  lemma LiveRowEndsStale(cfg: Config, s: State, id: ClientId) returns (labels: seq<Label>)
    requires Inv(cfg, s) && id in s.rows && id in s.issued && !Unrefreshable(s, id) && s.rows[id].Live?
    ensures Stale(cfg, Exec(cfg, s, labels), id)
  {
    var first, t := TwoMoreReaders(cfg, s, id);
    assert ReadsRow(t, |s.handlers|, id) && ReadsRow(t, |s.handlers| + 1, id);
    var second := TwoReadersRace(cfg, t, id, |s.handlers|, |s.handlers| + 1);
    ExecJoin(cfg, s, first, second);
    labels := first + second;
  }

  lemma LiveVerdictEndsStale(cfg: Config, s: State, id: ClientId, k: nat) returns (labels: seq<Label>)
    requires Inv(cfg, s) && id in s.issued && !Unrefreshable(s, id)
    requires Pending(s, k, id) && s.handlers[k].row.Live?
    ensures Stale(cfg, Exec(cfg, s, labels), id)
  {
    UpdateStep(cfg, s, k, id);
    var rest := LiveRowEndsStale(cfg, Step(cfg, s, Update(k)), id);
    Exec1(cfg, s, Update(k));
    ExecJoin(cfg, s, [Update(k)], rest);
    labels := [Update(k)] + rest;
  }

  lemma ReaderEndsStale(cfg: Config, s: State, id: ClientId, k: nat) returns (labels: seq<Label>)
    requires Inv(cfg, s) && id in s.issued && !Unrefreshable(s, id) && Holds(s, k, id) && !Pending(s, k, id)
    ensures Stale(cfg, Exec(cfg, s, labels), id)
  {
    var first, t := Rotate(cfg, s, k, id, Row.Revoked);
    var second := LiveVerdictEndsStale(cfg, t, id, k);
    ExecJoin(cfg, s, first, second);
    labels := first + second;
  }

  lemma NotForGoodEndsStale(cfg: Config, s: State, id: ClientId) returns (labels: seq<Label>)
    requires Inv(cfg, s) && id in s.rows && id in s.issued && !UpToDateForGood(cfg, s, id)
    ensures Stale(cfg, Exec(cfg, s, labels), id)
  {
    if Unrefreshable(s, id) {
      UnrefreshableIsIdle(cfg, s, id);
      labels := WrongRowStays(cfg, s, id);
    } else if s.rows[id].Live? {
      labels := LiveRowEndsStale(cfg, s, id);
    } else if k :| 0 <= k < |s.handlers| && Holds(s, k, id) && !Pending(s, k, id) {
      labels := ReaderEndsStale(cfg, s, id, k);
    } else if k :| 0 <= k < |s.handlers| && Pending(s, k, id) && s.handlers[k].row.Live? {
      labels := LiveVerdictEndsStale(cfg, s, id, k);
    } else if k :| 0 <= k < |s.handlers| && Pending(s, k, id) {
      labels := OldVerdictLandsLast(cfg, s, id, k);
    } else {
      labels := WrongRowStays(cfg, s, id);
    }
  }

  /** Whenever nobody holds a snapshot of the row, it is what the newest reply called for. */
  ghost predicate NewestAlwaysWins(cfg: Config, s: State, id: ClientId) {
    forall labels: seq<Label> ::
      var t := Exec(cfg, s, labels);
      id in t.rows && id in t.issued && (Idle(t, id) ==> t.rows[id] == Newest(cfg, t, id))
  }

  /** Over all continuations, however requests overlap: the newest reply always wins exactly
      when it has won already and the row cannot be refreshed, or is null with only further
      nulls to come. So no live grant that can be refreshed is ever safe. */
  lemma NewestWinsExactly(cfg: Config, s: State, id: ClientId)
    requires Inv(cfg, s) && id in s.rows && id in s.issued
    ensures NewestAlwaysWins(cfg, s, id) <==>
            && s.rows[id] == Newest(cfg, s, id)
            && (Unrefreshable(s, id) || (s.rows[id] == Row.Revoked && OnlyRevocationsPending(s, id)))
  {
    if UpToDateForGood(cfg, s, id) {
      forall labels: seq<Label>
        ensures var t := Exec(cfg, s, labels);
                id in t.rows && id in t.issued && (Idle(t, id) ==> t.rows[id] == Newest(cfg, t, id))
      {
        RunKeepsGood(cfg, s, labels, id);
      }
    } else {
      var labels := NotForGoodEndsStale(cfg, s, id);
      assert Stale(cfg, Exec(cfg, s, labels), id);
    }
  }

  // ----- misdirected verdicts

  ghost predicate VerdictsAlwaysLand(cfg: Config, s: State, id: ClientId) {
    forall labels: seq<Label>, k: nat :: !Misdirected(Exec(cfg, s, labels), k, id)
  }

  lemma NotClosedMisdirects(cfg: Config, s: State, id: ClientId) returns (labels: seq<Label>, k: nat)
    requires Inv(cfg, s) && id in s.rows && id in s.issued && !ClosedForGood(s, id)
    ensures Misdirected(Exec(cfg, s, labels), k, id)
  {
    if s.rows[id] == Row.Revoked {
      k :| 0 <= k < |s.handlers| && Holds(s, k, id);
      labels := StaleHolderMisdirects(cfg, s, id, k);
    } else {
      var first, t := TwoMoreReaders(cfg, s, id);
      k := |s.handlers| + 1;
      assert ReadsRow(t, |s.handlers|, id) && ReadsRow(t, k, id);
      var second := TwoHoldersMisdirect(cfg, t, id, |s.handlers|, k);
      ExecJoin(cfg, s, first, second);
      labels := first + second;
    }
  }

  /** Over all continuations, however requests overlap: every verdict is written to the row it
      was reached on exactly when the row cannot be refreshed, or is null and nobody holds an
      older snapshot of it. */
  lemma VerdictsLandExactly(cfg: Config, s: State, id: ClientId)
    requires Inv(cfg, s) && id in s.rows && id in s.issued
    ensures VerdictsAlwaysLand(cfg, s, id) <==>
            Unrefreshable(s, id) || (s.rows[id] == Row.Revoked && Idle(s, id))
  {
    if ClosedForGood(s, id) {
      forall labels: seq<Label>, k: nat ensures !Misdirected(Exec(cfg, s, labels), k, id) {
        RunKeepsGood(cfg, s, labels, id);
        var t := Exec(cfg, s, labels);
        if Unrefreshable(t, id) { UnrefreshableIsIdle(cfg, t, id); }
      }
    } else {
      var labels, k := NotClosedMisdirects(cfg, s, id);
      assert Misdirected(Exec(cfg, s, labels), k, id);
    }
  }
}
