/** What holds of grants in every interleaving of handlers. */
module GrantProperties {
  import opened Wrappers
  import opened Errors
  import opened JsonValues
  import opened Outcome
  import opened Crypto
  import opened TokenEndpoint
  import opened Grants

  /** In every reachable state, rows and in-flight snapshots open under the secret the
      client was given, to the record it was issued up to a rotated refresh token. */
  lemma GrantsStayTrue(cfg: Config, labels: seq<Label>)
    ensures var t := Exec(cfg, EMPTY, labels);
            && (forall id :: id in t.rows ==>
                  && id in t.issued
                  && (t.rows[id].Live? ==>
                        var c := t.rows[id].cipher;
                        Open(t.issued[id].secret, c) == Some(c.plain) && RecordOk(t, id, c.plain)))
            && (forall k :: 0 <= k < |t.handlers| && t.handlers[k].Loaded? ==>
                  var h := t.handlers[k];
                  h.id in t.issued && Open(t.issued[h.id].secret, h.cipher) == Some(h.cipher.plain)
                  && RecordOk(t, h.id, h.cipher.plain))
            && (forall k :: 0 <= k < |t.handlers| && (t.handlers[k].Refreshing? || t.handlers[k].Updating?) ==>
                  var h := t.handlers[k];
                  h.id in t.issued && h.secret == t.issued[h.id].secret && RecordOk(t, h.id, h.record))
  {
    ExecKeepsInv(cfg, EMPTY, labels);
    var t := Exec(cfg, EMPTY, labels);
    forall id | id in t.rows ensures RowOk(t, id, t.rows[id]) {}
    forall k | 0 <= k < |t.handlers| ensures HandlerOk(cfg, t, t.handlers[k]) {}
    forall id | id in t.issued ensures GrantOk(t.issued[id]) {
      assert RowOk(t, id, t.rows[id]);
    }
    forall id, c: Cipher | id in t.issued && CipherOk(t, id, c)
      ensures Open(t.issued[id].secret, c) == Some(c.plain)
    {
      assert GrantOk(t.issued[id]);
    }
  }

  // ----- what a write can be

  /** An existing row changes in one way only: a handler that refreshed it writes the verdict
      on the reply it got, which rotated the token or reported an invalid grant. A handler
      whose reply rotated nothing never overwrites a row, however stale its snapshot. */
  lemma RowsChangeByVerdict(cfg: Config, s: State, l: Label, id: ClientId)
    requires Inv(cfg, s) && id in s.rows
    requires Step(cfg, s, l).rows[id] != s.rows[id]
    ensures l.Update? && l.k < |s.handlers| && s.handlers[l.k].Updating? && s.handlers[l.k].id == id
    ensures id in s.issued && RefreshToken in s.issued[id].record && RefreshToken in s.handlers[l.k].record
    ensures var h, row := s.handlers[l.k], Step(cfg, s, l).rows[id];
            && RefreshReply(id, h.record, h.result) in s.replies
            && (row.Live? ==>
                  && Error !in h.result && ValidToken(h.result)
                  && RefreshToken in h.result && h.result[RefreshToken] != h.record[RefreshToken]
                  && row == Live(Seal(s.issued[id].secret, h.record[RefreshToken := h.result[RefreshToken]])))
            && (row.Revoked? ==>
                  && 400 !in cfg.retryStatusCodes && Error in h.result
                  && NormalizedTokenError(cfg, Str(h.result[Error])) == InvalidGrant)
  {
    var h := s.handlers[l.k];
    assert HandlerOk(cfg, s, h);
    SnapshotScrubbed(s, h.id, h.secret, h.record);
    WritesOnlyRotations(cfg, h.record, h.result);
  }

  /** After a refresh reply a handler goes on to write exactly when the reply rotated the
      token or was an invalid grant. */
  lemma WritesExactlyOnVerdict(cfg: Config, s: State, k: nat, result: Body)
    requires Inv(cfg, s) && k < |s.handlers| && s.handlers[k].Refreshing?
    ensures RefreshToken in s.handlers[k].record
    ensures Step(cfg, s, Refreshed(k, result)).handlers[k].Updating? <==>
            var record := s.handlers[k].record;
            if Error in result
            then 400 !in cfg.retryStatusCodes && NormalizedTokenError(cfg, Str(result[Error])) == InvalidGrant
            else ValidToken(result) && RefreshToken in result && result[RefreshToken] != record[RefreshToken]
  {
    var h := s.handlers[k];
    assert HandlerOk(cfg, s, h);
    SnapshotScrubbed(s, h.id, h.secret, h.record);
    WritesOnlyRotations(cfg, h.record, result);
  }

  /** A row issued without a refresh token never changes. */
  lemma {:induction false} UnrefreshableRowsNeverChange(cfg: Config, s: State, labels: seq<Label>, id: ClientId)
    requires Inv(cfg, s) && id in s.rows && RefreshToken !in s.issued[id].record
    ensures var t := Exec(cfg, s, labels);
            id in t.rows && t.rows[id] == s.rows[id] == Live(Seal(s.issued[id].secret, s.issued[id].record))
    decreases |labels|
  {
    assert RowOk(s, id, s.rows[id]);
    var plain, issued := s.rows[id].cipher.plain, s.issued[id].record;
    assert plain == plain - {RefreshToken} == issued - {RefreshToken} == issued;
    if labels != [] {
      var t := Step(cfg, s, labels[0]);
      StepKeepsInv(cfg, s, labels[0]);
      StepExtends(cfg, s, labels[0]);
      if t.rows[id] != s.rows[id] { RowsChangeByVerdict(cfg, s, labels[0], id); }
      UnrefreshableRowsNeverChange(cfg, t, labels[1..], id);
    }
  }

  // ----- revocation

  /** The handler holds a snapshot it could still turn into a live row. */
  predicate MayWriteBack(h: Handler) {
    match h
    case Loaded(_, secret, c) => Open(secret, c).Some? && RefreshToken in Open(secret, c).value
    case Refreshing(_, _, _) => true
    case Updating(_, _, _, _, row) => row.Live?
    case _ => false
  }

  predicate Quiet(s: State, id: ClientId) {
    forall k :: 0 <= k < |s.handlers| && s.handlers[k].id == id ==> !MayWriteBack(s.handlers[k])
  }

  predicate RevokedAndQuiet(s: State, id: ClientId) {
    id in s.rows && s.rows[id] == Row.Revoked && Quiet(s, id)
  }

  function RefreshesOf(s: State, id: ClientId): nat { multiset(s.refreshes)[id] }

  lemma StepKeepsQuiet(cfg: Config, s: State, l: Label, id: ClientId)
    requires RevokedAndQuiet(s, id)
    ensures Quiet(Step(cfg, s, l), id)
  {
  }

  lemma StepKeepsRevoked(cfg: Config, s: State, l: Label, id: ClientId)
    requires Inv(cfg, s) && RevokedAndQuiet(s, id)
    ensures var t := Step(cfg, s, l);
            id in t.rows && t.rows[id] == Row.Revoked && RefreshesOf(t, id) == RefreshesOf(s, id)
  {
    if Step(cfg, s, l).rows[id] != s.rows[id] { RowsChangeByVerdict(cfg, s, l, id); }
  }

  /** Once a row is null and no handler holds an older snapshot of it, nothing brings it
      back: it stays null, is never refreshed upstream again and is never reissued. */
  lemma {:induction false} RevocationIsFinal(cfg: Config, s: State, labels: seq<Label>, id: ClientId)
    requires Inv(cfg, s) && RevokedAndQuiet(s, id)
    ensures var t := Exec(cfg, s, labels);
            && RevokedAndQuiet(t, id) && RefreshesOf(t, id) == RefreshesOf(s, id)
            && id in s.issued && id in t.issued && t.issued[id] == s.issued[id]
    decreases |labels|
  {
    if labels != [] {
      StepKeepsQuiet(cfg, s, labels[0], id);
      StepKeepsRevoked(cfg, s, labels[0], id);
      StepExtends(cfg, s, labels[0]);
      StepKeepsInv(cfg, s, labels[0]);
      RevocationIsFinal(cfg, Step(cfg, s, labels[0]), labels[1..], id);
    }
  }

  ghost predicate StaysRevoked(cfg: Config, s: State, id: ClientId) {
    forall labels: seq<Label> ::
      var t := Exec(cfg, s, labels);
      id in t.rows && t.rows[id] == Row.Revoked
  }

  /** A reply that rotates the given token. */
  function RotatingReply(current: Json): Body {
    map[AccessToken := Text("a"), TokenType := Text("b"),
        RefreshToken := if current == Text("c") then Text("d") else Text("c")]
  }

  lemma UpdateWritesBack(cfg: Config, s: State, k: nat) returns (labels: seq<Label>)
    requires k < |s.handlers| && s.handlers[k].Updating? && s.handlers[k].row.Live? && s.handlers[k].id in s.rows
    ensures var t := Exec(cfg, s, labels);
            s.handlers[k].id in t.rows && t.rows[s.handlers[k].id].Live?
  {
    labels := [Update(k)];
    Exec1(cfg, s, Update(k));
  }

  lemma RefreshWritesBack(cfg: Config, s: State, k: nat) returns (labels: seq<Label>)
    requires k < |s.handlers| && s.handlers[k].Refreshing? && s.handlers[k].id in s.rows
    requires RefreshToken in s.handlers[k].record && s.handlers[k].record.Keys !! SCRUBBED
    ensures var t := Exec(cfg, s, labels);
            s.handlers[k].id in t.rows && t.rows[s.handlers[k].id].Live?
  {
    var reply := RotatingReply(s.handlers[k].record[RefreshToken]);
    assert "a" != "" && "b" != "" && "c"[0] != "d"[0];
    WritesOnlyRotations(cfg, s.handlers[k].record, reply);
    var rest := UpdateWritesBack(cfg, Step(cfg, s, Refreshed(k, reply)), k);
    labels := [Refreshed(k, reply)] + rest;
    assert labels[1..] == rest;
  }

  /** A handler that read the row before it was nulled can bring it back. */
  lemma SnapshotWritesBack(cfg: Config, s: State, k: nat) returns (labels: seq<Label>)
    requires Inv(cfg, s) && k < |s.handlers| && MayWriteBack(s.handlers[k]) && s.handlers[k].id in s.rows
    ensures var t := Exec(cfg, s, labels);
            s.handlers[k].id in t.rows && t.rows[s.handlers[k].id].Live?
  {
    var h := s.handlers[k];
    assert HandlerOk(cfg, s, h) && RowOk(s, h.id, s.rows[h.id]);
    if h.Updating? {
      labels := UpdateWritesBack(cfg, s, k);
    } else if h.Refreshing? {
      SnapshotScrubbed(s, h.id, h.secret, h.record);
      labels := RefreshWritesBack(cfg, s, k);
    } else {
      var t := Step(cfg, s, Decrypt(k));
      SnapshotScrubbed(s, h.id, h.secret, h.cipher.plain);
      var rest := RefreshWritesBack(cfg, t, k);
      labels := [Decrypt(k)] + rest;
      assert labels[1..] == rest;
    }
  }

  /** Revocation by itself is not final: it is exactly when no such snapshot is in flight. */
  lemma RevocationFinalExactly(cfg: Config, s: State, id: ClientId)
    requires Inv(cfg, s) && id in s.rows && s.rows[id] == Row.Revoked
    ensures StaysRevoked(cfg, s, id) <==> Quiet(s, id)
  {
    if Quiet(s, id) {
      forall labels: seq<Label>
        ensures var t := Exec(cfg, s, labels); id in t.rows && t.rows[id] == Row.Revoked
      {
        RevocationIsFinal(cfg, s, labels, id);
      }
    } else {
      var k :| 0 <= k < |s.handlers| && s.handlers[k].id == id && MayWriteBack(s.handlers[k]);
      var labels := SnapshotWritesBack(cfg, s, k);
      var t := Exec(cfg, s, labels);
      assert id in t.rows && t.rows[id] != Row.Revoked;
    }
  }
}
