/** Runs from the empty table in which overlapping requests of one client lose a token. */
module GrantTraces {
  import opened Wrappers
  import opened Errors
  import opened JsonValues
  import opened Outcome
  import opened Crypto
  import opened TokenEndpoint
  import opened Grants
  import opened GrantProperties
  import opened GrantOrder
  import opened GrantRaces

  const FIRST_GRANT: Body := map[AccessToken := Number(1), TokenType := Number(1), RefreshToken := Number(1)]

  function Rotation(token: int): Body {
    map[AccessToken := Number(1), TokenType := Number(1), RefreshToken := Number(token)]
  }

  const REFUSAL: Body := map[Error := Text(Code(InvalidGrant))]

  const STORED: Body := map[RefreshToken := Number(1)]

  function RowWith(secret: string, token: int): Row { Live(Seal(secret, map[RefreshToken := Number(token)])) }

  /** A client is issued a grant and makes two requests, which both read its row. */
  function TwoRequests(secret: string): seq<Label> {
    [Callback(0, secret, FIRST_GRANT), Arrive(0, secret), Arrive(0, secret)]
  }

  const BOTH_READ: seq<Label> := [Lookup(0, None), Lookup(1, None), Decrypt(0), Decrypt(1)]

  function TwoRefreshing(secret: string): State {
    State(map[0 := RowWith(secret, 1)], [Refreshing(0, secret, STORED), Refreshing(0, secret, STORED)],
          map[0 := Grant(secret, STORED)], [], [0, 0])
  }

  lemma RequestsArrive(cfg: Config, secret: string)
    requires IsKey(secret)
    ensures Exec(cfg, EMPTY, TwoRequests(secret))
            == State(map[0 := RowWith(secret, 1)], [Requested(0, secret), Requested(0, secret)],
                     map[0 := Grant(secret, STORED)], [], [])
  {
    assert Scrub(FIRST_GRANT) == STORED;
    var issued := Step(cfg, EMPTY, Callback(0, secret, FIRST_GRANT));
    assert TwoRequests(secret) == [Callback(0, secret, FIRST_GRANT)] + [Arrive(0, secret), Arrive(0, secret)];
    Exec1(cfg, EMPTY, Callback(0, secret, FIRST_GRANT));
    ExecJoin(cfg, EMPTY, [Callback(0, secret, FIRST_GRANT)], [Arrive(0, secret), Arrive(0, secret)]);
    ExecTwo(cfg, issued, Arrive(0, secret), Arrive(0, secret));
  }

  lemma BothRead(cfg: Config, secret: string)
    requires IsKey(secret)
    ensures Exec(cfg, Exec(cfg, EMPTY, TwoRequests(secret)), BOTH_READ) == TwoRefreshing(secret)
  {
    RequestsArrive(cfg, secret);
    var s := Exec(cfg, EMPTY, TwoRequests(secret));
    var t := Exec(cfg, s, [Lookup(0, None), Lookup(1, None)]);
    assert BOTH_READ == [Lookup(0, None), Lookup(1, None)] + [Decrypt(0), Decrypt(1)];
    ExecJoin(cfg, s, [Lookup(0, None), Lookup(1, None)], [Decrypt(0), Decrypt(1)]);
    ExecTwo(cfg, s, Lookup(0, None), Lookup(1, None));
    ExecTwo(cfg, t, Decrypt(0), Decrypt(1));
  }

  /** What the two requests do next continues a run from the empty table. */
  lemma TwoRequestsRefresh(cfg: Config, secret: string, more: seq<Label>)
    requires IsKey(secret)
    ensures Exec(cfg, EMPTY, TwoRequests(secret) + BOTH_READ + more) == Exec(cfg, TwoRefreshing(secret), more)
  {
    BothRead(cfg, secret);
    ExecJoin(cfg, EMPTY, TwoRequests(secret), BOTH_READ);
    ExecJoin(cfg, EMPTY, TwoRequests(secret) + BOTH_READ, more);
  }

  /** The verdicts on the two kinds of reply used below. */
  lemma Verdicts(cfg: Config, token: int)
    requires token != 1
    ensures Conclude(cfg, STORED, Rotation(token)).write == Store(map[RefreshToken := Number(token)])
    ensures 400 !in cfg.retryStatusCodes && Code(InvalidGrant) !in cfg.errorTypes ==>
              Conclude(cfg, STORED, REFUSAL).write == Revoke
  {
    WritesOnlyRotations(cfg, STORED, Rotation(token));
    assert STORED[RefreshToken := Number(token)] == map[RefreshToken := Number(token)];
    if Code(InvalidGrant) !in cfg.errorTypes {
      StandardErrorsSurvive(InvalidGrant, ServerError, cfg.errorTypes);
      WritesOnlyRotations(cfg, STORED, REFUSAL);
    }
  }

  /** The newer reply is written first and then overwritten by the older one. */
  lemma LastWriterWins(cfg: Config, secret: string)
    requires IsKey(secret)
    ensures var t := Exec(cfg, EMPTY, TwoRequests(secret) + BOTH_READ
                          + ([Refreshed(0, Rotation(2)), Refreshed(1, Rotation(3))] + [Update(1), Update(0)]));
            && Idle(t, 0) && t.rows == map[0 := RowWith(secret, 2)]
            && 0 in t.issued && Newest(cfg, t, 0) == RowWith(secret, 3)
  {
    Verdicts(cfg, 2);
    Verdicts(cfg, 3);
    TwoRequestsRefresh(cfg, secret, [Refreshed(0, Rotation(2)), Refreshed(1, Rotation(3))] + [Update(1), Update(0)]);
    OlderWrittenLast(cfg, secret, Rotation(2), Rotation(3));
    NewerLost(cfg, secret, Rotation(2), Rotation(3));
  }

  /** The newer reply rotated the token, but an older refusal is written over it. */
  lemma OldRefusalRevokes(cfg: Config, secret: string)
    requires IsKey(secret) && 400 !in cfg.retryStatusCodes && Code(InvalidGrant) !in cfg.errorTypes
    ensures var t := Exec(cfg, EMPTY, TwoRequests(secret) + BOTH_READ
                          + ([Refreshed(0, REFUSAL), Refreshed(1, Rotation(3))] + [Update(1), Update(0)]));
            && Idle(t, 0) && t.rows == map[0 := Row.Revoked]
            && 0 in t.issued && Newest(cfg, t, 0) == RowWith(secret, 3)
  {
    Verdicts(cfg, 3);
    TwoRequestsRefresh(cfg, secret, [Refreshed(0, REFUSAL), Refreshed(1, Rotation(3))] + [Update(1), Update(0)]);
    OlderWrittenLast(cfg, secret, REFUSAL, Rotation(3));
    NewerLost(cfg, secret, REFUSAL, Rotation(3));
  }

  function ReplyTo(result: Body): RefreshReply { RefreshReply(0, STORED, result) }

  /** A handler of the two after a reply that calls for a write. */
  function Decided(cfg: Config, secret: string, result: Body): Handler
    requires !Conclude(cfg, STORED, result).write.Keep?
  {
    Updating(0, secret, STORED, result, RowOf(secret, Conclude(cfg, STORED, result).write))
  }

  lemma ReplyArrives(cfg: Config, s: State, k: nat, secret: string, result: Body)
    requires k < |s.handlers| && s.handlers[k] == Refreshing(0, secret, STORED)
    requires !Conclude(cfg, STORED, result).write.Keep?
    ensures Step(cfg, s, Refreshed(k, result))
            == s.(handlers := s.handlers[k := Decided(cfg, secret, result)], replies := s.replies + [ReplyTo(result)])
  {
  }

  lemma VerdictWritten(cfg: Config, s: State, k: nat)
    requires k < |s.handlers| && s.handlers[k].Updating? && s.handlers[k].id in s.rows
    ensures var h := s.handlers[k];
            Step(cfg, s, Update(k))
            == s.(handlers := s.handlers[k := Grants.Answered(h.id, Conclude(cfg, h.record, h.result).response)],
                  rows := s.rows[h.id := h.row])
  {
  }

  /** Both handlers have their verdicts. */
  function BothPending(cfg: Config, secret: string, older: Body, newer: Body): State
    requires !Conclude(cfg, STORED, older).write.Keep? && !Conclude(cfg, STORED, newer).write.Keep?
  {
    TwoRefreshing(secret).(handlers := [Decided(cfg, secret, older), Decided(cfg, secret, newer)],
                           replies := [ReplyTo(older), ReplyTo(newer)])
  }

  lemma BothDecided(cfg: Config, secret: string, older: Body, newer: Body)
    requires !Conclude(cfg, STORED, older).write.Keep? && !Conclude(cfg, STORED, newer).write.Keep?
    ensures Exec(cfg, TwoRefreshing(secret), [Refreshed(0, older), Refreshed(1, newer)])
            == BothPending(cfg, secret, older, newer)
  {
    var s := TwoRefreshing(secret);
    ExecTwo(cfg, s, Refreshed(0, older), Refreshed(1, newer));
    ReplyArrives(cfg, s, 0, secret, older);
    ReplyArrives(cfg, Step(cfg, s, Refreshed(0, older)), 1, secret, newer);
  }

  /** Both handlers are done, the older verdict was written last. */
  function BothDone(cfg: Config, secret: string, older: Body, newer: Body): State
    requires !Conclude(cfg, STORED, older).write.Keep?
  {
    TwoRefreshing(secret).(
      handlers := [Grants.Answered(0, Conclude(cfg, STORED, older).response),
                   Grants.Answered(0, Conclude(cfg, STORED, newer).response)],
      replies := [ReplyTo(older), ReplyTo(newer)],
      rows := map[0 := RowOf(secret, Conclude(cfg, STORED, older).write)])
  }

  lemma BothWritten(cfg: Config, secret: string, older: Body, newer: Body)
    requires !Conclude(cfg, STORED, older).write.Keep? && !Conclude(cfg, STORED, newer).write.Keep?
    ensures Exec(cfg, BothPending(cfg, secret, older, newer), [Update(1), Update(0)])
            == BothDone(cfg, secret, older, newer)
  {
    var s := BothPending(cfg, secret, older, newer);
    ExecTwo(cfg, s, Update(1), Update(0));
    VerdictWritten(cfg, s, 1);
    VerdictWritten(cfg, Step(cfg, s, Update(1)), 0);
  }

  lemma OlderWrittenLast(cfg: Config, secret: string, older: Body, newer: Body)
    requires !Conclude(cfg, STORED, older).write.Keep? && !Conclude(cfg, STORED, newer).write.Keep?
    ensures Exec(cfg, TwoRefreshing(secret), [Refreshed(0, older), Refreshed(1, newer)] + [Update(1), Update(0)])
            == BothDone(cfg, secret, older, newer)
  {
    BothDecided(cfg, secret, older, newer);
    BothWritten(cfg, secret, older, newer);
    ExecJoin(cfg, TwoRefreshing(secret), [Refreshed(0, older), Refreshed(1, newer)], [Update(1), Update(0)]);
  }

  /** Then the newer verdict is lost. */
  lemma NewerLost(cfg: Config, secret: string, older: Body, newer: Body)
    requires !Conclude(cfg, STORED, older).write.Keep? && !Conclude(cfg, STORED, newer).write.Keep?
    ensures var t := BothDone(cfg, secret, older, newer);
            Idle(t, 0) && Newest(cfg, t, 0) == RowOf(secret, Conclude(cfg, STORED, newer).write)
  {
  }

  lemma OneConcludes(cfg: Config, secret: string, s: State, k: nat, result: Body)
    requires k < |s.handlers| && s.handlers[k] == Refreshing(0, secret, STORED) && 0 in s.rows
    requires !Conclude(cfg, STORED, result).write.Keep?
    ensures var verdict := Conclude(cfg, STORED, result);
            Exec(cfg, s, [Refreshed(k, result), Update(k)])
            == s.(handlers := s.handlers[k := Grants.Answered(0, verdict.response)],
                  replies := s.replies + [ReplyTo(result)],
                  rows := s.rows[0 := RowOf(secret, verdict.write)])
  {
    ExecTwo(cfg, s, Refreshed(k, result), Update(k));
    ReplyArrives(cfg, s, k, secret, result);
    VerdictWritten(cfg, Step(cfg, s, Refreshed(k, result)), k);
  }

  /** The second request has rotated the token. */
  function RotatedOnce(cfg: Config, secret: string): State {
    TwoRefreshing(secret).(
      handlers := [Refreshing(0, secret, STORED), Grants.Answered(0, Conclude(cfg, STORED, Rotation(2)).response)],
      replies := [ReplyTo(Rotation(2))],
      rows := map[0 := RowWith(secret, 2)])
  }

  lemma OneRotates(cfg: Config, secret: string)
    ensures Exec(cfg, TwoRefreshing(secret), [Refreshed(1, Rotation(2)), Update(1)]) == RotatedOnce(cfg, secret)
  {
    Verdicts(cfg, 2);
    OneConcludes(cfg, secret, TwoRefreshing(secret), 1, Rotation(2));
  }

  /** And the first has been refused. */
  function RefusedLate(cfg: Config, secret: string): State
    requires !Conclude(cfg, STORED, REFUSAL).write.Keep?
  {
    RotatedOnce(cfg, secret).(
      handlers := [Decided(cfg, secret, REFUSAL), RotatedOnce(cfg, secret).handlers[1]],
      replies := [ReplyTo(Rotation(2)), ReplyTo(REFUSAL)])
  }

  lemma RefusalComesLate(cfg: Config, secret: string)
    requires !Conclude(cfg, STORED, REFUSAL).write.Keep?
    ensures Exec(cfg, RotatedOnce(cfg, secret), [Refreshed(0, REFUSAL)]) == RefusedLate(cfg, secret)
  {
    Exec1(cfg, RotatedOnce(cfg, secret), Refreshed(0, REFUSAL));
    ReplyArrives(cfg, RotatedOnce(cfg, secret), 0, secret, REFUSAL);
  }

  lemma LateRefusalMisdirected(cfg: Config, secret: string)
    requires Conclude(cfg, STORED, REFUSAL).write == Revoke
    ensures Misdirected(RefusedLate(cfg, secret), 0, 0)
    ensures Step(cfg, RefusedLate(cfg, secret), Update(0)).rows == map[0 := Row.Revoked]
  {
    assert STORED[RefreshToken] != Number(2);
    VerdictWritten(cfg, RefusedLate(cfg, secret), 0);
  }

  const REFUSED_LATE: seq<Label> := [Refreshed(1, Rotation(2)), Update(1)] + [Refreshed(0, REFUSAL)]

  /** One request rotates the token; the other, refused because it still sent the old one,
      nulls the row that has just been given the new one. */
  lemma RefusalOfOldTokenRevokesNew(cfg: Config, secret: string)
    requires IsKey(secret) && 400 !in cfg.retryStatusCodes && Code(InvalidGrant) !in cfg.errorTypes
    ensures var t := Exec(cfg, EMPTY, TwoRequests(secret) + BOTH_READ + REFUSED_LATE);
            && 0 in t.rows && t.rows[0] == RowWith(secret, 2) && Misdirected(t, 0, 0)
            && Step(cfg, t, Update(0)).rows == map[0 := Row.Revoked]
  {
    Verdicts(cfg, 2);
    TwoRequestsRefresh(cfg, secret, REFUSED_LATE);
    ExecJoin(cfg, TwoRefreshing(secret), [Refreshed(1, Rotation(2)), Update(1)], [Refreshed(0, REFUSAL)]);
    OneRotates(cfg, secret);
    RefusalComesLate(cfg, secret);
    LateRefusalMisdirected(cfg, secret);
  }

  /** The first request has been refused. */
  function RevokedOnce(cfg: Config, secret: string): State {
    TwoRefreshing(secret).(
      handlers := [Grants.Answered(0, Conclude(cfg, STORED, REFUSAL).response), Refreshing(0, secret, STORED)],
      replies := [ReplyTo(REFUSAL)],
      rows := map[0 := Row.Revoked])
  }

  lemma OneIsRefused(cfg: Config, secret: string)
    requires Conclude(cfg, STORED, REFUSAL).write == Revoke
    ensures Exec(cfg, TwoRefreshing(secret), [Refreshed(0, REFUSAL), Update(0)]) == RevokedOnce(cfg, secret)
  {
    OneConcludes(cfg, secret, TwoRefreshing(secret), 0, REFUSAL);
  }

  lemma RotationBringsBack(cfg: Config, secret: string)
    ensures Exec(cfg, RevokedOnce(cfg, secret), [Refreshed(1, Rotation(2)), Update(1)]).rows
            == map[0 := RowWith(secret, 2)]
  {
    Verdicts(cfg, 2);
    OneConcludes(cfg, secret, RevokedOnce(cfg, secret), 1, Rotation(2));
  }

  /** A revoked row with an older snapshot in flight is within reach, and so is its return. */
  lemma RevokedRowReturns(cfg: Config, secret: string)
    requires IsKey(secret) && 400 !in cfg.retryStatusCodes && Code(InvalidGrant) !in cfg.errorTypes
    ensures var t := Exec(cfg, EMPTY, TwoRequests(secret) + BOTH_READ + [Refreshed(0, REFUSAL), Update(0)]);
            && t.rows == map[0 := Row.Revoked] && |t.handlers| == 2 && MayWriteBack(t.handlers[1])
            && Exec(cfg, t, [Refreshed(1, Rotation(2)), Update(1)]).rows == map[0 := RowWith(secret, 2)]
  {
    Verdicts(cfg, 2);
    TwoRequestsRefresh(cfg, secret, [Refreshed(0, REFUSAL), Update(0)]);
    OneIsRefused(cfg, secret);
    RotationBringsBack(cfg, secret);
  }
}
