/** The `tokens` table under any number of concurrent `/callback` and `/token` handlers
    (views.py, db.py). A handler is preempted between its database and provider calls. */
module Grants {
  import opened Wrappers
  import opened Errors
  import opened JsonValues
  import opened Outcome
  import opened Crypto
  import opened TokenEndpoint
  import opened Runs
  import FetchModel

  type Config = FetchModel.Config

  type ClientId = nat

  datatype Row = Revoked | Live(cipher: Cipher)

  type Table = map<ClientId, Row>

  // ----- the database operations

  /** `INSERT`: refused when the id is taken. */
  function InsertRow(rows: Table, id: ClientId, cipher: Cipher): Table {
    if id in rows then rows else rows[id := Live(cipher)]
  }

  /** `UPDATE`: no effect on a missing row. */
  function UpdateRow(rows: Table, id: ClientId, row: Row): Table {
    if id in rows then rows[id := row] else rows
  }

  // ----- the code exchange

  /** The record `/callback` stores for a code exchange; none when it fails. */
  function ExchangeRecord(result: Body): Option<Body> {
    if Error in result || !ValidToken(result) then None
    else if RefreshToken in result then Some(Scrub(result))
    else Some(result)
  }

  // ----- handlers

  /** Where a `/token` request is, with what it remembers. */
  datatype Handler =
    | Requested(id: ClientId, secret: string)
    | Loaded(id: ClientId, secret: string, cipher: Cipher)
    | Refreshing(id: ClientId, secret: string, record: Body)
    | Updating(id: ClientId, secret: string, record: Body, result: Body, row: Row)
    | Answered(id: ClientId, response: Response)

  /** What the provider answered to the refresh of a snapshot. */
  datatype RefreshReply = RefreshReply(id: ClientId, sent: Body, body: Body)

  /** A grant as issued: what the client got and what was stored. */
  datatype Grant = Grant(secret: string, record: Body)

  datatype State = State(
    rows: Table,
    handlers: seq<Handler>,
    issued: map<ClientId, Grant>,
    replies: seq<RefreshReply>,     // what refreshes returned, oldest first
    refreshes: seq<ClientId>)       // refreshes begun, oldest first

  const EMPTY := State(map[], [], map[], [], [])

  datatype Label =
    | Callback(id: ClientId, secret: string, result: Body)
    | Arrive(id: ClientId, presented: string)
    | Lookup(k: nat, workaround: Option<Body>)
    | Decrypt(k: nat)
    | Refreshed(k: nat, result: Body)
    | Update(k: nat)

  const UNKNOWN_CLIENT: Response := Failure(401, InvalidClient, None)

  function RowOf(secret: string, write: Write): Row
    requires !write.Keep?
  {
    if write.Revoke? then Row.Revoked else Live(Seal(secret, write.record))
  }

  /** Lookup, and the answer for a client that is unknown or revoked. */
  function AfterLookup(rows: Table, h: Handler, workaround: Option<Body>): Handler
    requires h.Requested?
  {
    if h.id !in rows then Answered(h.id, UNKNOWN_CLIENT)
    else
      match rows[h.id]
      case Revoked =>
        Answered(h.id, if workaround.Some? then Success(workaround.value) else ErrorResponse(InvalidGrant, Null))
      case Live(c) => Loaded(h.id, h.secret, c)
  }

  function AfterDecrypt(h: Handler): Handler
    requires h.Loaded?
  {
    match Open(h.secret, h.cipher)
    case None => Answered(h.id, UNKNOWN_CLIENT)
    case Some(record) =>
      if RefreshToken in record then Refreshing(h.id, h.secret, record) else Answered(h.id, Success(record))
  }

  function AfterRefresh(cfg: Config, h: Handler, result: Body): Handler
    requires h.Refreshing?
  {
    var v := Conclude(cfg, h.record, result);
    if v.write.Keep? then Answered(h.id, v.response)
    else Updating(h.id, h.secret, h.record, result, RowOf(h.secret, v.write))
  }

  /** One atomic step; a label that does not apply changes nothing. */
  function Step(cfg: Config, s: State, l: Label): State {
    match l
    case Callback(id, secret, result) =>
      if IsKey(secret) && id !in s.rows && ExchangeRecord(result).Some? then
        var record := ExchangeRecord(result).value;
        s.(rows := InsertRow(s.rows, id, Seal(secret, record)), issued := s.issued[id := Grant(secret, record)])
      else s
    case Arrive(id, presented) =>
      s.(handlers := s.handlers +
           [match ValidateKey(presented)
            case Some(secret) => Requested(id, secret)
            case None => Answered(id, UNKNOWN_CLIENT)])
    case Lookup(k, workaround) =>
      if k < |s.handlers| && s.handlers[k].Requested? then
        s.(handlers := s.handlers[k := AfterLookup(s.rows, s.handlers[k], workaround)])
      else s
    case Decrypt(k) =>
      if k < |s.handlers| && s.handlers[k].Loaded? then
        var h := AfterDecrypt(s.handlers[k]);
        s.(handlers := s.handlers[k := h], refreshes := s.refreshes + if h.Refreshing? then [h.id] else [])
      else s
    case Refreshed(k, result) =>
      if k < |s.handlers| && s.handlers[k].Refreshing? then
        s.(handlers := s.handlers[k := AfterRefresh(cfg, s.handlers[k], result)],
           replies := s.replies + [RefreshReply(s.handlers[k].id, s.handlers[k].record, result)])
      else s
    case Update(k) =>
      if k < |s.handlers| && s.handlers[k].Updating? then
        var h := s.handlers[k];
        s.(handlers := s.handlers[k := Answered(h.id, Conclude(cfg, h.record, h.result).response)],
           rows := UpdateRow(s.rows, h.id, h.row))
      else s
  }

  function Exec(cfg: Config, s: State, labels: seq<Label>): State
    decreases |labels|
  {
    if labels == [] then s else Exec(cfg, Step(cfg, s, labels[0]), labels[1..])
  }

  lemma Exec1(cfg: Config, s: State, l: Label)
    ensures Exec(cfg, s, [l]) == Step(cfg, s, l)
  {
    assert [l][1..] == [];
  }

  lemma ExecJoin(cfg: Config, s: State, first: seq<Label>, second: seq<Label>)
    ensures Exec(cfg, s, first + second) == Exec(cfg, Exec(cfg, s, first), second)
  {
    var run, step := (x: State, ls: seq<Label>) => Exec(cfg, x, ls), (x: State, l: Label) => Step(cfg, x, l);
    forall x: State, l: Label, rest: seq<Label> ensures run(x, [l] + rest) == run(step(x, l), rest) {
      assert ([l] + rest)[1..] == rest;
    }
    Join(run, step, s, first, second);
  }

  lemma ExecTwo(cfg: Config, s: State, a: Label, b: Label)
    ensures Exec(cfg, s, [a, b]) == Step(cfg, Step(cfg, s, a), b)
  {
    assert [a, b] == [a] + [b];
    Exec1(cfg, s, a);
    ExecJoin(cfg, s, [a], [b]);
    Exec1(cfg, Step(cfg, s, a), b);
  }

  // ----- the invariant

  /** The token came from the code exchange or from a refresh reply for the same client. */
  predicate TokenKnown(s: State, id: ClientId, token: Json)
    requires id in s.issued
  {
    || (RefreshToken in s.issued[id].record && token == s.issued[id].record[RefreshToken])
    || exists k :: 0 <= k < |s.replies| && s.replies[k].id == id
                   && RefreshToken in s.replies[k].body && s.replies[k].body[RefreshToken] == token
  }

  /** The record as issued, up to a rotation of its refresh token. */
  predicate RecordOk(s: State, id: ClientId, record: Body) {
    && id in s.issued
    && record - {RefreshToken} == s.issued[id].record - {RefreshToken}
    && (RefreshToken in record <==> RefreshToken in s.issued[id].record)
    && (RefreshToken in record ==> TokenKnown(s, id, record[RefreshToken]))
  }

  predicate CipherOk(s: State, id: ClientId, c: Cipher) {
    id in s.issued && c.key == s.issued[id].secret && RecordOk(s, id, c.plain)
  }

  predicate GrantOk(g: Grant) {
    IsKey(g.secret) && (RefreshToken in g.record ==> g.record.Keys !! SCRUBBED)
  }

  /** A row is revoked only if it was refreshable, and otherwise opens to the issued record. */
  predicate RowOk(s: State, id: ClientId, row: Row) {
    && id in s.issued && GrantOk(s.issued[id])
    && match row
       case Revoked => RefreshToken in s.issued[id].record
       case Live(c) => CipherOk(s, id, c)
  }

  predicate HandlerOk(cfg: Config, s: State, h: Handler) {
    match h
    case Requested(_, secret) => IsKey(secret)
    case Loaded(id, secret, c) => IsKey(secret) && CipherOk(s, id, c)
    case Refreshing(id, secret, record) => HoldsRecord(s, id, secret, record)
    case Updating(id, secret, record, result, row) =>
      && HoldsRecord(s, id, secret, record)
      && RowOk(s, id, row)
      && RefreshReply(id, record, result) in s.replies
      && !Conclude(cfg, record, result).write.Keep?
      && row == RowOf(secret, Conclude(cfg, record, result).write)
    case Answered(_, _) => true
  }

  /** A decrypted snapshot, held under the secret issued for the client. */
  predicate HoldsRecord(s: State, id: ClientId, secret: string, record: Body) {
    RecordOk(s, id, record) && GrantOk(s.issued[id]) && secret == s.issued[id].secret && RefreshToken in record
  }

  predicate Inv(cfg: Config, s: State) {
    && s.rows.Keys == s.issued.Keys
    && (forall id {:trigger RowOk(s, id, s.rows[id])} :: id in s.rows ==> RowOk(s, id, s.rows[id]))
    && (forall k {:trigger HandlerOk(cfg, s, s.handlers[k])} ::
          0 <= k < |s.handlers| ==> HandlerOk(cfg, s, s.handlers[k]))
    && RepliesOk(s)
  }

  predicate RepliesOk(s: State) {
    forall k :: 0 <= k < |s.replies| ==> s.replies[k].id in s.issued
  }

  /** Grants are never reissued and replies are never forgotten. */
  predicate Extends(s: State, t: State) {
    && s.replies <= t.replies
    && (forall id :: id in s.issued ==> id in t.issued && t.issued[id] == s.issued[id])
  }

  lemma RecordStaysOk(s: State, t: State, id: ClientId, record: Body)
    requires Extends(s, t) && RecordOk(s, id, record)
    ensures RecordOk(t, id, record)
  {
    if RefreshToken in record && record[RefreshToken] != s.issued[id].record[RefreshToken] {
      var k :| 0 <= k < |s.replies| && s.replies[k].id == id
               && RefreshToken in s.replies[k].body && s.replies[k].body[RefreshToken] == record[RefreshToken];
      assert t.replies[k] == s.replies[k];
    }
  }

  lemma RowStaysOk(s: State, t: State, id: ClientId, row: Row)
    requires Extends(s, t) && RowOk(s, id, row)
    ensures RowOk(t, id, row)
  {
    if row.Live? { RecordStaysOk(s, t, id, row.cipher.plain); }
  }

  lemma HandlerStaysOk(cfg: Config, s: State, t: State, h: Handler)
    requires Extends(s, t) && HandlerOk(cfg, s, h)
    ensures HandlerOk(cfg, t, h)
  {
    match h
    case Requested(_, _) =>
    case Loaded(id, _, c) => RecordStaysOk(s, t, id, c.plain);
    case Refreshing(id, _, record) => RecordStaysOk(s, t, id, record);
    case Updating(id, _, record, _, row) =>
      RecordStaysOk(s, t, id, record);
      RowStaysOk(s, t, id, row);
    case Answered(_, _) =>
  }

  /** A snapshot of a scrubbed grant is itself scrubbed. */
  lemma SnapshotScrubbed(s: State, id: ClientId, secret: string, record: Body)
    requires HoldsRecord(s, id, secret, record)
    ensures record.Keys !! SCRUBBED
  {
    forall f ensures f in record <==> f in s.issued[id].record {
      assert f in record - {RefreshToken} <==> f in s.issued[id].record - {RefreshToken};
    }
    assert record.Keys == s.issued[id].record.Keys;
  }

  /** The reply of a refresh leaves the handler, if it will write, with a row in order. */
  lemma RefreshGivesGoodRow(cfg: Config, s: State, t: State, h: Handler, result: Body)
    requires Extends(s, t) && h.Refreshing? && HandlerOk(cfg, s, h)
    requires RefreshReply(h.id, h.record, result) in t.replies
    ensures HandlerOk(cfg, t, AfterRefresh(cfg, h, result))
  {
    HandlerStaysOk(cfg, s, t, h);
    SnapshotScrubbed(s, h.id, h.secret, h.record);
    WritesOnlyRotations(cfg, h.record, result);
    var write := Conclude(cfg, h.record, result).write;
    if write.Store? {
      assert write.record - {RefreshToken} == h.record - {RefreshToken};
      var k :| 0 <= k < |t.replies| && t.replies[k] == RefreshReply(h.id, h.record, result);
      assert TokenKnown(t, h.id, write.record[RefreshToken]);
    }
  }

  lemma StepExtends(cfg: Config, s: State, l: Label)
    requires Inv(cfg, s)
    ensures Extends(s, Step(cfg, s, l))
  {
  }

  lemma CallbackKeepsInv(cfg: Config, s: State, l: Label)
    requires Inv(cfg, s) && l.Callback?
    ensures Inv(cfg, Step(cfg, s, l))
  {
    var t := Step(cfg, s, l);
    StepExtends(cfg, s, l);
    forall id | id in t.rows ensures RowOk(t, id, t.rows[id]) {
      if id in s.rows { RowStaysOk(s, t, id, s.rows[id]); }
    }
    forall k | 0 <= k < |t.handlers| ensures HandlerOk(cfg, t, t.handlers[k]) {
      HandlerStaysOk(cfg, s, t, s.handlers[k]);
    }
  }

  /** Handler k moved on; everything else is as it was. */
  lemma HandlerMoves(cfg: Config, s: State, t: State, k: nat)
    requires Inv(cfg, s) && Extends(s, t) && t.issued == s.issued && t.rows.Keys == s.rows.Keys && RepliesOk(t)
    requires k < |s.handlers| && |t.handlers| == |s.handlers|
    requires t.handlers == s.handlers[k := t.handlers[k]] && HandlerOk(cfg, t, t.handlers[k])
    requires forall id :: id in t.rows ==> t.rows[id] == s.rows[id] || RowOk(t, id, t.rows[id])
    ensures Inv(cfg, t)
  {
    forall id | id in t.rows ensures RowOk(t, id, t.rows[id]) {
      if t.rows[id] == s.rows[id] { RowStaysOk(s, t, id, s.rows[id]); }
    }
    forall j | 0 <= j < |t.handlers| ensures HandlerOk(cfg, t, t.handlers[j]) {
      if j != k { HandlerStaysOk(cfg, s, t, s.handlers[j]); }
    }
  }

  lemma HandlerStepKeepsInv(cfg: Config, s: State, l: Label)
    requires Inv(cfg, s) && (l.Lookup? || l.Decrypt? || l.Refreshed? || l.Update?)
    ensures Inv(cfg, Step(cfg, s, l))
  {
    var t := Step(cfg, s, l);
    StepExtends(cfg, s, l);
    if t != s {
      var h := s.handlers[l.k];
      HandlerStaysOk(cfg, s, t, h);
      match l {
        case Lookup(k, _) => if h.id in s.rows { RowStaysOk(s, t, h.id, s.rows[h.id]); }
        case Decrypt(k) => assert RowOk(s, h.id, s.rows[h.id]);
        case Refreshed(k, result) =>
          assert t.replies[|s.replies|] == RefreshReply(h.id, h.record, result);
          RefreshGivesGoodRow(cfg, s, t, h, result);
        case Update(k) =>
      }
      HandlerMoves(cfg, s, t, l.k);
    }
  }

  lemma StepKeepsInv(cfg: Config, s: State, l: Label)
    requires Inv(cfg, s)
    ensures Inv(cfg, Step(cfg, s, l))
  {
    match l
    case Callback(_, _, _) => CallbackKeepsInv(cfg, s, l);
    case Arrive(_, _) =>
      var t := Step(cfg, s, l);
      forall id | id in t.rows ensures RowOk(t, id, t.rows[id]) { RowStaysOk(s, t, id, s.rows[id]); }
      forall k | 0 <= k < |t.handlers| ensures HandlerOk(cfg, t, t.handlers[k]) {
        if k < |s.handlers| { HandlerStaysOk(cfg, s, t, s.handlers[k]); }
      }
    case _ => HandlerStepKeepsInv(cfg, s, l);
  }

  lemma {:induction false} ExecKeepsInv(cfg: Config, s: State, labels: seq<Label>)
    requires Inv(cfg, s)
    ensures Inv(cfg, Exec(cfg, s, labels))
    decreases |labels|
  {
    if labels != [] {
      StepKeepsInv(cfg, s, labels[0]);
      ExecKeepsInv(cfg, Step(cfg, s, labels[0]), labels[1..]);
    }
  }
}
