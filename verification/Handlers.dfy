/** The `tokens` table and the request handlers as the source runs them: objects updated in
    place, with other requests let in wherever a handler gives up control. */
module Handlers {
  import opened Wrappers
  import opened Errors
  import opened JsonValues
  import opened Outcome
  import opened Crypto
  import opened Buckets
  import opened TokenEndpoint
  import opened Grants
  import opened Coalescing
  import FetchModel
  import FetchProperties
  import Fetch
  import Cache = MetricsCache

  /** The worker, if there is one, has had n more requests, and nothing else was done to it. */
  twostate predicate Asked(worker: CoalescingWorker?, n: nat)
    reads worker
  {
    worker != null ==>
      && worker.generation == old(worker.generation) + n
      && worker.handledGeneration == old(worker.handledGeneration)
      && worker.started == old(worker.started) && worker.stopped == old(worker.stopped)
      && |worker.threads| == |old(worker.threads)|
  }

  /** db.py, with the refresh worker registered in the application, if any. */
  class TokenTable {
    var rows: Table
    var worker: CoalescingWorker?

    constructor (worker: CoalescingWorker?)
      ensures rows == map[] && this.worker == worker
    {
      rows := map[];
      this.worker := worker;
    }

    /** telemetry.request_refresh. */
    method RequestRefresh()
      modifies worker
      ensures Asked(worker, 1)
    {
      if worker != null { worker.Request(); }
    }

    /** Commit a new row, then ask for a refresh; a taken id is an integrity error. */
    method Insert(id: ClientId, cipher: Cipher) returns (inserted: bool)
      modifies this`rows, worker
      ensures inserted <==> id !in old(rows)
      ensures rows == if inserted then old(rows)[id := Live(cipher)] else old(rows)
      ensures Asked(worker, if inserted then 1 else 0)
    {
      if id in rows { return false; }
      rows := rows[id := Live(cipher)];
      RequestRefresh();
      return true;
    }

    method Lookup(id: ClientId) returns (row: Option<Row>)
      ensures row == if id in rows then Some(rows[id]) else None
    {
      if id !in rows { return None; }
      return Some(rows[id]);
    }

    /** Commit a change, then ask for a refresh if a row was changed. */
    method Update(id: ClientId, row: Row) returns (count: nat)
      modifies this`rows, worker
      ensures rows == if count > 0 then old(rows)[id := row] else old(rows)
      ensures count == if id in old(rows) then 1 else 0
      ensures Asked(worker, count)
    {
      count := 0;
      if id in rows {
        rows := rows[id := row];
        count := 1;
      }
      if count > 0 { RequestRefresh(); }
    }
  }

  // ----- other requests

  datatype TableOp = Inserting(id: ClientId, cipher: Cipher) | Changing(id: ClientId, row: Row)

  function AfterOp(rows: Table, op: TableOp): Table {
    match op
    case Inserting(id, cipher) => InsertRow(rows, id, cipher)
    case Changing(id, row) => UpdateRow(rows, id, row)
  }

  function AfterOps(rows: Table, ops: seq<TableOp>): Table {
    if ops == [] then rows else AfterOp(AfterOps(rows, ops[..|ops| - 1]), ops[|ops| - 1])
  }

  /** Whether the operation changes a row at all. */
  predicate Effective(rows: Table, op: TableOp) {
    match op
    case Inserting(id, _) => id !in rows
    case Changing(id, _) => id in rows
  }

  /** How many of the operations do. */
  function Writes(rows: Table, ops: seq<TableOp>): nat {
    if ops == [] then 0
    else
      var earlier, last := ops[..|ops| - 1], ops[|ops| - 1];
      Writes(rows, earlier) + if Effective(AfterOps(rows, earlier), last) then 1 else 0
  }

  /** What other handlers write while this one waits for the provider. */
  method OtherHandlers(db: TokenTable, ops: seq<TableOp>)
    modifies db`rows, db.worker
    ensures db.rows == AfterOps(old(db.rows), ops)
    ensures Asked(db.worker, Writes(old(db.rows), ops))
  {
    for k := 0 to |ops|
      invariant db.rows == AfterOps(old(db.rows), ops[..k])
      invariant Asked(db.worker, Writes(old(db.rows), ops[..k]))
    {
      assert ops[..k + 1][..k] == ops[..k];
      match ops[k] {
        case Inserting(id, cipher) => var _ := db.Insert(id, cipher);
        case Changing(id, row) => var _ := db.Update(id, row);
      }
    }
    assert ops[..|ops|] == ops;
  }

  function Commit(op: TableOp): Cache.Label {
    match op
    case Inserting(id, cipher) => Cache.CommitInsert(id, cipher)
    case Changing(id, row) => Cache.CommitUpdate(id, row)
  }

  /** A write with its refresh request is a writer of the cache model that commits and then
      asks; a write without effect asks for nothing. */
  lemma WriteIsStepwise(cfg: Timing, s: Cache.State, op: TableOp)
    requires Cache.Reachable(s)
    ensures Effective(s.rows, op) ==>
              var t := Cache.Step(cfg, Cache.Step(cfg, s, Commit(op)), Cache.WriterRequests);
              && t.rows == AfterOp(s.rows, op) && t.writers == s.writers && t.gauge == s.gauge
              && t.worker.fields == RequestSection(s.worker.fields)
    ensures !Effective(s.rows, op) ==>
              Cache.Step(cfg, s, Commit(op)) == s && AfterOp(s.rows, op) == s.rows
  {
  }

  // ----- /token

  /** The last part of `token`, on the body `fetch` returned. */
  method ConcludeRefresh(cfg: Config, record: Body, fetched: Body) returns (verdict: Verdict)
    ensures verdict == Conclude(cfg, record, fetched)
  {
    var refreshResult := fetched;
    var outcome := Classify(Some(if Error in refreshResult then 400 else 200), refreshResult,
                            cfg.retryStatusCodes, cfg.errorTypes);
    if Error in refreshResult {
      var error := outcome.normalizedError.GetOr(ServerError);
      var write := Keep;
      if outcome.invalidateRefreshToken {
        write := Revoke;
      }
      return Verdict(write, ErrorResponse(error, Get(refreshResult, RetryAfter)));
    }
    if !ValidToken(refreshResult) {
      return Verdict(Keep, ErrorResponse(InvalidRequest, Null));
    }
    if Scope !in refreshResult && Scope in record {
      refreshResult := refreshResult[Scope := record[Scope]];
    }
    var modified := Scrub(record);
    if RefreshToken in refreshResult {
      modified := modified[RefreshToken := refreshResult[RefreshToken]];
    }
    refreshResult := refreshResult - {RefreshToken};
    var write := Keep;
    if record != modified {
      write := Store(modified);
    }
    return Verdict(write, Success(refreshResult));
  }

  /** The handler just before its write, or answered, given what `fetch` would return. */
  function Handled(cfg: Config, rows: Table, id: ClientId, presented: string, workaround: Option<Body>,
                   fetched: Body): Handler {
    match ValidateKey(presented)
    case None => Grants.Answered(id, UNKNOWN_CLIENT)
    case Some(secret) =>
      var h := AfterLookup(rows, Requested(id, secret), workaround);
      if !h.Loaded? then h
      else if AfterDecrypt(h).Refreshing? then AfterRefresh(cfg, AfterDecrypt(h), fetched)
      else AfterDecrypt(h)
  }

  /** This is where the steps of the grant model take the same request, when nothing comes
      between them; steps that do not apply to it do nothing. */
  lemma HandledIsStepwise(cfg: Config, s: Grants.State, id: ClientId, presented: string, workaround: Option<Body>,
                          fetched: Body)
    ensures var n := |s.handlers|;
            var t1 := Grants.Step(cfg, s, Arrive(id, presented));
            var t2 := Grants.Step(cfg, t1, Grants.Lookup(n, workaround));
            var t3 := Grants.Step(cfg, t2, Decrypt(n));
            var t4 := Grants.Step(cfg, t3, Refreshed(n, fetched));
            && |t4.handlers| == n + 1 && t4.rows == s.rows
            && t4.handlers[n] == Handled(cfg, s.rows, id, presented, workaround, fetched)
            && (t3.refreshes == s.refreshes + if Refreshes(s.rows, id, presented) then [id] else [])
  {
  }

  /** Whether the request goes to the provider at all. */
  predicate Refreshes(rows: Table, id: ClientId, presented: string) {
    && ValidateKey(presented).Some? && id in rows && rows[id].Live?
    && Open(ValidateKey(presented).value, rows[id].cipher).Some?
    && RefreshToken in Open(ValidateKey(presented).value, rows[id].cipher).value
  }

  /** How a handler that has its verdict, or its answer, ends on the given table. */
  predicate Served(cfg: Config, h: Handler, seen: Table, rows: Table, response: Response) {
    match h
    case Updating(id, _, record, result, row) =>
      rows == UpdateRow(seen, id, row) && response == Conclude(cfg, record, result).response
    case Answered(_, answer) => rows == seen && response == answer
    case _ => false
  }

  /** The refresh request it makes for a row it changes. */
  function RequestsMade(h: Handler, seen: Table): nat { if h.Updating? && h.id in seen then 1 else 0 }

  /** Write what the verdict says, if anything. */
  method WriteVerdict(db: TokenTable, id: ClientId, secret: string, write: Write)
    modifies db`rows, db.worker
    ensures db.rows == if write.Keep? then old(db.rows) else UpdateRow(old(db.rows), id, RowOf(secret, write))
    ensures Asked(db.worker, if !write.Keep? && id in old(db.rows) then 1 else 0)
  {
    match write {
      case Keep =>
      case Revoke => var _ := db.Update(id, Row.Revoked);
      case Store(modified) => var _ := db.Update(id, Live(Seal(secret, modified)));
    }
  }

  /** The refresh in the middle of `/token`. Other handlers write `elsewhere` meanwhile. */
  method Refresh(db: TokenTable, bucket: Bucket, cfg: Config, env: nat -> FetchModel.Round, start: real,
                 id: ClientId, secret: string, record: Body, elsewhere: seq<TableOp>)
    returns (response: Response)
    requires bucket.Valid() && bucket.capacity == cfg.budgetCapacity
    modifies db`rows, db.worker, bucket
    ensures bucket.Valid()
    ensures bucket.history == FetchModel.Run(cfg, env, FetchModel.Initially(start), old(bucket.history)).1
    ensures var fetched := FetchModel.Returned(FetchProperties.Fetched(cfg, env, start, old(bucket.history)));
            var h := AfterRefresh(cfg, Refreshing(id, secret, record), fetched);
            var seen := AfterOps(old(db.rows), elsewhere);
            && Served(cfg, h, seen, db.rows, response)
            && Asked(db.worker, Writes(old(db.rows), elsewhere) + RequestsMade(h, seen))
  {
    var fetched, _ := Fetch.Fetch(bucket, cfg, env, start);
    OtherHandlers(db, elsewhere);
    var verdict := ConcludeRefresh(cfg, record, fetched);
    WriteVerdict(db, id, secret, verdict.write);
    return verdict.response;
  }

  /** The caller is turned away: no such client, no secret, or a secret that does not name the
      key the row is sealed under. */
  predicate TurnedAway(rows: Table, id: ClientId, presented: string) {
    || id !in rows
    || !WellFormed(presented)
    || (rows[id].Live? && !Spells(presented, rows[id].cipher.key))
  }

  /** What an admitted caller gets without a refresh: the word on a null row, or a record that
      has no refresh token, as it is stored. */
  function AnswerAtOnce(row: Row, workaround: Option<Body>): Option<Response> {
    match row
    case Revoked => Some(if workaround.Some? then Success(workaround.value) else Failure(400, InvalidGrant, None))
    case Live(c) => if RefreshToken in c.plain then None else Some(Success(c.plain))
  }

  /** The first part of `token`: either the answer, or the record to refresh. */
  method Authenticate(cfg: Config, db: TokenTable, id: ClientId, presented: string, workaround: Option<Body>)
    returns (answer: Option<Response>, secret: string, record: Body)
    ensures TurnedAway(db.rows, id, presented) ==> answer == Some(Failure(401, InvalidClient, None))
    ensures !TurnedAway(db.rows, id, presented) ==> answer == AnswerAtOnce(db.rows[id], workaround)
    ensures answer.None? ==> Spells(presented, secret) && db.rows[id] == Live(Cipher(secret, record))
    ensures answer.None? <==> Refreshes(db.rows, id, presented)
    ensures forall fetched: Body ::
              Handled(cfg, db.rows, id, presented, workaround, fetched)
              == if answer.Some? then Grants.Answered(id, answer.value)
                 else AfterRefresh(cfg, Refreshing(id, secret, record), fetched)
  {
    secret, record := "", map[];
    ValidatedSpells(presented);
    if WellFormed(presented) && id in db.rows && db.rows[id].Live? {
      OpensBySpelling(presented, db.rows[id].cipher);
    }
    var key := ValidateKey(presented);
    if key.None? {
      return Some(UNKNOWN_CLIENT), secret, record;
    }
    secret := key.value;
    var row := db.Lookup(id);
    if row.None? {
      return Some(UNKNOWN_CLIENT), secret, record;
    }
    if row.value.Revoked? {
      var refusal := if workaround.Some? then Success(workaround.value) else ErrorResponse(InvalidGrant, Null);
      return Some(refusal), secret, record;
    }
    var plain := Open(secret, row.value.cipher);
    if plain.None? {
      return Some(UNKNOWN_CLIENT), secret, record;
    }
    record := plain.value;
    answer := if RefreshToken !in record then Some(Success(record)) else None;
  }

  /** `/token` from the presented credentials on. The method does exactly what the handler
      steps of the grant model do, draws on the budget only if it refreshes, and asks the
      worker for one refresh of the metrics for each row that was changed. */
  method Token(db: TokenTable, bucket: Bucket, cfg: Config, env: nat -> FetchModel.Round, start: real,
               id: ClientId, presented: string, workaround: Option<Body>, elsewhere: seq<TableOp>)
    returns (response: Response)
    requires bucket.Valid() && bucket.capacity == cfg.budgetCapacity
    modifies db`rows, db.worker, bucket
    ensures bucket.Valid()
    ensures bucket.history ==
              if Refreshes(old(db.rows), id, presented)
              then FetchModel.Run(cfg, env, FetchModel.Initially(start), old(bucket.history)).1
              else old(bucket.history)
    ensures var rows := old(db.rows);
            var atOnce := if TurnedAway(rows, id, presented) then Some(Failure(401, InvalidClient, None))
                          else AnswerAtOnce(rows[id], workaround);
            atOnce.Some? ==>
              && response == atOnce.value && db.rows == rows && Asked(db.worker, 0)
              && bucket.history == old(bucket.history)
    ensures var fetched := FetchModel.Returned(FetchProperties.Fetched(cfg, env, start, old(bucket.history)));
            var h := Handled(cfg, old(db.rows), id, presented, workaround, fetched);
            var others := if Refreshes(old(db.rows), id, presented) then elsewhere else [];
            var seen := AfterOps(old(db.rows), others);
            && Served(cfg, h, seen, db.rows, response)
            && Asked(db.worker, Writes(old(db.rows), others) + RequestsMade(h, seen))
  {
    var answer, secret, record := Authenticate(cfg, db, id, presented, workaround);
    if answer.Some? {
      return answer.value;
    }
    response := Refresh(db, bucket, cfg, env, start, id, secret, record, elsewhere);
  }

  // ----- /callback

  /** What is stored of a code exchange: all of it, or, with a refresh token, all but what a
      refresh brings anew. */
  predicate StoredAs(exchange: Body, record: Body) {
    if RefreshToken in exchange
    then record.Keys == exchange.Keys - {AccessToken, ExpiresIn, TokenType}
         && forall f :: f in record ==> record[f] == exchange[f]
    else record == exchange
  }

  /** `/callback` from the code exchange on, with a generated id and secret. Other handlers
      write `elsewhere` during the exchange. */
  method Callback(db: TokenTable, bucket: Bucket, cfg: Config, env: nat -> FetchModel.Round, start: real,
                  id: ClientId, secret: string, elsewhere: seq<TableOp>)
    returns (issued: bool)
    requires bucket.Valid() && bucket.capacity == cfg.budgetCapacity && IsKey(secret)
    modifies db`rows, db.worker, bucket
    ensures bucket.Valid()
    ensures bucket.history == FetchModel.Run(cfg, env, FetchModel.Initially(start), old(bucket.history)).1
    ensures Asked(db.worker, Writes(old(db.rows), elsewhere) + if issued then 1 else 0)
    ensures var exchange := FetchModel.Returned(FetchProperties.Fetched(cfg, env, start, old(bucket.history)));
            var seen := AfterOps(old(db.rows), elsewhere);
            && (issued <==> && Error !in exchange && id !in seen
                            && Truthy(Get(exchange, AccessToken)) && Truthy(Get(exchange, TokenType)))
            && (!issued ==> db.rows == seen)
            && (issued ==> exists record :: StoredAs(exchange, record)
                                            && db.rows == seen[id := Live(Cipher(secret, record))])
    ensures var exchange := FetchModel.Returned(FetchProperties.Fetched(cfg, env, start, old(bucket.history)));
            var record := ExchangeRecord(exchange);
            var seen := AfterOps(old(db.rows), elsewhere);
            db.rows == if record.Some? then InsertRow(seen, id, Seal(secret, record.value)) else seen
  {
    var result, _ := Fetch.Fetch(bucket, cfg, env, start);
    OtherHandlers(db, elsewhere);
    if Error in result || !ValidToken(result) {
      return false;
    }
    if RefreshToken in result {
      result := Scrub(result);
    }
    issued := db.Insert(id, Seal(secret, result));
  }
}
