/** What `/token` makes of a stored record and the outcome of its refresh (views.py,
    error_handler in oauth/_core.py), and the whole path from provider to caller. */
module TokenEndpoint {
  import opened Wrappers
  import opened Errors
  import opened JsonValues
  import opened Outcome
  import opened Buckets
  import opened FetchModel
  import opened FetchInvariants
  import opened FetchProperties

  /** What the handler does to the row: nothing, null it, or store a new record. */
  datatype Write = Keep | Revoke | Store(record: Body)

  /** An HTTP answer. `retryAfter` is the number in the Retry-After header. */
  datatype Response =
    | Success(body: Body)
    | Failure(status: int, error: OAuthError, retryAfter: Option<int>)

  datatype Verdict = Verdict(write: Write, response: Response)

  function HttpStatus(e: OAuthError): int {
    if e == InvalidClient then 401 else if e == TemporarilyUnavailable then 503 else 400
  }

  /** `fallback_error_handler`, for any other exception. */
  const SERVER_FAULT: Response := Failure(500, ServerError, None)

  /** `error_handler`: only a 503 carries Retry-After, and only when a value was given. The
      handler raises when that value is not one `int` takes. */
  function ErrorResponse(e: OAuthError, retryAfter: Json): Response {
    if e == TemporarilyUnavailable && retryAfter != Null then
      match IntOf(retryAfter)
      case Some(n) => Failure(HttpStatus(e), e, Some(n))
      case None => SERVER_FAULT
    else Failure(HttpStatus(e), e, None)
  }

  const SCRUBBED: set<Field> := {AccessToken, ExpiresIn, TokenType}

  /** `scrub_refresh_token`. */
  function Scrub(token: Body): Body { token - SCRUBBED }

  /** A record as stored, with the refresh token the provider sent, if it sent one. */
  function Rotated(record: Body, result: Body): Body {
    if RefreshToken in result then Scrub(record)[RefreshToken := result[RefreshToken]] else Scrub(record)
  }

  /** Everything after the refresh: `record` is the decrypted snapshot, `result` what
      `fetch` returned. The real status is gone by now; an `error` key stands in for it. */
  function Conclude(cfg: Config, record: Body, result: Body): Verdict {
    var outcome := Classify(Some(if Error in result then 400 else 200), result, cfg.retryStatusCodes, cfg.errorTypes);
    if Error in result then
      Verdict(if outcome.invalidateRefreshToken then Revoke else Keep,
              ErrorResponse(outcome.normalizedError.GetOr(ServerError), Get(result, RetryAfter)))
    else if !ValidToken(result) then
      Verdict(Keep, ErrorResponse(InvalidRequest, Null))
    else
      var answer := if Scope !in result && Scope in record then result[Scope := record[Scope]] else result;
      Verdict(if record != Rotated(record, result) then Store(Rotated(record, result)) else Keep,
              Success(answer - {RefreshToken}))
  }

  function NormalizedTokenError(cfg: Config, code: string): OAuthError {
    NormalizeError(code, TOKEN_ERRORS, ServerError, cfg.errorTypes)
  }

  /** The error that `token` reports for an error body. */
  function ReportedError(cfg: Config, code: string): OAuthError {
    if 400 in cfg.retryStatusCodes then TemporarilyUnavailable else NormalizedTokenError(cfg, code)
  }

  /** An answer in terms of the standard: the caller sees only error codes the token endpoint
      may return, each with its own status, and a refresh token never leaves the bridge. */
  predicate Standard(response: Response) {
    match response
    case Failure(status, error, retryAfter) =>
      && error in TOKEN_ERRORS && status == HttpStatus(error) && status in {400, 401, 503}
      && (retryAfter.Some? ==> status == 503)
    case Success(body) => RefreshToken !in body && ValidToken(body)
  }

  /** The provider's own `retry_after` would become the header, and `int` does not take it. */
  predicate UnreadableRetryAfter(cfg: Config, result: Body) {
    && Error in result && ReportedError(cfg, Str(result[Error])) == TemporarilyUnavailable
    && Get(result, RetryAfter) != Null && IntOf(Get(result, RetryAfter)).None?
  }

  /** Answers are standard exactly when no such header is due; then the answer is a 500, and
      the row is left alone. */
  lemma AnswersAreStandardExactly(cfg: Config, record: Body, result: Body)
    ensures Standard(Conclude(cfg, record, result).response) <==> !UnreadableRetryAfter(cfg, result)
    ensures UnreadableRetryAfter(cfg, result) ==> Conclude(cfg, record, result) == Verdict(Keep, SERVER_FAULT)
  {
    if UnreadableRetryAfter(cfg, result) {
      assert Conclude(cfg, record, result) == Verdict(Keep, SERVER_FAULT);
    }
  }

  /** With a scrubbed record, a successful refresh writes exactly when the provider sent a
      different refresh token, and then changes nothing else. */
  lemma WritesOnlyRotations(cfg: Config, record: Body, result: Body)
    requires RefreshToken in record && record.Keys !! SCRUBBED
    ensures Conclude(cfg, record, result).write.Store? <==>
            Error !in result && ValidToken(result)
            && RefreshToken in result && result[RefreshToken] != record[RefreshToken]
    ensures Conclude(cfg, record, result).write.Store? ==>
              Conclude(cfg, record, result).write.record == record[RefreshToken := result[RefreshToken]]
    ensures Conclude(cfg, record, result).write.Revoke? <==>
            && 400 !in cfg.retryStatusCodes && Error in result
            && NormalizedTokenError(cfg, Str(result[Error])) == InvalidGrant
  {
    assert Scrub(record) == record;
    if RefreshToken in result {
      assert record == record[RefreshToken := result[RefreshToken]] <==> record[RefreshToken] == result[RefreshToken];
    } else {
      assert Rotated(record, result) == record;
    }
  }

  // ----- from the provider's replies to the row and the answer

  function LastReply(s: State): Reply
    requires s.log.sends != []
  {
    s.log.sends[|s.log.sends| - 1].reply
  }

  /** The fetch ended without an authoritative reply. */
  predicate EndedTransiently(cfg: Config, s: State) {
    s.log.sends == [] || Retryable(cfg, LastReply(s))
  }

  /** What `fetch` returns, by its final reply. */
  lemma ReturnedBody(cfg: Config, env: nat -> Round, start: real, h: seq<Event>)
    ensures var s := Fetched(cfg, env, start, h);
            var kept := if s.log.sends == [] then UNKNOWN_FAILURE else KeptBody(cfg, LastReply(s));
            var retryAfter := if s.log.sends == [] then 0 else LastReply(s).retryAfter;
            Returned(s) == if Error in kept && retryAfter > 0 then kept[RetryAfter := Number(retryAfter)] else kept
  {
    FetchedInv(cfg, env, start, h);
  }

  /** Over whole runs: only a body the provider sent with its final, authoritative reply, and
      without a Retry-After of its own, can make the answer anything but standard. */
  lemma RunsAnswerStandardExactly(cfg: Config, env: nat -> Round, start: real, h: seq<Event>, record: Body)
    ensures var s := Fetched(cfg, env, start, h);
            Standard(Conclude(cfg, record, Returned(s)).response) <==>
              EndedTransiently(cfg, s) || LastReply(s).retryAfter > 0 || !UnreadableRetryAfter(cfg, LastReply(s).body)
  {
    ReturnedBody(cfg, env, start, h);
    AnswersAreStandardExactly(cfg, record, Returned(Fetched(cfg, env, start, h)));
  }

  /** What the final reply has to say about Retry-After: its own header, or else, if the
      provider's body is passed on, the integer in that body. */
  function ProviderRetryAfter(cfg: Config, reply: Reply): Option<int> {
    if reply.retryAfter > 0 then Some(reply.retryAfter)
    else if Retryable(cfg, reply) then None
    else IntOf(Get(reply.body, RetryAfter))
  }

  /** Over whole runs: an answer carries that value as Retry-After if it is a 503 and none
      otherwise, and a final authoritative reply reported as `temporarily_unavailable` gives
      a 503 unless its value cannot be read. */
  lemma RetryAfterHeader(cfg: Config, env: nat -> Round, start: real, h: seq<Event>, record: Body)
    ensures var s := Fetched(cfg, env, start, h);
            match Conclude(cfg, record, Returned(s)).response
            case Failure(status, _, header) =>
              header == if status == 503 && s.log.sends != [] then ProviderRetryAfter(cfg, LastReply(s)) else None
            case Success(_) => true
    ensures var s := Fetched(cfg, env, start, h);
            !EndedTransiently(cfg, s) && Error in LastReply(s).body
            && ReportedError(cfg, Str(LastReply(s).body[Error])) == TemporarilyUnavailable ==>
              Conclude(cfg, record, Returned(s)).response
              == if LastReply(s).retryAfter == 0 && UnreadableRetryAfter(cfg, LastReply(s).body)
                 then SERVER_FAULT
                 else Failure(503, TemporarilyUnavailable, ProviderRetryAfter(cfg, LastReply(s)))
  {
    ReturnedBody(cfg, env, start, h);
  }

  /** An authoritative first reply is what the fetch ends with. */
  lemma FirstReplyStands(cfg: Config, reply: Reply, h: seq<Event>)
    requires cfg.totalRetries >= 0 && cfg.totalTimeout > 0.0 && !Retryable(cfg, reply)
    ensures var s := Fetched(cfg, ConstantProvider(reply), 0.0, h);
            !EndedTransiently(cfg, s) && LastReply(s) == reply
  {
    InitiallyInv(cfg, 0.0);
    var s1, h1 := Advance(cfg, ConstantProvider(reply), Initially(0.0), h);
    var s2, h2 := Advance(cfg, ConstantProvider(reply), s1, h1);
    assert s2.phase.Sending? && s2.remaining == cfg.totalTimeout;
    var s3, _ := Advance(cfg, ConstantProvider(reply), s2, h2);
    assert s3.phase.Finished? && s3.log.sends[|s3.log.sends| - 1].reply == reply;
  }

  const NOT_SOON: Body := map[Error := Text(Code(TemporarilyUnavailable)), RetryAfter := Text("soon")]

  /** An ordinary JSON body that turns a refresh into an internal server error. */
  lemma SoonIsNoRetryAfter(cfg: Config, h: seq<Event>, record: Body)
    requires cfg.totalRetries >= 0 && cfg.totalTimeout > 0.0
    requires 400 !in cfg.retryStatusCodes && Code(TemporarilyUnavailable) !in cfg.errorTypes
    ensures Conclude(cfg, record, Returned(Fetched(cfg, ConstantProvider(Reply(Some(400), NOT_SOON, 0)), 0.0, h)))
            == Verdict(Keep, SERVER_FAULT)
  {
    var reply := Reply(Some(400), NOT_SOON, 0);
    StandardErrorsSurvive(TemporarilyUnavailable, ServerError, cfg.errorTypes);
    NotAnInteger();
    FirstReplyStands(cfg, reply, h);
    ReturnedBody(cfg, ConstantProvider(reply), 0.0, h);
    AnswersAreStandardExactly(cfg, record, NOT_SOON);
  }

  lemma NotAnInteger()
    ensures IntOf(Text("soon")) == None
  {
    assert "soon"[0] == 's' && "soon"[3] == 'n';
  }

  /** No setting turns the bridge's own transient errors into a verdict on the grant. */
  predicate TransientErrorsSpare(cfg: Config) {
    400 in cfg.retryStatusCodes
    || (NormalizedTokenError(cfg, Code(TemporarilyUnavailable)) != InvalidGrant
        && NormalizedTokenError(cfg, Code(ServerError)) != InvalidGrant)
  }

  /** An error table that leaves the standard codes alone is such a setting. */
  lemma StandardCodesAreSafe(cfg: Config)
    requires forall e :: e in TOKEN_ERRORS ==> Code(e) !in cfg.errorTypes
    ensures TransientErrorsSpare(cfg)
    ensures forall e :: e in TOKEN_ERRORS ==> NormalizedTokenError(cfg, Code(e)) == e
  {
    forall e | e in TOKEN_ERRORS ensures NormalizedTokenError(cfg, Code(e)) == e {
      StandardErrorsSurvive(e, ServerError, cfg.errorTypes);
    }
    assert NormalizedTokenError(cfg, Code(TemporarilyUnavailable)) == TemporarilyUnavailable;
    assert NormalizedTokenError(cfg, Code(ServerError)) == ServerError;
  }

  /** `/token` nulls the row exactly when the final reply was authoritative and carried an
      error that normalises to `invalid_grant`, whatever its HTTP status. */
  lemma InvalidationExact(cfg: Config, env: nat -> Round, start: real, h: seq<Event>, record: Body)
    requires TransientErrorsSpare(cfg)
    ensures var s := Fetched(cfg, env, start, h);
            Conclude(cfg, record, Returned(s)).write == Revoke <==>
            && 400 !in cfg.retryStatusCodes
            && !EndedTransiently(cfg, s)
            && Error in LastReply(s).body
            && NormalizedTokenError(cfg, Str(LastReply(s).body[Error])) == InvalidGrant
  {
    ReturnedBody(cfg, env, start, h);
  }

  /** In particular a final 400 with `invalid_grant` nulls the row, and so does a 200 or a
      500 with that error: the documentation promises only the 400. */
  lemma AnyFinalInvalidGrantInvalidates(cfg: Config, env: nat -> Round, start: real, h: seq<Event>, record: Body)
    requires 400 !in cfg.retryStatusCodes && Code(InvalidGrant) !in cfg.errorTypes
    ensures var s := Fetched(cfg, env, start, h);
            !EndedTransiently(cfg, s) && Get(LastReply(s).body, Error) == Text(Code(InvalidGrant)) ==>
              Conclude(cfg, record, Returned(s)) == Verdict(Revoke, Failure(400, InvalidGrant, None))
  {
    ReturnedBody(cfg, env, start, h);
    CodeParses(InvalidGrant);
  }

  /** A provider that refuses with a 200 costs the client its grant. */
  lemma FinalSuccessStatusInvalidates(cfg: Config, h: seq<Event>, record: Body)
    requires cfg.totalRetries >= 0 && cfg.totalTimeout > 0.0
    requires 200 !in cfg.retryStatusCodes && 400 !in cfg.retryStatusCodes && Code(InvalidGrant) !in cfg.errorTypes
    ensures var reply := Reply(Some(200), map[Error := Text(Code(InvalidGrant))], 0);
            Conclude(cfg, record, Returned(Fetched(cfg, ConstantProvider(reply), 0.0, h)))
            == Verdict(Revoke, Failure(400, InvalidGrant, None))
  {
    var reply := Reply(Some(200), map[Error := Text(Code(InvalidGrant))], 0);
    FirstReplyStands(cfg, reply, h);
    AnyFinalInvalidGrantInvalidates(cfg, ConstantProvider(reply), 0.0, h, record);
  }

  /** If the final reply was retryable the caller gets 503 `temporarily_unavailable`, with
      Retry-After exactly when the provider's was positive, and the row is untouched. */
  lemma RetryableEndsIn503(cfg: Config, env: nat -> Round, start: real, h: seq<Event>, record: Body)
    ensures var s := Fetched(cfg, env, start, h);
            s.log.sends != [] && Retryable(cfg, LastReply(s)) ==>
              var n := LastReply(s).retryAfter;
              (Conclude(cfg, record, Returned(s))
                 == Verdict(Keep, Failure(503, TemporarilyUnavailable, if n > 0 then Some(n) else None))
               <==> 400 in cfg.retryStatusCodes
                    || NormalizedTokenError(cfg, Code(TemporarilyUnavailable)) == TemporarilyUnavailable)
  {
    ReturnedBody(cfg, env, start, h);
  }

  // ----- exactly which settings keep tokens through transient failures

  /** Whatever the provider, the clock and the budget do, a fetch that ends without an
      authoritative reply leaves the row alone. */
  ghost predicate TransientFailuresSpare(cfg: Config) {
    forall env: nat -> Round, start: real, h: seq<Event>, record: Body ::
      EndedTransiently(cfg, Fetched(cfg, env, start, h))
      ==> Conclude(cfg, record, Returned(Fetched(cfg, env, start, h))).write != Revoke
  }

  /** A first reading of the clock that comes too late to send anything. */
  function StalledWorld(cfg: Config): nat -> Round {
    var late: Duration := if cfg.totalTimeout > 0.0 then cfg.totalTimeout else 0.0;
    i => Round(late, [], 0.0, 0.0, 0.0, Reply(None, map[], 0))
  }

  lemma StalledSendsNothing(cfg: Config, h: seq<Event>)
    ensures Fetched(cfg, StalledWorld(cfg), 0.0, h).log.sends == []
  {
    var env := StalledWorld(cfg);
    InitiallyInv(cfg, 0.0);
    var s1, h1 := Advance(cfg, env, Initially(0.0), h);
    var s2, h2 := Advance(cfg, env, s1, h1);
    if s2.phase.Sending? {
      var s3, _ := Advance(cfg, env, s2, h2);
      assert s3.phase.Finished?;
    }
  }

  lemma DeadProviderEndsTransiently(cfg: Config, h: seq<Event>)
    requires cfg.totalRetries >= 0 && cfg.totalTimeout > 0.0
    ensures var s := Fetched(cfg, DeadProvider(), 0.0, h);
            s.log.sends != [] && Retryable(cfg, LastReply(s))
  {
    var env := DeadProvider();
    InitiallyInv(cfg, 0.0);
    var s1, h1 := Advance(cfg, env, Initially(0.0), h);
    var s2, h2 := Advance(cfg, env, s1, h1);
    assert s2.phase.Sending? && s2.remaining == cfg.totalTimeout;
    var s3, h3 := Advance(cfg, env, s2, h2);
    assert s3.log.sends != [] && RepliesFrom(env, s3.log.sends);
    AllRepliesFrom(cfg, env, s3, h3);
  }

  predicate RepliesFrom(env: nat -> Round, sends: seq<Send>) {
    forall k :: 0 <= k < |sends| ==> sends[k].reply == env(k).reply
  }

  lemma StepRepliesFrom(env: nat -> Round, s: State, t: State)
    requires Grows(s, t, env(s.i)) && RepliesFrom(env, s.log.sends)
    ensures RepliesFrom(env, t.log.sends)
  {
    forall k | 0 <= k < |t.log.sends| ensures t.log.sends[k].reply == env(k).reply {
      if k < |s.log.sends| { assert s.log.sends[k] == t.log.sends[k]; }
    }
  }

  /** Every reply of a run was given by the world. */
  lemma {:induction false} AllRepliesFrom(cfg: Config, env: nat -> Round, s: State, h: seq<Event>)
    requires Inv(cfg, s) && RepliesFrom(env, s.log.sends)
    ensures var t := Run(cfg, env, s, h).0;
            |s.log.sends| <= |t.log.sends| && RepliesFrom(env, t.log.sends)
    decreases PassesLeft(cfg, s), Rank(s.phase)
  {
    if !s.phase.Finished? {
      var t, after := Advance(cfg, env, s, h);
      StepRepliesFrom(env, s, t);
      AllRepliesFrom(cfg, env, t, after);
    }
  }

  /** Where a transient ending can cost a token, the settings themselves say so. */
  lemma TransientRevocation(cfg: Config, env: nat -> Round, start: real, h: seq<Event>, record: Body)
    requires EndedTransiently(cfg, Fetched(cfg, env, start, h))
    ensures var s := Fetched(cfg, env, start, h);
            var code := Code(if s.log.sends == [] then ServerError else TemporarilyUnavailable);
            Conclude(cfg, record, Returned(s)).write == Revoke <==>
              400 !in cfg.retryStatusCodes && NormalizedTokenError(cfg, code) == InvalidGrant
    ensures Fetched(cfg, env, start, h).log.sends != [] ==> cfg.totalRetries >= 0 && cfg.totalTimeout > 0.0
  {
    ReturnedBody(cfg, env, start, h);
    FetchedInv(cfg, env, start, h);
  }

  /** No live token is lost to a transient failure, exactly under these settings. */
  lemma TransientFailuresSpareExactly(cfg: Config)
    ensures TransientFailuresSpare(cfg) <==>
            400 in cfg.retryStatusCodes
            || (&& NormalizedTokenError(cfg, Code(ServerError)) != InvalidGrant
                && (cfg.totalRetries < 0 || cfg.totalTimeout <= 0.0
                    || NormalizedTokenError(cfg, Code(TemporarilyUnavailable)) != InvalidGrant))
  {
    forall env: nat -> Round, start: real, h: seq<Event>, record: Body
      | EndedTransiently(cfg, Fetched(cfg, env, start, h))
         && Conclude(cfg, record, Returned(Fetched(cfg, env, start, h))).write == Revoke
      ensures var s := Fetched(cfg, env, start, h);
              && 400 !in cfg.retryStatusCodes
              && NormalizedTokenError(cfg, Code(if s.log.sends == [] then ServerError else TemporarilyUnavailable))
                 == InvalidGrant
              && (s.log.sends != [] ==> cfg.totalRetries >= 0 && cfg.totalTimeout > 0.0)
    {
      TransientRevocation(cfg, env, start, h, record);
    }
    StalledSendsNothing(cfg, []);
    TransientRevocation(cfg, StalledWorld(cfg), 0.0, [], map[]);
    if cfg.totalRetries >= 0 && cfg.totalTimeout > 0.0 {
      DeadProviderEndsTransiently(cfg, []);
      TransientRevocation(cfg, DeadProvider(), 0.0, [], map[]);
    }
  }
}
