/** What `/token` makes of the provider's final authoritative reply, field by field. */
module TokenAnswers {
  import opened Wrappers
  import opened Errors
  import opened JsonValues
  import opened Outcome
  import opened Buckets
  import opened FetchModel
  import opened FetchProperties
  import opened TokenEndpoint

  // ----- a token

  /** The provider's answer is a token. */
  predicate IsToken(body: Body) {
    Error !in body && Truthy(Get(body, AccessToken)) && Truthy(Get(body, TokenType))
  }

  /** The caller gets what the provider sent, but for the refresh token, and the scope on
      record if the provider named none. */
  predicate GivenOut(body: Body, record: Body, answer: Body) {
    && answer.Keys == body.Keys - {RefreshToken} + (if Scope in record then {Scope} else {})
    && (forall f :: f in body && f != RefreshToken ==> answer[f] == body[f])
    && (Scope in record && Scope !in body ==> answer[Scope] == record[Scope])
  }

  /** The record to keep: as it was, with the refresh token the provider sent, if it sent one,
      and without what a refresh brings anew. */
  predicate Renewed(body: Body, record: Body, next: Body) {
    && next.Keys == record.Keys - {AccessToken, ExpiresIn, TokenType}
                    + (if RefreshToken in body then {RefreshToken} else {})
    && (forall f :: f in next && f != RefreshToken ==> next[f] == record[f])
    && (RefreshToken in next ==> next[RefreshToken] == if RefreshToken in body then body[RefreshToken]
                                                       else Get(record, RefreshToken))
  }

  /** Over whole runs: a final token is given out, and the record is renewed if that changes it. */
  lemma TokenIsGivenOut(cfg: Config, env: nat -> Round, start: real, h: seq<Event>, record: Body)
    ensures var s := Fetched(cfg, env, start, h);
            !EndedTransiently(cfg, s) && IsToken(LastReply(s).body) ==>
              var v := Conclude(cfg, record, Returned(s));
              && v.response.Success? && GivenOut(LastReply(s).body, record, v.response.body)
              && match v.write
                 case Keep => Renewed(LastReply(s).body, record, record)
                 case Store(next) => next != record && Renewed(LastReply(s).body, record, next)
                 case Revoke => false
  {
    ReturnedBody(cfg, env, start, h);
    var s := Fetched(cfg, env, start, h);
    if !EndedTransiently(cfg, s) && IsToken(LastReply(s).body) {
      TokenConcluded(cfg, record, LastReply(s).body);
    }
  }

  lemma TokenConcluded(cfg: Config, record: Body, body: Body)
    requires IsToken(body)
    ensures var v := Conclude(cfg, record, body);
            && v.response.Success? && GivenOut(body, record, v.response.body)
            && match v.write
               case Keep => Renewed(body, record, record)
               case Store(next) => next != record && Renewed(body, record, next)
               case Revoke => false
  {
    var next := Rotated(record, body);
    assert Renewed(body, record, next);
  }

  // ----- an error

  /** What the error answer to an authoritative error body has to be. */
  predicate Reported(e: OAuthError, response: Response) {
    if e == TemporarilyUnavailable
    then response == SERVER_FAULT || (response.Failure? && response.status == 503 && response.error == e)
    else response == Failure(if e == InvalidClient then 401 else 400, e, None)
  }

  lemma ErrorConcluded(cfg: Config, record: Body, body: Body, e: OAuthError)
    requires 400 !in cfg.retryStatusCodes && Error in body
    requires Means(Str(body[Error]), e, ServerError, cfg.errorTypes)
    ensures var v := Conclude(cfg, record, body);
            v.write == (if e == InvalidGrant then Revoke else Keep) && Reported(e, v.response)
  {
    NormalizedMeans(Str(body[Error]), e, ServerError, cfg.errorTypes);
  }

  /** Over whole runs: the error the caller sees is what the provider's code means, with the
      status of its own; the row is nulled exactly for `invalid_grant`. */
  lemma ErrorIsReported(cfg: Config, env: nat -> Round, start: real, h: seq<Event>, record: Body, e: OAuthError)
    requires 400 !in cfg.retryStatusCodes
    ensures var s := Fetched(cfg, env, start, h);
            !EndedTransiently(cfg, s) && Error in LastReply(s).body
            && Means(Str(LastReply(s).body[Error]), e, ServerError, cfg.errorTypes) ==>
              var v := Conclude(cfg, record, Returned(s));
              v.write == (if e == InvalidGrant then Revoke else Keep) && Reported(e, v.response)
  {
    ReturnedBody(cfg, env, start, h);
    var s := Fetched(cfg, env, start, h);
    if !EndedTransiently(cfg, s) && Error in LastReply(s).body {
      NormalizedMeans(Str(LastReply(s).body[Error]), e, ServerError, cfg.errorTypes);
    }
  }

  /** So a code that is neither in the table nor standard keeps the row and is answered 400
      `server_error`. */
  lemma UnknownCodeIsServerError(cfg: Config, env: nat -> Round, start: real, h: seq<Event>, record: Body)
    requires 400 !in cfg.retryStatusCodes
    ensures var s := Fetched(cfg, env, start, h);
            !EndedTransiently(cfg, s) && Error in LastReply(s).body
            && Str(LastReply(s).body[Error]) !in cfg.errorTypes
            && (forall e :: e in TOKEN_ERRORS ==> Code(e) != Str(LastReply(s).body[Error])) ==>
              Conclude(cfg, record, Returned(s)) == Verdict(Keep, Failure(400, ServerError, None))
  {
    ErrorIsReported(cfg, env, start, h, record, ServerError);
  }

  /** A reply that is neither an error nor a token is answered 400 `invalid_request`. */
  lemma NeitherIsInvalid(cfg: Config, env: nat -> Round, start: real, h: seq<Event>, record: Body)
    ensures var s := Fetched(cfg, env, start, h);
            !EndedTransiently(cfg, s) && Error !in LastReply(s).body && !IsToken(LastReply(s).body) ==>
              Conclude(cfg, record, Returned(s)) == Verdict(Keep, Failure(400, InvalidRequest, None))
  {
    ReturnedBody(cfg, env, start, h);
  }
}
