/** Classification of token endpoint responses (oauth/_outcome.py, oauth/_retry.py). */
module Outcome {
  import opened Wrappers
  import opened Errors
  import opened JsonValues

  /** The keys the bridge names; `Extra` is any other key. */
  datatype Field =
    | Error
    | ErrorDescription
    | ErrorUri
    | RetryAfter
    | AccessToken
    | TokenType
    | ExpiresIn
    | RefreshToken
    | Scope
    | Extra(name: string)

  type Body = map<Field, Json>

  function Get(body: Body, f: Field): Json {
    if f in body then body[f] else Null
  }

  /** An error as a response body; a falsy description means the standard one. */
  function ErrorJson(e: OAuthError, description: Json): Body {
    map[Error := Text(Code(e)), ErrorDescription := if Truthy(description) then description else BridgeText]
  }

  const TOKEN_ERRORS: set<OAuthError> :=
    {InvalidRequest, InvalidClient, InvalidGrant, UnauthorizedClient, UnsupportedGrantType,
     InvalidScope, ServerError, TemporarilyUnavailable}

  datatype RetryReason = Unavailable | ResourceExhausted | DeadlineExceeded | Unknown

  function RetryReasonForStatus(status: int): RetryReason {
    if status == 429 then ResourceExhausted
    else if status in {502, 503, 504} then Unavailable
    else Unknown
  }

  function NormalizeError(code: string, allowed: set<OAuthError>, fallback: OAuthError,
                          errorTypes: map<string, OAuthError>): OAuthError {
    var error := if code in errorTypes then errorTypes[code] else FromCode(code).GetOr(fallback);
    if error in allowed then error else fallback
  }

  predicate ValidToken(body: Body) {
    Truthy(Get(body, AccessToken)) && Truthy(Get(body, TokenType))
  }

  predicate IsSuccess(status: int) { 200 <= status < 300 }

  datatype TokenEndpointOutcome = TokenEndpointOutcome(
    retryable: bool,
    normalizedError: Option<OAuthError>,
    invalidateRefreshToken: bool,
    retryReason: Option<RetryReason>)

  /** What an outcome can say, whatever the provider sent: the status alone decides
      retryability and its reason, a retryable outcome always carries an error, every error
      is one the token endpoint may return, and only a final 400 whose error normalises to
      `invalid_grant` invalidates the refresh token. */
  function Classify(status: Option<int>, body: Body, retryStatusCodes: set<int>,
                    errorTypes: map<string, OAuthError>): (o: TokenEndpointOutcome)
    ensures o.retryable <==> status.None? || status.value in retryStatusCodes
    ensures o.retryable <==> o.retryReason.Some?
    ensures o.retryable ==> o.normalizedError == Some(TemporarilyUnavailable)
    ensures o.normalizedError.Some? ==> o.normalizedError.value in TOKEN_ERRORS
    ensures o.invalidateRefreshToken <==>
            status == Some(400) && 400 !in retryStatusCodes && Error in body
            && NormalizeError(Str(body[Error]), TOKEN_ERRORS, ServerError, errorTypes) == InvalidGrant
  {
    if status.None? then
      TokenEndpointOutcome(true, Some(TemporarilyUnavailable), false, Some(Unavailable))
    else if status.value in retryStatusCodes then
      TokenEndpointOutcome(true, Some(TemporarilyUnavailable), false, Some(RetryReasonForStatus(status.value)))
    else if IsSuccess(status.value) && ValidToken(body) then
      TokenEndpointOutcome(false, None, false, None)
    else if IsSuccess(status.value) then
      var code := if Error in body then Str(body[Error]) else Code(InvalidRequest);
      TokenEndpointOutcome(false, Some(NormalizeError(code, TOKEN_ERRORS, InvalidRequest, errorTypes)), false, None)
    else
      var normalized :=
        if Error in body
        then Some(NormalizeError(Str(body[Error]), TOKEN_ERRORS, ServerError, errorTypes))
        else None;
      TokenEndpointOutcome(false, normalized, status == Some(400) && normalized == Some(InvalidGrant), None)
  }

  /** The rest of an outcome, status by status: the reason to retry, and when there is no error. */
  lemma OutcomeByStatus(status: Option<int>, body: Body, retryStatusCodes: set<int>,
                        errorTypes: map<string, OAuthError>)
    ensures var o := Classify(status, body, retryStatusCodes, errorTypes);
            && (o.retryable ==> o.retryReason == Some(if status == Some(429) then ResourceExhausted
                                                      else if status.None? || 502 <= status.value <= 504
                                                      then Unavailable else Unknown))
            && (o.normalizedError.None? <==>
                  !o.retryable && if 200 <= status.value < 300 then ValidToken(body) else Error !in body)
  {
  }

  /** With a table that remaps no standard code, every standard token error survives normalisation. */
  lemma StandardErrorsSurvive(e: OAuthError, fallback: OAuthError, errorTypes: map<string, OAuthError>)
    requires e in TOKEN_ERRORS && Code(e) !in errorTypes
    ensures NormalizeError(Code(e), TOKEN_ERRORS, fallback, errorTypes) == e
  {
    CodeRoundTrip(e, Code(e));
  }

  /** What a code is taken to mean: its entry in the error table if it has one, or else its own
      meaning, as far as that is a token error; any other code means the fallback. */
  predicate Means(code: string, e: OAuthError, fallback: OAuthError, errorTypes: map<string, OAuthError>) {
    if code in errorTypes then e == if errorTypes[code] in TOKEN_ERRORS then errorTypes[code] else fallback
    else (e in TOKEN_ERRORS && Code(e) == code)
         || (e == fallback && forall standard :: standard in TOKEN_ERRORS ==> Code(standard) != code)
  }

  /** The case of a code that is not in the table, for any way of writing errors. */
  lemma ParsedMeans(written: OAuthError -> string, code: string, parsed: Option<OAuthError>,
                    e: OAuthError, fallback: OAuthError)
    requires match parsed
             case Some(p) => forall other :: written(other) == code <==> other == p
             case None => forall other :: written(other) != code
    ensures var error := parsed.GetOr(fallback);
            (if error in TOKEN_ERRORS then error else fallback) == e <==>
              || (e in TOKEN_ERRORS && written(e) == code)
              || (e == fallback && forall standard :: standard in TOKEN_ERRORS ==> written(standard) != code)
  {
  }

  /** Normalisation finds the one meaning of every code. */
  lemma NormalizedMeans(code: string, e: OAuthError, fallback: OAuthError, errorTypes: map<string, OAuthError>)
    ensures NormalizeError(code, TOKEN_ERRORS, fallback, errorTypes) == e <==> Means(code, e, fallback, errorTypes)
  {
    if code !in errorTypes {
      ParsedExactly(code);
      ParsedMeans(Code, code, FromCode(code), e, fallback);
    }
  }
}
