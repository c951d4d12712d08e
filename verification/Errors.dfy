/** The closed set of OAuth error codes (errors.py). */
module Errors {
  import opened Wrappers

  datatype OAuthError =
    | AccessDenied
    | InvalidClient
    | InvalidGrant
    | InvalidRequest
    | InvalidScope
    | InvalidState
    | InvalidResponse
    | ServerError
    | TemporarilyUnavailable
    | UnauthorizedClient
    | UnsupportedGrantType
    | UnsupportedResponseType

  /** The code as it travels on the wire: the enum member's value. */
  function Code(e: OAuthError): string {
    match e
    case AccessDenied => "access_denied"
    case InvalidClient => "invalid_client"
    case InvalidGrant => "invalid_grant"
    case InvalidRequest => "invalid_request"
    case InvalidScope => "invalid_scope"
    case InvalidState => "invalid_state"
    case InvalidResponse => "invalid_response"
    case ServerError => "server_error"
    case TemporarilyUnavailable => "temporarily_unavailable"
    case UnauthorizedClient => "unauthorized_client"
    case UnsupportedGrantType => "unsupported_grant_type"
    case UnsupportedResponseType => "unsupported_response_type"
  }

  /** `OAuthError(code)` when `code in OAuthError`. */
  function FromCode(code: string): Option<OAuthError> {
    if code == "access_denied" then Some(AccessDenied)
    else if code == "invalid_client" then Some(InvalidClient)
    else if code == "invalid_grant" then Some(InvalidGrant)
    else if code == "invalid_request" then Some(InvalidRequest)
    else if code == "invalid_scope" then Some(InvalidScope)
    else if code == "invalid_state" then Some(InvalidState)
    else if code == "invalid_response" then Some(InvalidResponse)
    else if code == "server_error" then Some(ServerError)
    else if code == "temporarily_unavailable" then Some(TemporarilyUnavailable)
    else if code == "unauthorized_client" then Some(UnauthorizedClient)
    else if code == "unsupported_grant_type" then Some(UnsupportedGrantType)
    else if code == "unsupported_response_type" then Some(UnsupportedResponseType)
    else None
  }

  /** Four codes have thirteen characters; every other pair differs in length. */
  lemma SameLengthCodesDiffer()
    ensures "access_denied" != "invalid_grant" && "access_denied" != "invalid_scope"
    ensures "access_denied" != "invalid_state" && "invalid_grant" != "invalid_scope"
    ensures "invalid_grant" != "invalid_state" && "invalid_scope" != "invalid_state"
  {
    assert "access_denied"[0] == 'a' && "invalid_grant"[0] == 'i';
    assert "invalid_scope"[0] == 'i' && "invalid_state"[0] == 'i';
    assert "invalid_grant"[8] == 'g' && "invalid_scope"[8] == 's' && "invalid_state"[8] == 's';
    assert "invalid_scope"[9] == 'c' && "invalid_state"[9] == 't';
  }

  /** Every code parses back to its own error. */
  lemma CodeParses(e: OAuthError)
    ensures FromCode(Code(e)) == Some(e)
  {
    SameLengthCodesDiffer();
    var n := |Code(e)|;
    match e
    case AccessDenied => assert n == 13;
    case InvalidClient => assert n == 14;
    case InvalidGrant => assert n == 13;
    case InvalidRequest => assert n == 15;
    case InvalidScope => assert n == 13;
    case InvalidState => assert n == 13;
    case InvalidResponse => assert n == 16;
    case ServerError => assert n == 12;
    case TemporarilyUnavailable => assert n == 23;
    case UnauthorizedClient => assert n == 19;
    case UnsupportedGrantType => assert n == 22;
    case UnsupportedResponseType => assert n == 25;
  }

  /** Parsing and printing a code are inverse, so no two errors share a code. */
  lemma CodeRoundTrip(e: OAuthError, code: string)
    ensures FromCode(code) == Some(e) <==> code == Code(e)
  {
    CodeParses(e);
  }

  /** So parsing finds the one error with that code, or none. */
  lemma ParsedExactly(code: string)
    ensures match FromCode(code)
            case Some(e) => forall other :: Code(other) == code <==> other == e
            case None => forall other :: Code(other) != code
  {
    forall other: OAuthError ensures FromCode(code) == Some(other) <==> code == Code(other) {
      CodeRoundTrip(other, code);
    }
  }
}
