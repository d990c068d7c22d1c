/**
 * Form bodies and URL queries built with `new URLSearchParams({...})` from an object literal:
 * one value per field name. The names the OAuth 2.0 requests use (RFC 6749, sections 4.1,
 * 4.4 and 6, and the PKCE parameters of RFC 7636, section 4.3) are the constructors of `Field`.
 */
module Forms {

  datatype Field =
    | ResponseType | ClientId | ClientSecret | RedirectUri | Scope | State
    | CodeChallenge | CodeChallengeMethod | CodeVerifier | GrantType | Code | RefreshToken

  /** The name a field has on the wire. */
  function FieldName(f: Field): string {
    match f
    case ResponseType => "response_type"
    case ClientId => "client_id"
    case ClientSecret => "client_secret"
    case RedirectUri => "redirect_uri"
    case Scope => "scope"
    case State => "state"
    case CodeChallenge => "code_challenge"
    case CodeChallengeMethod => "code_challenge_method"
    case CodeVerifier => "code_verifier"
    case GrantType => "grant_type"
    case Code => "code"
    case RefreshToken => "refresh_token"
  }

  type Form = map<Field, string>
}
