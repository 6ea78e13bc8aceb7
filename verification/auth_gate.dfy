/**
 * The bearer-token middleware that runs before every handler on /mcp.
 * Inputs: the optional `Authorization` header and the optional configured
 * secret (the MCP_AUTH_TOKEN environment variable).
 */
module AuthGate {
  import opened Protocol

  const BearerPrefix: string := "Bearer "
  const TokenRequiredMessage: string := "Unauthorized: Bearer token required"
  const InvalidTokenMessage: string := "Unauthorized: Invalid token"

  /** Either hand the request on (`await next()`) or answer 401 with `body`. */
  datatype AuthOutcome = Proceed | Reject(body: ErrorResponse)

  /** `header.startsWith('Bearer ')` */
  predicate HasBearerPrefix(header: string) {
    |header| >= |BearerPrefix| && header[..|BearerPrefix|] == BearerPrefix
  }

  /** `!expectedToken`: an absent secret and an empty one both switch checking off. */
  predicate AuthDisabled(secret: Option<string>) {
    secret.None? || secret.value == ""
  }

  /** The header a client sends to present `token`. */
  function BearerHeader(token: string): string {
    BearerPrefix + token
  }

  /**
   * The middleware's decision, in the order the middleware makes it: the
   * header is inspected first and the secret only afterwards.
   */
  function Check(header: Option<string>, secret: Option<string>): (r: AuthOutcome)
    ensures header.None? || !HasBearerPrefix(header.value) ==>
              r == Reject(ServerError(UnauthorizedCode, TokenRequiredMessage))
    ensures r.Proceed? ==> header.Some? && HasBearerPrefix(header.value)
    ensures r.Reject? ==> WellFormedError(r.body) && r.body.error.code == UnauthorizedCode
    ensures r.Reject? && header.Some? && HasBearerPrefix(header.value) ==>
              !AuthDisabled(secret) && r.body.error.message == InvalidTokenMessage
  {
    if header.None? || header.value == "" || !HasBearerPrefix(header.value) then
      Reject(ServerError(UnauthorizedCode, TokenRequiredMessage))
    else
      var token := header.value[|BearerPrefix|..];
      if AuthDisabled(secret) then
        Proceed
      else if token != secret.value then
        Reject(ServerError(UnauthorizedCode, InvalidTokenMessage))
      else
        Proceed
  }

  /**
   * Reference definition of an accepted request, independent of slicing:
   * the header is "Bearer " followed by some token, and either checking is
   * off or that token is exactly the secret.
   */
  ghost predicate Authorized(header: Option<string>, secret: Option<string>) {
    exists token :: header == Some(BearerHeader(token)) && (AuthDisabled(secret) || token == secret.value)
  }

  lemma BearerHeaderSplits(token: string)
    ensures HasBearerPrefix(BearerHeader(token))
    ensures BearerHeader(token)[|BearerPrefix|..] == token
  {
    assert BearerHeader(token)[..|BearerPrefix|] == BearerPrefix;
  }

  /** The gate lets a request through exactly when it is Authorized. */
  lemma CheckAdmitsExactlyAuthorized(header: Option<string>, secret: Option<string>)
    ensures Check(header, secret).Proceed? <==> Authorized(header, secret)
  {
    if Check(header, secret).Proceed? {
      var token := header.value[|BearerPrefix|..];
      assert header.value == BearerHeader(token);
    }
    if Authorized(header, secret) {
      var token :| header == Some(BearerHeader(token)) && (AuthDisabled(secret) || token == secret.value);
      BearerHeaderSplits(token);
    }
  }

  /** With checking off, any "Bearer " header passes, whatever its token. */
  lemma AnyTokenPassesWhenDisabled(token: string, secret: Option<string>)
    requires AuthDisabled(secret)
    ensures Check(Some(BearerHeader(token)), secret) == Proceed
  {
    BearerHeaderSplits(token);
  }

  /**
   * With a non-empty secret, the token (the header minus its first seven
   * characters) must equal the secret exactly; otherwise "Invalid token".
   */
  lemma TokenComparedExactly(token: string, secret: string)
    requires secret != ""
    ensures Check(Some(BearerHeader(token)), Some(secret)) ==
              if token == secret then Proceed
              else Reject(ServerError(UnauthorizedCode, InvalidTokenMessage))
  {
    BearerHeaderSplits(token);
  }
}
