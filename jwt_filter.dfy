/**
 * The fraud service's bearer-token filter. It takes the token from an `Authorization: Bearer`
 * header (section 2.1 of RFC 6750) or, for the server-sent event stream only, from the
 * `access_token` query parameter, and when the request is not yet authenticated and the token
 * parses, authenticates it as the token's user with one `ROLE_` authority per role. The token
 * parser is a parameter: any parser, such as `JwtTokens.ParseToken` with fixed settings.
 */
module JwtAuthentication {
  import opened Wrappers
  import opened Strings
  import opened JwtTokens

  const BEARER_PREFIX: string := "Bearer "
  const ROLE_PREFIX: string := "ROLE_"
  const STREAM_PATH_PREFIX: string := "/api/v1/dashboard/stream"

  /** The parts of a request the filter reads: method, path, `Authorization` header and `access_token` parameter. */
  datatype HttpRequest = HttpRequest(httpMethod: string, path: string, authorization: Option<string>, accessToken: Option<string>)

  /** `shouldNotFilter`: pre-flight requests, the login endpoints and the actuator are let through untouched. */
  predicate ShouldNotFilter(request: HttpRequest)
  {
    request.httpMethod == "OPTIONS" || StartsWith(request.path, "/api/v1/auth") || StartsWith(request.path, "/actuator")
  }

  /**
   * `resolveToken`: the trimmed remainder of a bearer `Authorization` header; failing that, on
   * the stream path only, the trimmed `access_token` parameter when it has text.
   */
  function ResolveToken(request: HttpRequest): Option<string>
  {
    if request.authorization.Some? && HasText(request.authorization.value) && StartsWith(request.authorization.value, BEARER_PREFIX) then
      Some(Trim(request.authorization.value[|BEARER_PREFIX|..]))
    else if StartsWith(request.path, STREAM_PATH_PREFIX) && request.accessToken.Some? && HasText(request.accessToken.value) then
      Some(Trim(request.accessToken.value))
    else None
  }

  /**
   * A bearer header wins over the query parameter; the parameter counts on the stream path
   * only; no token is found otherwise.
   */
  lemma ResolveTokenSources(request: HttpRequest)
    ensures request.authorization.Some? && StartsWith(request.authorization.value, BEARER_PREFIX) ==>
      ResolveToken(request) == Some(Trim(request.authorization.value[7..]))
    ensures !StartsWith(request.path, STREAM_PATH_PREFIX) && ResolveToken(request).Some? ==>
      request.authorization.Some? && StartsWith(request.authorization.value, BEARER_PREFIX)
    ensures ResolveToken(request).None? <==>
      && (request.authorization.None? || !StartsWith(request.authorization.value, BEARER_PREFIX))
      && (!StartsWith(request.path, STREAM_PATH_PREFIX) || request.accessToken.None? || !HasText(request.accessToken.value))
  {
    if request.authorization.Some? && StartsWith(request.authorization.value, BEARER_PREFIX) {
      var header := request.authorization.value;
      assert header[0] == 'B' && !IsJavaWhitespace(header[0]);
    }
  }

  /** A token sent as `Bearer <token>` is found as sent, whatever the path and parameters. */
  lemma BearerRoundTrip(httpMethod: string, path: string, token: string, accessToken: Option<string>)
    requires Trim(token) == token
    ensures ResolveToken(HttpRequest(httpMethod, path, Some(BEARER_PREFIX + token), accessToken)) == Some(token)
  {
    var header := BEARER_PREFIX + token;
    assert StartsWith(header, BEARER_PREFIX);
    assert header[|BEARER_PREFIX|..] == token;
    assert header[0] == 'B' && !IsJavaWhitespace(header[0]);
  }

  /** An authenticated caller: the user name and the granted authorities, in order. */
  datatype Authentication = Authentication(principal: string, authorities: seq<string>)

  /** One `ROLE_<role>` authority per role, in order. */
  function Authorities(roles: seq<string>): (authorities: seq<string>)
  {
    seq(|roles|, i requires 0 <= i < |roles| => ROLE_PREFIX + roles[i])
  }

  /** Each authority is its role behind the `ROLE_` prefix, so the roles can be read back. */
  lemma AuthoritiesRoundTrip(roles: seq<string>)
    ensures |Authorities(roles)| == |roles|
    ensures forall i :: 0 <= i < |roles| ==>
      StartsWith(Authorities(roles)[i], ROLE_PREFIX) && Authorities(roles)[i][|ROLE_PREFIX|..] == roles[i]
  {
  }

  /**
   * `doFilterInternal`'s effect on the security context: an existing authentication is kept;
   * otherwise a token with text that `parse` accepts authenticates its user.
   */
  function Authenticate(existing: Option<Authentication>, request: HttpRequest, parse: string -> Option<JwtPrincipal>): Option<Authentication>
  {
    var token := ResolveToken(request);
    if token.None? || !HasText(token.value) || existing.Some? then existing
    else
      match parse(token.value)
      case None => existing
      case Some(principal) => Some(Authentication(principal.username, Authorities(principal.roles)))
  }

  /** The filter as a whole: skipped requests leave the context alone. */
  function Filter(existing: Option<Authentication>, request: HttpRequest, parse: string -> Option<JwtPrincipal>): Option<Authentication>
  {
    if ShouldNotFilter(request) then existing else Authenticate(existing, request, parse)
  }

  /**
   * The filter only ever fills an empty context: it sets an authentication exactly when the
   * request is filtered, none is set yet, a token with text is found and the parser accepts
   * it, and then the authentication is the parsed user with `ROLE_` authorities in role order.
   */
  lemma FilterProperties(existing: Option<Authentication>, request: HttpRequest, parse: string -> Option<JwtPrincipal>)
    ensures var r := Filter(existing, request, parse);
      && (existing.Some? ==> r == existing)
      && (r != existing <==>
            && !ShouldNotFilter(request) && existing.None?
            && ResolveToken(request).Some? && HasText(ResolveToken(request).value)
            && parse(ResolveToken(request).value).Some?)
      && (r != existing ==>
            var principal := parse(ResolveToken(request).value).value;
            && r.value.principal == principal.username
            && |r.value.authorities| == |principal.roles|
            && forall i :: 0 <= i < |principal.roles| ==> r.value.authorities[i] == "ROLE_" + principal.roles[i])
  {
  }

  /** The security context of the request being handled. */
  class SecurityContext {
    var authentication: Option<Authentication>

    constructor (authentication: Option<Authentication>)
      ensures this.authentication == authentication
    {
      this.authentication := authentication;
    }
  }

  /** `shouldNotFilter` followed, for a filtered request, by `doFilterInternal`. */
  method DoFilter(request: HttpRequest, context: SecurityContext, parse: string -> Option<JwtPrincipal>)
    modifies context
    ensures context.authentication == Filter(old(context.authentication), request, parse)
  {
    if ShouldNotFilter(request) {
      return;
    }
    var token := ResolveToken(request);
    if token.Some? && HasText(token.value) && context.authentication.None? {
      var principal := parse(token.value);
      if principal.Some? {
        context.authentication := Some(Authentication(principal.value.username, Authorities(principal.value.roles)));
      }
    }
  }
}
