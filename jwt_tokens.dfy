/**
 * The transaction service's token issuer and parser. A token carries issuer, subject, issue and
 * expiry times and a `roles` claim; parsing accepts only a token whose signature verifies and whose
 * subject (section 4.1.2 of RFC 7519), issuer (section 4.1.1) and roles pass the checks below.
 * Signing and signature verification are cryptography outside the model: a token is represented by
 * the claims it was signed over, and verification is a parameter that yields the claims of a valid
 * token or nothing.
 */
module JwtTokens {
  import opened Wrappers
  import opened Numeric
  import opened Strings

  const MIN_SECRET_LENGTH: int := 32
  const SECRET_ERROR: string := "JWT secret must be configured with at least 32 characters."
  const MINUTE_MILLIS: int := 60_000

  /** What the constructor keeps: the secret the key is derived from, the issuer and the token lifetime. */
  datatype TokenSettings = TokenSettings(secret: string, issuer: Option<string>, ttlMinutes: int)

  /** The constructor: refuse a missing or blank secret or one shorter than 32 characters; floor the lifetime at one minute. */
  function NewTokenService(secret: Option<string>, issuer: Option<string>, ttlMinutes: int): Result<TokenSettings, string>
  {
    if secret.None? || !HasText(secret.value) || |secret.value| < MIN_SECRET_LENGTH then Failure(SECRET_ERROR)
    else Success(TokenSettings(secret.value, issuer, Max(1, ttlMinutes)))
  }

  /**
   * A service is built exactly when the secret has text and at least 32 characters; it keeps the
   * issuer, and its tokens live at least one minute (the configured number when that is positive).
   */
  lemma NewTokenServiceProperties(secret: Option<string>, issuer: Option<string>, ttlMinutes: int)
    ensures var r := NewTokenService(secret, issuer, ttlMinutes);
      && (r.Success? <==> secret.Some? && HasText(secret.value) && |secret.value| >= 32)
      && (r.Failure? ==> r.error == SECRET_ERROR)
      && (r.Success? ==> r.value.issuer == issuer && r.value.ttlMinutes >= 1
                         && (ttlMinutes >= 1 ==> r.value.ttlMinutes == ttlMinutes))
  {
  }

  /** A role as stored: trimmed and upper-cased. */
  function NormalizeRole(role: string): string
  {
    Upper(Trim(role))
  }

  /** `normalizeRoles`: the roles that have text, each trimmed and upper-cased, in their order. */
  function NormalizedRoles(roles: seq<string>): (normalized: seq<string>)
    ensures |normalized| <= |roles|
  {
    if |roles| == 0 then []
    else
      var init := NormalizedRoles(roles[..|roles| - 1]);
      var role := roles[|roles| - 1];
      if HasText(role) then init + [NormalizeRole(role)] else init
  }

  /** Every role with text appears in the result, normalised. */
  lemma {:induction false} NormalizedRolesComplete(roles: seq<string>)
    ensures forall i :: 0 <= i < |roles| && HasText(roles[i]) ==> NormalizeRole(roles[i]) in NormalizedRoles(roles)
  {
    if |roles| > 0 {
      var init := roles[..|roles| - 1];
      NormalizedRolesComplete(init);
      forall i | 0 <= i < |init| && HasText(roles[i])
        ensures NormalizeRole(roles[i]) in NormalizedRoles(roles)
      {
        assert init[i] == roles[i];
      }
    }
  }

  /** Every role in the result is the normalisation of a role with text. */
  lemma {:induction false} NormalizedRolesSound(roles: seq<string>)
    ensures forall x :: x in NormalizedRoles(roles) ==> exists i :: 0 <= i < |roles| && HasText(roles[i]) && x == NormalizeRole(roles[i])
  {
    if |roles| > 0 {
      var init := roles[..|roles| - 1];
      NormalizedRolesSound(init);
      forall x | x in NormalizedRoles(init)
        ensures exists i :: 0 <= i < |roles| && HasText(roles[i]) && x == NormalizeRole(roles[i])
      {
        var i :| 0 <= i < |init| && HasText(init[i]) && x == NormalizeRole(init[i]);
        assert roles[i] == init[i];
      }
    }
  }

  /** Some role in the list has text. */
  predicate SomeRoleHasText(roles: seq<string>)
  {
    exists i :: 0 <= i < |roles| && HasText(roles[i])
  }

  /** The result is empty exactly when no role has text, and as long as the roles when all have text. */
  lemma {:induction false} NormalizedRolesCount(roles: seq<string>)
    ensures SomeRoleHasText(roles) <==> NormalizedRoles(roles) != []
    ensures (forall i :: 0 <= i < |roles| ==> HasText(roles[i])) ==> |NormalizedRoles(roles)| == |roles|
  {
    if |roles| > 0 {
      var init := roles[..|roles| - 1];
      NormalizedRolesCount(init);
      assert forall i :: 0 <= i < |init| ==> init[i] == roles[i];
      if exists i :: 0 <= i < |roles| && HasText(roles[i]) {
        var i :| 0 <= i < |roles| && HasText(roles[i]);
        if i < |init| {
          assert HasText(init[i]);
        }
      }
    }
  }

  /** Upper-casing keeps every character above U+0020 above it. */
  lemma UpperKeepsVisible(c: char)
    requires c > ' '
    ensures UpperChar(c) > ' '
  {
  }

  /** A normalised role is its own normalisation: normalising twice is normalising once. */
  lemma NormalizeRoleIdempotent(role: string)
    ensures NormalizeRole(NormalizeRole(role)) == NormalizeRole(role)
  {
    var t := Trim(role);
    var x := Upper(t);
    if |x| > 0 {
      UpperKeepsVisible(t[0]);
      UpperKeepsVisible(t[|t| - 1]);
    }
    TrimWithFixed(x, c => c <= ' ');
    assert Upper(x) == x;
  }

  /**
   * Normalising normalised roles drops only those left without text (a role whose only visible
   * characters are control characters below U+0020 trims to whitespace or nothing) and keeps
   * the others as they are.
   */
  lemma {:induction false} NormalizeNormalized(roles: seq<string>)
    ensures NormalizedRoles(NormalizedRoles(roles)) == TextRoles(NormalizedRoles(roles))
  {
    if |roles| > 0 {
      var init := roles[..|roles| - 1];
      NormalizeNormalized(init);
      var role := roles[|roles| - 1];
      var n := NormalizedRoles(init);
      if HasText(role) {
        var all := n + [NormalizeRole(role)];
        assert all[..|all| - 1] == n;
        NormalizeRoleIdempotent(role);
      }
    }
  }

  /** The roles that have text, unchanged. */
  function TextRoles(roles: seq<string>): (kept: seq<string>)
    ensures forall x :: x in kept ==> x in roles && HasText(x)
    ensures forall x :: x in roles && HasText(x) ==> x in kept
  {
    if |roles| == 0 then []
    else
      var init := TextRoles(roles[..|roles| - 1]);
      var role := roles[|roles| - 1];
      assert forall x :: x in roles ==> x in roles[..|roles| - 1] || x == role;
      if HasText(role) then init + [role] else init
  }

  /** A claim value as the JSON parser delivers it: a string, a list, or anything else. */
  datatype ClaimValue = Text(text: string) | Items(items: seq<ClaimValue>) | OtherValue

  /** The claims a token is signed over; times are epoch milliseconds. */
  datatype Claims = Claims(issuer: Option<string>, subject: Option<string>, issuedAt: int, expiration: int, roles: Option<ClaimValue>)

  /** A token, represented by its claims, and its expiry time. */
  datatype IssuedToken = IssuedToken(claims: Claims, expiresAt: int)

  /** `issueToken` at `nowMillis`: subject, issuer, the normalised roles, and an expiry one lifetime later. */
  function IssueToken(settings: TokenSettings, username: Option<string>, roles: seq<string>, nowMillis: int): IssuedToken
  {
    var expiresAt := nowMillis + settings.ttlMinutes * MINUTE_MILLIS;
    IssuedToken(Claims(settings.issuer, username, nowMillis, expiresAt, Some(Items(TextClaims(NormalizedRoles(roles))))), expiresAt)
  }

  /** A list claim of strings. */
  function TextClaims(texts: seq<string>): seq<ClaimValue>
  {
    seq(|texts|, i requires 0 <= i < |texts| => Text(texts[i]))
  }

  /** The strings of a list claim; entries that are not strings are skipped. */
  function TextItems(items: seq<ClaimValue>): (texts: seq<string>)
    ensures |texts| <= |items|
  {
    if |items| == 0 then []
    else
      var init := TextItems(items[..|items| - 1]);
      match items[|items| - 1]
      case Text(s) => init + [s]
      case _ => init
  }

  /** The identity a valid token carries. */
  datatype JwtPrincipal = JwtPrincipal(username: string, roles: seq<string>)

  /** Why a token is refused, or the principal it carries. */
  datatype ParseOutcome = BlankToken | InvalidSignature | BlankSubject | WrongIssuer | RolesNotAList | NoRoles | Accepted(principal: JwtPrincipal)

  /**
   * The checks `parseToken` makes on the claims of a token whose signature verifies: a subject
   * with text, the configured issuer when one with text is configured, and a list of roles of
   * which at least one is a string with text.
   */
  function CheckClaims(settings: TokenSettings, claims: Claims): ParseOutcome
  {
    if claims.subject.None? || !HasText(claims.subject.value) then BlankSubject
    else if settings.issuer.Some? && HasText(settings.issuer.value) && claims.issuer != settings.issuer then WrongIssuer
    else if claims.roles.None? || !claims.roles.value.Items? then RolesNotAList
    else
      var roles := NormalizedRoles(TextItems(claims.roles.value.items));
      if |roles| == 0 then NoRoles
      else Accepted(JwtPrincipal(claims.subject.value, roles))
  }

  /**
   * `parseToken`: a blank token is refused, and so is one that fails to parse or verify
   * (`verify` answers the claims of a token whose signature verifies, nothing otherwise); the
   * claims of any other are checked. `verify` stands for the JWT library's parser as a whole, so
   * it also holds the library's refusal of an expired token, judged on `exp` truncated to whole
   * seconds.
   */
  function Parse(settings: TokenSettings, token: string, verify: string -> Option<Claims>): ParseOutcome
  {
    if !HasText(token) then BlankToken
    else
      match verify(token)
      case None => InvalidSignature
      case Some(claims) => CheckClaims(settings, claims)
  }

  /** The `Optional` that `parseToken` returns: the principal, or empty on every refusal. */
  function ParseToken(settings: TokenSettings, token: string, verify: string -> Option<Claims>): Option<JwtPrincipal>
  {
    match Parse(settings, token, verify)
    case Accepted(principal) => Some(principal)
    case _ => None
  }

  /**
   * Claims are accepted exactly when the subject has text, the issuer is the configured one
   * (when one with text is configured), and the roles are a list with at least one string
   * with text; the principal is then the subject.
   */
  lemma CheckClaimsAccepts(settings: TokenSettings, claims: Claims)
    ensures var r := CheckClaims(settings, claims);
      && (r.Accepted? <==>
            && claims.subject.Some? && HasText(claims.subject.value)
            && (settings.issuer.Some? && HasText(settings.issuer.value) ==> claims.issuer == settings.issuer)
            && claims.roles.Some? && claims.roles.value.Items?
            && SomeRoleHasText(TextItems(claims.roles.value.items)))
      && (r.Accepted? ==> r.principal.username == claims.subject.value)
  {
    if claims.roles.Some? && claims.roles.value.Items? {
      var texts := TextItems(claims.roles.value.items);
      NormalizedRolesCount(texts);
      if && claims.subject.Some? && HasText(claims.subject.value)
         && (settings.issuer.Some? && HasText(settings.issuer.value) ==> claims.issuer == settings.issuer) {
        assert CheckClaims(settings, claims).Accepted? <==> NormalizedRoles(texts) != [];
      }
    }
  }

  /** An accepted principal has at least one role, and every role is trimmed and upper case. */
  lemma CheckClaimsRoles(settings: TokenSettings, claims: Claims)
    ensures var r := CheckClaims(settings, claims);
      r.Accepted? ==> |r.principal.roles| > 0 && forall x :: x in r.principal.roles ==> NormalizeRole(x) == x
  {
    if claims.roles.Some? && claims.roles.value.Items? {
      var texts := TextItems(claims.roles.value.items);
      NormalizedRolesSound(texts);
      forall x | x in NormalizedRoles(texts)
        ensures NormalizeRole(x) == x
      {
        var i :| 0 <= i < |texts| && HasText(texts[i]) && x == NormalizeRole(texts[i]);
        NormalizeRoleIdempotent(texts[i]);
      }
    }
  }

  /** A blank token, and one that does not verify, gives no principal; any other gives what its claims give. */
  lemma ParseTokenRefusals(settings: TokenSettings, token: string, verify: string -> Option<Claims>)
    ensures !HasText(token) ==> ParseToken(settings, token, verify).None?
    ensures verify(token).None? ==> ParseToken(settings, token, verify).None?
    ensures HasText(token) && verify(token).Some? ==>
      (ParseToken(settings, token, verify).Some? <==> CheckClaims(settings, verify(token).value).Accepted?)
  {
  }

  /** The strings of a list of string claims are those strings. */
  lemma {:induction false} TextItemsOfTexts(texts: seq<string>)
    ensures TextItems(TextClaims(texts)) == texts
  {
    if |texts| > 0 {
      var items := TextClaims(texts);
      var init := texts[..|texts| - 1];
      assert items[..|items| - 1] == TextClaims(init);
      TextItemsOfTexts(init);
    }
  }

  /**
   * A token issued by a service is accepted by the same service as long as it verifies: for a
   * user name with text and at least one normalised role with text, the principal is the user
   * with the issued roles, minus any that normalisation left without text.
   */
  lemma IssueThenParse(settings: TokenSettings, username: string, roles: seq<string>, nowMillis: int, token: string, verify: string -> Option<Claims>)
    requires HasText(token) && verify(token) == Some(IssueToken(settings, Some(username), roles, nowMillis).claims)
    requires HasText(username) && TextRoles(NormalizedRoles(roles)) != []
    ensures ParseToken(settings, token, verify) == Some(JwtPrincipal(username, TextRoles(NormalizedRoles(roles))))
  {
    var normalized := NormalizedRoles(roles);
    var claims := IssueToken(settings, Some(username), roles, nowMillis).claims;
    assert CheckClaims(settings, claims) == Accepted(JwtPrincipal(username, TextRoles(normalized))) by {
      TextItemsOfTexts(normalized);
      assert TextItems(claims.roles.value.items) == normalized;
      NormalizeNormalized(roles);
    }
  }

  /** A token expires one lifetime, at least a minute, after it is issued. */
  lemma IssuedTokenExpiry(settings: TokenSettings, username: Option<string>, roles: seq<string>, nowMillis: int)
    requires settings.ttlMinutes >= 1
    ensures var issued := IssueToken(settings, username, roles, nowMillis);
      && issued.claims.issuedAt == nowMillis
      && issued.expiresAt == issued.claims.expiration == nowMillis + settings.ttlMinutes * 60_000
      && issued.expiresAt >= nowMillis + 60_000
  {
  }

  /** `normalizeRoles`, with its loop. */
  method NormalizeRoles(roles: seq<string>) returns (normalizedRoles: seq<string>)
    ensures normalizedRoles == NormalizedRoles(roles)
  {
    normalizedRoles := [];
    for i := 0 to |roles|
      invariant normalizedRoles == NormalizedRoles(roles[..i])
    {
      NormalizedStep(roles, i);
      if !HasText(roles[i]) {
        continue;
      }
      normalizedRoles := normalizedRoles + [NormalizeRole(roles[i])];
    }
    assert roles[..|roles|] == roles;
  }

  /** One more role adds its normalised text when it has text, and nothing otherwise. */
  lemma NormalizedStep(roles: seq<string>, i: int)
    requires 0 <= i < |roles|
    ensures NormalizedRoles(roles[..i + 1]) ==
      if HasText(roles[i]) then NormalizedRoles(roles[..i]) + [NormalizeRole(roles[i])] else NormalizedRoles(roles[..i])
  {
    assert roles[..i + 1][..i] == roles[..i];
  }

  /** One more raw role adds its normalised text when it is a string with text, and nothing otherwise. */
  lemma RoleStep(rawRoles: seq<ClaimValue>, i: int)
    requires 0 <= i < |rawRoles|
    ensures NormalizedRoles(TextItems(rawRoles[..i + 1])) ==
      if rawRoles[i].Text? && HasText(rawRoles[i].text) then NormalizedRoles(TextItems(rawRoles[..i])) + [NormalizeRole(rawRoles[i].text)]
      else NormalizedRoles(TextItems(rawRoles[..i]))
  {
    assert rawRoles[..i + 1][..i] == rawRoles[..i];
    if rawRoles[i].Text? {
      var texts := TextItems(rawRoles[..i]) + [rawRoles[i].text];
      assert TextItems(rawRoles[..i + 1]) == texts;
      assert texts[..|texts| - 1] == TextItems(rawRoles[..i]);
    }
  }

  /** `parseToken`, with its loop over the raw roles. */
  method ParseTokenClaims(settings: TokenSettings, token: string, verify: string -> Option<Claims>) returns (principal: Option<JwtPrincipal>)
    ensures principal == ParseToken(settings, token, verify)
  {
    if !HasText(token) {
      return None;
    }
    var verified := verify(token);
    if verified.None? {
      return None;
    }
    var claims := verified.value;
    if claims.subject.None? || !HasText(claims.subject.value) {
      return None;
    }
    if settings.issuer.Some? && HasText(settings.issuer.value) && claims.issuer != settings.issuer {
      return None;
    }
    if claims.roles.None? || !claims.roles.value.Items? {
      return None;
    }
    var rawRoles := claims.roles.value.items;
    var roles: seq<string> := [];
    for i := 0 to |rawRoles|
      invariant roles == NormalizedRoles(TextItems(rawRoles[..i]))
    {
      RoleStep(rawRoles, i);
      if rawRoles[i].Text? && HasText(rawRoles[i].text) {
        roles := roles + [NormalizeRole(rawRoles[i].text)];
      }
    }
    assert rawRoles[..|rawRoles|] == rawRoles;
    if |roles| == 0 {
      return None;
    }
    return Some(JwtPrincipal(claims.subject.value, roles));
  }
}
