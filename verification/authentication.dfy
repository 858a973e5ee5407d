/**
 * `BedrockAuthentication` of Sources/BedrockAuthentication.swift: how each
 * kind of credential describes itself (secrets redacted) and which kind of
 * identity resolver it yields. A region is kept as its printed form, and the
 * web-identity notification closure is left out. Building the profile, SSO
 * and web-identity resolvers reads files or calls the network; those steps
 * are passed in.
 */
module Authentication {
  import opened Base

  datatype BedrockAuthentication =
    | Default
    | Profile(profileName: string)
    | Sso(profileName: string)
    | WebIdentity(token: string, roleARN: string, region: string)
    | Static(accessKey: string, secretKey: string, sessionToken: string)
    | ApiKey(key: string)

  /** The text every redacted secret ends with. */
  const RedactionSuffix: string := "... *** shuuut, it's a secret ***"

  /** How many characters of a secret `redactingSecret` keeps. */
  function KeptLength(secret: string): nat {
    if |secret| < 3 then |secret| else 3
  }

  /** `redactingSecret(secret:)`: the first (at most) three characters, then the fixed suffix. */
  function Redact(secret: string): (r: string)
    ensures |r| == KeptLength(secret) + |RedactionSuffix|
    ensures r[..KeptLength(secret)] == secret[..KeptLength(secret)]
    ensures r[KeptLength(secret)..] == RedactionSuffix
  {
    secret[..KeptLength(secret)] + RedactionSuffix
  }

  /** A secret of fewer than three characters is shown whole before the suffix. */
  lemma ShortSecretKeptWhole(secret: string)
    requires |secret| < 3
    ensures Redact(secret) == secret + RedactionSuffix
  {
    assert secret[..|secret|] == secret;
  }

  /** Redaction reveals exactly the kept prefix: two secrets redact alike if and only if their kept prefixes agree. */
  lemma RedactionRevealsOnlyPrefix(s: string, t: string)
    ensures Redact(s) == Redact(t) <==> s[..KeptLength(s)] == t[..KeptLength(t)]
  {
    if Redact(s) == Redact(t) {
      assert KeptLength(s) == KeptLength(t);
      assert s[..KeptLength(s)] == Redact(s)[..KeptLength(s)];
    }
  }

  /** The text a description starts with, naming the kind of credential. */
  function Tag(a: BedrockAuthentication): string {
    match a
    case Default => "default"
    case Profile(_) => "profile: "
    case Sso(_) => "sso: "
    case WebIdentity(_, _, _) => "webIdentity: "
    case Static(_, _, _) => "static: "
    case ApiKey(_) => "apiKey: "
  }

  /** `description`. */
  function Describe(a: BedrockAuthentication): (r: string)
    ensures Tag(a) <= r
    ensures a.Default? ==> r == "default"
    ensures (a.Profile? || a.Sso?) ==> r == Tag(a) + a.profileName
    ensures a.WebIdentity? ==> r == Tag(a) + Redact(a.token) + ", roleARN: " + a.roleARN + ", region: " + a.region
    ensures a.Static? ==> r == Tag(a) + a.accessKey + ", secretKey: " + Redact(a.secretKey)
    ensures a.ApiKey? ==> r == Tag(a) + Redact(a.key)
  {
    match a
    case Default => "default"
    case Profile(name) => "profile: " + name
    case Sso(name) => "sso: " + name
    case WebIdentity(token, roleARN, region) => "webIdentity: " + Redact(token) + ", roleARN: " + roleARN + ", region: " + region
    case Static(accessKey, secretKey, _) => "static: " + accessKey + ", secretKey: " + Redact(secretKey)
    case ApiKey(key) => "apiKey: " + Redact(key)
  }

  /** A description names its kind: no other kind's tag starts it. */
  lemma DescriptionNamesKind(a: BedrockAuthentication, b: BedrockAuthentication)
    requires Tag(a) <= Describe(b)
    ensures Tag(a) == Tag(b)
  {
    var d := Describe(b);
    assert Tag(b) <= d;
    assert Tag(a)[0] == d[0] == Tag(b)[0];
    assert Tag(a)[1] == d[1] == Tag(b)[1];
  }

  /** Only the default credential chain describes as `default`. */
  lemma OnlyDefaultDescribesAsDefault(a: BedrockAuthentication)
    ensures Describe(a) == "default" <==> a.Default?
  {
    if Describe(a) == "default" {
      DescriptionNamesKind(Default, a);
    }
  }

  /** Equal secrets up to their kept prefixes cannot be told apart by a description; the session token is never shown. */
  lemma DescriptionHidesSecrets(a: BedrockAuthentication, b: BedrockAuthentication)
    requires a.Static? && b.Static? && a.accessKey == b.accessKey
    requires a.secretKey[..KeptLength(a.secretKey)] == b.secretKey[..KeptLength(b.secretKey)]
    ensures Describe(a) == Describe(b)
  {
    RedactionRevealsOnlyPrefix(a.secretKey, b.secretKey);
  }

  /** The same for the API key and the web-identity token. */
  lemma DescriptionHidesTokens(a: BedrockAuthentication, b: BedrockAuthentication)
    requires (a.ApiKey? && b.ApiKey? && a.key[..KeptLength(a.key)] == b.key[..KeptLength(b.key)])
      || (a.WebIdentity? && b.WebIdentity? && a.roleARN == b.roleARN && a.region == b.region
          && a.token[..KeptLength(a.token)] == b.token[..KeptLength(b.token)])
    ensures Describe(a) == Describe(b)
  {
    if a.ApiKey? {
      RedactionRevealsOnlyPrefix(a.key, b.key);
    } else {
      RedactionRevealsOnlyPrefix(a.token, b.token);
    }
  }

  /** Profile and SSO show the profile name in the clear, after their tag. */
  lemma ProfileNamesShown(name: string)
    ensures Describe(Profile(name))[|"profile: "|..] == name
    ensures Describe(Sso(name))[|"sso: "|..] == name
  {
  }

  /** A web identity shows its role ARN and region in the clear, at the end, whatever the token. */
  lemma WebIdentityShowsRoleAndRegion(token: string, roleARN: string, region: string)
    ensures var d := Describe(WebIdentity(token, roleARN, region));
      var tail := ", roleARN: " + roleARN + ", region: " + region;
      |d| >= |tail| && d[|d| - |tail|..] == tail
  {
  }

  /** Static credentials show the access key in the clear right after the tag; the secret only redacted. */
  lemma StaticShowsAccessKey(accessKey: string, secretKey: string, sessionToken: string)
    ensures var d := Describe(Static(accessKey, secretKey, sessionToken));
      && d[|"static: "|..|"static: "| + |accessKey|] == accessKey
      && d[|"static: "| + |accessKey|..] == ", secretKey: " + Redact(secretKey)
  {
  }

  /** A bearer-token identity. */
  datatype BearerTokenResolver = StaticBearerToken(token: string)

  /** `getBearerTokenIdentityResolver`: only an API key yields one, carrying the key. */
  function GetBearerTokenResolver(a: BedrockAuthentication): (r: Option<BearerTokenResolver>)
    ensures r.Some? <==> a.ApiKey?
    ensures a.ApiKey? ==> r.value.token == a.key
  {
    match a
    case ApiKey(key) => Some(StaticBearerToken(key))
    case _ => None
  }

  /** The AWS credential resolvers the service can be configured with. */
  datatype AwsCredentialResolver =
    | ProfileResolver(profileName: string)
    | SsoResolver(profileName: string)
    | WebIdentityResolver(roleARN: string, region: string)
    | StaticResolver(accessKey: string, secret: string, sessionToken: string)

  /**
   * What building a resolver needs from outside: whether the profile or SSO
   * resolver can be built for a profile name (a failure there is swallowed),
   * and the web-identity exchange, which may fail.
   */
  datatype ResolverEnv = ResolverEnv(
    profileAvailable: string -> bool,
    ssoAvailable: string -> bool,
    webIdentity: (string, string, string) -> Result<AwsCredentialResolver>)

  /** `getAWSCredentialIdentityResolver`. */
  function GetAwsCredentialResolver(a: BedrockAuthentication, env: ResolverEnv): (r: Result<Option<AwsCredentialResolver>>)
    ensures (a.Default? || a.ApiKey?) ==> r == Success(None)
    ensures r.Failure? ==> a.WebIdentity?
    ensures a.Static? ==> r == Success(Some(StaticResolver(a.accessKey, a.secretKey, a.sessionToken)))
    ensures a.Profile? ==> r == Success(if env.profileAvailable(a.profileName) then Some(ProfileResolver(a.profileName)) else None)
    ensures a.Sso? ==> r == Success(if env.ssoAvailable(a.profileName) then Some(SsoResolver(a.profileName)) else None)
    ensures a.WebIdentity? ==>
      r == (match env.webIdentity(a.token, a.roleARN, a.region)
            case Failure(e) => Failure(e)
            case Success(resolver) => Success(Some(resolver)))
  {
    match a
    case Default => Success(None)
    case ApiKey(_) => Success(None)
    case Profile(name) => Success(if env.profileAvailable(name) then Some(ProfileResolver(name)) else None)
    case Sso(name) => Success(if env.ssoAvailable(name) then Some(SsoResolver(name)) else None)
    case WebIdentity(token, roleARN, region) =>
      var resolver :- env.webIdentity(token, roleARN, region);
      Success(Some(resolver))
    case Static(accessKey, secretKey, sessionToken) => Success(Some(StaticResolver(accessKey, secretKey, sessionToken)))
  }

  /** The two resolvers never both exist: an API key has no AWS resolver, every other kind no bearer resolver. */
  lemma ResolversExclusive(a: BedrockAuthentication, env: ResolverEnv)
    ensures GetBearerTokenResolver(a).Some? ==> GetAwsCredentialResolver(a, env) == Success(None)
    ensures GetAwsCredentialResolver(a, env).Success? && GetAwsCredentialResolver(a, env).value.Some? ==> GetBearerTokenResolver(a).None?
  {
  }
}
