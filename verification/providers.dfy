/** The static table of the two OAuth2 identity providers, Fenertalk and
    Galatalk, both served by the same TaraftarCell authorization server. */
module Providers {
  import opened Wrappers
  import opened Profile

  /** The environment values the table reads. */
  datatype Env = Env(
    oauthUrl: string,                 // base URL of the authorization server
    fenertalkClientId: string,
    fenertalkClientSecret: string,
    galatalkClientId: string,
    galatalkClientSecret: string
  )

  /** The protection checks the authentication library can run on a login. */
  datatype Check = Pkce | State | Nonce

  /** One entry of the provider table. `None` stands for `undefined`. */
  datatype ProviderConfig = ProviderConfig(
    id: string,
    name: string,
    kind: string,
    clientId: string,
    clientSecret: string,
    issuer: string,
    wellKnown: string,
    authorizationUrl: string,
    scope: string,
    responseType: string,
    token: string,
    userinfo: string,
    checks: seq<Check>,
    authorizationSignedResponseAlg: Option<string>,
    idTokenSignedResponseAlg: Option<string>,
    issuerValidation: bool,
    profile: (Claims, Instant) -> NormalizedUser
  )

  /** An entry for a provider served by the TaraftarCell authorization server;
      the two entries of the table differ only in the arguments. */
  function TaraftarCellProvider(base: string, id: string, name: string, clientId: string, clientSecret: string): ProviderConfig {
    ProviderConfig(
      id, name, "oauth", clientId, clientSecret,
      base + "/",
      base + "/.well-known/openid-configuration",
      base + "/oauth2/authorize",
      "profile email " + id + ".read " + id + ".write",
      "code",
      base + "/oauth2/token",
      base + "/oauth2/userinfo",
      [Pkce],
      None, None,
      false,
      Normalize)
  }

  function Table(env: Env): seq<ProviderConfig> {
    [ TaraftarCellProvider(env.oauthUrl, "fenertalk", "Fenertalk", env.fenertalkClientId, env.fenertalkClientSecret),
      TaraftarCellProvider(env.oauthUrl, "galatalk", "Galatalk", env.galatalkClientId, env.galatalkClientSecret) ]
  }

  /** The identifiers of the configured providers. */
  function ConfiguredIds(env: Env): set<string> {
    var t := Table(env);
    set i | 0 <= i < |t| :: t[i].id
  }

  /** Every provider is an OAuth2 provider of the one authorization server:
      each endpoint is the base URL plus a fixed suffix, the issuer ends in "/",
      the authorization-code flow is requested with PKCE as the only check,
      issuer validation is off, and the profile mapping is `Normalize`. */
  lemma TableShape(env: Env)
    ensures |Table(env)| == 2
    ensures forall i | 0 <= i < |Table(env)| :: var p := Table(env)[i];
      && p.kind == "oauth"
      && p.issuer == env.oauthUrl + "/" && p.issuer[|p.issuer| - 1] == '/'
      && p.wellKnown == env.oauthUrl + "/.well-known/openid-configuration"
      && p.authorizationUrl == env.oauthUrl + "/oauth2/authorize"
      && p.token == env.oauthUrl + "/oauth2/token"
      && p.userinfo == env.oauthUrl + "/oauth2/userinfo"
      && p.responseType == "code"
      && p.checks == [Pkce]
      && p.authorizationSignedResponseAlg.None? && p.idTokenSignedResponseAlg.None?
      && !p.issuerValidation
      && p.scope == "profile email " + p.id + ".read " + p.id + ".write"
  {
  }

  /** Both providers map claims to users in exactly the same way. */
  lemma ProvidersShareProfileMapping(env: Env, c: Claims, now: Instant)
    ensures forall i | 0 <= i < |Table(env)| :: Table(env)[i].profile(c, now) == Normalize(c, now)
  {
  }

  /** The table holds exactly the providers "fenertalk" and "galatalk", with
      their own credentials. */
  lemma TableIds(env: Env)
    ensures ConfiguredIds(env) == {"fenertalk", "galatalk"}
    ensures Table(env)[0].id == "fenertalk" && Table(env)[0].clientId == env.fenertalkClientId
    ensures Table(env)[0].clientSecret == env.fenertalkClientSecret
    ensures Table(env)[1].id == "galatalk" && Table(env)[1].clientId == env.galatalkClientId
    ensures Table(env)[1].clientSecret == env.galatalkClientSecret
  {
    var t := Table(env);
    assert t[0].id in ConfiguredIds(env) && t[1].id in ConfiguredIds(env);
  }
}
