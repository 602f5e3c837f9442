/**
 * backend/src/middleware/auth.js: who a request speaks for. The result is
 * all-or-nothing: a seller, their live session and the bearer token, or
 * none of the three.
 */
module AuthContext {
  import opened Wrappers
  import opened Strings
  import Http
  import Config
  import Time
  import Sessions
  import Sellers

  datatype AuthContext = AuthContext(
    currentSeller: Option<Sellers.Seller>, session: Option<Sessions.Session>, token: Option<string>)

  const Anonymous: AuthContext := AuthContext(None, None, None)

  /** The context is complete or empty. */
  predicate AllOrNothing(c: AuthContext) {
    c == Anonymous || (c.currentSeller.Some? && c.session.Some? && c.token.Some?)
  }

  /** `resolveAuthContext(req)` for the `Authorization` header `authorization`, read at `now`. */
  function ResolveAuthContext(authorization: Option<string>, sessions: seq<Sessions.Session>,
    sellers: seq<Sellers.Seller>, sha256: string -> string, now: int): (c: AuthContext)
    ensures AllOrNothing(c)
    ensures Http.ParseBearerToken(authorization).None? ==> c == Anonymous
    ensures Http.ParseBearerToken(authorization).Some? &&
      Sessions.AuthenticateAccessToken(sessions, sha256, Http.ParseBearerToken(authorization).value, now).None?
      ==> c == Anonymous
    ensures c != Anonymous ==>
      && c.token == Http.ParseBearerToken(authorization)
      && c.session == Sessions.AuthenticateAccessToken(sessions, sha256, c.token.value, now)
      && c.currentSeller == Sellers.FindLiveSellerById(sellers, c.session.value.sellerId)
      && c.currentSeller.value.id == c.session.value.sellerId
      && c.currentSeller.value.deletedAt.None?
    ensures c == Anonymous <==>
      || Http.ParseBearerToken(authorization).None?
      || Sessions.AuthenticateAccessToken(sessions, sha256, Http.ParseBearerToken(authorization).value, now).None?
      || Sellers.FindLiveSellerById(sellers,
           Sessions.AuthenticateAccessToken(sessions, sha256, Http.ParseBearerToken(authorization).value, now).value.sellerId).None?
  {
    match Http.ParseBearerToken(authorization)
    case None => Anonymous
    case Some(token) =>
      match Sessions.AuthenticateAccessToken(sessions, sha256, token, now)
      case None => Anonymous
      case Some(session) =>
        match Sellers.FindLiveSellerById(sellers, session.sellerId)
        case None => Anonymous
        case Some(seller) => AuthContext(Some(seller), Some(session), Some(token))
  }

  /**
   * A freshly issued access token, presented as "Bearer <token>", speaks for
   * its live seller until it expires.
   */
  lemma IssuedTokenResolves(sessions: seq<Sessions.Session>, sellers: seq<Sellers.Seller>, sha256: string -> string,
    seller: Sellers.Seller, accessToken: string, refreshHash: string, created: int,
    settings: Config.Settings, now: int)
    requires accessToken != [] && NoSpace(accessToken)
    requires forall i :: 0 <= i < |sessions| ==> sessions[i].accessTokenHash != sha256(accessToken)
    requires created <= now < Time.MinutesFromNow(created, settings.accessTokenTtlMinutes)
    requires Sellers.FindLiveSellerById(sellers, seller.id) == Some(seller)
    ensures var row := Sessions.NewSession(|sessions|, seller.id, sha256(accessToken), refreshHash, created, settings);
      ResolveAuthContext(Some("Bearer " + accessToken), sessions + [row], sellers, sha256, now)
      == AuthContext(Some(seller), Some(row), Some(accessToken))
  {
    var row := Sessions.NewSession(|sessions|, seller.id, sha256(accessToken), refreshHash, created, settings);
    var header := "Bearer " + accessToken;
    assert header == "Bearer" + " " + accessToken;
    assert ToLower("Bearer") == "bearer";
    Http.BearerRoundTrip("Bearer", accessToken);
    assert Http.ParseBearerToken(Some(header)) == Some(accessToken);
    Sessions.IssuedAccessTokenAuthenticates(sessions, sha256, seller.id, accessToken, refreshHash, created, settings, now);
    assert Sessions.AuthenticateAccessToken(sessions + [row], sha256, accessToken, now) == Some(row);
  }
}
