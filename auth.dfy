/** Bearer-token extraction and the session gate (lib/auth.ts). The header
    field is `Authorization: Bearer <token>` (section 2.1 of RFC 6750); the
    prefix test is case-sensitive. */
module Auth {
  import opened Common
  import opened Js
  import opened Http
  import Db

  const BearerPrefix := "Bearer "

  /** `getAuthToken`: everything after `"Bearer "` when the header starts with it. */
  function GetAuthToken(authorization: Option<string>): (token: Option<string>)
    ensures token.Some? <==> authorization.Some? && StartsWith(authorization.value, BearerPrefix)
    ensures token.Some? ==> authorization.value == BearerPrefix + token.value
  {
    if TruthyText(authorization) && StartsWith(authorization.value, BearerPrefix) then
      Some(authorization.value[|BearerPrefix|..])
    else
      None
  }

  /** Stripping the prefix recovers every token, the empty one included. */
  lemma BearerRoundTrip(token: string)
    ensures GetAuthToken(Some(BearerPrefix + token)) == Some(token)
  {
    assert (BearerPrefix + token)[..|BearerPrefix|] == BearerPrefix;
  }

  /** A lower-case scheme is not the bearer scheme. */
  lemma LowerCaseSchemeRejected(token: string)
    ensures GetAuthToken(Some("bearer " + token)) == None
  {
    assert ("bearer " + token)[0] == 'b';
  }

  /** `isAuthenticated`: no token, or an empty one, is unauthenticated without
      looking at the sessions; otherwise the session's user, if any. */
  function IsAuthenticated(store: Db.Store, authorization: Option<string>, now: int): (user: Option<PublicUser>)
    reads store
    ensures !TruthyText(GetAuthToken(authorization)) ==> user.None?
    ensures TruthyText(GetAuthToken(authorization)) ==>
              user == store.ValidateSession(GetAuthToken(authorization).value, now)
  {
    var token := GetAuthToken(authorization);
    if !TruthyText(token) then None else store.ValidateSession(token.value, now)
  }

  /** The header `"Bearer "` alone names the empty token, which never authenticates. */
  lemma EmptyBearerUnauthenticated(store: Db.Store, now: int)
    ensures IsAuthenticated(store, Some(BearerPrefix), now).None?
  {
    assert BearerPrefix == BearerPrefix + "";
    BearerRoundTrip("");
  }
}
