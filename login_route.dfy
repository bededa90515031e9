/** The login endpoint (app/api/auth/login/route.ts): check the credentials,
    mint a session, answer with its token and the public user record. */
module LoginRoute {
  import opened Common
  import opened Http
  import Db

  datatype LoginForm = LoginForm(username: string, password: string)

  const BadCredentials := "用户名或密码错误"

  method Post(store: Db.Store, body: Result<LoginForm, string>, token: string, now: int) returns (resp: Response)
    requires store.Valid()
    modifies store`sessions
    ensures store.Valid()
    ensures body.Failure? ==> resp == Response(500, ErrorBody(body.error, None)) && store.sessions == old(store.sessions)
    ensures body.Success? && old(store.ValidateUser(body.value.username, body.value.password)).None? ==>
              resp == Response(401, ErrorBody(BadCredentials, None)) && store.sessions == old(store.sessions)
    ensures body.Success? && old(store.ValidateUser(body.value.username, body.value.password)).Some? ==>
              var user := old(store.ValidateUser(body.value.username, body.value.password)).value;
              if token in old(store.sessions) then
                resp == Response(500, ErrorBody(Db.DuplicateToken, None)) && store.sessions == old(store.sessions)
              else
                && resp == Response(200, LoginBody(token, user))
                && store.sessions == old(store.sessions)[token := Db.SessionRow(user.id, now + Db.SessionTtlMs)]
                && store.ValidateSession(token, now) == Some(user)
  {
    if body.Failure? {
      return Response(500, ErrorBody(body.error, None));
    }
    var user := store.ValidateUser(body.value.username, body.value.password);
    if user.None? {
      return Response(401, ErrorBody(BadCredentials, None));
    }
    var session := store.CreateSession(user.value.id, token, now);
    if session.Failure? {
      return Response(500, ErrorBody(session.error, None));
    }
    resp := Response(200, LoginBody(session.value, user.value));
  }
}
