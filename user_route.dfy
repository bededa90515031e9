/** The user endpoint (app/api/auth/user/route.ts): create a user, change a
    password, list users. Each handler first refuses an unauthenticated caller. */
module UserRoute {
  import opened Common
  import opened Js
  import opened Http
  import Db
  import Auth
  import Listing

  datatype UserForm = UserForm(username: Option<string>, password: Option<string>)
  datatype PasswordForm = PasswordForm(password: Option<string>, targetUserId: Option<int>)

  const Unauthorized := "Unauthorized"
  const MissingFields := "Missing fields"
  const MissingPassword := "Missing password"
  const UsernameTaken := "用户名已存在"
  const UniqueViolation := "UNIQUE constraint failed"

  /** The answer to a failed `createUser`: a UNIQUE violation is the client's
      fault (400), anything else is rethrown and becomes a 500. */
  function CreateFailure(message: string): (resp: Response)
    ensures Contains(message, UniqueViolation) ==> resp == Response(400, ErrorBody(UsernameTaken, None))
    ensures !Contains(message, UniqueViolation) ==> resp == Response(500, ErrorBody(message, None))
  {
    if Contains(message, UniqueViolation) then Response(400, ErrorBody(UsernameTaken, None))
    else Response(500, ErrorBody(message, None))
  }

  /** The store's duplicate-username error is recognised as a UNIQUE violation. */
  lemma DuplicateIsClientError()
    ensures CreateFailure(Db.DuplicateUsername) == Response(400, ErrorBody(UsernameTaken, None))
  {
    assert StartsWith(Db.DuplicateUsername[0..], UniqueViolation);
  }

  /** `targetUserId ? targetUserId : user.id`. */
  function PasswordTarget(caller: PublicUser, targetUserId: Option<int>): (id: int)
    ensures TruthyInt(targetUserId) ==> id == targetUserId.value
    ensures !TruthyInt(targetUserId) ==> id == caller.id
  {
    if TruthyInt(targetUserId) then targetUserId.value else caller.id
  }

  /** `POST`: 401 for an unauthenticated caller, 400 on a missing field or a
      taken name, otherwise exactly one new user and `{success: true}`. */
  method Post(store: Db.Store, authorization: Option<string>, body: Result<UserForm, string>,
              salt: string, now: int) returns (resp: Response)
    requires store.Valid()
    modifies store
    ensures store.Valid()
    ensures store.sessions == old(store.sessions) && store.connections == old(store.connections)
    ensures old(Auth.IsAuthenticated(store, authorization, now)).None? ==>
              resp == Response(401, ErrorBody(Unauthorized, None)) && store.users == old(store.users)
    ensures resp.status != 200 ==> store.users == old(store.users) && store.nextUserId == old(store.nextUserId)
    ensures resp.status == 200 ==> store.nextUserId == old(store.nextUserId) + 1
    ensures resp.status == 200 ==>
              resp.body == SuccessBody && body.Success? && TruthyText(body.value.username) && TruthyText(body.value.password)
              && (exists id :: id !in old(store.users)
                    && store.users == old(store.users)[id := Db.UserRow(body.value.username.value,
                         store.hashPassword(body.value.password.value, salt), salt, now)])
    ensures old(Auth.IsAuthenticated(store, authorization, now)).Some? && body.Success? ==>
              (!TruthyText(body.value.username) || !TruthyText(body.value.password) <==>
                 resp == Response(400, ErrorBody(MissingFields, None)))
    ensures old(Auth.IsAuthenticated(store, authorization, now)).Some? && body.Success?
            && TruthyText(body.value.username) && TruthyText(body.value.password) ==>
              (resp.status == 200 <==> forall id :: id in old(store.users) ==> old(store.users)[id].username != body.value.username.value)
    ensures old(Auth.IsAuthenticated(store, authorization, now)).Some? && body.Success?
            && TruthyText(body.value.username) && TruthyText(body.value.password)
            && (exists id :: id in old(store.users) && old(store.users)[id].username == body.value.username.value) ==>
              resp == Response(400, ErrorBody(UsernameTaken, None))
    ensures old(Auth.IsAuthenticated(store, authorization, now)).Some? && body.Failure? ==>
              resp == Response(500, ErrorBody(body.error, None))
  {
    var caller := Auth.IsAuthenticated(store, authorization, now);
    if caller.None? {
      return Response(401, ErrorBody(Unauthorized, None));
    }
    if body.Failure? {
      return Response(500, ErrorBody(body.error, None));
    }
    var form := body.value;
    if !TruthyText(form.username) || !TruthyText(form.password) {
      return Response(400, ErrorBody(MissingFields, None));
    }
    var created := store.CreateUser(form.username.value, form.password.value, salt, now);
    if created.Failure? {
      DuplicateIsClientError();
      return CreateFailure(created.error);
    }
    resp := Response(200, SuccessBody);
  }

  /** `PUT`: 401 for an unauthenticated caller, 400 without a password,
      otherwise the password of `targetUserId` (or of the caller) is replaced. */
  method Put(store: Db.Store, authorization: Option<string>, body: Result<PasswordForm, string>,
             salt: string, now: int) returns (resp: Response)
    requires store.Valid()
    modifies store`users
    ensures store.Valid()
    ensures old(Auth.IsAuthenticated(store, authorization, now)).None? ==>
              resp == Response(401, ErrorBody(Unauthorized, None)) && store.users == old(store.users)
    ensures resp.status != 200 ==> store.users == old(store.users)
    ensures old(Auth.IsAuthenticated(store, authorization, now)).Some? && body.Success? && !TruthyText(body.value.password) ==>
              resp == Response(400, ErrorBody(MissingPassword, None))
    ensures resp.status == 200 ==>
              resp.body == SuccessBody && body.Success? && TruthyText(body.value.password)
              && old(Auth.IsAuthenticated(store, authorization, now)).Some?
              && var target := PasswordTarget(old(Auth.IsAuthenticated(store, authorization, now)).value, body.value.targetUserId);
                 store.users == (if target in old(store.users)
                                 then old(store.users)[target := old(store.users)[target].(
                                        passwordHash := store.hashPassword(body.value.password.value, salt), salt := salt)]
                                 else old(store.users))
    ensures old(Auth.IsAuthenticated(store, authorization, now)).Some? && body.Success? && TruthyText(body.value.password) ==>
              resp.status == 200
    ensures old(Auth.IsAuthenticated(store, authorization, now)).Some? && body.Failure? ==>
              resp == Response(500, ErrorBody(body.error, None))
  {
    var caller := Auth.IsAuthenticated(store, authorization, now);
    if caller.None? {
      return Response(401, ErrorBody(Unauthorized, None));
    }
    if body.Failure? {
      return Response(500, ErrorBody(body.error, None));
    }
    var form := body.value;
    if !TruthyText(form.password) {
      return Response(400, ErrorBody(MissingPassword, None));
    }
    var target := PasswordTarget(caller.value, form.targetUserId);
    store.UpdatePassword(target, form.password.value, salt);
    resp := Response(200, SuccessBody);
  }

  /** Every user's public record. */
  function PublicUsers(users: map<int, Db.UserRow>): (s: set<PublicUser>)
    ensures forall u :: u in s <==> u.id in users && u == Db.PublicOf(u.id, users[u.id])
  {
    set id | id in users :: Db.PublicOf(id, users[id])
  }

  /** `GET`: 401 for an unauthenticated caller, otherwise every user's id, name
      and creation time, once each, newest first. */
  method Get(store: Db.Store, authorization: Option<string>, now: int) returns (resp: Response)
    ensures Auth.IsAuthenticated(store, authorization, now).None? ==> resp == Response(401, ErrorBody(Unauthorized, None))
    ensures Auth.IsAuthenticated(store, authorization, now).Some? ==>
              resp.status == 200 && resp.body.UserList?
              && multiset(resp.body.users) == multiset(PublicUsers(store.users))
              && Listing.Descending(resp.body.users, (u: PublicUser) => u.createdAt)
  {
    var caller := Auth.IsAuthenticated(store, authorization, now);
    if caller.None? {
      return Response(401, ErrorBody(Unauthorized, None));
    }
    var list := Listing.SortDescending(PublicUsers(store.users), (u: PublicUser) => u.createdAt);
    resp := Response(200, UserList(list));
  }
}
