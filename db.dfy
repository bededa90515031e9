/** The credential and connection store (lib/db.ts): the `users`, `sessions` and
    `connections` tables of the SQLite file, held as maps and updated in place.

    `hashPassword` is PBKDF2 (section 5.2 of RFC 8018, SHA-512, 1000 rounds,
    64 bytes, hex) and is kept uninterpreted: the store is built over any
    function of (password, salt), which is all the round trips need.
    Salts, session tokens and the clock are parameters. */
module Db {
  import opened Common
  import opened Http

  /** A row of `users`; `id` is the key of the map. */
  datatype UserRow = UserRow(username: string, passwordHash: string, salt: string, createdAt: int)

  /** A row of `sessions`; `token` is the key of the map. */
  datatype SessionRow = SessionRow(userId: int, expiresAt: int)

  /** A row of `connections`; `id` is the key of the map. */
  datatype ConnectionRow = ConnectionRow(
    name: string, host: string, port: int, username: string, password: string, createdAt: int)

  /** Sessions live 24 hours: 24 * 60 * 60 * 1000 milliseconds. */
  const SessionTtlMs: int := 86_400_000

  const DuplicateUsername := "UNIQUE constraint failed: users.username"
  const DuplicateToken := "UNIQUE constraint failed: sessions.token"
  const MissingUser := "FOREIGN KEY constraint failed"

  /** The bootstrap account. */
  const AdminName := "admin"
  const AdminPassword := "admin"

  function PublicOf(id: int, row: UserRow): PublicUser {
    PublicUser(id, row.username, row.createdAt)
  }

  class Store {
    const hashPassword: (string, string) -> string
    var users: map<int, UserRow>
    var nextUserId: int
    var sessions: map<string, SessionRow>
    var connections: map<string, ConnectionRow>

    /** The table constraints: AUTOINCREMENT ids below the next one, UNIQUE
        usernames, and every session's user present (FOREIGN KEY). */
    ghost predicate Valid()
      reads this
    {
      && 1 <= nextUserId
      && (forall id :: id in users ==> 1 <= id < nextUserId)
      && (forall a, b :: a in users && b in users && users[a].username == users[b].username ==> a == b)
      && (forall t :: t in sessions ==> sessions[t].userId in users)
    }

    /** A freshly created database file: the three tables exist and are empty. */
    constructor (hashPassword: (string, string) -> string)
      ensures Valid()
      ensures this.hashPassword == hashPassword
      ensures users == map[] && sessions == map[] && connections == map[]
    {
      this.hashPassword := hashPassword;
      users, sessions, connections := map[], map[], map[];
      nextUserId := 1;
    }

    /** `SELECT * FROM users WHERE username = ?`: the id of the one user with that name. */
    function UserIdByName(username: string): (r: Option<int>)
      reads this
      requires Valid()
      ensures r.Some? ==> r.value in users && users[r.value].username == username
      ensures r.None? ==> forall id :: id in users ==> users[id].username != username
    {
      if exists id :: id in users && users[id].username == username then
        var id :| id in users && users[id].username == username;
        Some(id)
      else
        None
    }

    /** `createUser`: insert a user with a fresh salt; a taken username violates
        the UNIQUE constraint and leaves the table as it was. */
    method CreateUser(username: string, password: string, salt: string, now: int) returns (r: Result<int, string>)
      requires Valid()
      modifies this
      ensures Valid()
      ensures sessions == old(sessions) && connections == old(connections)
      ensures r.Failure? <==> exists id :: id in old(users) && old(users)[id].username == username
      ensures r.Failure? ==> r.error == DuplicateUsername && users == old(users) && nextUserId == old(nextUserId)
      ensures r.Success? ==> r.value == old(nextUserId) && r.value !in old(users) && nextUserId == r.value + 1
      ensures r.Success? ==> users == old(users)[r.value := UserRow(username, hashPassword(password, salt), salt, now)]
      ensures r.Success? ==> ValidateUser(username, password) == Some(PublicUser(r.value, username, now))
    {
      if UserIdByName(username).Some? {
        return Failure(DuplicateUsername);
      }
      var id := nextUserId;
      users := users[id := UserRow(username, hashPassword(password, salt), salt, now)];
      nextUserId := nextUserId + 1;
      assert Valid();
      assert id in users && users[id].username == username;
      ghost var found := UserIdByName(username);
      assert found.Some? && users[found.value].username == username;
      assert found == Some(id);
      r := Success(id);
    }

    /** `validateUser`: the public record of the user whose stored hash matches
        the password hashed with that user's salt; `None` for an unknown name or
        a mismatch alike. */
    function ValidateUser(username: string, password: string): (r: Option<PublicUser>)
      reads this
      requires Valid()
      ensures r.Some? <==> exists id :: id in users && users[id].username == username
                                         && hashPassword(password, users[id].salt) == users[id].passwordHash
      ensures r.Some? ==> r.value.id in users && r.value.username == username
                          && r.value == PublicOf(r.value.id, users[r.value.id])
    {
      match UserIdByName(username)
      case None => None
      case Some(id) =>
        var row := users[id];
        if hashPassword(password, row.salt) == row.passwordHash then Some(PublicOf(id, row)) else None
    }

    /** `createSession`: store `{token, userId, now + 24h}` and hand back the token. */
    method CreateSession(userId: int, token: string, now: int) returns (r: Result<string, string>)
      requires Valid()
      modifies this`sessions
      ensures Valid()
      ensures token in old(sessions) ==> r == Failure(DuplicateToken) && sessions == old(sessions)
      ensures token !in old(sessions) && userId !in users ==> r == Failure(MissingUser) && sessions == old(sessions)
      ensures token !in old(sessions) && userId in users ==>
                r == Success(token) && sessions == old(sessions)[token := SessionRow(userId, now + SessionTtlMs)]
      ensures r.Success? ==> forall t :: now <= t < now + SessionTtlMs ==> ValidateSession(token, t) == Some(PublicOf(userId, users[userId]))
      ensures r.Success? ==> forall t :: t >= now + SessionTtlMs ==> ValidateSession(token, t) == None
    {
      if token in sessions {
        return Failure(DuplicateToken);
      }
      if userId !in users {
        return Failure(MissingUser);
      }
      sessions := sessions[token := SessionRow(userId, now + SessionTtlMs)];
      r := Success(token);
    }

    /** `validateSession`: the joined user of an unexpired session. Expiry is
        strict (`expires_at > now`) and an expired row is left in place. */
    function ValidateSession(token: string, now: int): (r: Option<PublicUser>)
      reads this
      ensures r.Some? <==> token in sessions && sessions[token].expiresAt > now && sessions[token].userId in users
      ensures r.Some? ==> r.value == PublicOf(sessions[token].userId, users[sessions[token].userId])
    {
      if token in sessions && sessions[token].expiresAt > now && sessions[token].userId in users then
        var id := sessions[token].userId;
        Some(PublicOf(id, users[id]))
      else
        None
    }

    /** `updatePassword`: a fresh salt and hash for that id only; an unknown id
        changes nothing. */
    method UpdatePassword(userId: int, newPassword: string, salt: string)
      requires Valid()
      modifies this`users
      ensures Valid()
      ensures userId !in old(users) ==> users == old(users)
      ensures userId in old(users) ==>
                users == old(users)[userId := old(users)[userId].(passwordHash := hashPassword(newPassword, salt), salt := salt)]
      ensures userId in users ==> ValidateUser(users[userId].username, newPassword) == Some(PublicOf(userId, users[userId]))
    {
      if userId in users {
        users := users[userId := users[userId].(passwordHash := hashPassword(newPassword, salt), salt := salt)];
      }
    }

    /** The start-up block: create `admin`/`admin` when the users table is empty. */
    method Bootstrap(salt: string, now: int)
      requires Valid()
      modifies this
      ensures Valid()
      ensures sessions == old(sessions) && connections == old(connections)
      ensures old(users) != map[] ==> users == old(users) && nextUserId == old(nextUserId)
      ensures old(users) == map[] ==> |users| == 1 && nextUserId == old(nextUserId) + 1
                                      && ValidateUser(AdminName, AdminPassword).Some?
    {
      if |users| == 0 {
        var r := CreateUser(AdminName, AdminPassword, salt, now);
        assert r.Success?;
      }
    }
  }
}
