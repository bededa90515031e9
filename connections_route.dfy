/** The connection-profile endpoint (app/api/connections/route.ts): list,
    insert-or-replace by id, and delete. There is no authentication check. */
module ConnectionsRoute {
  import opened Common
  import opened Js
  import opened Http
  import Db
  import Listing

  /** The JSON body of a `POST`; an absent property is `None`. */
  datatype ConnectionForm = ConnectionForm(
    id: Option<string>, name: Option<string>, host: Option<string>, port: Option<int>,
    username: Option<string>, password: Option<string>, createdAt: Option<int>)

  const MissingFields := "Missing required fields"
  const MissingId := "Missing id"

  /** `!id || !name || !host || !port || !username` is false. */
  predicate Complete(f: ConnectionForm) {
    TruthyText(f.id) && TruthyText(f.name) && TruthyText(f.host) && TruthyInt(f.port) && TruthyText(f.username)
  }

  /** The row `INSERT OR REPLACE` writes: `password || ''`, `created_at || Date.now()`. */
  function RowOf(f: ConnectionForm, now: int): (row: Db.ConnectionRow)
    requires Complete(f)
    ensures row.password == (if TruthyText(f.password) then f.password.value else "")
    ensures row.createdAt == (if TruthyInt(f.createdAt) then f.createdAt.value else now)
    ensures row.name == f.name.value && row.host == f.host.value && row.port == f.port.value
    ensures row.username == f.username.value
  {
    Db.ConnectionRow(
      f.name.value, f.host.value, f.port.value, f.username.value,
      if TruthyText(f.password) then f.password.value else "",
      if TruthyInt(f.createdAt) then f.createdAt.value else now)
  }

  /** The table after an insert-or-replace keyed by id. */
  function Upsert(table: map<string, Db.ConnectionRow>, f: ConnectionForm, now: int): (t: map<string, Db.ConnectionRow>)
    requires Complete(f)
    ensures t.Keys == table.Keys + {f.id.value}
    ensures t[f.id.value] == RowOf(f, now)
    ensures forall id :: id in table && id != f.id.value ==> t[id] == table[id]
  {
    table[f.id.value := RowOf(f, now)]
  }

  /** Saving the same profile twice, with its creation time given, is saving it once. */
  lemma UpsertIdempotent(table: map<string, Db.ConnectionRow>, f: ConnectionForm, now1: int, now2: int)
    requires Complete(f) && TruthyInt(f.createdAt)
    ensures Upsert(Upsert(table, f, now1), f, now2) == Upsert(table, f, now1)
  {
  }

  /** Without a creation time the second save stamps the later clock reading. */
  lemma UpsertWithoutTimestampRestamps(table: map<string, Db.ConnectionRow>, f: ConnectionForm, now1: int, now2: int)
    requires Complete(f) && !TruthyInt(f.createdAt) && now1 != now2
    ensures Upsert(Upsert(table, f, now1), f, now2) != Upsert(table, f, now1)
  {
    assert Upsert(Upsert(table, f, now1), f, now2)[f.id.value].createdAt == now2;
  }

  function ConnectionOf(id: string, row: Db.ConnectionRow): Connection {
    Connection(id, row.name, row.host, row.port, row.username, row.password, row.createdAt)
  }

  /** Every stored profile, with its id. */
  function Profiles(table: map<string, Db.ConnectionRow>): (s: set<Connection>)
    ensures forall c :: c in s <==> c.id in table && c == ConnectionOf(c.id, table[c.id])
  {
    set id | id in table :: ConnectionOf(id, table[id])
  }

  /** `GET`: every profile once, newest first. */
  method Get(store: Db.Store) returns (resp: Response)
    ensures resp.status == 200 && resp.body.ConnectionList?
    ensures multiset(resp.body.connections) == multiset(Profiles(store.connections))
    ensures Listing.Descending(resp.body.connections, (c: Connection) => c.createdAt)
  {
    var list := Listing.SortDescending(Profiles(store.connections), (c: Connection) => c.createdAt);
    resp := Response(200, ConnectionList(list));
  }

  /** `POST`: 400 on a missing required field, 500 on an unreadable body,
      otherwise insert-or-replace and `{success: true}`. */
  method Post(store: Db.Store, body: Result<ConnectionForm, string>, now: int) returns (resp: Response)
    modifies store`connections
    ensures body.Failure? ==> resp == Response(500, ErrorBody(body.error, None)) && store.connections == old(store.connections)
    ensures body.Success? && !Complete(body.value) ==>
              resp == Response(400, ErrorBody(MissingFields, None)) && store.connections == old(store.connections)
    ensures body.Success? && Complete(body.value) ==>
              resp == Response(200, SuccessBody) && store.connections == Upsert(old(store.connections), body.value, now)
  {
    if body.Failure? {
      return Response(500, ErrorBody(body.error, None));
    }
    var f := body.value;
    if !Complete(f) {
      return Response(400, ErrorBody(MissingFields, None));
    }
    store.connections := store.connections[f.id.value := RowOf(f, now)];
    resp := Response(200, SuccessBody);
  }

  /** `DELETE ?id=`: 400 without an id; otherwise that row is gone, whether or not it existed. */
  method Delete(store: Db.Store, id: Option<string>) returns (resp: Response)
    modifies store`connections
    ensures !TruthyText(id) ==> resp == Response(400, ErrorBody(MissingId, None)) && store.connections == old(store.connections)
    ensures TruthyText(id) ==> resp == Response(200, SuccessBody) && store.connections == old(store.connections) - {id.value}
  {
    if !TruthyText(id) {
      return Response(400, ErrorBody(MissingId, None));
    }
    store.connections := store.connections - {id.value};
    resp := Response(200, SuccessBody);
  }
}
