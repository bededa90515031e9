/** The query endpoint (app/api/query/route.ts): validate the request, look up
    the connection profile, open a connection, run the SQL, normalise the
    driver's answer, and always end an opened connection.

    The MySQL driver is a pair of functions: `connect` gives the error that
    `createConnection` throws (or `None`), `run` gives what `query(sql)` returns
    or throws. The log of driver calls makes the release observable. */
module QueryRoute {
  import opened Common
  import opened Js
  import opened Http
  import Db

  /** The JSON body; an absent property is `None`. */
  datatype QueryForm = QueryForm(connectionId: Option<string>, sql: Option<string>)

  /** The options passed to `mysql.createConnection`. */
  datatype ConnectConfig = ConnectConfig(
    host: string, port: int, user: string, password: string, database: string, connectTimeoutMs: int)

  /** A thrown driver error: its `message` and its `code` (e.g. `ER_PARSE_ERROR`). */
  datatype DriverError = DriverError(message: string, code: Option<string>)

  /** `rows` of `[rows, fields]`: an array of rows, or an OK packet object. */
  datatype Payload = RowSet(rows: seq<Row>) | OkPacket(packet: Row)

  /** `[rows, fields]`; `fields` is absent for an OK packet. */
  datatype DriverResult = DriverResult(payload: Payload, fields: Option<seq<string>>)

  datatype DriverEvent = Connect(config: ConnectConfig) | Query(sql: string) | End

  const DefaultDatabase := "information_schema"
  const ConnectTimeoutMs := 5000
  const MissingInput := "Missing connectionId or sql"
  const NotFound := "Connection config not found"
  const UnknownError := "Unknown error occurred"
  const ResultColumn := "Result"

  /** The connection options for a stored profile. */
  function ConfigFor(row: Db.ConnectionRow): (c: ConnectConfig)
    ensures c.host == row.host && c.port == row.port && c.user == row.username && c.password == row.password
    ensures c.database == "information_schema" && c.connectTimeoutMs == 5000
  {
    ConnectConfig(row.host, row.port, row.username, row.password, DefaultDatabase, ConnectTimeoutMs)
  }

  /** `error.message || 'Unknown error occurred'`. */
  function MessageOr(message: string): (m: string)
    ensures m != ""
    ensures message != "" ==> m == message
    ensures message == "" ==> m == UnknownError
  {
    if message != "" then message else UnknownError
  }

  /** The 500 answer for a thrown error. */
  function Failed(e: DriverError): Response {
    Response(500, ErrorBody(MessageOr(e.message), e.code))
  }

  /** The envelope's columns and rows for a driver result. */
  function Normalise(res: DriverResult): (out: (seq<string>, seq<Row>))
    ensures res.payload.RowSet? ==> out.1 == res.payload.rows
    ensures res.payload.RowSet? ==> out.0 == (if res.fields.Some? then res.fields.value else [])
    ensures res.payload.OkPacket? ==> out.1 == [res.payload.packet]
    ensures res.payload.OkPacket? ==> out.0 != []
    ensures res.payload.OkPacket? ==>
              (out.0 == [ResultColumn] <==> res.fields.None? || res.fields.value == [] || res.fields.value == [ResultColumn])
    ensures res.payload.OkPacket? && res.fields.Some? && res.fields.value != [] ==> out.0 == res.fields.value
  {
    var columns := if res.fields.Some? then res.fields.value else [];
    match res.payload
    case RowSet(rows) => (columns, rows)
    case OkPacket(p) => (if |columns| == 0 then columns + [ResultColumn] else columns, [p])
  }

  method Post(store: Db.Store, body: Result<QueryForm, string>,
              connect: ConnectConfig -> Option<DriverError>,
              run: string -> Result<DriverResult, DriverError>,
              duration: nat)
    returns (resp: Response, events: seq<DriverEvent>)
    ensures QueryShaped(resp)
    ensures End in events <==> |events| > 0 && events[0].Connect? && connect(events[0].config).None?
    ensures End in events ==> events[|events| - 1] == End
    ensures body.Failure? ==> resp == Failed(DriverError(body.error, None)) && events == []
    ensures body.Success? && !(TruthyText(body.value.connectionId) && TruthyText(body.value.sql)) ==>
              resp == Response(400, ErrorBody(MissingInput, None)) && events == []
    ensures body.Success? && TruthyText(body.value.connectionId) && TruthyText(body.value.sql)
            && body.value.connectionId.value !in store.connections ==>
              resp == Response(404, ErrorBody(NotFound, None)) && events == []
    ensures body.Success? && TruthyText(body.value.connectionId) && TruthyText(body.value.sql)
            && body.value.connectionId.value in store.connections ==>
              var config := ConfigFor(store.connections[body.value.connectionId.value]);
              var sql := body.value.sql.value;
              match connect(config)
              case Some(e) => resp == Failed(e) && events == [Connect(config)]
              case None =>
                && events == [Connect(config), Query(sql), End]
                && match run(sql)
                   case Failure(e) => resp == Failed(e)
                   case Success(res) => resp == Response(200, QueryBody(QueryResult(Normalise(res).0, Normalise(res).1, duration)))
  {
    events := [];
    var connection: Option<ConnectConfig> := None;
    // try
    if body.Failure? {
      resp := Failed(DriverError(body.error, None));
    } else if !TruthyText(body.value.connectionId) || !TruthyText(body.value.sql) {
      resp := Response(400, ErrorBody(MissingInput, None));
    } else if body.value.connectionId.value !in store.connections {
      resp := Response(404, ErrorBody(NotFound, None));
    } else {
      var config := ConfigFor(store.connections[body.value.connectionId.value]);
      var sql := body.value.sql.value;
      events := events + [Connect(config)];
      var refused := connect(config);
      if refused.Some? {
        resp := Failed(refused.value);
      } else {
        connection := Some(config);
        events := events + [Query(sql)];
        var answer := run(sql);
        if answer.Failure? {
          resp := Failed(answer.error);
        } else {
          var columns := if answer.value.fields.Some? then answer.value.fields.value else [];
          var resultRows := [];
          match answer.value.payload {
            case RowSet(rows) =>
              resultRows := rows;
            case OkPacket(packet) =>
              resultRows := [packet];
              if |columns| == 0 {
                columns := columns + [ResultColumn];
              }
          }
          resp := Response(200, QueryBody(QueryResult(columns, resultRows, duration)));
        }
      }
    }
    // finally: end an opened connection; a failure to close is ignored
    if connection.Some? {
      events := events + [End];
    }
  }
}
