/** The records the API exchanges (types.ts) and the shape of a route's answer:
    a status code with a JSON body. */
module Http {
  import opened Common
  import opened Js

  /** `QueryResult`: column names, the rows, and the elapsed milliseconds. */
  datatype QueryResult = QueryResult(columns: seq<string>, rows: seq<Row>, duration: nat)

  /** The public part of a user row: never the hash or the salt. */
  datatype PublicUser = PublicUser(id: int, username: string, createdAt: int)

  /** `NimbusConnection`: a stored connection profile. */
  datatype Connection = Connection(
    id: string, name: string, host: string, port: int,
    username: string, password: string, createdAt: int)

  /** The JSON bodies the routes answer with. */
  datatype Body =
    | ErrorBody(error: string, details: Option<string>)   // `{error}` or `{error, details}`
    | SuccessBody                                          // `{success: true}`
    | QueryBody(result: QueryResult)                       // `{columns, rows, duration}`
    | LoginBody(token: string, user: PublicUser)           // `{token, user}`
    | ConnectionList(connections: seq<Connection>)
    | UserList(users: seq<PublicUser>)

  datatype Response = Response(status: int, body: Body)

  /** `res.ok`. */
  predicate IsOk(status: int) {
    200 <= status < 300
  }

  /** What the query route can answer: a successful answer always carries a query body. */
  predicate QueryShaped(r: Response) {
    IsOk(r.status) ==> r.body.QueryBody?
  }

  type QueryReply = r: Response | QueryShaped(r) witness Response(500, ErrorBody("", None))

  /** The client's `apiCall`: a non-2xx answer throws `data.error`, or
      'API request failed' when the body carries no (or an empty) error text. */
  function ApiCall(r: Response): (out: Result<Body, string>)
    ensures out.Success? <==> IsOk(r.status)
    ensures out.Success? ==> out.value == r.body
    ensures out.Failure? && r.body.ErrorBody? && r.body.error != "" ==> out.error == r.body.error
    ensures out.Failure? && !(r.body.ErrorBody? && r.body.error != "") ==> out.error == "API request failed"
  {
    if IsOk(r.status) then Success(r.body)
    else if r.body.ErrorBody? && r.body.error != "" then Failure(r.body.error)
    else Failure("API request failed")
  }
}
