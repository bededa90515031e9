# NimbusDB-Admin gateway and command translator, in Dafny

NimbusDB-Admin is a web console for a MySQL-protocol replication engine.
This project models its two logical halves:

- **The browser-side `NimbusService`.** It keeps the active connection id. It
  turns each panel action into a `SET NIMBUS <KEY> = <VALUE>` or
  `SHOW NIMBUS <TOPIC>` statement and posts that statement to `/api/query`. It
  reads typed records out of the first row of each answer.
- **The Next.js API routes and the SQLite store behind them.**
  - The query route validates a request, opens a MySQL connection, normalises
    the driver's answer and ends the connection it opened.
  - The connections route lists, upserts and deletes connection profiles.
  - The user and login routes create users, change passwords, list users and
    mint sessions. `lib/auth.ts` extracts the bearer token and `lib/db.ts`
    stores users, sessions and profiles.

Modules, one file each:

| file | module | models |
|---|---|---|
| `common.dfy` | `Common` | `Option`, `Result`, `Unit` |
| `js.dfy` | `Js` | The JavaScript semantics the code relies on: truthiness, `Number(x)`, the text `${n}` gives a number, ASCII `toUpperCase`, `startsWith`, `includes`, property reads on a result row |
| `http.dfy` | `Http` | The records of `types.ts`, a route's answer (status and JSON body), and the client's `apiCall` |
| `db.dfy` | `Db` | `lib/db.ts`: the class `Store` with the `users`, `sessions` and `connections` tables as maps updated in place |
| `auth.dfy` | `Auth` | `lib/auth.ts` |
| `listing.dfy` | `Listing` | `ORDER BY created_at DESC`: a sort by insertion, proved sorted and a permutation |
| `connections_route.dfy` | `ConnectionsRoute` | `app/api/connections/route.ts` |
| `user_route.dfy` | `UserRoute` | `app/api/auth/user/route.ts` |
| `login_route.dfy` | `LoginRoute` | `app/api/auth/login/route.ts` |
| `query_route.dfy` | `QueryRoute` | `app/api/query/route.ts`. The MySQL driver is a pair of function parameters, and a log of driver calls makes the release of the connection observable |
| `commands.dfy` | `Commands` | The command dialect of `services/nimbusService.ts`. It pairs every builder with a reader of what it builds, and every row reader with the row an engine reporting a given state would send |
| `nimbus_service.dfy` | `NimbusService` | The class `Service` with its `activeId` field and the log `issued` of requests posted to `/api/query` |

In `NimbusService`, the query route is a parameter `api`. `api(n, request)` is
the route's answer to the n-th request the service posts. Its type says that
a 2xx answer always carries a query body, which `QueryRoute.Post` proves as
`QueryShaped`.

Each service method's `ensures` states:
- the request log it leaves;
- the result it settles with, in terms of `api`.

The specification function `RunAll` describes a sequence of awaited
statements, and `UpdateSourceConfig` is proved equal to it. `RunAll`'s own
lemmas then say what that sequence sends and where it stops.

## Model

| member | source | states |
|---|---|---|
| Js.Get | services/nimbusService.ts:80-88 | `row.col` is defined exactly when some column has that name, and then it is that column's value |
| Js.GetDistinct | services/nimbusService.ts:154-162 | In a row with distinct column names, reading a column's name gives that column's value |
| Js.FirstValue | services/nimbusService.ts:182 | `Object.values(row)[0]` is defined exactly when the row has a column |
| Js.DecimalRoundTrip | services/nimbusService.ts:120 | The decimal digits of a natural number are non-empty, all digits, and read back as that number |
| Js.NumberTextFixedPoint | services/nimbusService.ts:120 | `${x}` is `NaN` for `NaN`, and otherwise a minus sign exactly for a negative number followed by one or more decimal digits (fixed-point, no exponent) |
| Js.ParseNumber | services/nimbusService.ts:112-114 | `Number(s)` is a number exactly when `s` is empty, all digits, or a sign followed by digits; the empty string is 0, and an unsigned or `+` text is not negative |
| Js.NumberRoundTrip | services/nimbusService.ts:118-121 | The text `${x}` of a number, read back with `Number`, is `x`, for every integer and for `NaN` |
| Js.ToNumber | services/nimbusService.ts:112-114 | `Number(undefined)` is `NaN`, `Number(null)` is 0, a numeric column keeps its value, and the text of any number reads back as that number |
| Js.ToUpper | services/nimbusService.ts:119 | `toUpperCase` keeps the length and upper-cases each ASCII letter in place |
| Http.ApiCall | services/nimbusService.ts:16-28 | A 2xx answer resolves with its body. Any other answer rejects with the body's `error` text, or with 'API request failed' when there is none |
| Db.Store.constructor | lib/db.ts:11-36 | A new database has its three tables, all empty, and satisfies the table constraints (unique usernames, AUTOINCREMENT ids, session foreign key) |
| Db.Store.UserIdByName | lib/db.ts:52-53 | The lookup by name finds the one user with that name, or reports that no user has it |
| Db.Store.CreateUser | lib/db.ts:44-49 | Fails with the UNIQUE violation exactly when the name is taken, and then changes nothing. Otherwise adds one row whose id is the next AUTOINCREMENT value, with the salted hash and the creation time, advances the counter by one, and the credentials then validate |
| Db.Store.ValidateUser | lib/db.ts:51-62 | Finds a user exactly when one has that name and the password hashed with its salt equals its stored hash. Answers with id, name and creation time only |
| Db.Store.CreateSession | lib/db.ts:64-71 | Stores `{token, userId, now + 86 400 000}` and returns the token. The session validates at every time before expiry and at none from expiry on. A reused token or an unknown user fails and changes nothing |
| Db.Store.ValidateSession | lib/db.ts:73-81 | The joined user exactly when the token is stored, its expiry is strictly later than now, and its user exists. Expired rows stay |
| Db.Store.UpdatePassword | lib/db.ts:83-88 | Only that user's salt and hash change (an unknown id changes nothing), and the new password then validates |
| Db.Store.Bootstrap | lib/db.ts:90-95 | An empty users table gets exactly one user, the counter advances by one, and `admin`/`admin` then validates. A non-empty table and its counter are untouched |
| Auth.GetAuthToken | lib/auth.ts:3-9 | A token is found exactly when the header starts with `Bearer ` (case-sensitive), and the header is then `Bearer ` followed by that token |
| Auth.BearerRoundTrip | lib/auth.ts:5-7 | `Bearer t` gives back `t` for every `t`, the empty one included |
| Auth.LowerCaseSchemeRejected | lib/auth.ts:4-8 | `bearer t` never gives a token |
| Auth.IsAuthenticated | lib/auth.ts:11-15 | No token or an empty token is unauthenticated. Otherwise the answer is the session lookup unchanged |
| Auth.EmptyBearerUnauthenticated | lib/auth.ts:12-13 | The header `Bearer ` alone never authenticates |
| Listing.SpliceDescending | app/api/connections/route.ts:8 | An element placed between the keys at least its own and the keys below it keeps a list in descending order |
| Listing.Insert | app/api/connections/route.ts:8 | Inserting into a list sorted by descending key keeps it sorted and adds exactly that element |
| Listing.SortDescending | app/api/auth/user/route.ts:55 | The result holds every element of the table once (a permutation) and is in descending `created_at` order |
| ConnectionsRoute.RowOf | app/api/connections/route.ts:31 | The stored row keeps the given fields, with `password \|\| ''` and `created_at \|\| Date.now()` |
| ConnectionsRoute.Upsert | app/api/connections/route.ts:26-31 | After `INSERT OR REPLACE` the id is present with the new row, and every other row is unchanged |
| ConnectionsRoute.UpsertIdempotent | app/api/connections/route.ts:27-31 | Saving a profile that carries its creation time twice is saving it once |
| ConnectionsRoute.UpsertWithoutTimestampRestamps | app/api/connections/route.ts:31 | Without a creation time, a second save at a different time is a different state |
| ConnectionsRoute.Profiles | app/api/connections/route.ts:8-9 | The profile set is exactly the stored rows with their ids |
| ConnectionsRoute.Get | app/api/connections/route.ts:6-14 | 200 with every profile once, newest first |
| ConnectionsRoute.Post | app/api/connections/route.ts:17-37 | An unreadable body gives 500. A falsy id, name, host, port or username gives 400. Either way the table is unchanged. Otherwise 200, and the table is the upsert |
| ConnectionsRoute.Delete | app/api/connections/route.ts:40-56 | No id gives 400 and changes nothing. Otherwise 200, and exactly that id is gone, whether or not it was there |
| UserRoute.CreateFailure | app/api/auth/user/route.ts:14-25 | A UNIQUE violation answers 400 "用户名已存在". Any other error answers 500 with its message |
| UserRoute.DuplicateIsClientError | app/api/auth/user/route.ts:18-21 | The store's duplicate-name error is recognised as a UNIQUE violation |
| UserRoute.PasswordTarget | app/api/auth/user/route.ts:40 | A truthy `targetUserId`, else the caller's id |
| UserRoute.Post | app/api/auth/user/route.ts:6-26 | 401 when unauthenticated. 500 with the parse error's message for an unreadable body. 400 exactly for a falsy field. A taken name answers 400 "用户名已存在". 200 exactly when the name is free, and then exactly one new user with those credentials and the counter advanced by one. Users and the AUTOINCREMENT counter are unchanged on every other answer |
| UserRoute.Put | app/api/auth/user/route.ts:29-47 | 401 when unauthenticated, 500 with the parse error's message for an unreadable body, 400 for a falsy password, all changing nothing. Otherwise 200, with the target's salt and hash replaced (an unknown target changes nothing) |
| UserRoute.PublicUsers | app/api/auth/user/route.ts:55-56 | Exactly id, name and creation time of every user |
| UserRoute.Get | app/api/auth/user/route.ts:50-61 | 401 when unauthenticated. Otherwise every user's public record once, newest first |
| LoginRoute.Post | app/api/auth/login/route.ts:4-22 | Bad credentials give 401 "用户名或密码错误" with no session. Otherwise exactly one session for that user, valid now, answered with its token and the public user record. Errors give 500 with their message |
| QueryRoute.ConfigFor | app/api/query/route.ts:27-34 | The stored host, port, username and password, database `information_schema`, timeout 5000 ms |
| QueryRoute.MessageOr | app/api/query/route.ts:71 | The error message, or 'Unknown error occurred' when it is empty. Never empty |
| QueryRoute.Normalise | app/api/query/route.ts:46-60 | An array keeps its rows and the field names (or `[]`). An OK packet becomes one row, and the columns are `["Result"]` exactly when no field names came |
| QueryRoute.Post | app/api/query/route.ts:6-83 | Covers each exit. Missing input gives 400 and an unknown profile gives 404, with no connection. A refused connection or a failed query gives 500 with message and code. Success gives 200 with the normalised result. An opened connection is ended last, on every path, and only an opened one. A 2xx answer always carries a query body |
| Commands.Span | services/nimbusService.ts:94 | The longest prefix whose characters pass the test |
| Commands.SpanOfPrefix | services/nimbusService.ts:94 | A span stops exactly at the first failing character |
| Commands.SetCommandRoundTrip | services/nimbusService.ts:94 | `SET NIMBUS K = V`, for a key `K` of capitals, digits and underscores, reads back as `K` and `V` |
| Commands.SetCommandOfParse | services/nimbusService.ts:94 | Any command that reads back as some key and value is exactly `SET NIMBUS K = V` for them, and the key is a valid one, so each builder's statement is determined by what it reads back as |
| Commands.ReadQuotedRoundTrip | services/nimbusService.ts:186 | A quote-free string between single quotes reads back with whatever follows |
| Commands.FullReplicationCommand | services/nimbusService.ts:92-95 | Reads back as key `FULL_REPLICATION`, value `ON` or `OFF` as asked |
| Commands.IncrementalReplicationCommand | services/nimbusService.ts:97-100 | Reads back as key `INCREMENTAL_REPLICATION`, value `ON` or `OFF` as asked |
| Commands.SqlKey | services/nimbusService.ts:119 | Each performance key's name is a valid control key |
| Commands.UpperCasedKeys | services/nimbusService.ts:118-121 | Upper-casing the three property names gives `BINLOG_BATCH_SIZE`, `FETCH_BATCH_SIZE`, `FLUSH_INTERVAL_MS` |
| Commands.UpperCasedName | services/nimbusService.ts:119 | A snake-case name upper-cases letter by letter |
| Commands.PerformanceCommand | services/nimbusService.ts:118-121 | Reads back as exactly the upper-cased key and the text `${value}`, and that text reads back through `Number` as the number given |
| Commands.BinlogCommand | services/nimbusService.ts:140-143 | Reads back as key `BINLOG_POSITION` with value `'file' position` |
| Commands.CheckpointRoundTrip | services/nimbusService.ts:140-143 | A quote-free file name and the position both read back from the checkpoint value |
| Commands.QuotedFileNameMisread | services/nimbusService.ts:142 | The file name `x'` does not read back, because it is spliced unescaped |
| Commands.IncludedDbsCommand | services/nimbusService.ts:185-187 | Reads back as key `INCLUDED_DBS` with the filter in single quotes |
| Commands.IncludedDbsRoundTrip | services/nimbusService.ts:185-187 | A quote-free filter reads back whole from the command |
| Commands.SourceValues | services/nimbusService.ts:165-172 | One entry per key, five in all |
| Commands.SourceHostReadBack | services/nimbusService.ts:167 | A truthy host without quotes reads back, out of the quotes, as the host |
| Commands.SourcePortReadBack | services/nimbusService.ts:168 | A truthy port's bare text reads back through `Number` as the port |
| Commands.SourceUserReadBack | services/nimbusService.ts:169 | A truthy user name without quotes reads back, out of the quotes, as the user name |
| Commands.SourcePasswordReadBack | services/nimbusService.ts:170 | A truthy password without quotes reads back, out of the quotes, as the password |
| Commands.SourceServerIdReadBack | services/nimbusService.ts:171 | A truthy server id's bare text reads back through `Number` as the server id |
| Commands.SourceValuesPresent | services/nimbusService.ts:167-171 | Each field's entry is present exactly when the field is truthy (`""`, 0, `NaN` and absent are skipped) |
| Commands.PresentShape | services/nimbusService.ts:165-172 | The present positions are increasing, and are exactly the positions holding a value |
| Commands.CommandsAlign | services/nimbusService.ts:165-172 | The i-th command sets the i-th present field |
| Commands.CommandsParse | services/nimbusService.ts:165-172 | Every command reads back as its field's key and value |
| Commands.SourceKeysAreKeys | services/nimbusService.ts:167-171 | The five `MYSQL_*` names are valid control keys |
| Commands.SourceCommandsSpec | services/nimbusService.ts:165-172 | At most five commands, one per truthy field, in the order host, port, user, password, server id. Each reads back as that field's key and value |
| Commands.ReplicationStatusOf | services/nimbusService.ts:77-90 | Fails with "Failed to retrieve replication status" exactly when there is no row |
| Commands.PerformanceConfigOf | services/nimbusService.ts:104-116 | Fails with "Failed to retrieve performance config" exactly when there is no row |
| Commands.BinlogPositionOf | services/nimbusService.ts:125-138 | Fails with "Failed to retrieve binlog position" exactly when there is no row |
| Commands.SourceConfigOf | services/nimbusService.ts:147-163 | Fails with "Failed to retrieve mysql source config" exactly when there is no row |
| Commands.IncludedDbsOf | services/nimbusService.ts:176-183 | `""` for no row or a falsy first value, else that first value. It never fails |
| Commands.ReplicationRoundTrip | services/nimbusService.ts:84-89 | The switches and running states an engine reports are the ones read, whatever rows follow |
| Commands.PerformanceRoundTrip | services/nimbusService.ts:111-115 | A configuration reported as text is read back unchanged |
| Commands.BinlogRoundTrip | services/nimbusService.ts:132-137 | The file, position, server id and timestamp reported are the ones read |
| Commands.SourceRoundTrip | services/nimbusService.ts:154-162 | The host, port, user, password and server id reported are the ones read |
| Commands.IncludedDbsReadBack | services/nimbusService.ts:180-182 | A filter reported in a one-column row reads back, the empty filter included |
| NimbusService.Settled | services/nimbusService.ts:92-100 | A `set*` call resolves exactly when its statement did, and otherwise rejects with the statement's error |
| NimbusService.ReadWith | services/nimbusService.ts:77-90 | A `get*` call passes a rejection on unchanged, and otherwise applies its reader to the answer's rows |
| NimbusService.Outcome | services/nimbusService.ts:30-36 | Resolves exactly on a 2xx answer, with its query result, and otherwise rejects with `apiCall`'s error |
| NimbusService.Requests | services/nimbusService.ts:32-35 | One request per statement, in order, each carrying the connection id |
| NimbusService.RequestsCons | services/nimbusService.ts:32-35 | The requests for a first statement and the rest are that statement's request followed by the rest's |
| NimbusService.RunAllInactive | services/nimbusService.ts:31 | Without an active id the first statement is refused and nothing is sent |
| NimbusService.RunAllStep | services/nimbusService.ts:165-172 | A run is its first statement, then, only if that succeeded, the rest |
| NimbusService.RunAllSendsPrefix | services/nimbusService.ts:165-172 | A run sends a prefix of its statements, in order, each on the active connection |
| NimbusService.RunAllSentSucceeded | services/nimbusService.ts:165-172 | Every statement a run sent before the last one it sent succeeded |
| NimbusService.RunAllStopsAtFirstFailure | services/nimbusService.ts:165-172 | A run that succeeds sent all its statements and the last of them succeeded. A run that fails sent at least one, and rejects with the error of the last one sent, which is the first one rejected |
| NimbusService.SourceAfter | services/nimbusService.ts:167-171 | One field of the source update: a falsy field adds nothing, a rejection ends the update, and a success leaves the later fields |
| NimbusService.SourceDone | services/nimbusService.ts:171-172 | After the last field the update has succeeded |
| NimbusService.Service.constructor | services/nimbusService.ts:8-12 | The active id is the stored one, and nothing has been sent |
| NimbusService.Service.RunSql | services/nimbusService.ts:30-36 | Without a truthy active id it rejects with "No active connection selected" and sends nothing. Otherwise it sends exactly one request, `{connectionId, sql}` |
| NimbusService.Service.DeleteConnection | services/nimbusService.ts:48-54 | A rejected `DELETE` changes nothing. Otherwise the active id is cleared exactly when it was `id` |
| NimbusService.Service.SetActiveId | services/nimbusService.ts:60-65 | The id is selected before the `SELECT 1` ping and stays selected when the ping fails. The ping's outcome is the result |
| NimbusService.Service.GetReplicationStatus | services/nimbusService.ts:77-90 | Sends `SHOW NIMBUS REPLICATION` and reads its first row |
| NimbusService.Service.SetFullReplication | services/nimbusService.ts:92-95 | Sends the full-replication command and settles as it does |
| NimbusService.Service.SetIncrementalReplication | services/nimbusService.ts:97-100 | Sends the incremental-replication command and settles as it does |
| NimbusService.Service.GetPerformanceConfig | services/nimbusService.ts:104-116 | Sends `SHOW NIMBUS PERFORMANCE` and reads its first row |
| NimbusService.Service.UpdatePerformanceConfig | services/nimbusService.ts:118-121 | Sends the performance command and settles as it does |
| NimbusService.Service.GetBinlogPosition | services/nimbusService.ts:125-138 | Sends `SHOW NIMBUS BINLOG` and reads its first row |
| NimbusService.Service.SetBinlogPosition | services/nimbusService.ts:140-143 | Sends the checkpoint command and settles as it does |
| NimbusService.Service.GetSourceConfig | services/nimbusService.ts:147-163 | Sends `SHOW NIMBUS MYSQL` and reads its first row |
| NimbusService.Service.SetWhen | services/nimbusService.ts:167 | A falsy field sends nothing. Otherwise one `SET` statement is sent, and its rejection is passed on |
| NimbusService.Service.SourceStep | services/nimbusService.ts:167-171 | One field of the update, run against what the rest of the update comes to: a rejection is the whole update's outcome, a success leaves the later fields |
| NimbusService.Service.UpdateSourceConfig | services/nimbusService.ts:165-172 | The requests sent and the outcome are exactly those of awaiting, in order, the commands `SourceCommandsSpec` describes, stopping at the first rejection |
| NimbusService.Service.GetIncludedDbs | services/nimbusService.ts:176-183 | Sends `SHOW NIMBUS INCLUDED_DBS` and reads the first value, never failing on an empty answer |
| NimbusService.Service.SetIncludedDbs | services/nimbusService.ts:185-187 | Sends the included-databases command and settles as it does |
| NimbusService.Service.ExecuteQuery | services/nimbusService.ts:191-193 | The statement exactly as typed, on the active connection |

## Left out

- The React views and components, the app layout, the build configuration and the reachability probe route: presentation and configuration, with no logic of the core.
- PBKDF2 (section 5.2 of RFC 8018) is an uninterpreted function of (password, salt), fixed per store. Random salts and tokens, `Date.now()` and the elapsed time of a query are parameters, and `console` output is not modelled.
- SQLite and the MySQL driver are abstracted. Tables are maps, `ORDER BY created_at DESC` is `Listing.SortDescending` (ties in any order), and the driver is a pair of functions.
- The model assumes foreign keys are enforced, so a session for an unknown user fails.
- Db.Store.CreateSession: the model checks the token's uniqueness before the foreign key. Which error SQLite reports first when both fail is not modelled.
- The HTTP layer (`fetch`, `NextResponse`, JSON parsing) is abstracted: a body is either the decoded fields or the parse error's message, and a response is a status with a body. Body fields of an unexpected JSON type are not modelled.
- LoginRoute.Post: the credentials are taken as strings. A body missing `username` or `password` is not modelled.
- NimbusService.Service.DeleteConnection: the connections route's answer is a parameter, and the id is not URL-encoded into the query string.
- `localStorage` is the constructor's `stored` parameter. Writes to it in `setActiveId` and `deleteConnection` are not modelled.
- `getConnections` and `saveConnection` are single `apiCall`s whose contract is `Http.ApiCall`. `getActiveId` reads the `activeId` field. `getActiveConnection` always returns `undefined`. None of them has a member of its own.
- `fetch` failures (network errors, a body that is not JSON) are not modelled: every answer is a status with a body.
- Concurrency between requests and between the service's awaited calls is out of scope: each handler and each `runSql` is one atomic step.
- QueryRoute.Post: an error from `connection.end()` is ignored by the source and not modelled, and the connection is always ended once.
- Js.NumberText: numbers are unbounded integers rendered in fixed-point. JavaScript numbers are IEEE-754 doubles: the model is exact only for safe integers (|x| <= 2^53 - 1), since from 10^21 on `${x}` switches to exponent form (`1e+21`) and past 2^53 integers are rounded (`Number("9007199254740993")` is 9007199254740992). This affects the performance values, the binlog position and the source port and server id.
- Js.ToNumber: `Number` is modelled on integers and `NaN` only. Fractions, exponents, hexadecimal, `Infinity` and the trimming of white space are left out, as are numbers that are not integers.
- Js.ToUpper: only ASCII letters are upper-cased. Other Unicode case mappings are left out.
- Js.Get: a row is a list of named columns, and `Object.values` keeps column order. JavaScript's reordering of integer-like keys is left out.
- Commands.CheckpointRoundTrip: holds only for file names without a single quote, because the source splices the name unescaped (`Commands.QuotedFileNameMisread` shows the failure).
- Commands.IncludedDbsRoundTrip: holds only for filters without a single quote, for the same reason. The quoted string values of `updateSourceConfig` are likewise unescaped.
- Commands.SourceHostReadBack: holds only for a host without a single quote, because the host is spliced into the statement unescaped.
- Commands.SourceUserReadBack: holds only for a user name without a single quote, for the same reason.
- Commands.SourcePasswordReadBack: holds only for a password without a single quote, for the same reason.
- Commands.ReplicationStatusOf: the column values are cast, not checked, so the record holds each column as read. The `ON`/`OFF` and `Running`/`Stopped` vocabularies are not enforced.
- How the engine itself applies a `SET NIMBUS` command is outside this repository. `Commands.ParseSetCommand` is the reading every round trip is stated against.
