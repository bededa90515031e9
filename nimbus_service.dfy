/** The browser-side service (services/nimbusService.ts): it remembers the
    active connection id and turns each panel action into SQL text posted to
    `/api/query`.

    The query route is a parameter: `api(n, req)` is its answer to the n-th
    request the service sends. `issued` records the requests sent, in order,
    so that each method's contract can say exactly what went over the wire. */
module NimbusService {
  import opened Common
  import opened Js
  import opened Http
  import opened Commands

  /** The body of `POST /api/query`. */
  datatype Request = Request(connectionId: string, sql: string)

  /** The query route's answer to the n-th request. */
  type Api = (nat, Request) -> QueryReply

  const NoActiveConnection := "No active connection selected"
  const Ping := "SELECT 1"

  /** What `runSql` resolves or rejects with for one answer of the route. */
  function Outcome(reply: QueryReply): (r: Result<QueryResult, string>)
    ensures r.Success? <==> IsOk(reply.status)
    ensures r.Success? ==> reply.body == QueryBody(r.value)
    ensures r.Failure? ==> r == Failure(ApiCall(reply).error)
  {
    match ApiCall(reply)
    case Success(body) => Success(body.result)
    case Failure(e) => Failure(e)
  }

  /** `runSql(sql)` as the n-th request: refused without a (truthy) active id,
      otherwise the route's answer. */
  function Send(api: Api, n: nat, active: Option<string>, sql: string): Result<QueryResult, string> {
    if !TruthyText(active) then Failure(NoActiveConnection) else Outcome(api(n, Request(active.value, sql)))
  }

  /** The request log after `runSql(sql)`: unchanged when it is refused. */
  function Log(log: seq<Request>, active: Option<string>, sql: string): seq<Request> {
    if !TruthyText(active) then log else log + [Request(active.value, sql)]
  }

  /** How a `set*` call settles on the outcome of its one statement. */
  function Settled(sent: Result<QueryResult, string>): (r: Result<Unit, string>)
    ensures r.Success? <==> sent.Success?
    ensures r.Failure? ==> r.error == sent.error
  {
    if sent.Success? then Success(Unit) else Failure(sent.error)
  }

  /** How a `get*` call settles: a rejection is passed on, otherwise `read`
      is applied to the answer's rows. */
  function ReadWith<T>(sent: Result<QueryResult, string>, read: seq<Row> -> Result<T, string>): (r: Result<T, string>)
    ensures sent.Failure? ==> r == Failure(sent.error)
    ensures sent.Success? ==> r == read(sent.value.rows)
  {
    match sent
    case Failure(e) => Failure(e)
    case Success(q) => read(q.rows)
  }

  /** The requests for a run of statements on one connection. */
  function Requests(id: string, cmds: seq<string>): (reqs: seq<Request>)
    ensures |reqs| == |cmds|
    ensures forall i :: 0 <= i < |cmds| ==> reqs[i] == Request(id, cmds[i])
  {
    seq(|cmds|, i requires 0 <= i < |cmds| => Request(id, cmds[i]))
  }

  lemma RequestsCons(id: string, cmd: string, rest: seq<string>)
    ensures Requests(id, [cmd] + rest) == [Request(id, cmd)] + Requests(id, rest)
  {
    assert forall i :: 0 < i <= |rest| ==> ([cmd] + rest)[i] == rest[i - 1];
  }

  /** Awaiting `runSql` on each statement in turn: the first rejection ends
      the run and is the run's rejection. */
  function RunAll(api: Api, log: seq<Request>, active: Option<string>, cmds: seq<string>): (seq<Request>, Result<Unit, string>)
    decreases |cmds|
  {
    if cmds == [] then (log, Success(Unit))
    else
      match Send(api, |log|, active, cmds[0])
      case Failure(e) => (Log(log, active, cmds[0]), Failure(e))
      case Success(_) => RunAll(api, Log(log, active, cmds[0]), active, cmds[1..])
  }

  /** Without an active connection the first statement is refused and nothing is sent. */
  lemma RunAllInactive(api: Api, log: seq<Request>, active: Option<string>, cmds: seq<string>)
    requires !TruthyText(active) && cmds != []
    ensures RunAll(api, log, active, cmds) == (log, Failure(NoActiveConnection))
  {
  }

  /** One step of a run: the first statement, then the rest if it succeeded. */
  lemma RunAllStep(api: Api, log: seq<Request>, active: Option<string>, cmd: string, rest: seq<string>)
    ensures Send(api, |log|, active, cmd).Failure? ==>
              RunAll(api, log, active, [cmd] + rest) == (Log(log, active, cmd), Failure(Send(api, |log|, active, cmd).error))
    ensures Send(api, |log|, active, cmd).Success? ==>
              RunAll(api, log, active, [cmd] + rest) == RunAll(api, Log(log, active, cmd), active, rest)
  {
    assert ([cmd] + rest)[0] == cmd;
    assert ([cmd] + rest)[1..] == rest;
  }

  /** With an active connection, a run sends a prefix of its statements, in
      order, each carrying the active id. */
  lemma {:induction false} RunAllSendsPrefix(api: Api, log: seq<Request>, active: Option<string>, cmds: seq<string>)
    requires TruthyText(active)
    ensures var out := RunAll(api, log, active, cmds).0;
      && |log| <= |out| <= |log| + |cmds|
      && out == log + Requests(active.value, cmds[..|out| - |log|])
    decreases |cmds|
  {
    if cmds != [] {
      var id := active.value;
      var log' := log + [Request(id, cmds[0])];
      if Send(api, |log|, active, cmds[0]).Failure? {
        assert RunAll(api, log, active, cmds).0 == log';
        assert cmds[..1] == [cmds[0]] + [];
        RequestsCons(id, cmds[0], []);
      } else {
        assert RunAll(api, log, active, cmds) == RunAll(api, log', active, cmds[1..]);
        RunAllSendsPrefix(api, log', active, cmds[1..]);
        var out := RunAll(api, log', active, cmds[1..]).0;
        var m := |out| - |log'|;
        assert cmds[..m + 1] == [cmds[0]] + cmds[1..][..m];
        RequestsCons(id, cmds[0], cmds[1..][..m]);
        assert out == log + ([Request(id, cmds[0])] + Requests(id, cmds[1..][..m]));
      }
    }
  }

  /** With an active connection, every statement a run sent before the last
      one it sent succeeded. */
  lemma {:induction false} RunAllSentSucceeded(api: Api, log: seq<Request>, active: Option<string>, cmds: seq<string>)
    requires TruthyText(active)
    ensures var out := RunAll(api, log, active, cmds).0;
      forall j :: 0 <= j < |cmds| && |log| + j + 1 < |out| ==> Send(api, |log| + j, active, cmds[j]).Success?
    decreases |cmds|
  {
    if cmds != [] && Send(api, |log|, active, cmds[0]).Success? {
      var log' := log + [Request(active.value, cmds[0])];
      RunAllSentSucceeded(api, log', active, cmds[1..]);
      var out := RunAll(api, log', active, cmds[1..]).0;
      forall j | 0 < j < |cmds| && |log| + j + 1 < |out|
        ensures Send(api, |log| + j, active, cmds[j]).Success?
      {
        assert cmds[j] == cmds[1..][j - 1];
        assert |log| + j == |log'| + (j - 1);
      }
    }
  }

  /** With an active connection, a run succeeds exactly when it sent every
      statement and none was rejected; otherwise it rejects with the error of
      the last statement it sent. */
  lemma {:induction false} RunAllStopsAtFirstFailure(api: Api, log: seq<Request>, active: Option<string>, cmds: seq<string>)
    requires TruthyText(active)
    ensures var (out, r) := RunAll(api, log, active, cmds);
      && |out| >= |log|
      && (r.Success? ==> |out| == |log| + |cmds|
                         && (cmds != [] ==> Send(api, |out| - 1, active, cmds[|cmds| - 1]).Success?))
      && (r.Failure? ==> |log| < |out| <= |log| + |cmds|
                         && Send(api, |out| - 1, active, cmds[|out| - 1 - |log|]) == Failure(r.error))
    decreases |cmds|
  {
    if cmds != [] && Send(api, |log|, active, cmds[0]).Success? {
      var log' := log + [Request(active.value, cmds[0])];
      RunAllStopsAtFirstFailure(api, log', active, cmds[1..]);
      var (out, r) := RunAll(api, log', active, cmds[1..]);
      if r.Failure? {
        assert cmds[|out| - 1 - |log|] == cmds[1..][|out| - 1 - |log'|];
      }
    }
  }

  /** `if (value) await runSql(`SET NIMBUS <key> = <value>`)` with the request
      log at `log`: the log it leaves and how it settles. */
  function SetStep(api: Api, active: Option<string>, log: seq<Request>, key: string, value: Option<string>)
    : (seq<Request>, Result<Unit, string>)
  {
    match value
    case None => (log, Success(Unit))
    case Some(v) =>
      var sql := SetCommand(key, v);
      (Log(log, active, sql), if Send(api, |log|, active, sql).Success? then Success(Unit) else Failure(Send(api, |log|, active, sql).error))
  }

  /** Field `k` of a source update, taking the request log from `before` with
      outcome `step`, where `goal` is what remained of the update: a falsy
      field adds nothing; a truthy one runs its statement, whose rejection
      ends the update and whose success leaves the later fields. */
  lemma SourceAfter(api: Api, active: Option<string>, c: SourcePatch, k: nat, before: seq<Request>,
                    step: (seq<Request>, Result<Unit, string>), goal: (seq<Request>, Result<Unit, string>))
    requires k < 5
    requires goal == RunAll(api, before, active, CommandsFrom(SourceKeys, SourceValues(c), k))
    requires step == SetStep(api, active, before, SourceKeys[k], SourceValues(c)[k])
    ensures step.1.Failure? ==> goal == step
    ensures step.1.Success? ==> goal == RunAll(api, step.0, active, CommandsFrom(SourceKeys, SourceValues(c), k + 1))
  {
    var vals := SourceValues(c);
    if vals[k].Some? {
      var sql := SetCommand(SourceKeys[k], vals[k].value);
      assert CommandsFrom(SourceKeys, vals, k) == [sql] + CommandsFrom(SourceKeys, vals, k + 1);
      RunAllStep(api, before, active, sql, CommandsFrom(SourceKeys, vals, k + 1));
    } else {
      assert CommandsFrom(SourceKeys, vals, k) == CommandsFrom(SourceKeys, vals, k + 1);
    }
  }

  /** After the last field, the update has succeeded. */
  lemma SourceDone(api: Api, active: Option<string>, c: SourcePatch, log: seq<Request>,
                   goal: (seq<Request>, Result<Unit, string>))
    requires goal == RunAll(api, log, active, CommandsFrom(SourceKeys, SourceValues(c), 5))
    ensures goal == (log, Success(Unit))
  {
  }

  class Service {
    /** The query route, as seen from the browser. */
    const api: Api
    /** `activeId`: the connection the statements run against. */
    var activeId: Option<string>
    /** The requests posted to `/api/query` so far, oldest first. */
    var issued: seq<Request>

    /** `new NimbusService()`: the active id is whatever was kept in the
        browser's storage under `nimbus_active_id_v2` (`None` when absent). */
    constructor (stored: Option<string>, api: Api)
      ensures activeId == stored && issued == [] && this.api == api
    {
      this.api := api;
      activeId := stored;
      issued := [];
    }

    /** `runSql`: refused without a truthy active id (nothing is sent),
        otherwise one request carrying the active id and the statement. */
    method RunSql(sql: string) returns (r: Result<QueryResult, string>)
      modifies this`issued
      ensures issued == Log(old(issued), activeId, sql)
      ensures r == Send(api, |old(issued)|, activeId, sql)
      ensures !TruthyText(activeId) ==> r == Failure(NoActiveConnection) && issued == old(issued)
    {
      if !TruthyText(activeId) {
        return Failure(NoActiveConnection);
      }
      var reply := api(|issued|, Request(activeId.value, sql));
      issued := issued + [Request(activeId.value, sql)];
      r := Outcome(reply);
    }

    /** `deleteConnection(id)`, given the connections route's answer to the
        `DELETE`: a rejected call changes nothing; otherwise the active id is
        cleared exactly when it was `id`. */
    method DeleteConnection(id: string, reply: Response) returns (r: Result<Unit, string>)
      modifies this`activeId
      ensures r.Success? <==> IsOk(reply.status)
      ensures r.Failure? ==> r.error == ApiCall(reply).error && activeId == old(activeId)
      ensures r.Success? && old(activeId) == Some(id) ==> activeId == None
      ensures r.Success? && old(activeId) != Some(id) ==> activeId == old(activeId)
    {
      var call := ApiCall(reply);
      if call.Failure? {
        return Failure(call.error);
      }
      if activeId == Some(id) {
        activeId := None;
      }
      r := Success(Unit);
    }

    /** `setActiveId(id)`: the id is stored first, then pinged with `SELECT 1`;
        a failed ping rejects but the id stays selected. */
    method SetActiveId(id: string) returns (r: Result<Unit, string>)
      modifies this`activeId, this`issued
      ensures activeId == Some(id)
      ensures issued == Log(old(issued), Some(id), Ping)
      ensures r.Success? <==> Send(api, |old(issued)|, Some(id), Ping).Success?
      ensures r.Failure? ==> r == Failure(Send(api, |old(issued)|, Some(id), Ping).error)
      ensures id == "" ==> r == Failure(NoActiveConnection) && issued == old(issued)
    {
      activeId := Some(id);
      var ping := RunSql(Ping);
      r := Settled(ping);
    }

    /** `getReplicationStatus`. */
    method GetReplicationStatus() returns (r: Result<ReplicationStatus, string>)
      modifies this`issued
      ensures issued == Log(old(issued), activeId, ShowReplication)
      ensures r == ReadWith(Send(api, |old(issued)|, activeId, ShowReplication), ReplicationStatusOf)
    {
      var result := RunSql(ShowReplication);
      if result.Failure? {
        return Failure(result.error);
      }
      r := ReplicationStatusOf(result.value.rows);
    }

    /** `setFullReplication(enable)`. */
    method SetFullReplication(enable: bool) returns (r: Result<Unit, string>)
      modifies this`issued
      ensures issued == Log(old(issued), activeId, FullReplicationCommand(enable))
      ensures r == Settled(Send(api, |old(issued)|, activeId, FullReplicationCommand(enable)))
    {
      var result := RunSql(FullReplicationCommand(enable));
      r := Settled(result);
    }

    /** `setIncrementalReplication(enable)`. */
    method SetIncrementalReplication(enable: bool) returns (r: Result<Unit, string>)
      modifies this`issued
      ensures issued == Log(old(issued), activeId, IncrementalReplicationCommand(enable))
      ensures r == Settled(Send(api, |old(issued)|, activeId, IncrementalReplicationCommand(enable)))
    {
      var result := RunSql(IncrementalReplicationCommand(enable));
      r := Settled(result);
    }

    /** `getPerformanceConfig`. */
    method GetPerformanceConfig() returns (r: Result<PerformanceConfig, string>)
      modifies this`issued
      ensures issued == Log(old(issued), activeId, ShowPerformance)
      ensures r == ReadWith(Send(api, |old(issued)|, activeId, ShowPerformance), PerformanceConfigOf)
    {
      var result := RunSql(ShowPerformance);
      if result.Failure? {
        return Failure(result.error);
      }
      r := PerformanceConfigOf(result.value.rows);
    }

    /** `updatePerformanceConfig(key, value)`. */
    method UpdatePerformanceConfig(key: PerformanceKey, value: JsNumber) returns (r: Result<Unit, string>)
      modifies this`issued
      ensures issued == Log(old(issued), activeId, PerformanceCommand(key, value))
      ensures r == Settled(Send(api, |old(issued)|, activeId, PerformanceCommand(key, value)))
    {
      var result := RunSql(PerformanceCommand(key, value));
      r := Settled(result);
    }

    /** `getBinlogPosition`. */
    method GetBinlogPosition() returns (r: Result<BinlogPosition, string>)
      modifies this`issued
      ensures issued == Log(old(issued), activeId, ShowBinlog)
      ensures r == ReadWith(Send(api, |old(issued)|, activeId, ShowBinlog), BinlogPositionOf)
    {
      var result := RunSql(ShowBinlog);
      if result.Failure? {
        return Failure(result.error);
      }
      r := BinlogPositionOf(result.value.rows);
    }

    /** `setBinlogPosition(file, position)`. */
    method SetBinlogPosition(file: string, position: JsNumber) returns (r: Result<Unit, string>)
      modifies this`issued
      ensures issued == Log(old(issued), activeId, BinlogCommand(file, position))
      ensures r == Settled(Send(api, |old(issued)|, activeId, BinlogCommand(file, position)))
    {
      var result := RunSql(BinlogCommand(file, position));
      r := Settled(result);
    }

    /** `getSourceConfig`. */
    method GetSourceConfig() returns (r: Result<SourceConfig, string>)
      modifies this`issued
      ensures issued == Log(old(issued), activeId, ShowSource)
      ensures r == ReadWith(Send(api, |old(issued)|, activeId, ShowSource), SourceConfigOf)
    {
      var result := RunSql(ShowSource);
      if result.Failure? {
        return Failure(result.error);
      }
      r := SourceConfigOf(result.value.rows);
    }

    /** `if (field) await this.runSql(`SET NIMBUS <key> = <value>`)`: nothing
        happens for a falsy field (`value` is `None`); otherwise the statement
        is run and its rejection passed on. */
    method SetWhen(key: string, value: Option<string>) returns (r: Result<Unit, string>)
      modifies this`issued
      ensures (issued, r) == SetStep(api, activeId, old(issued), key, value)
    {
      r := Success(Unit);
      if value.Some? {
        var result := RunSql(SetCommand(key, value.value));
        if result.Failure? {
          r := Failure(result.error);
        }
      }
    }

    /** Field `k` of `updateSourceConfig`, where `goal` is what the rest of the
        update from field `k` on comes to: a rejection here is the whole
        update's outcome, a success leaves the later fields to reach `goal`. */
    method SourceStep(config: SourcePatch, k: nat, ghost goal: (seq<Request>, Result<Unit, string>))
      returns (r: Result<Unit, string>)
      requires k < 5
      requires goal == RunAll(api, issued, activeId, CommandsFrom(SourceKeys, SourceValues(config), k))
      modifies this`issued
      ensures r.Failure? ==> (issued, r) == goal
      ensures r.Success? ==> goal == RunAll(api, issued, activeId, CommandsFrom(SourceKeys, SourceValues(config), k + 1))
    {
      ghost var before := issued;
      r := SetWhen(SourceKeys[k], SourceValues(config)[k]);
      SourceAfter(api, activeId, config, k, before, (issued, r), goal);
    }

    /** `updateSourceConfig(config)`: for host, port, user, password and
        server id in that order, one awaited statement when the field is
        truthy (`SourceValues` holds each field's value text, quoted for the
        strings); the first rejection ends it. */
    method UpdateSourceConfig(config: SourcePatch) returns (r: Result<Unit, string>)
      modifies this`issued
      ensures (issued, r) == RunAll(api, old(issued), activeId, SourceConfigCommands(config))
    {
      ghost var goal := RunAll(api, issued, activeId, SourceConfigCommands(config));
      var k := 0;  // the field being set: host, port, user, password, server id
      r := SourceStep(config, k, goal);
      if r.Failure? {
        return;
      }
      k := k + 1;
      r := SourceStep(config, k, goal);
      if r.Failure? {
        return;
      }
      k := k + 1;
      r := SourceStep(config, k, goal);
      if r.Failure? {
        return;
      }
      k := k + 1;
      r := SourceStep(config, k, goal);
      if r.Failure? {
        return;
      }
      k := k + 1;
      r := SourceStep(config, k, goal);
      if r.Failure? {
        return;
      }
      SourceDone(api, activeId, config, issued, goal);
      r := Success(Unit);
    }

    /** `getIncludedDbs`: a missing row or a falsy first value reads as `""`. */
    method GetIncludedDbs() returns (r: Result<Value, string>)
      modifies this`issued
      ensures issued == Log(old(issued), activeId, ShowIncludedDbs)
      ensures r == ReadWith(Send(api, |old(issued)|, activeId, ShowIncludedDbs), rows => Success(IncludedDbsOf(rows)))
    {
      var result := RunSql(ShowIncludedDbs);
      if result.Failure? {
        return Failure(result.error);
      }
      r := Success(IncludedDbsOf(result.value.rows));
    }

    /** `setIncludedDbs(dbs)`. */
    method SetIncludedDbs(dbs: string) returns (r: Result<Unit, string>)
      modifies this`issued
      ensures issued == Log(old(issued), activeId, IncludedDbsCommand(dbs))
      ensures r == Settled(Send(api, |old(issued)|, activeId, IncludedDbsCommand(dbs)))
    {
      var result := RunSql(IncludedDbsCommand(dbs));
      r := Settled(result);
    }

    /** `executeQuery(sql)`: the statement as typed, on the active connection. */
    method ExecuteQuery(sql: string) returns (r: Result<QueryResult, string>)
      modifies this`issued
      ensures issued == Log(old(issued), activeId, sql)
      ensures r == Send(api, |old(issued)|, activeId, sql)
      ensures r.Success? ==> TruthyText(activeId) && issued == old(issued) + [Request(activeId.value, sql)]
    {
      r := RunSql(sql);
    }
  }
}
