/** The control-command dialect (services/nimbusService.ts): the
    `SET NIMBUS <KEY> = <VALUE>` strings the service builds, and the records it
    reads out of the first row of a `SHOW NIMBUS <TOPIC>` answer.

    Each builder is paired with a reader of the command it builds
    (`ParseSetCommand`, `ReadQuoted`, `ParseCheckpoint`), and each row reader
    with the row an engine reporting a given configuration would send. */
module Commands {
  import opened Common
  import opened Js

  // ---------------------------------------------------------------- scanning

  /** The length of the longest prefix of `s` whose characters all satisfy `p`. */
  function Span(s: string, p: char -> bool): (n: nat)
    ensures n <= |s|
    ensures forall i :: 0 <= i < n ==> p(s[i])
    ensures n < |s| ==> !p(s[n])
  {
    if s == [] || !p(s[0]) then 0 else 1 + Span(s[1..], p)
  }

  /** A span stops exactly at the first character that fails the test. */
  lemma SpanOfPrefix(a: string, b: string, p: char -> bool)
    requires forall i :: 0 <= i < |a| ==> p(a[i])
    requires b != [] && !p(b[0])
    ensures Span(a + b, p) == |a|
  {
    assert (a + b)[|a|] == b[0];
  }

  // ---------------------------------------------------------------- SET NIMBUS <KEY> = <VALUE>

  const SetPrefix := "SET NIMBUS "
  const Assign := " = "

  predicate IsKeyChar(c: char) {
    'A' <= c <= 'Z' || '0' <= c <= '9' || c == '_'
  }

  /** A control key: upper-case letters, digits and underscores. */
  predicate IsKey(k: string) {
    |k| > 0 && forall i :: 0 <= i < |k| ==> IsKeyChar(k[i])
  }

  function SetCommand(key: string, value: string): string {
    SetPrefix + key + Assign + value
  }

  /** How the engine reads a `SET NIMBUS` command: the key is the run of key
      characters after the prefix, the value everything after ` = `. */
  function ParseSetCommand(cmd: string): Option<(string, string)> {
    if !StartsWith(cmd, SetPrefix) then None
    else
      var rest := cmd[|SetPrefix|..];
      var n := Span(rest, IsKeyChar);
      if n > 0 && StartsWith(rest[n..], Assign) then Some((rest[..n], rest[n + |Assign|..])) else None
  }

  /** Every command built from a key reads back as that key and value. */
  lemma SetCommandRoundTrip(key: string, value: string)
    requires IsKey(key)
    ensures ParseSetCommand(SetCommand(key, value)) == Some((key, value))
  {
    var cmd := SetCommand(key, value);
    assert cmd[..|SetPrefix|] == SetPrefix;
    var rest := cmd[|SetPrefix|..];
    assert rest == key + (Assign + value);
    SpanOfPrefix(key, Assign + value, IsKeyChar);
    assert rest[|key|..] == Assign + value;
    assert rest[..|key|] == key;
  }

  /** A command that reads back at all is the command built from what it reads
      back as: `SetCommand` is the only way to write a `SET NIMBUS` command. */
  lemma SetCommandOfParse(cmd: string)
    requires ParseSetCommand(cmd).Some?
    ensures IsKey(ParseSetCommand(cmd).value.0)
    ensures cmd == SetCommand(ParseSetCommand(cmd).value.0, ParseSetCommand(cmd).value.1)
  {
    var rest := cmd[|SetPrefix|..];
    var n := Span(rest, IsKeyChar);
    assert cmd == SetPrefix + rest;
    assert rest == rest[..n] + (Assign + rest[n + |Assign|..]);
  }

  // ---------------------------------------------------------------- quoting

  function Quote(s: string): string {
    "'" + s + "'"
  }

  predicate NotQuote(c: char) {
    c != '\''
  }

  /** A single-quoted string at the start of `v`: its contents and what follows
      the closing quote. */
  function ReadQuoted(v: string): Option<(string, string)> {
    if v == [] || v[0] != '\'' then None
    else
      var n := Span(v[1..], NotQuote);
      if n == |v| - 1 then None else Some((v[1..n + 1], v[n + 2..]))
  }

  /** A string without quote characters survives quoting. */
  lemma {:induction false} ReadQuotedRoundTrip(s: string, rest: string)
    requires forall i :: 0 <= i < |s| ==> NotQuote(s[i])
    ensures ReadQuoted(Quote(s) + rest) == Some((s, rest))
  {
    var v := Quote(s) + rest;
    assert v[1..] == s + ("'" + rest);
    SpanOfPrefix(s, "'" + rest, NotQuote);
    assert v[1..|s| + 1] == s;
    assert v[|s| + 2..] == rest;
  }

  // ---------------------------------------------------------------- replication toggles

  function SwitchText(enable: bool): string {
    if enable then "ON" else "OFF"
  }

  /** `setFullReplication`: `SET NIMBUS FULL_REPLICATION = ON|OFF`. */
  function FullReplicationCommand(enable: bool): (cmd: string)
    ensures ParseSetCommand(cmd) == Some(("FULL_REPLICATION", if enable then "ON" else "OFF"))
  {
    SetCommandRoundTrip("FULL_REPLICATION", SwitchText(enable));
    SetCommand("FULL_REPLICATION", SwitchText(enable))
  }

  /** `setIncrementalReplication`: `SET NIMBUS INCREMENTAL_REPLICATION = ON|OFF`. */
  function IncrementalReplicationCommand(enable: bool): (cmd: string)
    ensures ParseSetCommand(cmd) == Some(("INCREMENTAL_REPLICATION", if enable then "ON" else "OFF"))
  {
    SetCommandRoundTrip("INCREMENTAL_REPLICATION", SwitchText(enable));
    SetCommand("INCREMENTAL_REPLICATION", SwitchText(enable))
  }

  // ---------------------------------------------------------------- performance keys

  /** `keyof PerformanceConfig`. */
  datatype PerformanceKey = BinlogBatchSize | FetchBatchSize | FlushIntervalMs

  /** The property name, which is also the column name of `SHOW NIMBUS PERFORMANCE`. */
  function FieldName(k: PerformanceKey): string {
    match k
    case BinlogBatchSize => "binlog_batch_size"
    case FetchBatchSize => "fetch_batch_size"
    case FlushIntervalMs => "flush_interval_ms"
  }

  /** The upper-cased name of each key, as the engine knows it. */
  function SqlKey(k: PerformanceKey): (key: string)
    ensures IsKey(key)
  {
    match k
    case BinlogBatchSize => "BINLOG_BATCH_SIZE"
    case FetchBatchSize => "FETCH_BATCH_SIZE"
    case FlushIntervalMs => "FLUSH_INTERVAL_MS"
  }

  lemma UpperCasedKeys(k: PerformanceKey)
    ensures ToUpper(FieldName(k)) == SqlKey(k)
  {
    match k
    case BinlogBatchSize => UpperCasedName("binlog_batch_size", "BINLOG_BATCH_SIZE");
    case FetchBatchSize => UpperCasedName("fetch_batch_size", "FETCH_BATCH_SIZE");
    case FlushIntervalMs => UpperCasedName("flush_interval_ms", "FLUSH_INTERVAL_MS");
  }

  /** A snake-case name upper-cases to the same letters in capitals. */
  lemma UpperCasedName(name: string, key: string)
    requires |name| == |key|
    requires forall i :: 0 <= i < |name| ==> (if name[i] == '_' then key[i] == '_' else key[i] as int == name[i] as int - 32 && 'a' <= name[i] <= 'z')
    ensures ToUpper(name) == key
  {
    var upper := ToUpper(name);
    forall i | 0 <= i < |name|
      ensures upper[i] == key[i]
    {
      assert upper[i] == UpperChar(name[i]);
    }
  }

  /** `updatePerformanceConfig(k, v)`: `SET NIMBUS <K upper-cased> = <v>`; the
      value text reads back, through `Number`, as `v`. */
  function PerformanceCommand(k: PerformanceKey, value: JsNumber): (cmd: string)
    ensures ParseSetCommand(cmd).Some?
    ensures ParseSetCommand(cmd).value.0 == SqlKey(k)
    ensures ParseNumber(ParseSetCommand(cmd).value.1) == value
    ensures ParseSetCommand(cmd) == Some((SqlKey(k), NumberText(value)))
  {
    UpperCasedKeys(k);
    SetCommandRoundTrip(SqlKey(k), NumberText(value));
    NumberRoundTrip(value);
    SetCommand(ToUpper(FieldName(k)), NumberText(value))
  }

  // ---------------------------------------------------------------- binlog checkpoint

  /** The value of `SET NIMBUS BINLOG_POSITION`: the file quoted (unescaped), a
      space, then the position. */
  function CheckpointText(file: string, position: JsNumber): string {
    Quote(file) + " " + NumberText(position)
  }

  /** A reading of a checkpoint value: a quoted file name, one space, a number. */
  function ParseCheckpoint(v: string): Option<(string, JsNumber)> {
    match ReadQuoted(v)
    case None => None
    case Some((file, rest)) =>
      if rest != [] && rest[0] == ' ' then Some((file, ParseNumber(rest[1..]))) else None
  }

  /** `setBinlogPosition(f, p)`: `SET NIMBUS BINLOG_POSITION = 'f' p`. */
  function BinlogCommand(file: string, position: JsNumber): (cmd: string)
    ensures ParseSetCommand(cmd) == Some(("BINLOG_POSITION", CheckpointText(file, position)))
  {
    SetCommandRoundTrip("BINLOG_POSITION", CheckpointText(file, position));
    SetCommand("BINLOG_POSITION", CheckpointText(file, position))
  }

  /** A file name without quotes and the position both read back. */
  lemma CheckpointRoundTrip(file: string, position: JsNumber)
    requires forall i :: 0 <= i < |file| ==> NotQuote(file[i])
    ensures ParseCheckpoint(CheckpointText(file, position)) == Some((file, position))
  {
    assert CheckpointText(file, position) == Quote(file) + (" " + NumberText(position));
    ReadQuotedRoundTrip(file, " " + NumberText(position));
    assert (" " + NumberText(position))[1..] == NumberText(position);
    NumberRoundTrip(position);
  }

  /** The file name is spliced without escaping: a quote in it ends the quoted
      part early, and the checkpoint no longer reads back. */
  lemma QuotedFileNameMisread(position: JsNumber)
    ensures ParseCheckpoint(CheckpointText("x'", position)) != Some(("x'", position))
  {
    var v := CheckpointText("x'", position);
    assert v == Quote("x") + ("' " + NumberText(position));
    ReadQuotedRoundTrip("x", "' " + NumberText(position));
  }

  // ---------------------------------------------------------------- included databases

  /** `setIncludedDbs(d)`: `SET NIMBUS INCLUDED_DBS = 'd'`. */
  function IncludedDbsCommand(dbs: string): (cmd: string)
    ensures ParseSetCommand(cmd) == Some(("INCLUDED_DBS", Quote(dbs)))
  {
    SetCommandRoundTrip("INCLUDED_DBS", Quote(dbs));
    SetCommand("INCLUDED_DBS", Quote(dbs))
  }

  /** A filter without quotes reads back whole from the command's value. */
  lemma IncludedDbsRoundTrip(dbs: string)
    requires forall i :: 0 <= i < |dbs| ==> NotQuote(dbs[i])
    ensures ReadQuoted(ParseSetCommand(IncludedDbsCommand(dbs)).value.1) == Some((dbs, ""))
  {
    assert Quote(dbs) == Quote(dbs) + "";
    ReadQuotedRoundTrip(dbs, "");
  }

  // ---------------------------------------------------------------- source configuration

  /** `Partial<MySqlSourceConfig>`: an absent field is `None`. */
  datatype SourcePatch = SourcePatch(
    host: Option<string>, port: Option<JsNumber>, user: Option<string>,
    password: Option<string>, serverId: Option<JsNumber>)

  /** The five keys, in the order `updateSourceConfig` tries them. */
  const SourceKeys: seq<string> := ["MYSQL_HOST", "MYSQL_PORT", "MYSQL_USER", "MYSQL_PASSWORD", "MYSQL_SERVER_ID"]

  predicate TruthyField(x: Option<JsNumber>) {
    x.Some? && TruthyNumber(x.value)
  }

  /** For each of the five fields, in key order, the value text to send when
      the field is truthy (strings quoted, numbers bare), or `None`. */
  function SourceValues(c: SourcePatch): (vals: seq<Option<string>>)
    ensures |vals| == |SourceKeys|
  {
    [if TruthyText(c.host) then Some(Quote(c.host.value)) else None,
     if TruthyField(c.port) then Some(NumberText(c.port.value)) else None,
     if TruthyText(c.user) then Some(Quote(c.user.value)) else None,
     if TruthyText(c.password) then Some(Quote(c.password.value)) else None,
     if TruthyField(c.serverId) then Some(NumberText(c.serverId.value)) else None]
  }

  /** The commands for the fields from `k` on: one per present value. */
  function CommandsFrom(keys: seq<string>, vals: seq<Option<string>>, k: nat): seq<string>
    requires |keys| == |vals|
    decreases |vals| - k
  {
    if k >= |vals| then []
    else (match vals[k]
          case Some(v) => [SetCommand(keys[k], v)]
          case None => []) + CommandsFrom(keys, vals, k + 1)
  }

  /** The commands `updateSourceConfig` means to issue. */
  function SourceConfigCommands(c: SourcePatch): seq<string> {
    CommandsFrom(SourceKeys, SourceValues(c), 0)
  }

  /** The positions from `k` on whose value is present, in order. */
  function PresentFrom(vals: seq<Option<string>>, k: nat): seq<nat>
    decreases |vals| - k
  {
    if k >= |vals| then [] else (if vals[k].Some? then [k] else []) + PresentFrom(vals, k + 1)
  }

  /** The present positions from `k` on: each one once, in increasing order. */
  lemma {:induction false} PresentShape(vals: seq<Option<string>>, k: nat)
    requires k <= |vals|
    ensures |PresentFrom(vals, k)| <= |vals| - k
    ensures forall i, j :: 0 <= i < j < |PresentFrom(vals, k)| ==> PresentFrom(vals, k)[i] < PresentFrom(vals, k)[j]
    ensures forall f :: f in PresentFrom(vals, k) <==> k <= f < |vals| && vals[f].Some?
    decreases |vals| - k
  {
    if k < |vals| {
      PresentShape(vals, k + 1);
      var fields, later := PresentFrom(vals, k), PresentFrom(vals, k + 1);
      if vals[k].Some? {
        assert fields == [k] + later;
        assert forall i :: 0 < i < |fields| ==> fields[i] == later[i - 1] && fields[i] in later;
      } else {
        assert fields == later;
      }
    }
  }

  /** The i-th command from `k` on sets the i-th present position from `k` on. */
  lemma {:induction false} CommandsAlign(keys: seq<string>, vals: seq<Option<string>>, k: nat)
    requires |keys| == |vals| && k <= |vals|
    ensures |CommandsFrom(keys, vals, k)| == |PresentFrom(vals, k)|
    ensures forall i :: 0 <= i < |CommandsFrom(keys, vals, k)| ==>
              PresentFrom(vals, k)[i] < |vals| && vals[PresentFrom(vals, k)[i]].Some?
              && CommandsFrom(keys, vals, k)[i]
                 == SetCommand(keys[PresentFrom(vals, k)[i]], vals[PresentFrom(vals, k)[i]].value)
    decreases |vals| - k
  {
    if k < |vals| {
      CommandsAlign(keys, vals, k + 1);
      var cmds, rest := CommandsFrom(keys, vals, k), CommandsFrom(keys, vals, k + 1);
      var fields, later := PresentFrom(vals, k), PresentFrom(vals, k + 1);
      match vals[k]
      case Some(v) =>
        assert cmds == [SetCommand(keys[k], v)] + rest;
        assert fields == [k] + later;
      case None =>
        assert cmds == rest;
        assert fields == later;
    }
  }

  /** Commands built from keys read back as those keys and the present values. */
  lemma CommandsParse(keys: seq<string>, vals: seq<Option<string>>)
    requires |keys| == |vals|
    requires forall i :: 0 <= i < |keys| ==> IsKey(keys[i])
    ensures var cmds, fields := CommandsFrom(keys, vals, 0), PresentFrom(vals, 0);
      && |cmds| == |fields|
      && (forall i :: 0 <= i < |cmds| ==>
            (fields[i] < |vals| && vals[fields[i]].Some?
             && ParseSetCommand(cmds[i]) == Some((keys[fields[i]], vals[fields[i]].value))))
  {
    CommandsAlign(keys, vals, 0);
    var cmds, fields := CommandsFrom(keys, vals, 0), PresentFrom(vals, 0);
    forall i | 0 <= i < |cmds|
      ensures ParseSetCommand(cmds[i]) == Some((keys[fields[i]], vals[fields[i]].value))
    {
      SetCommandRoundTrip(keys[fields[i]], vals[fields[i]].value);
    }
  }

  lemma SourceKeysAreKeys()
    ensures forall i :: 0 <= i < |SourceKeys| ==> IsKey(SourceKeys[i])
  {
    forall i | 0 <= i < |SourceKeys|
      ensures IsKey(SourceKeys[i])
    {
      var key := SourceKeys[i];
      assert forall j :: 0 <= j < |key| ==> IsKeyChar(key[j]);
    }
  }

  /** `updateSourceConfig` issues at most five commands, one per truthy field,
      in the fixed order host, port, user, password, server id, and each reads
      back as that field's key and value. */
  lemma SourceCommandsSpec(c: SourcePatch)
    ensures var cmds, vals, fields := SourceConfigCommands(c), SourceValues(c), PresentFrom(SourceValues(c), 0);
      && |cmds| == |fields| <= 5
      && (forall i, j :: 0 <= i < j < |fields| ==> fields[i] < fields[j])
      && (forall f: nat :: f in fields <==> f < 5 && vals[f].Some?)
      && (forall i :: 0 <= i < |cmds| ==>
            (fields[i] < 5 && ParseSetCommand(cmds[i]) == Some((SourceKeys[fields[i]], vals[fields[i]].value))))
  {
    var vals := SourceValues(c);
    PresentShape(vals, 0);
    SourceKeysAreKeys();
    CommandsParse(SourceKeys, vals);
  }

  /** A truthy host without quotes reads back from its entry. */
  lemma {:induction false} SourceHostReadBack(c: SourcePatch)
    requires TruthyText(c.host) && forall i :: 0 <= i < |c.host.value| ==> NotQuote(c.host.value[i])
    ensures ReadQuoted(SourceValues(c)[0].value) == Some((c.host.value, ""))
  {
    assert Quote(c.host.value) + "" == SourceValues(c)[0].value;
    ReadQuotedRoundTrip(c.host.value, "");
  }

  /** A truthy port reads back, through `Number`, from its entry. */
  lemma {:induction false} SourcePortReadBack(c: SourcePatch)
    requires TruthyField(c.port)
    ensures ParseNumber(SourceValues(c)[1].value) == c.port.value
  {
    NumberRoundTrip(c.port.value);
  }

  /** A truthy user name without quotes reads back from its entry. */
  lemma {:induction false} SourceUserReadBack(c: SourcePatch)
    requires TruthyText(c.user) && forall i :: 0 <= i < |c.user.value| ==> NotQuote(c.user.value[i])
    ensures ReadQuoted(SourceValues(c)[2].value) == Some((c.user.value, ""))
  {
    assert Quote(c.user.value) + "" == SourceValues(c)[2].value;
    ReadQuotedRoundTrip(c.user.value, "");
  }

  /** A truthy password without quotes reads back from its entry. */
  lemma {:induction false} SourcePasswordReadBack(c: SourcePatch)
    requires TruthyText(c.password) && forall i :: 0 <= i < |c.password.value| ==> NotQuote(c.password.value[i])
    ensures ReadQuoted(SourceValues(c)[3].value) == Some((c.password.value, ""))
  {
    assert Quote(c.password.value) + "" == SourceValues(c)[3].value;
    ReadQuotedRoundTrip(c.password.value, "");
  }

  /** A truthy server id reads back, through `Number`, from its entry. */
  lemma {:induction false} SourceServerIdReadBack(c: SourcePatch)
    requires TruthyField(c.serverId)
    ensures ParseNumber(SourceValues(c)[4].value) == c.serverId.value
  {
    NumberRoundTrip(c.serverId.value);
  }

  /** Each field's entry is present exactly when the field is truthy. */
  lemma SourceValuesPresent(c: SourcePatch)
    ensures SourceValues(c)[0].Some? <==> TruthyText(c.host)
    ensures SourceValues(c)[1].Some? <==> TruthyField(c.port)
    ensures SourceValues(c)[2].Some? <==> TruthyText(c.user)
    ensures SourceValues(c)[3].Some? <==> TruthyText(c.password)
    ensures SourceValues(c)[4].Some? <==> TruthyField(c.serverId)
  {
  }

  // ---------------------------------------------------------------- SHOW NIMBUS <TOPIC>

  const ShowReplication := "SHOW NIMBUS REPLICATION"
  const ShowPerformance := "SHOW NIMBUS PERFORMANCE"
  const ShowBinlog := "SHOW NIMBUS BINLOG"
  const ShowSource := "SHOW NIMBUS MYSQL"
  const ShowIncludedDbs := "SHOW NIMBUS INCLUDED_DBS"

  const NoReplicationStatus := "Failed to retrieve replication status"
  const NoPerformanceConfig := "Failed to retrieve performance config"
  const NoBinlogPosition := "Failed to retrieve binlog position"
  const NoSourceConfig := "Failed to retrieve mysql source config"

  /** `ReplicationStatus`; the source casts the columns without checking them,
      so each field holds the column exactly as read. */
  datatype ReplicationStatus = ReplicationStatus(
    fullReplication: Prop, incrementalReplication: Prop, fullRunning: Prop, incrementalRunning: Prop)

  datatype PerformanceConfig = PerformanceConfig(binlogBatchSize: JsNumber, fetchBatchSize: JsNumber, flushIntervalMs: JsNumber)

  datatype BinlogPosition = BinlogPosition(file: Prop, position: JsNumber, serverId: JsNumber, timestamp: Prop)

  datatype SourceConfig = SourceConfig(host: Prop, port: JsNumber, user: Prop, password: Prop, serverId: JsNumber)

  /** `getReplicationStatus`'s reading of the answer rows. */
  function ReplicationStatusOf(rows: seq<Row>): (r: Result<ReplicationStatus, string>)
    ensures r.Failure? <==> rows == []
    ensures r.Failure? ==> r.error == NoReplicationStatus
  {
    if rows == [] then Failure(NoReplicationStatus)
    else
      var row := rows[0];
      Success(ReplicationStatus(
        Get(row, "full_replication"), Get(row, "incremental_replication"),
        Get(row, "full_running"), Get(row, "incremental_running")))
  }

  /** `getPerformanceConfig`'s reading: each column through `Number`. */
  function PerformanceConfigOf(rows: seq<Row>): (r: Result<PerformanceConfig, string>)
    ensures r.Failure? <==> rows == []
    ensures r.Failure? ==> r.error == NoPerformanceConfig
  {
    if rows == [] then Failure(NoPerformanceConfig)
    else
      var row := rows[0];
      Success(PerformanceConfig(
        ToNumber(Get(row, "binlog_batch_size")), ToNumber(Get(row, "fetch_batch_size")),
        ToNumber(Get(row, "flush_interval_ms"))))
  }

  /** `getBinlogPosition`'s reading. */
  function BinlogPositionOf(rows: seq<Row>): (r: Result<BinlogPosition, string>)
    ensures r.Failure? <==> rows == []
    ensures r.Failure? ==> r.error == NoBinlogPosition
  {
    if rows == [] then Failure(NoBinlogPosition)
    else
      var row := rows[0];
      Success(BinlogPosition(
        Get(row, "file"), ToNumber(Get(row, "position")),
        ToNumber(Get(row, "server_id")), Get(row, "timestamp")))
  }

  /** `getSourceConfig`'s reading. */
  function SourceConfigOf(rows: seq<Row>): (r: Result<SourceConfig, string>)
    ensures r.Failure? <==> rows == []
    ensures r.Failure? ==> r.error == NoSourceConfig
  {
    if rows == [] then Failure(NoSourceConfig)
    else
      var row := rows[0];
      Success(SourceConfig(
        Get(row, "mysql_host"), ToNumber(Get(row, "mysql_port")), Get(row, "mysql_user"),
        Get(row, "mysql_password"), ToNumber(Get(row, "mysql_server_id"))))
  }

  /** `getIncludedDbs`'s reading: the first column of the first row, or `""`
      when there is no row or that value is falsy. It never fails. */
  function IncludedDbsOf(rows: seq<Row>): (v: Value)
    ensures rows == [] ==> v == Text("")
    ensures rows != [] && TruthyProp(FirstValue(rows[0])) ==> Some(v) == FirstValue(rows[0])
    ensures rows != [] && !TruthyProp(FirstValue(rows[0])) ==> v == Text("")
  {
    if rows == [] then Text("")
    else
      var first := FirstValue(rows[0]);
      if TruthyProp(first) then first.value else Text("")
  }

  // ---------------------------------------------------------------- what an engine reports

  function RunningText(running: bool): string {
    if running then "Running" else "Stopped"
  }

  /** The row of `SHOW NIMBUS REPLICATION` for the given switches and states. */
  function ReplicationRow(full: bool, incremental: bool, fullRunning: bool, incrementalRunning: bool): Row {
    [("full_replication", Text(SwitchText(full))), ("incremental_replication", Text(SwitchText(incremental))),
     ("full_running", Text(RunningText(fullRunning))), ("incremental_running", Text(RunningText(incrementalRunning)))]
  }

  /** The row of `SHOW NIMBUS PERFORMANCE`, numbers sent as text. */
  function PerformanceRow(c: PerformanceConfig): Row {
    [("binlog_batch_size", Text(NumberText(c.binlogBatchSize))),
     ("fetch_batch_size", Text(NumberText(c.fetchBatchSize))),
     ("flush_interval_ms", Text(NumberText(c.flushIntervalMs)))]
  }

  function BinlogRow(file: string, position: JsNumber, serverId: JsNumber, timestamp: string): Row {
    [("file", Text(file)), ("position", Text(NumberText(position))),
     ("server_id", Text(NumberText(serverId))), ("timestamp", Text(timestamp))]
  }

  function SourceRow(host: string, port: JsNumber, user: string, password: string, serverId: JsNumber): Row {
    [("mysql_host", Text(host)), ("mysql_port", Text(NumberText(port))), ("mysql_user", Text(user)),
     ("mysql_password", Text(password)), ("mysql_server_id", Text(NumberText(serverId)))]
  }

  /** The switches and states reported are the ones read, whatever rows follow. */
  lemma ReplicationRoundTrip(full: bool, incremental: bool, fullRunning: bool, incrementalRunning: bool, more: seq<Row>)
    ensures ReplicationStatusOf([ReplicationRow(full, incremental, fullRunning, incrementalRunning)] + more)
            == Success(ReplicationStatus(
                 Some(Text(SwitchText(full))), Some(Text(SwitchText(incremental))),
                 Some(Text(RunningText(fullRunning))), Some(Text(RunningText(incrementalRunning)))))
  {
    var row := ReplicationRow(full, incremental, fullRunning, incrementalRunning);
    assert DistinctKeys(row);
    GetDistinct(row, 0);
    GetDistinct(row, 1);
    GetDistinct(row, 2);
    GetDistinct(row, 3);
    assert ([row] + more)[0] == row;
  }

  /** A performance configuration reported as text is read back unchanged. */
  lemma PerformanceRoundTrip(c: PerformanceConfig, more: seq<Row>)
    ensures PerformanceConfigOf([PerformanceRow(c)] + more) == Success(c)
  {
    var row := PerformanceRow(c);
    assert DistinctKeys(row);
    GetDistinct(row, 0);
    GetDistinct(row, 1);
    GetDistinct(row, 2);
    assert ([row] + more)[0] == row;
  }

  lemma BinlogRoundTrip(file: string, position: JsNumber, serverId: JsNumber, timestamp: string, more: seq<Row>)
    ensures BinlogPositionOf([BinlogRow(file, position, serverId, timestamp)] + more)
            == Success(BinlogPosition(Some(Text(file)), position, serverId, Some(Text(timestamp))))
  {
    var row := BinlogRow(file, position, serverId, timestamp);
    assert DistinctKeys(row);
    GetDistinct(row, 0);
    GetDistinct(row, 1);
    GetDistinct(row, 2);
    GetDistinct(row, 3);
    assert ([row] + more)[0] == row;
  }

  lemma SourceRoundTrip(host: string, port: JsNumber, user: string, password: string, serverId: JsNumber, more: seq<Row>)
    ensures SourceConfigOf([SourceRow(host, port, user, password, serverId)] + more)
            == Success(SourceConfig(Some(Text(host)), port, Some(Text(user)), Some(Text(password)), serverId))
  {
    var row := SourceRow(host, port, user, password, serverId);
    assert DistinctKeys(row);
    GetDistinct(row, 0);
    GetDistinct(row, 1);
    GetDistinct(row, 2);
    GetDistinct(row, 3);
    GetDistinct(row, 4);
    assert ([row] + more)[0] == row;
  }

  /** The filter set by `setIncludedDbs(d)`, reported back in a one-column row,
      reads back as `d`: the empty filter included. */
  lemma IncludedDbsReadBack(dbs: string, more: seq<Row>)
    ensures IncludedDbsOf([[("included_dbs", Text(dbs))]] + more) == Text(dbs)
  {
  }
}
