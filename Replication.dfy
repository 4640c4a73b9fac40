/**
  The decision logic of the replication screens: the status table's
  classification and list wrapping, the replica control links, the user and
  host column lengths, the predefined host choice, the one-shot action
  status kept in the session, and the control requests (change master,
  start / stop / reset the replica, skip an error).

  Every database call is replaced by a supplied answer: `answer(i)` is what
  the i-th statement of a request returned, and the change-master helpers'
  outcomes are given as booleans and a position row. `$_SESSION['replication']`
  is the `session` field of the `ReplicationGui` class.
 */
module Replication {
  import opened Php

  type Row = map<string, string>
  type Params = map<string, Value>

  // ---------------------------------------------------------------------
  // Status table
  // ---------------------------------------------------------------------

  /** The status a variable is shown with: '' (neutral), 'attention' or 'allfine'. */
  datatype Status = Neutral | Attention | AllFine

  /** One entry of the status table; `value` is None where PHP reads null (a missing column). */
  datatype VariableRow = VariableRow(name: string, status: Status, value: Option<string>)

  /**
    What the status table is built from: the variable lists of a primary and
    of a replica, and the `SHOW MASTER STATUS` / `SHOW SLAVE STATUS` results
    (None when the result is not an array).
   */
  datatype ReplicationInfo = ReplicationInfo(
    primaryVariables: seq<string>,
    replicaVariables: seq<string>,
    primaryStatus: Option<seq<Row>>,
    replicaStatus: Option<seq<Row>>)

  /** The two replica variables that have sentinel values. */
  const Sentinels: set<string> := {"Slave_IO_Running", "Slave_SQL_Running"}
  const AlertValue := "No"
  const OkValue := "Yes"

  /** The list-valued variables that are shown with a space after each comma. */
  const Wrapped: set<string> := {
    "Replicate_Do_DB", "Replicate_Ignore_DB",
    "Replicate_Do_Table", "Replicate_Ignore_Table",
    "Replicate_Wild_Do_Table", "Replicate_Wild_Ignore_Table"
  }

  /** The value the table reads for `variable`: '' without a first status row, null when that row lacks it. */
  function StatusValue(status: Option<seq<Row>>, variable: string): Option<string> {
    if status.Some? && |status.value| > 0 then
      if variable in status.value[0] then Some(status.value[0][variable]) else None
    else Some("")
  }

  /** `str_replace(',', ', ', s)`. */
  function CommaSpace(s: string): (r: string)
    ensures |s| <= |r|
    ensures ',' !in s ==> r == s
  {
    if s == [] then []
    else (if s[0] == ',' then ", " else [s[0]]) + CommaSpace(s[1..])
  }

  /** Undoes CommaSpace: every ", " becomes ",". */
  function CollapseCommaSpace(s: string): string {
    if s == [] then []
    else if |s| >= 2 && s[0] == ',' && s[1] == ' ' then "," + CollapseCommaSpace(s[2..])
    else [s[0]] + CollapseCommaSpace(s[1..])
  }

  /** Wrapping only inserts spaces: the displayed list reads back as the stored one. */
  lemma {:induction false} CommaSpaceRoundTrip(s: string)
    ensures CollapseCommaSpace(CommaSpace(s)) == s
  {
    if s != [] {
      CommaSpaceRoundTrip(s[1..]);
      var t := CommaSpace(s[1..]);
      if s[0] == ',' {
        assert CommaSpace(s) == ", " + t;
        assert (", " + t)[2..] == t;
      } else {
        assert CommaSpace(s) == [s[0]] + t;
        assert ([s[0]] + t)[1..] == t;
      }
    }
  }

  /** Every comma of the wrapped text is followed by a space. */
  lemma {:induction false} CommaSpaceSpaced(s: string)
    ensures forall i :: 0 <= i < |CommaSpace(s)| && CommaSpace(s)[i] == ',' ==>
              i + 1 < |CommaSpace(s)| && CommaSpace(s)[i + 1] == ' '
  {
    if s != [] {
      CommaSpaceSpaced(s[1..]);
      var head := if s[0] == ',' then ", " else [s[0]];
      var t := CommaSpace(s[1..]);
      assert CommaSpace(s) == head + t;
      forall i | 0 <= i < |head + t| && (head + t)[i] == ','
        ensures i + 1 < |head + t| && (head + t)[i + 1] == ' '
      {
        if i >= |head| {
          assert (head + t)[i] == t[i - |head|];
          assert (head + t)[i + 1] == t[i + 1 - |head|];
        }
      }
    }
  }

  /**
    A list-valued variable whose column the first status row lacks: it reads
    null, and `str_replace` refuses a null subject under `strict_types`.
   */
  predicate NullList(status: Option<seq<Row>>, v: string) {
    v in Wrapped && StatusValue(status, v).None?
  }

  /** How the table shows variable `v` of a `kind` server whose status reads `raw` for it. */
  predicate Classified(kind: string, raw: Option<string>, v: string, e: VariableRow) {
    e.name == v
    && (e.status == Attention <==> kind == "slave" && v in Sentinels && raw == Some(AlertValue))
    && (e.status == AllFine <==> kind == "slave" && v in Sentinels && raw == Some(OkValue))
    && (v in Wrapped ==> raw.Some? && e.value == Some(CommaSpace(raw.value)))
    && (v !in Wrapped ==> e.value == raw)
  }

  /** The status table, or the TypeError a null list value raises while it is built. */
  datatype StatusTableResult = Table(variables: map<string, VariableRow>) | TypeError

  /**
    `getHtmlForReplicationStatusTable`'s loop: one entry per variable of the
    primary or replica list, classified against the sentinels (alerts tested
    first) and wrapped when list-valued. A list-valued variable that reads
    null aborts the page with a TypeError.
   */
  method StatusTable(kind: string, info: ReplicationInfo) returns (r: StatusTableResult)
    ensures var names := if kind == "slave" then info.replicaVariables else info.primaryVariables;
            var status := if kind == "slave" then info.replicaStatus else info.primaryStatus;
            r.TypeError? <==> exists k :: 0 <= k < |names| && NullList(status, names[k])
    ensures var names := if kind == "slave" then info.replicaVariables else info.primaryVariables;
            r.Table? ==> r.variables.Keys == set v | v in names
    ensures r.Table? ==> forall v :: v in r.variables ==>
              Classified(kind, StatusValue(if kind == "slave" then info.replicaStatus else info.primaryStatus, v), v, r.variables[v])
  {
    var names := info.primaryVariables;
    var status := info.primaryStatus;
    var alerts: map<string, string> := map[];
    var oks: map<string, string> := map[];
    if kind == "slave" {
      names := info.replicaVariables;
      alerts := map["Slave_IO_Running" := AlertValue, "Slave_SQL_Running" := AlertValue];
      oks := map["Slave_IO_Running" := OkValue, "Slave_SQL_Running" := OkValue];
      status := info.replicaStatus;
    }
    assert alerts.Keys == oks.Keys == (if kind == "slave" then Sentinels else {});

    var variables := map[];
    var i := 0;
    while i < |names|
      invariant i <= |names|
      invariant forall k :: 0 <= k < i ==> !NullList(status, names[k])
      invariant variables.Keys == set v | v in names[..i]
      invariant forall v :: v in variables ==> Classified(kind, StatusValue(status, v), v, variables[v])
    {
      var variable := names[i];
      var entry := ClassifyVariable(kind, variable, StatusValue(status, variable), alerts, oks);
      if entry.None? {
        return TypeError;
      }
      variables := variables[variable := entry.value];
      assert names[..i + 1] == names[..i] + [variable];
      i := i + 1;
    }
    assert names[..i] == names;
    r := Table(variables);
  }

  /**
    The loop body: the entry for one variable, given its value and the alert
    and all-fine sentinel maps; None when wrapping meets a null value.
   */
  method ClassifyVariable(kind: string, variable: string, value: Option<string>, alerts: map<string, string>,
                          oks: map<string, string>)
    returns (entry: Option<VariableRow>)
    requires alerts.Keys == oks.Keys == (if kind == "slave" then Sentinels else {})
    requires forall k :: k in alerts ==> alerts[k] == AlertValue
    requires forall k :: k in oks ==> oks[k] == OkValue
    ensures entry.None? <==> variable in Wrapped && value.None?
    ensures entry.Some? ==> Classified(kind, value, variable, entry.value)
  {
    var row := VariableRow(variable, Neutral, value);
    if variable in alerts && Some(alerts[variable]) == value {
      row := row.(status := Attention);
    } else if variable in oks && Some(oks[variable]) == value {
      row := row.(status := AllFine);
    }
    if variable in Wrapped {
      if value.None? {
        return None;
      }
      row := row.(value := Some(CommaSpace(value.value)));
    }
    entry := Some(row);
  }

  // ---------------------------------------------------------------------
  // Replica control links
  // ---------------------------------------------------------------------

  /** The keys a start / stop / reset link sets on top of the page's parameters. */
  const ControlKeys: set<string> := {"sr_take_action", "sr_slave_server_control", "sr_slave_action", "sr_slave_control_parm"}

  function ActionFor(start: bool): Value {
    Str(if start then "start" else "stop")
  }

  /** `link` is the page parameters `base` turned into a replica control request. */
  predicate ControlLink(base: Params, link: Params, action: Value, parm: Value) {
    link - ControlKeys == base - ControlKeys
    && ControlKeys <= link.Keys
    && link["sr_take_action"] == Bool(true)
    && link["sr_slave_server_control"] == Bool(true)
    && link["sr_slave_action"] == action
    && link["sr_slave_control_parm"] == parm
  }

  /** The parameters of the links on the replica configuration page. */
  datatype SlaveLinks = SlaveLinks(
    io: Params, sql: Params, full: Params, reset: Params,
    skipError: Params, reconfigure: Params,
    ioRunning: bool, sqlRunning: bool)

  /**
    The link part of `getHtmlForSlaveConfiguration` for a running replica:
    `ioState` and `sqlState` are `Slave_IO_Running` and `Slave_SQL_Running` of
    the first status row (None when missing).
   */
  method SlaveConfigurationLinks(urlParams: Params, ioState: Option<string>, sqlState: Option<string>)
    returns (links: SlaveLinks)
    ensures ControlLink(urlParams, links.io, ActionFor(ioState == Some("No")), Str("IO_THREAD"))
    ensures ControlLink(urlParams, links.sql, ActionFor(sqlState == Some("No")), Str("SQL_THREAD"))
    ensures ControlLink(urlParams, links.full, ActionFor(ioState == Some("No") || sqlState == Some("No")), Null)
    ensures ControlLink(urlParams, links.reset, Str("reset"), Null)
    ensures links.skipError - {"sr_take_action", "sr_slave_skip_error"} == urlParams - {"sr_take_action", "sr_slave_skip_error"}
    ensures "sr_take_action" in links.skipError && links.skipError["sr_take_action"] == Bool(true)
    ensures "sr_slave_skip_error" in links.skipError && links.skipError["sr_slave_skip_error"] == Bool(true)
    ensures links.reconfigure - {"sl_configure", "repl_clear_scr"} == urlParams - {"sl_configure", "repl_clear_scr"}
    ensures "sl_configure" in links.reconfigure && links.reconfigure["sl_configure"] == Bool(true)
    ensures "repl_clear_scr" in links.reconfigure && links.reconfigure["repl_clear_scr"] == Bool(true)
    ensures links.ioRunning <==> ioState != Some("No")
    ensures links.sqlRunning <==> sqlState != Some("No")
    ensures links.full["sr_slave_action"] == Str("stop")
            <==> links.io["sr_slave_action"] == Str("stop") && links.sql["sr_slave_action"] == Str("stop")
  {
    var params := urlParams;
    ControlSet(params, "sr_take_action", Bool(true));
    params := params["sr_take_action" := Bool(true)];
    ControlSet(params, "sr_slave_server_control", Bool(true));
    params := params["sr_slave_server_control" := Bool(true)];
    var action := if ioState == Some("No") then Str("start") else Str("stop");
    ControlSet(params, "sr_slave_action", action);
    params := params["sr_slave_action" := action];
    ControlSet(params, "sr_slave_control_parm", Str("IO_THREAD"));
    params := params["sr_slave_control_parm" := Str("IO_THREAD")];
    var io := params;

    action := if sqlState == Some("No") then Str("start") else Str("stop");
    ControlSet(params, "sr_slave_action", action);
    params := params["sr_slave_action" := action];
    ControlSet(params, "sr_slave_control_parm", Str("SQL_THREAD"));
    params := params["sr_slave_control_parm" := Str("SQL_THREAD")];
    var sql := params;

    action := if ioState == Some("No") || sqlState == Some("No") then Str("start") else Str("stop");
    ControlSet(params, "sr_slave_action", action);
    params := params["sr_slave_action" := action];
    ControlSet(params, "sr_slave_control_parm", Null);
    params := params["sr_slave_control_parm" := Null];
    var full := params;

    ControlSet(params, "sr_slave_action", Str("reset"));
    params := params["sr_slave_action" := Str("reset")];
    var reset := params;

    params := urlParams;
    RemoveUpdated(params, "sr_take_action", Bool(true), {"sr_take_action", "sr_slave_skip_error"});
    params := params["sr_take_action" := Bool(true)];
    RemoveUpdated(params, "sr_slave_skip_error", Bool(true), {"sr_take_action", "sr_slave_skip_error"});
    params := params["sr_slave_skip_error" := Bool(true)];
    var skipError := params;

    params := urlParams;
    RemoveUpdated(params, "sl_configure", Bool(true), {"sl_configure", "repl_clear_scr"});
    params := params["sl_configure" := Bool(true)];
    RemoveUpdated(params, "repl_clear_scr", Bool(true), {"sl_configure", "repl_clear_scr"});
    params := params["repl_clear_scr" := Bool(true)];
    var reconfigure := params;

    links := SlaveLinks(io, sql, full, reset, skipError, reconfigure,
                        ioState != Some("No"), sqlState != Some("No"));
    FullLinkStartsUnlessBothRun(ioState, sqlState);
  }

  lemma ControlSet(m: Params, k: string, v: Value)
    requires k in ControlKeys
    ensures m[k := v] - ControlKeys == m - ControlKeys
  {
    RemoveUpdated(m, k, v, ControlKeys);
  }

  /** The full link's action stops exactly when both thread actions stop. */
  lemma FullLinkStartsUnlessBothRun(ioState: Option<string>, sqlState: Option<string>)
    ensures ActionFor(ioState == Some("No") || sqlState == Some("No")) == Str("stop")
            <==> ActionFor(ioState == Some("No")) == Str("stop") && ActionFor(sqlState == Some("No")) == Str("stop")
  {
    assert "start" != "stop";
  }

  // ---------------------------------------------------------------------
  // User and host column lengths
  // ---------------------------------------------------------------------

  /** A row of `getColumns('mysql', 'user')`: the column's name and its type. */
  datatype Column = Column(field: string, colType: string)

  predicate IsDelimiter(c: char) {
    c == '(' || c == ')'
  }

  function DropDelimiters(s: string): (r: string)
    ensures |r| <= |s|
    ensures r != [] ==> !IsDelimiter(r[0])
  {
    if s != [] && IsDelimiter(s[0]) then DropDelimiters(s[1..]) else s
  }

  /** The longest prefix of `s` holding no delimiter. */
  function TokenPrefix(s: string): (r: string)
    ensures HasPrefix(s, r)
    ensures forall i :: 0 <= i < |r| ==> !IsDelimiter(r[i])
    ensures |r| == |s| || IsDelimiter(s[|r|])
  {
    if s != [] && !IsDelimiter(s[0]) then [s[0]] + TokenPrefix(s[1..]) else []
  }

  /**
    One `strtok(s, '()')` step: skip delimiters, take the token up to the next
    delimiter, and continue after that delimiter; None (PHP false) when only
    delimiters are left.
   */
  function Strtok(s: string): (r: Option<(string, string)>)
    ensures r.Some? ==> r.value.0 != [] && |r.value.1| < |s|
  {
    var t := DropDelimiters(s);
    if t == [] then None
    else
      var token := TokenPrefix(t);
      Some((token, if |token| == |t| then [] else t[|token| + 1..]))
  }

  /** The second token `strtok` yields for a column type: the text inside `char(N)`. */
  function SecondToken(colType: string): Option<string> {
    match Strtok(colType)
    case None => None
    case Some((_, rest)) =>
      match Strtok(rest)
      case None => None
      case Some((token, _)) => Some(token)
  }

  /** The length a column type declares, when its second token is an integer. */
  function DeclaredLength(colType: string): Option<nat> {
    match SecondToken(colType)
    case Some(t) => if IsDigits(t) then Some(DigitsValue(t)) else None
    case None => None
  }

  predicate Declares(c: Column, field: string) {
    c.field == field && DeclaredLength(c.colType).Some?
  }

  /**
    The length the columns leave for `field`: the one declared by the last
    column of that name that declares one, `default` when none does.
   */
  function LengthOf(cols: seq<Column>, field: string, default: int): int {
    if cols == [] then default
    else
      var last := cols[|cols| - 1];
      if Declares(last, field) then DeclaredLength(last.colType).value
      else LengthOf(cols[..|cols| - 1], field, default)
  }

  lemma LengthOfStep(cols: seq<Column>, k: nat, field: string, default: int)
    requires k < |cols|
    ensures LengthOf(cols[..k + 1], field, default)
            == if Declares(cols[k], field) then DeclaredLength(cols[k].colType).value else LengthOf(cols[..k], field, default)
  {
    assert cols[..k + 1][..k] == cols[..k];
  }

  /** Without a declaring column the default stays. */
  lemma {:induction false} LengthOfDefault(cols: seq<Column>, field: string, default: int)
    requires forall i :: 0 <= i < |cols| ==> !Declares(cols[i], field)
    ensures LengthOf(cols, field, default) == default
  {
    if cols != [] {
      LengthOfDefault(cols[..|cols| - 1], field, default);
    }
  }

  /** Otherwise the last declaring column decides. */
  lemma {:induction false} LengthOfLast(cols: seq<Column>, field: string, default: int, i: nat)
    requires i < |cols| && Declares(cols[i], field)
    requires forall j :: i < j < |cols| ==> !Declares(cols[j], field)
    ensures LengthOf(cols, field, default) == DeclaredLength(cols[i].colType).value
  {
    if i < |cols| - 1 {
      LengthOfLast(cols[..|cols| - 1], field, default, i);
    }
  }

  lemma UserIsNotHost()
    ensures "User" != "Host"
  {
    assert "User"[0] != "Host"[0];
  }

  /**
    `getUsernameHostnameLength`: 16 and 41 unless a `User` / `Host` column
    declares a length; the last such column wins.
   */
  method UsernameHostnameLength(cols: seq<Column>) returns (usernameLength: int, hostnameLength: int)
    ensures usernameLength == LengthOf(cols, "User", 16)
    ensures hostnameLength == LengthOf(cols, "Host", 41)
  {
    UserIsNotHost();
    usernameLength := 16;
    hostnameLength := 41;
    var k := 0;
    while k < |cols|
      invariant k <= |cols|
      invariant usernameLength == LengthOf(cols[..k], "User", 16)
      invariant hostnameLength == LengthOf(cols[..k], "Host", 41)
    {
      var c := cols[k];
      LengthOfStep(cols, k, "User", 16);
      LengthOfStep(cols, k, "Host", 41);
      if c.field == "User" {
        var v := SecondToken(c.colType);
        if v.Some? && IsDigits(v.value) {
          usernameLength := DigitsValue(v.value);
        }
      } else if c.field == "Host" {
        var v := SecondToken(c.colType);
        if v.Some? && IsDigits(v.value) {
          hostnameLength := DigitsValue(v.value);
        }
      }
      k := k + 1;
    }
    assert cols[..k] == cols;
  }

  /** A type written `name(N)...` declares the length N. */
  lemma {:induction false} DeclaredLengthOf(name: string, n: nat, tail: string)
    requires name != [] && forall i :: 0 <= i < |name| ==> !IsDelimiter(name[i])
    ensures DeclaredLength(name + "(" + NatToString(n) + ")" + tail) == Some(n)
  {
    var digits := NatToString(n);
    var inner := digits + (")" + tail);
    assert name + "(" + digits + ")" + tail == name + ("(" + inner);
    StrtokAt(name, "(" + inner);
    assert ("(" + inner)[1..] == inner;
    assert forall i :: 0 <= i < |digits| ==> !IsDelimiter(digits[i]) by {
      forall i | 0 <= i < |digits| ensures !IsDelimiter(digits[i]) {
        assert IsDigit(digits[i]);
      }
    }
    StrtokAt(digits, ")" + tail);
  }

  /** A token ends at the first delimiter, and the scan resumes after it. */
  lemma StrtokAt(p: string, q: string)
    requires p != [] && forall i :: 0 <= i < |p| ==> !IsDelimiter(p[i])
    requires q != [] && IsDelimiter(q[0])
    ensures Strtok(p + q) == Some((p, q[1..]))
  {
    assert (p + q)[0] == p[0];
    assert DropDelimiters(p + q) == p + q;
    NoDelimiterPrefix(p, q);
    assert (p + q)[|p| + 1..] == q[1..];
  }

  /** The token before a delimiter is the text up to it. */
  lemma {:induction false} NoDelimiterPrefix(p: string, q: string)
    requires forall i :: 0 <= i < |p| ==> !IsDelimiter(p[i])
    requires q != [] && IsDelimiter(q[0])
    ensures TokenPrefix(p + q) == p
  {
    if p != [] {
      assert (p + q)[1..] == p[1..] + q;
      NoDelimiterPrefix(p[1..], q);
    } else {
      assert p + q == q;
    }
  }

  // ---------------------------------------------------------------------
  // Predefined host of a new replica user
  // ---------------------------------------------------------------------

  /** The `pred_hostname` switch: compares the lower-cased host name. */
  function HostnameChoice(hostname: string): (r: string)
    ensures r == "localhost" || r == "any" || r == "userdefined"
    ensures r == "localhost" <==> Lower(hostname) == "localhost" || Lower(hostname) == "127.0.0.1"
    ensures r == "any" <==> Lower(hostname) == "%"
  {
    var h := Lower(hostname);
    if h == "localhost" || h == "127.0.0.1" then "localhost"
    else if h == "%" then "any"
    else "userdefined"
  }

  /** The choice ignores letter case. */
  lemma HostnameChoiceIgnoresCase(hostname: string)
    ensures HostnameChoice(Lower(hostname)) == HostnameChoice(hostname)
  {
    LowerIdempotent(hostname);
  }

  /** `pred_hostname` after the switch: kept when already set, chosen from a posted host name otherwise. */
  function PredHostname(current: Option<string>, posted: Option<string>): (r: Option<string>)
    ensures current.Some? ==> r == current
    ensures current.None? ==> (r.Some? <==> posted.Some?)
    ensures current.None? && posted.Some? ==> r == Some(HostnameChoice(posted.value))
  {
    if current.None? && posted.Some? then Some(HostnameChoice(posted.value)) else current
  }

  // ---------------------------------------------------------------------
  // Statements sent to the servers
  // ---------------------------------------------------------------------

  /** What a driver call returned: false, an integer (-1 flags a refused action) or a result. */
  datatype DriverResult = False | Code(n: int) | Result

  /** A step succeeded when it returned neither false nor -1. */
  predicate Succeeded(r: DriverResult) {
    r != False && r != Code(-1)
  }

  datatype Call =
    | SlaveControl(action: Option<string>, control: Option<string>)
    | TryQuery(sql: string)
    | ConnectToMaster(username: string, password: string, hostname: string, port: int)
    | SlaveBinLogMaster
    | SlaveChangeMaster(username: string, password: string, hostname: string, port: int,
                        position: Row, stop: bool, start: bool)

  /** The statements a request issued, in order, and its overall result. */
  datatype Run = Run(calls: seq<Call>, ok: bool)

  const Stop := SlaveControl(Some("STOP"), None)
  const Start := SlaveControl(Some("START"), None)

  /** `empty()` control parameters are sent as null. */
  function NormaliseControlParm(parm: Option<string>): (r: Option<string>)
    ensures r.None? <==> Empty(parm)
    ensures r.Some? ==> r == parm
  {
    if Empty(parm) then None else parm
  }

  /**
    `handleRequestForSlaveServerControl`: reset is STOP, `RESET SLAVE;`,
    START; any other action is one control call. All three reset statements
    are sent whatever the earlier ones returned.
   */
  function SlaveServerControl(action: Option<string>, parm: Option<string>, answer: nat -> DriverResult): (r: Run)
    ensures action == Some("reset") ==> r.calls == [Stop, TryQuery("RESET SLAVE;"), Start]
    ensures action != Some("reset") ==> r.calls == [SlaveControl(action, NormaliseControlParm(parm))]
    ensures r.ok <==> forall i :: 0 <= i < |r.calls| ==> Succeeded(answer(i))
  {
    if action == Some("reset") then
      var qStop, qReset, qStart := answer(0), answer(1), answer(2);
      Run([Stop, TryQuery("RESET SLAVE;"), Start],
          qStop != False && qStop != Code(-1) && qReset != False && qReset != Code(-1)
          && qStart != False && qStart != Code(-1))
    else
      var qControl := answer(0);
      Run([SlaveControl(action, NormaliseControlParm(parm))], qControl != False && qControl != Code(-1))
  }

  const SkipCounterPrefix := "SET GLOBAL SQL_SLAVE_SKIP_COUNTER = "

  function SkipCounterSql(count: int): string {
    SkipCounterPrefix + IntToString(count) + ";"
  }

  /**
    `handleRequestForSlaveSkipError`: STOP, set the skip counter (1 unless a
    count was posted), START.
   */
  function SlaveSkipError(count: Option<int>, answer: nat -> DriverResult): (r: Run)
    ensures |r.calls| == 3 && r.calls[0] == Stop && r.calls[2] == Start
    ensures r.calls[1] == TryQuery(SkipCounterSql(count.GetOr(1)))
    ensures r.ok <==> forall i :: 0 <= i < |r.calls| ==> Succeeded(answer(i))
  {
    var c := if count.Some? then count.value else 1;
    var qStop, qSkip, qStart := answer(0), answer(1), answer(2);
    Run([Stop, TryQuery(SkipCounterSql(c)), Start],
        qStop != False && qStop != Code(-1) && qSkip != False && qSkip != Code(-1)
        && qStart != False && qStart != Code(-1))
  }

  /** The skip statement carries the count: the number between its prefix and `;` reads back as it. */
  lemma SkipCounterSqlRoundTrip(count: int)
    ensures var sql := SkipCounterSql(count);
            HasPrefix(sql, SkipCounterPrefix) && sql[|sql| - 1] == ';'
            && ParseIntLiteral(sql[|SkipCounterPrefix|..|sql| - 1]) == Some(count)
  {
    var sql := SkipCounterSql(count);
    assert sql[..|SkipCounterPrefix|] == SkipCounterPrefix;
    assert sql[|SkipCounterPrefix|..|sql| - 1] == IntToString(count);
    ParseIntLiteralRoundTrip(count);
  }

  /** With no count posted, exactly one event is skipped. */
  lemma SkipErrorDefaultsToOne(answer: nat -> DriverResult)
    ensures SlaveSkipError(None, answer).calls[1] == TryQuery(SkipCounterPrefix + "1;")
  {
    assert IntToString(1) == "1";
  }

  /** A refused step (false or -1) anywhere in a reset fails the whole reset. */
  lemma ResetFailsOnAnyRefusal(parm: Option<string>, answer: nat -> DriverResult, i: nat)
    requires i < 3 && (answer(i) == False || answer(i) == Code(-1))
    ensures !SlaveServerControl(Some("reset"), parm, answer).ok
  {
  }

  // ---------------------------------------------------------------------
  // The session and the control requests
  // ---------------------------------------------------------------------

  /** A message shown to the user. */
  datatype Message = ErrorMessage(text: Value) | SuccessMessage(text: Value)

  /** The keys of `$_SESSION['replication']`; `Other` stands for the keys the rest of the screens use. */
  datatype SessionKey =
    | MUsername | MPassword | MHostname | MPort | MCorrect
    | ActionStatus | ActionInfo
    | Other(name: string)

  type Session = map<SessionKey, Value>

  /** The keys change master writes. */
  const ChangeMasterKeys: set<SessionKey> :=
    {MUsername, MPassword, MHostname, MPort, MCorrect, ActionStatus, ActionInfo}

  /** PHP `isset` on a session key. */
  predicate IsSet(session: Session, key: SessionKey) {
    key in session && session[key] != Null
  }

  /** The session holds a status that has not been shown yet. */
  predicate Pending(session: Session) {
    IsSet(session, ActionStatus) && IsSet(session, ActionInfo)
    && (session[ActionStatus] == Str("error") || session[ActionStatus] == Str("success"))
  }

  /** The posted fields a control request reads; absent fields are None or false. */
  datatype ControlRequest = ControlRequest(
    takeAction: bool,
    changeMaster: bool,
    serverControl: bool,
    skipError: bool,
    action: Option<string>,
    controlParm: Option<string>,
    skipCount: Option<int>,
    username: string,
    password: string,
    hostname: string,
    port: string)

  /** What the primary the replica is pointed at answers while it is being changed. */
  datatype MasterAnswers = MasterAnswers(connects: bool, position: Row, changes: bool)

  datatype Outcome =
    | NotRequested
    | Handled(result: bool, calls: seq<Call>, reply: Option<Message>)

  /** The success and error texts for a replica control action. */
  function ActionMessages(action: Option<string>): (string, string) {
    if action == Some("start") then ("Replication started successfully.", "Error starting replication.")
    else if action == Some("stop") then ("Replication stopped successfully.", "Error stopping replication.")
    else if action == Some("reset") then ("Replication resetting successfully.", "Error resetting replication.")
    else ("Success.", "Error.")
  }

  const ArbitraryServerDisabled :=
    "Connection to server is disabled, please enable $cfg['AllowArbitraryServer'] in phpMyAdmin configuration."

  function ConnectFailed(hostname: string): string {
    "Unable to connect to master " + HtmlEscape(hostname) + "."
  }

  const NoPosition := "Unable to read master log position. Possible privilege problem on master."
  const ChangeFailed := "Unable to change master!"

  function Changed(hostname: string): string {
    "Master server changed successfully to " + HtmlEscape(hostname) + "."
  }

  /** The primary was reached and reported a log position. */
  predicate Located(master: MasterAnswers) {
    master.connects && master.position != map[]
  }

  /** Change master succeeds when the primary is located and accepts the change. */
  predicate ChangeSucceeds(master: MasterAnswers) {
    Located(master) && master.changes
  }

  /** The text change master leaves in `sr_action_info`: why the first failing step failed, or the success. */
  function ChangeMasterInfo(hostname: string, master: MasterAnswers): string {
    if !master.connects then ConnectFailed(hostname)
    else if master.position == map[] then NoPosition
    else if !master.changes then ChangeFailed
    else Changed(hostname)
  }

  /**
    The session after change master: the new primary's credentials and
    port, whether it was located, and the outcome as a pending status.
   */
  function ChangeMasterSession(s: Session, username: string, password: string, hostname: string,
                               portText: string, master: MasterAnswers): (r: Session)
    ensures r.Keys == s.Keys + ChangeMasterKeys
    ensures forall k :: k in s && k !in ChangeMasterKeys ==> r[k] == s[k]
    ensures r[MPort] == Int(IntCast(portText))
    ensures r[MCorrect] == Bool(true) <==> Located(master)
    ensures r[ActionStatus] == Str("success") <==> ChangeSucceeds(master)
    ensures Pending(r)
  {
    SuccessDistinct();
    s[MUsername := Str(username)][MPassword := Str(password)]
     [MHostname := Str(hostname)][MPort := Int(IntCast(portText))]
     [MCorrect := if Located(master) then Bool(true) else Str("")]
     [ActionStatus := Str(if ChangeSucceeds(master) then "success" else "error")]
     [ActionInfo := Str(ChangeMasterInfo(hostname, master))]
  }

  /** The calls change master makes: connect, read the position, point the replica, stopping at the first failure. */
  function ChangeMasterCalls(username: string, password: string, hostname: string, portText: string,
                             master: MasterAnswers): (r: seq<Call>)
    ensures |r| == (if !master.connects then 1 else if master.position == map[] then 2 else 3)
    ensures r[0] == ConnectToMaster(username, password, hostname, IntCast(portText))
    ensures |r| >= 2 ==> r[1] == SlaveBinLogMaster
    ensures |r| == 3 ==>
              r[2] == SlaveChangeMaster(username, password, hostname, IntCast(portText), master.position, true, false)
  {
    var port := IntCast(portText);
    [ConnectToMaster(username, password, hostname, port)]
    + (if master.connects then [SlaveBinLogMaster] else [])
    + (if Located(master) then [SlaveChangeMaster(username, password, hostname, port, master.position, true, false)] else [])
  }

  class ReplicationGui {
    /** `$_SESSION['replication']`. */
    var session: Session

    constructor(session: Session)
      ensures this.session == session
    {
      this.session := session;
    }

    /**
      `getHtmlForErrorMessage`: shows a pending error or success once and
      marks it `unknown`; anything else shows nothing and changes nothing.
     */
    method GetHtmlForErrorMessage() returns (shown: Option<Message>)
      modifies this
      ensures shown.None? <==> !Pending(old(session))
      ensures !Pending(old(session)) ==> session == old(session)
      ensures Pending(old(session)) ==> session == old(session)[ActionStatus := Str("unknown")]
      ensures Pending(old(session)) && old(session)[ActionStatus] == Str("error") ==>
                shown == Some(ErrorMessage(old(session)[ActionInfo]))
      ensures Pending(old(session)) && old(session)[ActionStatus] == Str("success") ==>
                shown == Some(SuccessMessage(old(session)[ActionInfo]))
      ensures !Pending(session)
    {
      shown := None;
      if IsSet(session, ActionStatus) && IsSet(session, ActionInfo) {
        if session[ActionStatus] == Str("error") {
          shown := Some(ErrorMessage(session[ActionInfo]));
          session := session[ActionStatus := Str("unknown")];
        } else if session[ActionStatus] == Str("success") {
          shown := Some(SuccessMessage(session[ActionInfo]));
          session := session[ActionStatus := Str("unknown")];
        }
      }
    }

    /**
      `handleRequestForSlaveChangeMaster`: records the new primary's
      credentials, connects to it, reads its log position and points the
      replica at it, leaving the outcome in the session.
     */
    method HandleRequestForSlaveChangeMaster(username: string, password: string, hostname: string,
                                             portText: string, master: MasterAnswers)
      returns (ok: bool, calls: seq<Call>)
      modifies this
      ensures ok <==> ChangeSucceeds(master)
      ensures session == ChangeMasterSession(old(session), username, password, hostname, portText, master)
      ensures calls == ChangeMasterCalls(username, password, hostname, portText, master)
    {
      var port := IntCast(portText);
      session := session[MUsername := Str(username)];
      session := session[MPassword := Str(password)];
      session := session[MHostname := Str(hostname)];
      session := session[MPort := Int(port)];
      ghost var entered := session;
      session := session[MCorrect := Str("")];
      session := session[ActionStatus := Str("error")];
      session := session[ActionInfo := Str("Unknown error")];

      calls := [ConnectToMaster(username, password, hostname, port)];
      if !master.connects {
        session := session[ActionStatus := Str("error")];
        session := session[ActionInfo := Str(ConnectFailed(hostname))];
        RewrittenTwo(entered[MCorrect := Str("")], ActionStatus, ActionInfo,
                     Str("error"), Str("Unknown error"), Str("error"), Str(ConnectFailed(hostname)));
      } else {
        calls := calls + [SlaveBinLogMaster];
        if master.position == map[] {
          session := session[ActionStatus := Str("error")];
          session := session[ActionInfo := Str(NoPosition)];
          RewrittenTwo(entered[MCorrect := Str("")], ActionStatus, ActionInfo,
                       Str("error"), Str("Unknown error"), Str("error"), Str(NoPosition));
        } else {
          session := session[MCorrect := Bool(true)];
          calls := calls + [SlaveChangeMaster(username, password, hostname, port, master.position, true, false)];
          ghost var status, info := "error", ChangeFailed;
          if !master.changes {
            session := session[ActionStatus := Str("error")];
            session := session[ActionInfo := Str(ChangeFailed)];
          } else {
            status, info := "success", Changed(hostname);
            session := session[ActionStatus := Str("success")];
            session := session[ActionInfo := Str(Changed(hostname))];
          }
          RewrittenThree(entered, MCorrect, ActionStatus, ActionInfo,
                         Str(""), Str("error"), Str("Unknown error"), Bool(true), Str(status), Str(info));
        }
      }
      SuccessDistinct();
      ok := session[ActionStatus] == Str("success");
    }

    /**
      `handleControlRequest`: dispatches a posted control request to change
      master, replica server control or skip-error, in that order of
      precedence; a server-control request also yields the message to show.
     */
    method HandleControlRequest(req: ControlRequest, allowArbitraryServer: bool,
                                answer: nat -> DriverResult, master: MasterAnswers)
      returns (outcome: Outcome)
      modifies this
      ensures !req.takeAction ==> outcome == NotRequested && session == old(session)
      ensures req.takeAction ==> outcome.Handled?
      // change master, refused
      ensures req.takeAction && req.changeMaster && !allowArbitraryServer ==>
                outcome == Handled(false, [], None)
                && session == old(session)[ActionStatus := Str("error")]
                                          [ActionInfo := Str(ArbitraryServerDisabled)]
      // change master, allowed
      ensures req.takeAction && req.changeMaster && allowArbitraryServer ==>
                outcome == Handled(ChangeSucceeds(master),
                                   ChangeMasterCalls(req.username, req.password, req.hostname, req.port, master), None)
                && session == ChangeMasterSession(old(session), req.username, req.password, req.hostname, req.port, master)
      // replica server control
      ensures req.takeAction && !req.changeMaster && req.serverControl ==>
                var run := SlaveServerControl(req.action, req.controlParm, answer);
                var (onSuccess, onError) := ActionMessages(req.action);
                outcome == Handled(run.ok, run.calls,
                                   Some(if run.ok then SuccessMessage(Str(onSuccess)) else ErrorMessage(Str(onError))))
                && session == old(session)
      // skip error
      ensures req.takeAction && !req.changeMaster && !req.serverControl && req.skipError ==>
                var run := SlaveSkipError(req.skipCount, answer);
                outcome == Handled(run.ok, run.calls, None) && session == old(session)
      // nothing to do
      ensures req.takeAction && !req.changeMaster && !req.serverControl && !req.skipError ==>
                outcome == Handled(false, [], None) && session == old(session)
    {
      if !req.takeAction {
        return NotRequested;
      }

      var result := false;
      var calls: seq<Call> := [];
      var reply: Option<Message> := None;

      if req.changeMaster && !allowArbitraryServer {
        session := session[ActionStatus := Str("error")];
        session := session[ActionInfo := Str(ArbitraryServerDisabled)];
      } else if req.changeMaster {
        result, calls := HandleRequestForSlaveChangeMaster(req.username, req.password, req.hostname,
                                                           req.port, master);
      } else if req.serverControl {
        var run := SlaveServerControl(req.action, req.controlParm, answer);
        result, calls := run.ok, run.calls;
        var (onSuccess, onError) := ActionMessages(req.action);
        reply := Some(if result then SuccessMessage(Str(onSuccess)) else ErrorMessage(Str(onError)));
      } else if req.skipError {
        var run := SlaveSkipError(req.skipCount, answer);
        result, calls := run.ok, run.calls;
      }

      outcome := Handled(result, calls, reply);
    }
  }

  lemma SuccessDistinct()
    ensures Str("success") != Str("error")
  {
    assert "success"[0] != "error"[0];
  }
}
