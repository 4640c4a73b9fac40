/**
  The binary-log viewer: the `SHOW BINLOG EVENTS` statement it runs and the
  pager state it derives (previous / next / full-query links) from the posted
  position, the number of rows the server returned and the configured page
  size (`MaxRows`).

  The database is replaced by inputs: the set of known binary-log names (the
  keys of `SHOW MASTER LOGS`) and the outcome of running the statement.
 */
module Binlog {
  import opened Php

  /** The POST parameters the viewer reads; `None` stands for an absent (null) parameter. */
  datatype Request = Request(log: Option<string>, pos: Option<string>, isFullQuery: Option<string>)

  /** A row as `fetchAssoc` returns it: column name to value. */
  type Row = map<string, string>

  /** Outcome of the query: `false`, or a buffered result whose rows are fetched in this order. */
  datatype QueryResult = QueryFailed | Rows(rows: seq<Row>)

  /** A PHP parameter array (`log`, `pos`, `is_full_query`). */
  type Params = map<string, Value>

  /** What the controller hands to the view. */
  datatype View = View(
    urlParams: Params,
    log: Option<string>,
    sqlQuery: string,
    values: seq<Row>,
    hasPrevious: bool,
    hasNext: bool,
    previousParams: Params,
    fullQueriesParams: Params,
    nextParams: Params,
    isFullQuery: bool)

  const Show := "SHOW BINLOG EVENTS"

  /** `getSqlQuery`: the statement listing one page of binary-log events. */
  function SqlQuery(log: string, position: int, maxRows: int): (q: string)
    ensures HasPrefix(q, Show)
  {
    Show + InClause(log) + LimitClause(position, maxRows)
  }

  /** The `IN '<log>'` part, present unless the log name is PHP-empty. */
  function InClause(log: string): string {
    if EmptyString(log) then "" else " IN '" + log + "'"
  }

  function LimitClause(position: int, maxRows: int): string {
    " LIMIT " + IntToString(position) + ", " + IntToString(maxRows)
  }

  /** The position the viewer starts from: 0 when `pos` is empty, else `(int) pos`. */
  function Position(pos: Option<string>): int {
    if Empty(pos) then 0 else IntCast(pos.value)
  }

  function NumRows(result: QueryResult): nat {
    if result.QueryFailed? then 0 else |result.rows|
  }

  function FetchableRows(result: QueryResult): seq<Row> {
    if result.QueryFailed? then [] else result.rows
  }

  /** `index`: builds the statement, runs it (its outcome is `result`) and derives the pager state. */
  method Index(req: Request, binaryLogs: set<string>, maxRows: int, result: QueryResult)
    returns (view: View)
    ensures view.log == req.log
    ensures view.sqlQuery == SqlQuery(req.log.GetOr(""), Position(req.pos), maxRows)
    // the current view's own parameters
    ensures view.urlParams.Keys <= {"log", "is_full_query"}
    ensures ("log" in view.urlParams) <==> req.log.Some? && req.log.value in binaryLogs
    ensures "log" in view.urlParams ==> view.urlParams["log"] == Str(req.log.value)
    ensures view.isFullQuery <==> !Empty(req.isFullQuery)
    ensures ("is_full_query" in view.urlParams) <==> view.isFullQuery
    ensures "is_full_query" in view.urlParams ==> view.urlParams["is_full_query"] == Int(1)
    // previous page
    ensures view.hasPrevious <==> Position(req.pos) > 0
    ensures view.previousParams - {"pos"} == view.urlParams
    ensures ("pos" in view.previousParams) <==> Position(req.pos) > 0 && Position(req.pos) > maxRows
    ensures "pos" in view.previousParams ==>
              view.previousParams["pos"] == Int(Position(req.pos) - maxRows) && Position(req.pos) - maxRows > 0
    // next page
    ensures view.hasNext <==> NumRows(result) >= maxRows
    ensures view.nextParams - {"pos"} == view.urlParams
    ensures ("pos" in view.nextParams) <==> view.hasNext
    ensures "pos" in view.nextParams ==> view.nextParams["pos"] == Int(Position(req.pos) + maxRows)
    // full-query toggle
    ensures view.fullQueriesParams - {"pos", "is_full_query"} == view.urlParams - {"is_full_query"}
    ensures ("is_full_query" in view.fullQueriesParams) <==> !view.isFullQuery
    ensures "is_full_query" in view.fullQueriesParams ==> view.fullQueriesParams["is_full_query"] == Int(1)
    ensures ("pos" in view.fullQueriesParams) <==> Position(req.pos) > 0
    ensures "pos" in view.fullQueriesParams ==> view.fullQueriesParams["pos"] == Int(Position(req.pos))
    // the fetched rows: in fetch order, up to the first empty (falsy) one
    ensures |view.values| <= |FetchableRows(result)|
    ensures view.values == FetchableRows(result)[..|view.values|]
    ensures forall k :: 0 <= k < |view.values| ==> view.values[k] != map[]
    ensures |view.values| == |FetchableRows(result)| || FetchableRows(result)[|view.values|] == map[]
  {
    var position := if Empty(req.pos) then 0 else IntCast(req.pos.value);
    var urlParams, isFullQuery := CurrentParams(req, binaryLogs);
    var sqlQuery := SqlQuery(req.log.GetOr(""), position, maxRows);

    var numRows := 0;
    if result.Rows? {
      numRows := |result.rows|;
    }

    var previousParams, fullQueriesParams, nextParams :=
      PageLinks(urlParams, isFullQuery, position, maxRows, numRows);
    var values := FetchRows(FetchableRows(result));

    view := View(urlParams, req.log, sqlQuery, values, position > 0, numRows >= maxRows,
                 previousParams, fullQueriesParams, nextParams, isFullQuery);
  }

  /** The parameters of the page being shown: the log when it is a known one, and the full-query flag. */
  method CurrentParams(req: Request, binaryLogs: set<string>) returns (urlParams: Params, isFullQuery: bool)
    ensures urlParams.Keys <= {"log", "is_full_query"}
    ensures ("log" in urlParams) <==> req.log.Some? && req.log.value in binaryLogs
    ensures "log" in urlParams ==> urlParams["log"] == Str(req.log.value)
    ensures isFullQuery <==> !Empty(req.isFullQuery)
    ensures ("is_full_query" in urlParams) <==> isFullQuery
    ensures "is_full_query" in urlParams ==> urlParams["is_full_query"] == Int(1)
  {
    urlParams := map[];
    if req.log.Some? && req.log.value in binaryLogs {
      urlParams := urlParams["log" := Str(req.log.value)];
    }

    isFullQuery := false;
    if !Empty(req.isFullQuery) {
      isFullQuery := true;
      KeysDistinct();
      urlParams := urlParams["is_full_query" := Int(1)];
    }
  }

  /**
    The parameters of the three pager links, each the current parameters with
    `pos` (and, for the full-query toggle, `is_full_query`) set or dropped.
   */
  method PageLinks(urlParams: Params, isFullQuery: bool, position: int, maxRows: int, numRows: nat)
    returns (previousParams: Params, fullQueriesParams: Params, nextParams: Params)
    requires "pos" !in urlParams
    ensures previousParams - {"pos"} == urlParams
    ensures ("pos" in previousParams) <==> position > 0 && position > maxRows
    ensures "pos" in previousParams ==>
              previousParams["pos"] == Int(position - maxRows) && position - maxRows > 0
    ensures nextParams - {"pos"} == urlParams
    ensures ("pos" in nextParams) <==> numRows >= maxRows
    ensures "pos" in nextParams ==> nextParams["pos"] == Int(position + maxRows)
    ensures fullQueriesParams - {"pos", "is_full_query"} == urlParams - {"is_full_query"}
    ensures ("is_full_query" in fullQueriesParams) <==> !isFullQuery
    ensures "is_full_query" in fullQueriesParams ==> fullQueriesParams["is_full_query"] == Int(1)
    ensures ("pos" in fullQueriesParams) <==> position > 0
    ensures "pos" in fullQueriesParams ==> fullQueriesParams["pos"] == Int(position)
  {
    KeysDistinct();
    previousParams := urlParams;
    fullQueriesParams := urlParams;
    nextParams := urlParams;
    ghost var toggled := {"pos", "is_full_query"};
    RemoveAbsent(urlParams, "pos", toggled);
    assert toggled - {"pos"} == {"is_full_query"};
    RemoveAbsentKey(urlParams, "pos");
    if position > 0 {
      RemoveUpdated(fullQueriesParams, "pos", Int(position), toggled);
      fullQueriesParams := fullQueriesParams["pos" := Int(position)];
      if position > maxRows {
        MapUpdateRemove(urlParams, "pos", Int(position - maxRows));
        previousParams := previousParams["pos" := Int(position - maxRows)];
      }
    }

    RemoveUpdated(fullQueriesParams, "is_full_query", Int(1), toggled);
    fullQueriesParams := fullQueriesParams["is_full_query" := Int(1)];
    if isFullQuery {
      RemoveRemoved(fullQueriesParams, "is_full_query", toggled);
      fullQueriesParams := fullQueriesParams - {"is_full_query"};
    }

    if numRows >= maxRows {
      MapUpdateRemove(urlParams, "pos", Int(position + maxRows));
      nextParams := nextParams["pos" := Int(position + maxRows)];
    }
  }

  /**
    The `while ($value = fetchAssoc($result))` loop: rows are taken in order
    until the first empty one, which PHP reads as false.
   */
  method FetchRows(rows: seq<Row>) returns (values: seq<Row>)
    ensures |values| <= |rows|
    ensures values == rows[..|values|]
    ensures forall k :: 0 <= k < |values| ==> values[k] != map[]
    ensures |values| == |rows| || rows[|values|] == map[]
  {
    values := [];
    var cursor := 0;
    while cursor < |rows| && rows[cursor] != map[]
      invariant cursor <= |rows|
      invariant values == rows[..cursor]
      invariant forall k :: 0 <= k < cursor ==> rows[k] != map[]
    {
      values := values + [rows[cursor]];
      cursor := cursor + 1;
    }
  }

  lemma KeysDistinct()
    ensures "pos" != "log" && "pos" != "is_full_query" && "log" != "is_full_query"
  {
    assert "pos"[0] != "log"[0];
  }

  /**
    The position a link carries survives the round trip through the next
    request: posting `pos` as PHP renders the integer gives that integer back.
   */
  lemma {:induction false} PositionRoundTrip(n: int)
    ensures Position(Some(IntToString(n))) == n
  {
    var r := IntToString(n);
    assert DigitsValue("0") == 0;
    if n >= 0 {
      assert r == NatToString(n);
    }
    IntCastRoundTrip(n);
  }

  // ---------------------------------------------------------------------
  // Reading the statement back
  // ---------------------------------------------------------------------

  /** The three things the statement carries. */
  datatype Query = Query(log: string, position: int, maxRows: int)

  /** Reads `" LIMIT <position>, <maxRows>"`. */
  function ParseLimit(t: string): Option<(int, int)> {
    if !HasPrefix(t, " LIMIT ") then None
    else
      var nums := t[7..];
      match FirstIndex(nums, ',')
      case None => None
      case Some(c) =>
        if c + 1 < |nums| && nums[c + 1] == ' ' then
          match (ParseIntLiteral(nums[..c]), ParseIntLiteral(nums[c + 2..]))
          case (Some(p), Some(m)) => Some((p, m))
          case _ => None
        else None
  }

  /**
    Reads a `SHOW BINLOG EVENTS` statement back into its log name, position
    and page size. The log name runs up to the last quote, since the LIMIT
    clause after it holds none.
   */
  function ParseQuery(q: string): Option<Query> {
    if !HasPrefix(q, Show) then None else ParseClauses(q[|Show|..])
  }

  function ParseClauses(rest: string): Option<Query> {
    if HasPrefix(rest, " IN '") then
      match LastIndex(rest, '\'')
      case None => None
      case Some(k) =>
        if k <= 4 then None
        else match ParseLimit(rest[k + 1..])
          case None => None
          case Some((p, m)) => Some(Query(rest[5..k], p, m))
    else
      match ParseLimit(rest)
      case None => None
      case Some((p, m)) => Some(Query("", p, m))
  }

  lemma {:induction false} ParseLimitRoundTrip(position: int, maxRows: int)
    ensures ParseLimit(LimitClause(position, maxRows)) == Some((position, maxRows))
  {
    var p, m := IntToString(position), IntToString(maxRows);
    var t := LimitClause(position, maxRows);
    assert HasPrefix(t, " LIMIT ");
    var nums := t[7..];
    assert nums == p + [','] + (" " + m);
    assert ',' !in p by {
      forall i | 0 <= i < |p| ensures p[i] != ',' {
      }
    }
    FirstIndexAt(p, ',', " " + m);
    assert nums[..|p|] == p && nums[|p| + 2..] == m;
    ParseIntLiteralRoundTrip(position);
    ParseIntLiteralRoundTrip(maxRows);
  }

  lemma NoQuoteInLimit(position: int, maxRows: int)
    ensures '\'' !in LimitClause(position, maxRows)
  {
    var limit := LimitClause(position, maxRows);
    var p, m := IntToString(position), IntToString(maxRows);
    forall i | 0 <= i < |limit| ensures limit[i] != '\'' {
      if 7 <= i < 7 + |p| {
        assert limit[i] == p[i - 7];
      } else if 9 + |p| <= i {
        assert limit[i] == m[i - 9 - |p|];
      }
    }
  }

  lemma LimitIsNotIn(t: string)
    requires HasPrefix(t, " LIMIT ")
    ensures !HasPrefix(t, " IN '")
  {
    assert t[1] == t[..7][1] == 'L';
    NotPrefixAt(t, " IN '", 1);
  }

  lemma {:induction false} ParseClausesWithoutLog(position: int, maxRows: int)
    ensures ParseClauses(LimitClause(position, maxRows)) == Some(Query("", position, maxRows))
  {
    var limit := LimitClause(position, maxRows);
    ParseLimitRoundTrip(position, maxRows);
    assert HasPrefix(limit, " LIMIT ");
    LimitIsNotIn(limit);
  }

  lemma {:induction false} ParseClausesWithLog(log: string, position: int, maxRows: int)
    ensures ParseClauses(" IN '" + log + "'" + LimitClause(position, maxRows))
            == Some(Query(log, position, maxRows))
  {
    var limit := LimitClause(position, maxRows);
    var a := " IN '" + log;
    var rest := a + ['\''] + limit;
    assert " IN '" + log + "'" + limit == rest;
    assert rest[..|a|] == a;
    assert HasPrefix(rest, " IN '") by {
      assert rest[..5] == a[..5];
    }
    NoQuoteInLimit(position, maxRows);
    LastIndexAt(a, '\'', limit);
    assert rest[|a| + 1..] == limit;
    assert rest[5..|a|] == a[5..] == log;
    ParseLimitRoundTrip(position, maxRows);
  }

  /**
    The statement determines the page it asks for: reading it back gives the
    position and page size, and the log name unless PHP's `empty()` dropped it.
   */
  lemma {:induction false} SqlQueryRoundTrip(log: string, position: int, maxRows: int)
    ensures ParseQuery(SqlQuery(log, position, maxRows))
            == Some(Query(if EmptyString(log) then "" else log, position, maxRows))
  {
    var q := SqlQuery(log, position, maxRows);
    var limit := LimitClause(position, maxRows);
    assert q[|Show|..] == InClause(log) + limit;
    if EmptyString(log) {
      assert InClause(log) + limit == limit;
      ParseClausesWithoutLog(position, maxRows);
    } else {
      ParseClausesWithLog(log, position, maxRows);
    }
  }
}
