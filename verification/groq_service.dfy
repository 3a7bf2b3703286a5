/**
 * The connected query service (`queryGroq`) and the pool lifecycle around
 * it (`initializeDatabase`'s effect on the pool, `disconnectDatabase`).
 */
module GroqService {
  import opened Wrappers
  import opened Text
  import opened Entries
  import opened JsValues
  import opened SchemaPrompt
  import opened QueryPipeline

  const NoConnectionMsg: string := "No active connection"

  /** The system prompt: the base instructions, a newline, the schema prompt, and one more newline. */
  function SystemPrompt(base: string, schemaPrompt: string): (r: string)
    ensures |r| == |base| + |schemaPrompt| + 2
    ensures StartsWith(r, base) && r[|base|] == '\n' && r[|r| - 1] == '\n'
    ensures r[|base| + 1..|r| - 1] == schemaPrompt
  {
    base + "\n" + schemaPrompt + "\n"
  }

  /**
   * The success record: `explanation`, `sqlQuery` and `queryType` copied from
   * the reply, a `chartType` key only when the reply's `chartType` is truthy,
   * then the execution `result`, in that key order.
   */
  function ShapeResult(reply: JsValue, result: JsValue): (r: JsValue)
    requires !reply.JNull? && !reply.JUndefined?
    ensures r.JObj?
    ensures Keys(r.fields) ==
      ["explanation", "sqlQuery", "queryType"]
      + (if Truthy(Get(reply, "chartType")) then ["chartType"] else [])
      + ["result"]
    ensures "chartType" in Keys(r.fields) <==> Truthy(Get(reply, "chartType"))
    ensures Lookup(r.fields, "explanation") == Get(reply, "explanation")
    ensures Lookup(r.fields, "sqlQuery") == Get(reply, "sqlQuery")
    ensures Lookup(r.fields, "queryType") == Get(reply, "queryType")
    ensures Truthy(Get(reply, "chartType")) ==> Lookup(r.fields, "chartType") == Get(reply, "chartType")
    ensures Lookup(r.fields, "result") == result
  {
    var fields := ShapeHead(reply) + ShapeChart(reply) + [("result", result)];
    ShapeLayout(reply, result);
    ShapeCopies(reply, result, "explanation");
    ShapeCopies(reply, result, "sqlQuery");
    ShapeCopies(reply, result, "queryType");
    ShapeChartEntry(reply, result);
    ShapeResultEntry(reply, result);
    JObj(fields)
  }

  /** The fields `queryGroq` returns, split into the copied head, the optional chart and the result. */
  function ShapeHead(reply: JsValue): seq<(string, JsValue)>
    requires !reply.JNull? && !reply.JUndefined?
  {
    [("explanation", Get(reply, "explanation")),
     ("sqlQuery", Get(reply, "sqlQuery")),
     ("queryType", Get(reply, "queryType"))]
  }

  function ShapeChart(reply: JsValue): seq<(string, JsValue)>
    requires !reply.JNull? && !reply.JUndefined?
  {
    if Truthy(Get(reply, "chartType")) then [("chartType", Get(reply, "chartType"))] else []
  }

  lemma ShapeLayout(reply: JsValue, result: JsValue)
    requires !reply.JNull? && !reply.JUndefined?
    ensures Keys(ShapeHead(reply) + ShapeChart(reply) + [("result", result)]) ==
      ["explanation", "sqlQuery", "queryType"]
      + (if Truthy(Get(reply, "chartType")) then ["chartType"] else [])
      + ["result"]
  {
    KeysAppend(ShapeHead(reply) + ShapeChart(reply), [("result", result)]);
    KeysAppend(ShapeHead(reply), ShapeChart(reply));
  }

  lemma ShapeCopies(reply: JsValue, result: JsValue, key: string)
    requires !reply.JNull? && !reply.JUndefined?
    requires key == "explanation" || key == "sqlQuery" || key == "queryType"
    ensures Lookup(ShapeHead(reply) + ShapeChart(reply) + [("result", result)], key) == Get(reply, key)
  {
    var head := ShapeHead(reply);
    FindAppend(head + ShapeChart(reply), [("result", result)], key, JUndefined);
    FindAppend(head, ShapeChart(reply), key, JUndefined);
    assert Keys(head) == ["explanation", "sqlQuery", "queryType"];
    assert key in Keys(head);
  }

  lemma ShapeChartEntry(reply: JsValue, result: JsValue)
    requires !reply.JNull? && !reply.JUndefined?
    ensures Truthy(Get(reply, "chartType")) ==>
      Lookup(ShapeHead(reply) + ShapeChart(reply) + [("result", result)], "chartType") == Get(reply, "chartType")
  {
    if Truthy(Get(reply, "chartType")) {
      var head := ShapeHead(reply);
      var chart := ShapeChart(reply);
      assert Keys(head) == ["explanation", "sqlQuery", "queryType"];
      assert Keys(chart) == ["chartType"];
      KeysAppend(head, chart);
      FindAppend(head + chart, [("result", result)], "chartType", JUndefined);
      FindAppend(head, chart, "chartType", JUndefined);
    }
  }

  lemma ShapeResultEntry(reply: JsValue, result: JsValue)
    requires !reply.JNull? && !reply.JUndefined?
    ensures Lookup(ShapeHead(reply) + ShapeChart(reply) + [("result", result)], "result") == result
  {
    var head := ShapeHead(reply);
    var chart := ShapeChart(reply);
    assert Keys(head) == ["explanation", "sqlQuery", "queryType"];
    assert "result" !in Keys(chart);
    KeysAppend(head, chart);
    FindAppend(head + chart, [("result", result)], "result", JUndefined);
  }

  /** `ShapeResult` as a function value, total on all replies (the pipeline only passes checked ones). */
  function Shape(reply: JsValue, result: JsValue): JsValue {
    if reply.JNull? || reply.JUndefined? then JUndefined else ShapeResult(reply, result)
  }

  /** The prompt transformer `queryGroq` hands to the pipeline. */
  function Compose(base: string): string -> string {
    s => SystemPrompt(base, s)
  }

  /**
   * `queryGroq`: the shared pipeline with this service's system prompt and
   * result shape. Without a pool it fails with the not-connected message,
   * whatever the completion returns; the executor only ever sees a truthy
   * `sqlQuery`; a success is the shaped record around the reply and the
   * execution result.
   */
  function QueryGroq(pool: PoolState, io: Collaborators, base: string, userQuery: string): (r: Run)
    ensures pool.PoolAbsent? ==> r == Run(Failure(ErrorPrefix + NotConnectedMsg), None)
    ensures r.outcome.Failure? ==> StartsWith(r.outcome.error, ErrorPrefix)
    ensures r.executed.Some? ==> Truthy(r.executed.value)
    ensures r.outcome.Success? ==>
      var prep := Prepare(pool, io, Compose(base), userQuery);
      && prep.Success? && r.executed.Some?
      && prep.value.0 == SystemPrompt(base, Render(io.catalog.value))
      && ExecuteQuery(pool, io.execute, r.executed.value).Success?
      && r.outcome.value == ShapeResult(prep.value.1, ExecuteQuery(pool, io.execute, r.executed.value).value)
    ensures Prepare(pool, io, Compose(base), userQuery).Success? ==>
      (r.outcome.Success? <==>
        ExecuteQuery(pool, io.execute, Get(Prepare(pool, io, Compose(base), userQuery).value.1, "sqlQuery")).Success?)
    ensures Prepare(pool, io, Compose(base), userQuery).Failure? ==>
      r == Run(Failure(Rethrow(Prepare(pool, io, Compose(base), userQuery).error)), None)
  {
    RunQuery(pool, io, Compose(base), Shape, userQuery)
  }

  /**
   * A successful `queryGroq` returns the reply's `explanation`, `sqlQuery`
   * and `queryType` verbatim, the executed query's `{rowCount, rows}` as
   * `result`, and a `chartType` key exactly when the reply's is truthy.
   */
  lemma QueryGroqSuccess(pool: PoolState, io: Collaborators, base: string, userQuery: string)
    ensures
      var r := QueryGroq(pool, io, base, userQuery);
      r.outcome.Success? ==>
      var reply := Prepare(pool, io, Compose(base), userQuery).value.1;
      var o := r.outcome.value;
      && o.JObj?
      && Lookup(o.fields, "sqlQuery") == r.executed.value
      && Lookup(o.fields, "explanation") == Get(reply, "explanation")
      && Lookup(o.fields, "queryType") == Get(reply, "queryType")
      && ("chartType" in Keys(o.fields) <==> Truthy(Get(reply, "chartType")))
      && Lookup(o.fields, "result") == JObj([("rowCount", io.execute(r.executed.value).value.0),
                                             ("rows", io.execute(r.executed.value).value.1)])
  {
  }

  /**
   * `disconnectDatabase`: ends a present pool and reports success; with no
   * pool it reports the missing connection. Either way no pool remains.
   */
  function DisconnectDatabase(pool: PoolState): (r: (PoolState, JsValue))
    ensures r.0.PoolAbsent?
    ensures r.1.JObj? && Lookup(r.1.fields, "success") == JBool(pool.PoolPresent?)
    ensures pool.PoolPresent? ==> r.1 == JObj([("success", JBool(true))])
    ensures pool.PoolAbsent? ==> "message" in Keys(r.1.fields) && Lookup(r.1.fields, "message") == JStr(NoConnectionMsg)
  {
    if pool.PoolPresent? then (PoolAbsent, JObj([("success", JBool(true))]))
    else (PoolAbsent, JObj([("success", JBool(false)), ("message", JStr(NoConnectionMsg))]))
  }

  /**
   * The pool effect of `initializeDatabase`: the new pool is assigned before
   * the connection test, so a pool is present afterwards even when the test
   * fails; the reply reports the test's outcome.
   */
  function InitializeDatabase(pool: PoolState, connectionTest: Result<(), string>): (r: (PoolState, JsValue))
    ensures r.0.PoolPresent?
    ensures r.1.JObj? && Lookup(r.1.fields, "success") == JBool(connectionTest.Success?)
    ensures connectionTest.Failure? ==> Lookup(r.1.fields, "message") == JStr(connectionTest.error)
  {
    match connectionTest
    case Success(_) => (PoolPresent, JObj([("success", JBool(true))]))
    case Failure(m) =>
      var fields := [("success", JBool(false)), ("message", JStr(m))];
      assert Keys(fields[..1]) == ["success"];
      (PoolPresent, JObj(fields))
  }

  /** A second disconnect in a row finds no connection and changes nothing. */
  lemma DisconnectTwice(pool: PoolState)
    ensures DisconnectDatabase(DisconnectDatabase(pool).0) ==
      (PoolAbsent, JObj([("success", JBool(false)), ("message", JStr(NoConnectionMsg))]))
  {
  }

  /**
   * After a disconnect every query fails with the not-connected message,
   * whatever the completion and the executor would return.
   */
  lemma QueryAfterDisconnect(pool: PoolState, io: Collaborators, base: string, userQuery: string)
    ensures QueryGroq(DisconnectDatabase(pool).0, io, base, userQuery) ==
      Run(Failure(ErrorPrefix + NotConnectedMsg), None)
  {
  }

  /** Missing or unparseable content fails the run with the prefixed parse message; nothing is executed. */
  lemma QueryGroqUnparseable(io: Collaborators, base: string, userQuery: string, schema: Schema, content: Content)
    requires io.catalog == Success(schema)
    requires io.complete(SystemPrompt(base, Render(schema)), userQuery) == Success(content)
    requires content.Absent? || (content.Text? && io.parse(TextToParse(content.text)).None?)
    ensures QueryGroq(PoolPresent, io, base, userQuery) == Run(Failure(ErrorPrefix + ParseFailedMsg), None)
  {
    UnparseableNeverExecutes(io, Compose(base), Shape, userQuery, schema, content);
  }

  /** `null` content fails the run with the prefixed TypeError message of reading `sqlQuery`; nothing is executed. */
  lemma QueryGroqNullContent(io: Collaborators, base: string, userQuery: string, schema: Schema)
    requires io.catalog == Success(schema)
    requires io.complete(SystemPrompt(base, Render(schema)), userQuery) == Success(NullContent)
    ensures QueryGroq(PoolPresent, io, base, userQuery) ==
      Run(Failure(ErrorPrefix + NullReadMsg(JNull)), None)
  {
    NullContentNeverExecutes(io, Compose(base), Shape, userQuery, schema);
  }

  /** A reply without a truthy `sqlQuery` fails the run with the prefixed no-SQL message; nothing is executed. */
  lemma QueryGroqMissingSql(io: Collaborators, base: string, userQuery: string, schema: Schema, text: string, reply: JsValue)
    requires io.catalog == Success(schema)
    requires io.complete(SystemPrompt(base, Render(schema)), userQuery) == Success(Text(text))
    requires io.parse(TextToParse(text)) == Some(reply)
    requires !reply.JNull? && !reply.JUndefined? && !Truthy(Get(reply, "sqlQuery"))
    ensures QueryGroq(PoolPresent, io, base, userQuery) == Run(Failure(ErrorPrefix + NoSqlMsg), None)
  {
    MissingSqlNeverExecutes(io, Compose(base), Shape, userQuery, schema, text, reply);
  }

  /**
   * When every step succeeds the run returns the `ShapeResult` record for the reply and
   * `{rowCount, rows}`, after executing the reply's `sqlQuery`.
   */
  lemma QueryGroqAllStepsSucceed(io: Collaborators, base: string, userQuery: string, schema: Schema,
                                text: string, reply: JsValue, rowCount: JsValue, rows: JsValue)
    ensures
      (io.catalog == Success(schema)
       && io.complete(SystemPrompt(base, Render(schema)), userQuery) == Success(Text(text))
       && io.parse(TextToParse(text)) == Some(reply)
       && !reply.JNull? && !reply.JUndefined? && Truthy(Get(reply, "sqlQuery"))
       && io.execute(Get(reply, "sqlQuery")) == Success((rowCount, rows))) ==>
      QueryGroq(PoolPresent, io, base, userQuery) ==
        Run(Success(ShapeResult(reply, JObj([("rowCount", rowCount), ("rows", rows)]))),
            Some(Get(reply, "sqlQuery")))
  {
    AllStepsSucceed(io, Compose(base), Shape, userQuery, schema, text, reply, rowCount, rows);
  }
}
