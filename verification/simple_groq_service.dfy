/**
 * The unauthenticated query service (`simpleQueryGroq`): the same pipeline
 * as the connected service on the pool that service owns, with its own
 * system prompt and a result that flags the simple version and passes the
 * reply's `alert` through.
 */
module SimpleGroqService {
  import opened Wrappers
  import opened Text
  import opened Entries
  import opened JsValues
  import opened SchemaPrompt
  import opened QueryPipeline
  import GroqService

  /** The system prompt: the base instructions, a newline and the schema prompt, nothing after it. */
  function SystemPrompt(base: string, schemaPrompt: string): (r: string)
    ensures |r| == |base| + |schemaPrompt| + 1
    ensures StartsWith(r, base) && r[|base|] == '\n'
    ensures r[|base| + 1..] == schemaPrompt
  {
    base + "\n" + schemaPrompt
  }

  function Compose(base: string): string -> string {
    s => SystemPrompt(base, s)
  }

  /** The keys of the simple result, in order. */
  const SimpleKeys: seq<string> := ["explanation", "sqlQuery", "queryType", "alert", "isSimpleVersion", "result"]

  /**
   * The success record of the simple service: the reply's `explanation`,
   * `sqlQuery`, `queryType` and `alert` as they are, `isSimpleVersion: true`,
   * then the execution `result`; there is never a `chartType` key.
   */
  function ShapeSimple(reply: JsValue, result: JsValue): (r: JsValue)
    requires !reply.JNull? && !reply.JUndefined?
    ensures r.JObj? && Keys(r.fields) == SimpleKeys
    ensures "chartType" !in Keys(r.fields)
    ensures Lookup(r.fields, "isSimpleVersion") == JBool(true)
    ensures Lookup(r.fields, "alert") == Get(reply, "alert")
    ensures Lookup(r.fields, "explanation") == Get(reply, "explanation")
    ensures Lookup(r.fields, "sqlQuery") == Get(reply, "sqlQuery")
    ensures Lookup(r.fields, "queryType") == Get(reply, "queryType")
    ensures Lookup(r.fields, "result") == result
  {
    var fields := SimpleFields(reply, result);
    SimpleFieldsKeys(reply, result);
    SimpleFieldsCopied(reply, result);
    SimpleFieldsAdded(reply, result);
    JObj(fields)
  }

  function SimpleFields(reply: JsValue, result: JsValue): seq<(string, JsValue)>
    requires !reply.JNull? && !reply.JUndefined?
  {
    [("explanation", Get(reply, "explanation")),
     ("sqlQuery", Get(reply, "sqlQuery")),
     ("queryType", Get(reply, "queryType")),
     ("alert", Get(reply, "alert")),
     ("isSimpleVersion", JBool(true)),
     ("result", result)]
  }

  lemma SimpleFieldsKeys(reply: JsValue, result: JsValue)
    requires !reply.JNull? && !reply.JUndefined?
    ensures Keys(SimpleFields(reply, result)) == SimpleKeys
    ensures "chartType" !in SimpleKeys
  {
  }

  lemma SimpleFieldsCopied(reply: JsValue, result: JsValue)
    requires !reply.JNull? && !reply.JUndefined?
    ensures Lookup(SimpleFields(reply, result), "explanation") == Get(reply, "explanation")
    ensures Lookup(SimpleFields(reply, result), "sqlQuery") == Get(reply, "sqlQuery")
    ensures Lookup(SimpleFields(reply, result), "queryType") == Get(reply, "queryType")
  {
    var fields := SimpleFields(reply, result);
    LookupPast(fields, 1, "sqlQuery");
    LookupPast(fields, 2, "queryType");
  }

  lemma SimpleFieldsAdded(reply: JsValue, result: JsValue)
    requires !reply.JNull? && !reply.JUndefined?
    ensures Lookup(SimpleFields(reply, result), "alert") == Get(reply, "alert")
    ensures Lookup(SimpleFields(reply, result), "isSimpleVersion") == JBool(true)
    ensures Lookup(SimpleFields(reply, result), "result") == result
  {
    var fields := SimpleFields(reply, result);
    LookupPast(fields, 3, "alert");
    LookupPast(fields, 4, "isSimpleVersion");
    LookupPast(fields, 5, "result");
  }

  /** A key absent from the first `n` fields is looked up in the rest. */
  lemma {:induction false} LookupPast(fields: seq<(string, JsValue)>, n: nat, key: string)
    requires n <= |fields|
    requires forall k :: 0 <= k < n ==> fields[k].0 != key
    ensures Lookup(fields, key) == Lookup(fields[n..], key)
  {
    if n > 0 {
      LookupPast(fields[1..], n - 1, key);
      assert fields[1..][n - 1..] == fields[n..];
    }
  }

  function Shape(reply: JsValue, result: JsValue): JsValue {
    if reply.JNull? || reply.JUndefined? then JUndefined else ShapeSimple(reply, result)
  }

  /**
   * `simpleQueryGroq`: fails with the not-connected message whenever the
   * shared pool is absent, runs the executor only on a truthy `sqlQuery`,
   * prefixes every failure, and on success returns the simple record.
   */
  function SimpleQueryGroq(pool: PoolState, io: Collaborators, base: string, userQuery: string): (r: Run)
    ensures pool.PoolAbsent? ==> r == Run(Failure(ErrorPrefix + NotConnectedMsg), None)
    ensures r.outcome.Failure? ==> StartsWith(r.outcome.error, ErrorPrefix)
    ensures r.executed.Some? ==> Truthy(r.executed.value)
    ensures r.outcome.Success? ==>
      var prep := Prepare(pool, io, Compose(base), userQuery);
      && prep.Success? && r.executed.Some?
      && prep.value.0 == SystemPrompt(base, Render(io.catalog.value))
      && ExecuteQuery(pool, io.execute, r.executed.value).Success?
      && r.outcome.value == ShapeSimple(prep.value.1, ExecuteQuery(pool, io.execute, r.executed.value).value)
    ensures Prepare(pool, io, Compose(base), userQuery).Success? ==>
      (r.outcome.Success? <==>
        ExecuteQuery(pool, io.execute, Get(Prepare(pool, io, Compose(base), userQuery).value.1, "sqlQuery")).Success?)
    ensures Prepare(pool, io, Compose(base), userQuery).Failure? ==>
      r == Run(Failure(Rethrow(Prepare(pool, io, Compose(base), userQuery).error)), None)
  {
    RunQuery(pool, io, Compose(base), Shape, userQuery)
  }

  /**
   * A successful simple run is flagged as the simple version, passes the
   * reply's `alert` through, copies `sqlQuery`, and has no `chartType` key.
   */
  lemma SimpleQuerySuccess(pool: PoolState, io: Collaborators, base: string, userQuery: string)
    ensures
      var r := SimpleQueryGroq(pool, io, base, userQuery);
      r.outcome.Success? ==>
      var reply := Prepare(pool, io, Compose(base), userQuery).value.1;
      var o := r.outcome.value;
      && o.JObj?
      && Lookup(o.fields, "isSimpleVersion") == JBool(true)
      && Lookup(o.fields, "alert") == Get(reply, "alert")
      && Lookup(o.fields, "sqlQuery") == r.executed.value
      && "chartType" !in Keys(o.fields)
  {
  }

  /**
   * The two services differ in their system prompt only by the connected
   * service's extra trailing newline.
   */
  lemma PromptsDifferByTrailingNewline(base: string, schemaPrompt: string)
    ensures GroqService.SystemPrompt(base, schemaPrompt) == SystemPrompt(base, schemaPrompt) + "\n"
  {
  }

  /** After a disconnect of the shared pool the simple service fails, whatever the completion returns. */
  lemma SimpleQueryAfterDisconnect(pool: PoolState, io: Collaborators, base: string, userQuery: string)
    ensures SimpleQueryGroq(GroqService.DisconnectDatabase(pool).0, io, base, userQuery) ==
      Run(Failure(ErrorPrefix + NotConnectedMsg), None)
  {
  }

  /** Missing or unparseable content fails the run with the prefixed parse message; nothing is executed. */
  lemma SimpleQueryUnparseable(io: Collaborators, base: string, userQuery: string, schema: Schema, content: Content)
    requires io.catalog == Success(schema)
    requires io.complete(SystemPrompt(base, Render(schema)), userQuery) == Success(content)
    requires content.Absent? || (content.Text? && io.parse(TextToParse(content.text)).None?)
    ensures SimpleQueryGroq(PoolPresent, io, base, userQuery) == Run(Failure(ErrorPrefix + ParseFailedMsg), None)
  {
    UnparseableNeverExecutes(io, Compose(base), Shape, userQuery, schema, content);
  }

  /** `null` content fails the run with the prefixed TypeError message of reading `sqlQuery`; nothing is executed. */
  lemma SimpleQueryNullContent(io: Collaborators, base: string, userQuery: string, schema: Schema)
    requires io.catalog == Success(schema)
    requires io.complete(SystemPrompt(base, Render(schema)), userQuery) == Success(NullContent)
    ensures SimpleQueryGroq(PoolPresent, io, base, userQuery) ==
      Run(Failure(ErrorPrefix + NullReadMsg(JNull)), None)
  {
    NullContentNeverExecutes(io, Compose(base), Shape, userQuery, schema);
  }

  /** A reply without a truthy `sqlQuery` fails the run with the prefixed no-SQL message; nothing is executed. */
  lemma SimpleQueryMissingSql(io: Collaborators, base: string, userQuery: string, schema: Schema, text: string, reply: JsValue)
    requires io.catalog == Success(schema)
    requires io.complete(SystemPrompt(base, Render(schema)), userQuery) == Success(Text(text))
    requires io.parse(TextToParse(text)) == Some(reply)
    requires !reply.JNull? && !reply.JUndefined? && !Truthy(Get(reply, "sqlQuery"))
    ensures SimpleQueryGroq(PoolPresent, io, base, userQuery) == Run(Failure(ErrorPrefix + NoSqlMsg), None)
  {
    MissingSqlNeverExecutes(io, Compose(base), Shape, userQuery, schema, text, reply);
  }

  /**
   * When every step succeeds the run returns the simple record for the reply and
   * `{rowCount, rows}`, after executing the reply's `sqlQuery`.
   */
  lemma SimpleQueryAllStepsSucceed(io: Collaborators, base: string, userQuery: string, schema: Schema,
                                text: string, reply: JsValue, rowCount: JsValue, rows: JsValue)
    ensures
      (io.catalog == Success(schema)
       && io.complete(SystemPrompt(base, Render(schema)), userQuery) == Success(Text(text))
       && io.parse(TextToParse(text)) == Some(reply)
       && !reply.JNull? && !reply.JUndefined? && Truthy(Get(reply, "sqlQuery"))
       && io.execute(Get(reply, "sqlQuery")) == Success((rowCount, rows))) ==>
      SimpleQueryGroq(PoolPresent, io, base, userQuery) ==
        Run(Success(ShapeSimple(reply, JObj([("rowCount", rowCount), ("rows", rows)]))),
            Some(Get(reply, "sqlQuery")))
  {
    AllStepsSucceed(io, Compose(base), Shape, userQuery, schema, text, reply, rowCount, rows);
  }
}
