/**
 * The post-processing both query services apply to a completion: clean the
 * text, parse it as JSON, insist on a truthy `sqlQuery`, execute it on the
 * pool, and prefix any failure. The completion API, `JSON.parse`, the catalog
 * reads and the SQL executor are collaborators passed in as values.
 */
module QueryPipeline {
  import opened Wrappers
  import opened Text
  import opened JsValues
  import opened SchemaPrompt
  import opened ReplyCleanup

  /** The module-level `pool`: a live pool object, or `null` after a disconnect. */
  datatype PoolState = PoolPresent | PoolAbsent

  const NotConnectedMsg: string := "Database not connected"
  const ParseFailedMsg: string := "Failed to parse AI response into valid JSON"
  const NoSqlMsg: string := "No SQL query generated"
  const ErrorPrefix: string := "Failed to process query: "

  /** The message V8 gives the TypeError raised by reading `sqlQuery` of `null` or `undefined`. */
  function NullReadMsg(v: JsValue): (m: string)
    requires v.JNull? || v.JUndefined?
    ensures v.JNull? ==> m == "Cannot read properties of null (reading 'sqlQuery')"
  {
    "Cannot read properties of " + (if v.JNull? then "null" else "undefined") + " (reading 'sqlQuery')"
  }

  /**
   * `choices[0]?.message?.content`: `undefined` when the completion has no
   * choice or message, `null` when the message has no text, or the text.
   */
  datatype Content = Absent | NullContent | Text(text: string)

  /**
   * What the pipeline consumes from the outside world:
   * - `catalog`: the tables and columns read from `information_schema`, or the driver's error;
   * - `complete`: the completion API, from (system prompt, user query) to
   *   the message content, or the error it throws;
   * - `parse`: `JSON.parse` on a string, `None` when it throws;
   * - `execute`: `client.query`, giving the driver result's `rowCount` and
   *   `rows` fields as they read (a `null` count for a command without one,
   *   `undefined` fields for the array a multi-statement string gives), or
   *   the driver's error.
   */
  datatype Collaborators = Collaborators(
    catalog: Result<Schema, string>,
    complete: (string, string) -> Result<Content, string>,
    parse: string -> Option<JsValue>,
    execute: JsValue -> Result<(JsValue, JsValue), string>)

  /** `getDatabaseSchema` with the `Database not connected` guard of its catalog reads. */
  function GetDatabaseSchema(pool: PoolState, catalog: Result<Schema, string>): (r: Result<Schema, string>)
    ensures pool.PoolAbsent? ==> r == Failure(NotConnectedMsg)
    ensures pool.PoolPresent? ==> r == catalog
  {
    if pool.PoolAbsent? then Failure(NotConnectedMsg) else catalog
  }

  /** `executeQuery`: guarded by the pool, returns `{rowCount, rows}` or rethrows the driver's error. */
  function ExecuteQuery(pool: PoolState, execute: JsValue -> Result<(JsValue, JsValue), string>, sql: JsValue)
    : (r: Result<JsValue, string>)
    ensures pool.PoolAbsent? ==> r == Failure(NotConnectedMsg)
    ensures pool.PoolPresent? && execute(sql).Failure? ==> r == Failure(execute(sql).error)
    ensures pool.PoolPresent? && execute(sql).Success? ==> r.Success?
    ensures r.Success? ==>
      && pool.PoolPresent? && execute(sql).Success?
      && r.value == JObj([("rowCount", execute(sql).value.0), ("rows", execute(sql).value.1)])
  {
    if pool.PoolAbsent? then Failure(NotConnectedMsg)
    else
      match execute(sql)
      case Failure(m) => Failure(m)
      case Success((count, rows)) => Success(JObj([("rowCount", count), ("rows", rows)]))
  }

  /**
   * The string handed to `JSON.parse`: cleaned when it is non-empty, as it
   * is otherwise (the `if (responseContent)` guard skips `""`).
   */
  function TextToParse(c: string): (t: string)
    ensures !Contains(t, Fence)
    ensures c != "" ==> t == Cleanup(c)
    ensures c == "" ==> t == ""
  {
    if c != "" then Cleanup(c)
    else assert !OccursAt(c, Fence, 0); c
  }

  /**
   * `JSON.parse(responseContent)`: `undefined` and text `JSON.parse`
   * rejects both fail with the fixed parse message; `null` parses to `null`;
   * text parses to what `JSON.parse` gives for its cleaned form.
   */
  function ParseReply(content: Content, parse: string -> Option<JsValue>): (r: Result<JsValue, string>)
    ensures r.Failure? ==> r.error == ParseFailedMsg
    ensures content.Absent? ==> r.Failure?
    ensures content.NullContent? ==> r == Success(JNull)
    ensures content.Text? ==>
      (r.Success? <==> parse(TextToParse(content.text)).Some?)
    ensures content.Text? && r.Success? ==> r.value == parse(TextToParse(content.text)).value
  {
    match content
    case Absent => Failure(ParseFailedMsg)
    case NullContent => Success(JNull)
    case Text(c) =>
      match parse(TextToParse(c))
      case None => Failure(ParseFailedMsg)
      case Some(v) => Success(v)
  }

  /** The `if (!response.sqlQuery)` check; reading a property of `null` throws a TypeError first. */
  function RequireSql(v: JsValue): (r: Result<JsValue, string>)
    ensures r.Success? <==> !v.JNull? && !v.JUndefined? && Truthy(Get(v, "sqlQuery"))
    ensures r.Success? ==> r.value == v
    ensures !v.JNull? && !v.JUndefined? && !Truthy(Get(v, "sqlQuery")) ==> r == Failure(NoSqlMsg)
  {
    if v.JNull? || v.JUndefined? then Failure(NullReadMsg(v))
    else if !Truthy(Get(v, "sqlQuery")) then Failure(NoSqlMsg)
    else Success(v)
  }

  /**
   * Everything before `executeQuery`: read the schema, build the system
   * prompt with `compose`, ask for a completion, parse it and check
   * `sqlQuery`. On success it yields the system prompt sent and the parsed reply.
   */
  function Prepare(pool: PoolState, io: Collaborators, compose: string -> string, userQuery: string)
    : (r: Result<(string, JsValue), string>)
    ensures pool.PoolAbsent? ==> r == Failure(NotConnectedMsg)
    ensures r.Success? ==>
      && io.catalog.Success?
      && r.value.0 == compose(Render(io.catalog.value))
      && !r.value.1.JNull? && !r.value.1.JUndefined?
      && Truthy(Get(r.value.1, "sqlQuery"))
    ensures r.Success? ==>
      var c := io.complete(r.value.0, userQuery);
      && c.Success? && c.value.Text?
      && io.parse(TextToParse(c.value.text)) == Some(r.value.1)
  {
    match GetDatabaseSchema(pool, io.catalog)
    case Failure(m) => Failure(m)
    case Success(schema) =>
      var prompt := compose(Render(schema));
      match io.complete(prompt, userQuery)
      case Failure(m) => Failure(m)
      case Success(content) =>
        match ParseReply(content, io.parse)
        case Failure(m) => Failure(m)
        case Success(v) =>
          match RequireSql(v)
          case Failure(m) => Failure(m)
          case Success(reply) => Success((prompt, reply))
  }

  /**
   * A query run as observed from outside: the value returned or the message
   * thrown, and the `sqlQuery` value `executeQuery` was called with, if it was called.
   */
  datatype Run = Run(outcome: Result<JsValue, string>, executed: Option<JsValue>)

  /** `throw new Error(\`Failed to process query: ${error.message}\`)`. */
  function Rethrow(message: string): (r: string)
    ensures StartsWith(r, ErrorPrefix)
    ensures r[|ErrorPrefix|..] == message
  {
    ErrorPrefix + message
  }

  /**
   * The whole pipeline, with `shape` building the success record from the
   * parsed reply and the execution result. The executor is reached exactly
   * when every step before it succeeded, and then with the reply's
   * `sqlQuery`; every failure is rethrown with the common prefix.
   */
  function RunQuery(pool: PoolState, io: Collaborators, compose: string -> string,
                    shape: (JsValue, JsValue) -> JsValue, userQuery: string): (r: Run)
    ensures r.executed.Some? <==> Prepare(pool, io, compose, userQuery).Success?
    ensures r.executed.Some? ==>
      r.executed.value == Get(Prepare(pool, io, compose, userQuery).value.1, "sqlQuery")
    ensures Prepare(pool, io, compose, userQuery).Failure? ==>
      r.outcome == Failure(Rethrow(Prepare(pool, io, compose, userQuery).error))
    ensures r.outcome.Failure? ==> StartsWith(r.outcome.error, ErrorPrefix)
    ensures pool.PoolAbsent? ==> r == Run(Failure(ErrorPrefix + NotConnectedMsg), None)
    ensures r.outcome.Success? ==>
      var reply := Prepare(pool, io, compose, userQuery).value.1;
      && r.executed.Some?
      && ExecuteQuery(pool, io.execute, r.executed.value).Success?
      && r.outcome.value == shape(reply, ExecuteQuery(pool, io.execute, r.executed.value).value)
    ensures Prepare(pool, io, compose, userQuery).Success? ==>
      var exec := ExecuteQuery(pool, io.execute, Get(Prepare(pool, io, compose, userQuery).value.1, "sqlQuery"));
      && (r.outcome.Success? <==> exec.Success?)
      && (exec.Failure? ==> r.outcome == Failure(Rethrow(exec.error)))
  {
    match Prepare(pool, io, compose, userQuery)
    case Failure(m) => Run(Failure(Rethrow(m)), None)
    case Success((_, reply)) =>
      var sql := Get(reply, "sqlQuery");
      match ExecuteQuery(pool, io.execute, sql)
      case Failure(m) => Run(Failure(Rethrow(m)), Some(sql))
      case Success(result) => Run(Success(shape(reply, result)), Some(sql))
  }

  /**
   * A run whose catalog read or completion call throws rethrows that
   * message with the prefix and executes nothing.
   */
  lemma EarlyFailureRethrown(io: Collaborators, compose: string -> string,
                             shape: (JsValue, JsValue) -> JsValue, userQuery: string, m: string)
    requires io.catalog == Failure(m)
      || (io.catalog.Success? && io.complete(compose(Render(io.catalog.value)), userQuery) == Failure(m))
    ensures RunQuery(PoolPresent, io, compose, shape, userQuery) == Run(Failure(ErrorPrefix + m), None)
  {
  }

  /**
   * Missing content, or text `JSON.parse` rejects, ends the run with
   * `Failed to process query: Failed to parse AI response into valid JSON`
   * before anything is executed.
   */
  lemma UnparseableNeverExecutes(io: Collaborators, compose: string -> string,
                                 shape: (JsValue, JsValue) -> JsValue, userQuery: string,
                                 schema: Schema, content: Content)
    requires io.catalog == Success(schema)
    requires io.complete(compose(Render(schema)), userQuery) == Success(content)
    requires content.Absent? || (content.Text? && io.parse(TextToParse(content.text)).None?)
    ensures RunQuery(PoolPresent, io, compose, shape, userQuery) == Run(Failure(ErrorPrefix + ParseFailedMsg), None)
  {
    assert ParseReply(content, io.parse) == Failure(ParseFailedMsg);
  }

  /**
   * `null` content parses to `null`, and reading its `sqlQuery` throws a
   * TypeError, whose message is rethrown with the prefix; nothing is executed.
   */
  lemma NullContentNeverExecutes(io: Collaborators, compose: string -> string,
                                 shape: (JsValue, JsValue) -> JsValue, userQuery: string, schema: Schema)
    requires io.catalog == Success(schema)
    requires io.complete(compose(Render(schema)), userQuery) == Success(NullContent)
    ensures RunQuery(PoolPresent, io, compose, shape, userQuery) ==
      Run(Failure(ErrorPrefix + NullReadMsg(JNull)), None)
  {
    assert ParseReply(NullContent, io.parse) == Success(JNull);
    assert Prepare(PoolPresent, io, compose, userQuery) == Failure(NullReadMsg(JNull));
  }

  /**
   * A parsed object reply whose `sqlQuery` is missing or falsy ends the run
   * with `Failed to process query: No SQL query generated`, executing nothing.
   */
  lemma MissingSqlNeverExecutes(io: Collaborators, compose: string -> string,
                                shape: (JsValue, JsValue) -> JsValue, userQuery: string,
                                schema: Schema, text: string, reply: JsValue)
    requires io.catalog == Success(schema)
    requires io.complete(compose(Render(schema)), userQuery) == Success(Text(text))
    requires io.parse(TextToParse(text)) == Some(reply)
    requires !reply.JNull? && !reply.JUndefined? && !Truthy(Get(reply, "sqlQuery"))
    ensures RunQuery(PoolPresent, io, compose, shape, userQuery) == Run(Failure(ErrorPrefix + NoSqlMsg), None)
  {
    assert ParseReply(Text(text), io.parse) == Success(reply);
  }

  /**
   * When the schema read, the completion, the parse, the `sqlQuery` check
   * and the execution all succeed, the run succeeds with the shaped record
   * of the reply and `{rowCount, rows}`, having executed the reply's `sqlQuery`.
   */
  lemma AllStepsSucceed(io: Collaborators, compose: string -> string,
                        shape: (JsValue, JsValue) -> JsValue, userQuery: string,
                        schema: Schema, text: string, reply: JsValue, rowCount: JsValue, rows: JsValue)
    ensures
      (io.catalog == Success(schema)
       && io.complete(compose(Render(schema)), userQuery) == Success(Text(text))
       && io.parse(TextToParse(text)) == Some(reply)
       && !reply.JNull? && !reply.JUndefined? && Truthy(Get(reply, "sqlQuery"))
       && io.execute(Get(reply, "sqlQuery")) == Success((rowCount, rows))) ==>
      RunQuery(PoolPresent, io, compose, shape, userQuery) ==
        Run(Success(shape(reply, JObj([("rowCount", rowCount), ("rows", rows)]))),
            Some(Get(reply, "sqlQuery")))
  {
    if io.parse(TextToParse(text)) == Some(reply) {
      assert ParseReply(Text(text), io.parse) == Success(reply);
    }
  }

  /**
   * When everything before execution succeeds but the driver throws, the
   * driver's message is rethrown with the prefix after the query was executed.
   */
  lemma ExecutorFailureRethrown(io: Collaborators, compose: string -> string,
                                shape: (JsValue, JsValue) -> JsValue, userQuery: string,
                                schema: Schema, text: string, reply: JsValue, m: string)
    ensures
      (io.catalog == Success(schema)
       && io.complete(compose(Render(schema)), userQuery) == Success(Text(text))
       && io.parse(TextToParse(text)) == Some(reply)
       && !reply.JNull? && !reply.JUndefined? && Truthy(Get(reply, "sqlQuery"))
       && io.execute(Get(reply, "sqlQuery")) == Failure(m)) ==>
      RunQuery(PoolPresent, io, compose, shape, userQuery) ==
        Run(Failure(ErrorPrefix + m), Some(Get(reply, "sqlQuery")))
  {
    if io.parse(TextToParse(text)) == Some(reply) {
      assert ParseReply(Text(text), io.parse) == Success(reply);
    }
  }
}
