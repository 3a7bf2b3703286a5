# Natural-language-to-SQL assistant: a Dafny model of its text and record processing

This project models the deterministic logic around the language-model call
in a natural-language-to-SQL chat assistant (a Node backend and a React
frontend). The network, the database and the UI are abstracted; what remains
is stated over strings, sequences and option-typed records, and proved.

- `SchemaPrompt`: `generateSchemaPrompt`, which renders the table/column
  catalog into the schema section of the system prompt. It is proved equal
  to a reference rendering, and its format is pinned down: the header, the
  `, nullable` marker exactly for `is_nullable == "YES"`, and defaults that
  never show.
- `ReplyCleanup`: the fence stripping of the completion text (two global
  regex replacements plus `trim`). The cleaned text never contains "```",
  and the usual "```json\n…\n```" wrapping reduces to the trimmed body.
- `QueryPipeline`: the steps shared by `queryGroq` and `simpleQueryGroq`:
  schema read, completion, parse, the `sqlQuery` check, `executeQuery` with
  its `Database not connected` guard, and the `Failed to process query: `
  prefix. A run reports what was returned or thrown, and whether and with
  what `executeQuery` was called.
- `GroqService`, `SimpleGroqService`: the two services' system prompts and
  result records, `disconnectDatabase`, and the pool effect of
  `initializeDatabase`, over a two-state pool flag.
- `AuthMiddleware`: `parseAuthToken`, with `jwt.verify` as an abstract
  function.
- `CsvExport`, `ChatBox`: the CSV export (field quoting in the style of
  rules 5 to 7 of section 2 of RFC 4180, with a parser proving the round
  trip; the header line is the keys joined by `,` without quoting), the export guards, the `ExportButton` decision and the blank-query
  guard.
- `ChartRenderer`: the choice of label and value column, and the dispatch
  on the chart kind.
- `Text`, `Entries`, `JsValues`, `Wrappers`: shared helpers. They cover JavaScript's
  `split`, `join` and `trim` (with the ECMA-262 whitespace set), ordered
  key/value entries (JSON objects and result rows alike), JSON-like values
  with JavaScript truthiness, and Option/Result.

Collaborators are inputs: the catalog read, the completion API, `JSON.parse`
(`None` when it throws), the SQL executor and `jwt.verify` are values passed
to the functions. The completion's message content is `undefined`, `null` or
a string; `null` content parses to `null`, and reading its `sqlQuery` throws. The base prompts are opaque string parameters.

Three facts about the code shape the model:
- The backend starts with `pool = new Pool()`, which is truthy.
  The pool flag therefore starts as `PoolPresent`, and the `Database not connected`
  guards only fire after `disconnectDatabase`.
- `initializeDatabase` assigns the new pool before testing it. After a
  failed connection test the pool is still present.
- `simpleQueryGroq` executes the generated SQL just as `queryGroq` does
  (simpleGroqService.js:152); the two differ only in the system prompt and
  the shape of the returned record.

## Model

| member | source | states |
|---|---|---|
| SchemaPrompt.GenerateSchemaPrompt | ai-agent-backend/groqService.js:109-122 | The accumulating loop builds the reference rendering: the header, then each table's block in order. Every prompt starts with `Database Schema:\n\n`, and an empty schema renders exactly that header. The body at simpleGroqService.js:58-71 is identical. |
| SchemaPrompt.RenderAddTable | ai-agent-backend/groqService.js:112-119 | Adding a table appends exactly its block (`Table: T\nColumns:\n`, one line per column in order, a blank line) after the unchanged text of the earlier tables. |
| SchemaPrompt.NullableMarkerIff | ai-agent-backend/groqService.js:116 | A column line is the `, nullable` form if and only if `is_nullable` is exactly `"YES"`. Otherwise it is the bare `- name (type)` line. |
| SchemaPrompt.DefaultsIgnored | ai-agent-backend/groqService.js:109-122 | Two schemas that differ only in `column_default` render the same prompt. |
| ReplyCleanup.NoTripleAfterStrip | ai-agent-backend/groqService.js:312 | After the global removal of "```" (with an optional newline), no three consecutive backticks remain. Deleting a fence never joins backticks into a new one. |
| ReplyCleanup.StripAll | ai-agent-backend/groqService.js:312 | One global replacement never lengthens the text, and text without the token passes through unchanged. |
| ReplyCleanup.Cleanup | ai-agent-backend/groqService.js:311-313 | The fully cleaned text (both replacements, then trim) never contains "```". The same cleanup is at simpleGroqService.js:134-136. |
| ReplyCleanup.WrappedReplyCleansToBody | ai-agent-backend/groqService.js:312 | "```json\n" + body + "\n```" cleans to the trimmed body whenever the body has no backtick. |
| ReplyCleanup.PlainReplyIsTrimmed | ai-agent-backend/groqService.js:312 | A reply without backticks is only trimmed. |
| Text.TrimIsSlice | ai-agent-backend/groqService.js:312 | `trim` returns the slice left after dropping whitespace from both ends. The result neither starts nor ends with whitespace. |
| JsValues.Truthy | ai-agent-backend/groqService.js:324 | The falsy values are exactly `undefined`, `null`, `false`, `0` and `""`. |
| QueryPipeline.TextToParse | ai-agent-backend/groqService.js:311-313 | A non-empty string is handed to the parser cleaned; the empty string skips the cleanup and is handed over as the empty string. Either way the handed text contains no fence. |
| QueryPipeline.ParseReply | ai-agent-backend/groqService.js:307-322 | `undefined` content and text the parser rejects both fail with `Failed to parse AI response into valid JSON`. `null` content parses to `null`. Otherwise the result is the parsed value of the cleaned text. |
| QueryPipeline.RequireSql | ai-agent-backend/groqService.js:324-326 | A parsed reply passes if and only if it is not null and its `sqlQuery` is truthy. A non-null reply with a missing or empty `sqlQuery` fails with `No SQL query generated`. |
| QueryPipeline.ExecuteQuery | ai-agent-backend/groqService.js:350-367 | Without a pool the call throws `Database not connected`. With a pool it succeeds exactly when the driver does, returning `{rowCount, rows}` with the driver result's two fields copied as they read (any JSON value: a `null` count, `undefined` fields), and otherwise rethrows the driver's error. |
| QueryPipeline.GetDatabaseSchema | ai-agent-backend/groqService.js:63-107 | Without a pool the schema read throws `Database not connected`. With a pool it yields the catalog. |
| QueryPipeline.Prepare | ai-agent-backend/groqService.js:262-326 | Without a pool it fails with `Database not connected`. A success carries the system prompt built from the catalog's schema prompt, and a reply with a truthy `sqlQuery` that is what the parser made of the cleaned completion text for that prompt. |
| QueryPipeline.RunQuery | ai-agent-backend/groqService.js:257-348 | `executeQuery` is reached exactly when every earlier step succeeded, and then with the reply's `sqlQuery`. Any earlier failure is rethrown with the prefix and nothing is executed. After the earlier steps succeed, the run succeeds exactly when the execution does: a success is the shaped record of the reply and the execution result, and an executor error is rethrown with the prefix. |
| QueryPipeline.Rethrow | ai-agent-backend/groqService.js:341-347 | The rethrown message is `Failed to process query: ` followed by the inner message, which is recoverable after the prefix. |
| QueryPipeline.EarlyFailureRethrown | ai-agent-backend/groqService.js:261-347 | An error thrown by the catalog read or the completion call is rethrown with the prefix, and nothing is executed. |
| QueryPipeline.UnparseableNeverExecutes | ai-agent-backend/groqService.js:315-322 | `undefined` content, or text the parser rejects, ends the run with `Failed to process query: Failed to parse AI response into valid JSON`, and nothing is executed. |
| QueryPipeline.NullContentNeverExecutes | ai-agent-backend/groqService.js:307-326 | `null` content skips cleanup, parses to `null`, and the read of `sqlQuery` throws; the run fails with the prefixed TypeError message and nothing is executed. |
| QueryPipeline.MissingSqlNeverExecutes | ai-agent-backend/groqService.js:324-326 | A parsed reply whose `sqlQuery` is missing or falsy ends the run with `Failed to process query: No SQL query generated`, and nothing is executed. |
| QueryPipeline.AllStepsSucceed | ai-agent-backend/groqService.js:262-339 | When the schema read, completion, parse, `sqlQuery` check and execution all succeed, the run returns the shaped record of the reply and `{rowCount, rows}` and executed the reply's `sqlQuery`. |
| QueryPipeline.ExecutorFailureRethrown | ai-agent-backend/groqService.js:330-347 | When only the execution fails, the driver's message is rethrown with the prefix after the reply's `sqlQuery` was executed. |
| GroqService.SystemPrompt | ai-agent-backend/groqService.js:284 | The prompt is the base text, one newline, the schema prompt and one trailing newline; the schema prompt reads back from between them. |
| GroqService.ShapeResult | ai-agent-backend/groqService.js:333-339 | The keys are `explanation, sqlQuery, queryType[, chartType], result` in this order. `chartType` is present if and only if the reply's is truthy. The copied values are the reply's own, and `result` is the execution result. |
| GroqService.QueryGroq | ai-agent-backend/groqService.js:257-348 | Without a pool the run is the prefixed not-connected failure, the same whatever the completion and the executor return. A failure before execution is rethrown with the prefix and nothing is executed. Every failure carries the prefix, and the executor only sees a truthy `sqlQuery`. A success was built from the prompt base + "\n" + schema prompt + "\n". Once the steps before execution succeed, the run succeeds exactly when the execution does. |
| GroqService.QueryGroqSuccess | ai-agent-backend/groqService.js:330-339 | A successful run returns the executed `sqlQuery`, the reply's `explanation` and `queryType`, and `{rowCount, rows}` as `result`. It has a `chartType` key if and only if the reply's `chartType` is truthy. |
| GroqService.QueryGroqUnparseable | ai-agent-backend/groqService.js:315-322 | `undefined` or unparseable content makes `queryGroq` throw `Failed to process query: Failed to parse AI response into valid JSON`, executing nothing. |
| GroqService.QueryGroqNullContent | ai-agent-backend/groqService.js:307-326 | `null` content makes `queryGroq` throw the prefixed TypeError message of reading `sqlQuery` of `null`, executing nothing. |
| GroqService.QueryGroqMissingSql | ai-agent-backend/groqService.js:324-326 | A reply without a truthy `sqlQuery` makes `queryGroq` throw `Failed to process query: No SQL query generated`, executing nothing. |
| GroqService.QueryGroqAllStepsSucceed | ai-agent-backend/groqService.js:262-339 | When every step succeeds, `queryGroq` returns the `ShapeResult` record of the reply and `{rowCount, rows}`, having executed the reply's `sqlQuery`. |
| GroqService.DisconnectDatabase | ai-agent-backend/groqService.js:369-376 | Afterwards no pool remains. With a pool the reply is `{success: true}`. Without one it is `{success: false, message: "No active connection"}`. |
| GroqService.DisconnectTwice | ai-agent-backend/groqService.js:369-376 | A second disconnect finds no connection and reports it. |
| GroqService.QueryAfterDisconnect | ai-agent-backend/groqService.js:83-85 | After a disconnect, the schema read throws, so a query fails with `Failed to process query: Database not connected` and the executor is never reached. |
| GroqService.InitializeDatabase | ai-agent-backend/groqService.js:20-53 | A pool is present afterwards whether or not the connection test succeeded. The reply's `success` reflects the test, and on failure `message` carries its error. |
| SimpleGroqService.SystemPrompt | ai-agent-backend/simpleGroqService.js:111 | The prompt is the base text, one newline and the schema prompt, with nothing after it; the schema prompt reads back from after the newline. |
| SimpleGroqService.ShapeSimple | ai-agent-backend/simpleGroqService.js:155-162 | The keys are `explanation, sqlQuery, queryType, alert, isSimpleVersion, result` and never include `chartType`. `isSimpleVersion` is `true`, `alert` and the copied fields are the reply's own, and `result` is the execution result. |
| SimpleGroqService.SimpleQueryGroq | ai-agent-backend/simpleGroqService.js:106-171 | The same guarantees as the connected service (including the prefixed rethrow of any failure before execution, with nothing executed), with the prompt base + "\n" + schema prompt and the simple record on success; once the steps before execution succeed, the run succeeds exactly when the execution does. |
| SimpleGroqService.SimpleQuerySuccess | ai-agent-backend/simpleGroqService.js:152-162 | A successful simple run has `isSimpleVersion: true`, passes `alert` through, copies the executed `sqlQuery` and has no `chartType` key. |
| SimpleGroqService.SimpleQueryUnparseable | ai-agent-backend/simpleGroqService.js:138-144 | `undefined` or unparseable content makes `simpleQueryGroq` throw `Failed to process query: Failed to parse AI response into valid JSON`, executing nothing. |
| SimpleGroqService.SimpleQueryNullContent | ai-agent-backend/simpleGroqService.js:132-148 | `null` content makes `simpleQueryGroq` throw the prefixed TypeError message of reading `sqlQuery` of `null`, executing nothing. |
| SimpleGroqService.SimpleQueryMissingSql | ai-agent-backend/simpleGroqService.js:146-148 | A reply without a truthy `sqlQuery` makes `simpleQueryGroq` throw `Failed to process query: No SQL query generated`, executing nothing. |
| SimpleGroqService.SimpleQueryAllStepsSucceed | ai-agent-backend/simpleGroqService.js:108-162 | When every step succeeds, `simpleQueryGroq` returns the simple record of the reply and `{rowCount, rows}`, having executed the reply's `sqlQuery`. |
| SimpleGroqService.PromptsDifferByTrailingNewline | ai-agent-backend/simpleGroqService.js:111 | The connected service's system prompt is the simple one plus one trailing newline. |
| SimpleGroqService.SimpleQueryAfterDisconnect | ai-agent-backend/simpleGroqService.js:32-34 | Once the shared pool is gone, the simple service's schema read throws, so it fails with the prefixed not-connected message and executes nothing. |
| AuthMiddleware.ParseAuthToken | ai-agent-backend/authMiddleware.js:7-34 | The request is always forwarded. It is authenticated if and only if the header starts with `Bearer `, the token is non-empty, and verification yields a non-null payload. The user id is then the payload's `sub`. A missing or non-Bearer header is anonymous. |
| AuthMiddleware.BearerToken | ai-agent-backend/authMiddleware.js:15 | The token is the text after `Bearer ` up to the next space or the end of the header; it contains no space. |
| AuthMiddleware.TokenExamples | ai-agent-backend/authMiddleware.js:15 | `Bearer a b` gives `a`. `Bearer ` and `Bearer  x` give the empty token. |
| AuthMiddleware.EmptyTokenIsAnonymous | ai-agent-backend/authMiddleware.js:15-19 | A header that is `Bearer ` followed by nothing or by another space is anonymous, whatever the verifier says. |
| Text.Split | ai-agent-backend/authMiddleware.js:15 | `split` on a character gives one more piece than there are separators, and no piece contains the separator. |
| Text.JoinStartsWithFirst | ai-agent-frontend/ai-agent-frontend/src/components/ChatBox.jsx:273-283 | A `join` of at least one part begins with its first part. |
| Text.JoinEndsWithLast | ai-agent-frontend/ai-agent-frontend/src/components/ChatBox.jsx:273-283 | A `join` of at least one part ends with its last part. |
| Text.JoinAvoidsChar | ai-agent-frontend/ai-agent-frontend/src/components/ChatBox.jsx:273-283 | A character that occurs in neither the parts nor the separator does not occur in their `join`. |
| Text.SplitJoin | ai-agent-backend/authMiddleware.js:15 | Splitting a join of separator-free pieces on the separator gives back the pieces. |
| Text.JoinSplit | ai-agent-backend/authMiddleware.js:15 | Joining the pieces of a split with the separator gives back the string. |
| ChatBox.HandleSubmit | ai-agent-frontend/ai-agent-frontend/src/components/ChatBox.jsx:224-230 | A blank or whitespace-only query sends nothing and leaves the state unchanged. Otherwise it sends the query as typed, sets loading, and clears the error and the previous response. |
| ChatBox.FinishSubmit | ai-agent-frontend/ai-agent-frontend/src/components/ChatBox.jsx:232-240 | Loading ends. On success the reply is stored. On failure the error shown is the message, or `Failed to fetch response.` when the message is empty. |
| ChatBox.SubmitThenFinish | ai-agent-frontend/ai-agent-frontend/src/components/ChatBox.jsx:224-240 | A non-blank submit followed by the request's completion sends the query as typed and ends loading. A reply replaces the old response with no error; a failure leaves no response at all (it was cleared on submit) and a non-empty error. |
| ChatBox.HandleExport | ai-agent-frontend/ai-agent-frontend/src/components/ChatBox.jsx:258-289 | Missing or empty rows do nothing. In the simple version with rows, the result is the upgrade error and no file. A CSV download happens if and only if there are rows, the mode is not simple and the type is "csv", and its content is the rows' CSV. |
| ChatBox.ExportButtonClick | ai-agent-frontend/ai-agent-frontend/src/components/ChatBox.jsx:66-72 | The simple version opens the upgrade dialog. Otherwise the click calls `onExport("csv")`. |
| ChatBox.ButtonNeverShowsUpgradeError | ai-agent-frontend/ai-agent-frontend/src/components/ChatBox.jsx:354-358 | Through the button, the simple version never reaches `handleExport`, so its upgrade error is never shown. Otherwise a click with rows downloads their CSV. |
| CsvExport.Fields | ai-agent-frontend/ai-agent-frontend/src/components/ChatBox.jsx:276-283 | There is exactly one quoted field per header, in header order, holding that header's cell text. |
| CsvExport.Csv | ai-agent-frontend/ai-agent-frontend/src/components/ChatBox.jsx:273-284 | The export starts with the header line (the first row's keys joined by `,`) and a newline. |
| CsvExport.CellText | ai-agent-frontend/ai-agent-frontend/src/components/ChatBox.jsx:280 | The cell is the text of the row's first entry with the key, empty for a null or undefined value, and empty when the row lacks the key. |
| CsvExport.EscapeQuotes | ai-agent-frontend/ai-agent-frontend/src/components/ChatBox.jsx:280 | The escaped text is longer than the original by exactly the number of double quotes. |
| CsvExport.QuoteRoundTrip | ai-agent-frontend/ai-agent-frontend/src/components/ChatBox.jsx:280 | Stripping a field's outer quotes and collapsing `""` to `"` gives back the text exactly. |
| CsvExport.DataLineRoundTrip | ai-agent-frontend/ai-agent-frontend/src/components/ChatBox.jsx:276-283 | Parsing a data line as comma-separated quoted fields gives back exactly the row's cell texts, one per header, in order. A missing key reads back as the empty text. |
| CsvExport.CsvLines | ai-agent-frontend/ai-agent-frontend/src/components/ChatBox.jsx:273-284 | Without newlines in keys or values, splitting the export on `\n` gives the unquoted header line of the first row's keys joined by `,`, then each row's data line. That is exactly rows + 1 lines. |
| CsvExport.CsvEndsWithQuote | ai-agent-frontend/ai-agent-frontend/src/components/ChatBox.jsx:274-284 | With at least one column, the export ends with a closing quote and has no trailing newline. |
| ChartRenderer.LabelColumn | ai-agent-frontend/ai-agent-frontend/src/components/ChartRenderer.jsx:16 | The label column is the first key of the first row, or undefined when there is none. |
| ChartRenderer.ValueColumn | ai-agent-frontend/ai-agent-frontend/src/components/ChartRenderer.jsx:17 | The value column is the second key when it exists and is non-empty, and otherwise falls back to the label column. It is always one of the keys. |
| ChartRenderer.Kind | ai-agent-frontend/ai-agent-frontend/src/components/ChartRenderer.jsx:9 | The chart kind defaults to `'bar'` when none is given. |
| ChartRenderer.RenderChart | ai-agent-frontend/ai-agent-frontend/src/components/ChartRenderer.jsx:19-65 | Only `'pie'`, `'bar'` and `'line'` produce a body. Pie uses the value column as `dataKey` and the label column as `nameKey`. Bar and line put the label column on the x-axis and the value column in the series. |
| ChartRenderer.Render | ai-agent-frontend/ai-agent-frontend/src/components/ChartRenderer.jsx:9-77 | The component renders nothing if and only if the rows are missing or empty. Otherwise the card's body is the chart for the first row's columns and the requested kind. |
| ChartRenderer.ColumnsAssigned | ai-agent-frontend/ai-agent-frontend/src/components/ChartRenderer.jsx:12-61 | With two keys, the second non-empty, pie, bar (also the default) and line charts use the first key as labels and the second as values. |

## Left out

- The completion API (`groq.chat.completions.create`) is a network call. It is an input function from the system prompt and user query to the content or a thrown message.
- `JSON.parse` of a string is an abstract partial function, with no JSON grammar; that it rejects the empty string is not imposed on it. `JSON.parse(undefined)` throwing and `JSON.parse(null)` giving `null` are modelled. Parsed objects are taken to have distinct keys, as `JSON.parse` produces them; `Lookup` reads the first entry with a key.
- JavaScript numbers are integers here: floating point and `NaN` (falsy) are not modelled.
- Property reads on non-objects give `undefined`. That holds for the keys read here (`sqlQuery`, `chartType`, `sub`, …), not for built-in properties such as `length`.
- The TypeError from reading `sqlQuery` of `null` uses V8's message wording, which is engine-specific.
- The pg `Pool` is reduced to a present/absent flag. Connection setup, the connection test, the `information_schema` queries and SQL execution are inputs (`catalog`, `execute`, the test outcome of `InitializeDatabase`).
- Concurrency on the shared pool, such as overlapping connects, is left out. Each run sees one pool state throughout.
- `Object.entries` lists array-index-like keys (a table named `2024`) before the others. The schema here is a plain ordered list of tables in insertion order.
- The simple service's own copies of `getTableSchema`, `getAllTableNames`, `getDatabaseSchema` and `executeQuery` have the same bodies as the connected service's. They are modelled by the shared definitions.
- The prompt texts (`baseSystemPrompt` in both services) are opaque parameters. Whether the language model follows their rules is not code.
- `jwt.verify` and the public key are an abstract function giving the decoded payload, or `None` when it throws.
- The authentication service, Express routing, the axios client and every React component's rendering, theming and animation are left out. They are persistence, transport and UI.
- The Blob/DOM download, the timestamped file name and the backend Excel path of the export are browser or network side effects. The Excel branch ends in `ExcelRequest`.
- CsvExport.CellText: values arrive already as their `toString()` form (or `None` for `null`/`undefined`). How JavaScript stringifies numbers, objects and arrays is not modelled.
- `ExportButton`'s `isSimpleVersion` and `handleExport`'s `response.isSimpleVersion` are the same boolean. JavaScript truthiness of other values there is not modelled.
