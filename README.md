# SQL Practice Lab — a verified model of the statement dispatcher and the console

SQL Practice Lab is a web page where a learner types SQL, a small server forwards
the text to an embedded SQLite database, and the page shows the rows or a
confirmation. This project models the two pieces of it that decide anything:

- **The statement dispatcher** (`server/server.js`), in module `Dispatcher`. A
  request's `query` is rejected when it is missing, empty or whitespace only.
  Otherwise `query.trim().toUpperCase()` is tested against the prefixes `SELECT`,
  `CREATE TABLE`, `INSERT`, `UPDATE`, `DELETE` and `DROP`, in that order. A
  SELECT goes to the engine's row path (`db.all`). The other five go to its
  statement path (`db.run`). Both paths receive the original, untrimmed text.
  The engine's outcome then becomes the response: the rows, one of five fixed
  confirmations, or a 400 carrying the engine's message. The engine is an oracle
  `Call -> Outcome`, and `Handle` returns the list of calls it made together
  with the response, so "no engine call" is a statement about that list. The
  `/api/tables` handler projects the catalog rows to their `name` column.
- **The console** (`src/App.jsx`), in module `Console`. Class `Session` holds
  the component's six state fields (`sqlCommand`, `output`, `history`, `tables`,
  `loading`, `error`). Its methods are the event handlers. A network reply is a
  parameter of the transition that consumes it, and the requests a transition
  sends are its result. `executeSql` is split at its `await` into `Submit` and
  `Complete`, and `Execute` runs both back to back. The history panel
  (`history.slice(-5).reverse()`, each query cut to 50 characters plus `...`)
  is the pure function `HistoryView`.
- **JavaScript's string built-ins** (`trim`, `toUpperCase`, `startsWith`), in
  module `Text`. `trim` removes exactly ECMAScript's WhiteSpace and
  LineTerminator characters. `toUpperCase` is modelled for the ASCII letters and
  for the two non-ASCII letters whose upper case is one ASCII letter: dotless i
  becomes `I` and long s becomes `S`. So `"ſelect 1"` is a SELECT, as in the
  browser and in Node.

Facts the proofs establish about the dispatcher:

- No keyword is a prefix of another, so at most one test of the chain can
  match. The order of the tests therefore never matters.
- Matching is on raw characters, not tokens. Any `CREATE INDEX` is
  unsupported. Any `DROP INDEX` is confirmed as "Table dropped successfully".
  `SELECTX`, like any other text starting with `select` in any case, is a
  SELECT.

Facts about the console and the catalog handler that the model keeps:

- The stored history is never capped; only the panel shows five entries.
- `executeSql` requests a table refresh only after an ok reply (`Session.Complete`).
- On an error the output pane stays empty: it was cleared at submission. The
  message goes to the error line.
- The catalog handler answers 400 with the engine's message on any engine
  error.
- The routes are `/api/execute` and `/api/tables`.

## Model

| member | source | states |
|---|---|---|
| `Text.Trim` | server/server.js:32 | the trimmed text is empty exactly when the input is all whitespace, and otherwise neither starts nor ends with whitespace |
| `Text.SkipSpaces` | server/server.js:37 | the first index from a start position whose character is not whitespace: everything skipped is whitespace |
| `Text.SkipSpacesBack` | server/server.js:37 | the end of the last non-whitespace character before a position: everything skipped is whitespace |
| `Text.TrimUnique` | server/server.js:37 | any whitespace around a string that neither starts nor ends with whitespace is exactly what `trim` removes |
| `Text.TrimSplit` | server/server.js:37 | every string is its trimmed text with whitespace before and after it |
| `Text.TrimIgnoresPadding` | server/server.js:37 | adding whitespace around a string never changes its trimmed text |
| `Text.TrimIdempotent` | server/server.js:37 | trimming twice is trimming once |
| `Text.UpperChar` | server/server.js:37 | a lower-case ASCII letter becomes its capital; any character that changes becomes an ASCII capital; the result is never a character that upper-casing changes |
| `Text.Upper` | server/server.js:37 | upper-casing keeps the length, character by character |
| `Text.UpperIdempotent` | server/server.js:37 | upper-casing an upper-cased text changes nothing |
| `Text.StartsWith` | server/server.js:40 | `startsWith` holds exactly when the prefix is no longer than the text and agrees with it character by character |
| `Text.UpperTrimCommute` | server/server.js:37 | trimming then upper-casing equals upper-casing then trimming |
| `Dispatcher.Normalize` | server/server.js:37 | the inspected text is as long as the trimmed query, and empty exactly when the query is all whitespace |
| `Dispatcher.Recognize` | server/server.js:40-101 | a recognised command's keyword is a prefix of the inspected text |
| `Dispatcher.Classify` | server/server.js:32-101 | a missing or blank query gets "Query is required" and nothing else does; a row or statement action carries the original text and its normalised text starts with the action's keyword |
| `Dispatcher.EngineCall` | server/server.js:41-91 | an action calls the engine exactly when it is not a rejection |
| `Dispatcher.Respond` | server/server.js:41-101 | a rejection gives 400 and its message; an engine failure gives 400 and the engine's message unchanged; success gives 200 with the rows for SELECT and the kind's fixed confirmation for a statement |
| `Dispatcher.Handle` | server/server.js:29-101 | the engine is called, once, exactly when classification does not reject; a rejection answers 400 with its message, and otherwise the engine's outcome on that one call is shaped into the response |
| `Dispatcher.KeywordsExclusive` | server/server.js:40-90 | no text starts with two different keywords, so at most one branch of the chain can match |
| `Dispatcher.RecognizeFirstMatch` | server/server.js:40-101 | the kind chosen is the first keyword in handler order that the text starts with; no kind is chosen exactly when no keyword matches |
| `Dispatcher.ClassifyIgnoresCaseAndPadding` | server/server.js:37 | whitespace around the query and the case of its letters change neither the verdict nor the kind |
| `Dispatcher.BlankQueryRejected` | server/server.js:32-34 | a missing, empty or whitespace-only query answers 400 "Query is required" with no engine call |
| `Dispatcher.UnsupportedRejected` | server/server.js:99-101 | text starting with no keyword answers 400 with the fixed unsupported-command message and no engine call |
| `Dispatcher.SupportedCommandForwarded` | server/server.js:40-91 | a supported command makes exactly one engine call with the original text: `db.all` for SELECT, `db.run` for the other five |
| `Dispatcher.SupportedCommandResponse` | server/server.js:41-97 | on engine success SELECT answers 200 with the rows and a statement 200 with its kind's confirmation; on engine failure 400 with the engine's message |
| `Dispatcher.HandleSucceedsIff` | server/server.js:29-101 | the answer is 200 exactly when one engine call was made and the engine succeeded on it, and 400 otherwise |
| `Dispatcher.EngineSeesOriginalText` | server/server.js:41-91 | at most one engine call is made, and it carries the request's original text |
| `Dispatcher.NormalizeStartsWithWord` | server/server.js:37 | a query made of whitespace, then a word neither starting nor ending with whitespace, then anything, is not blank and is inspected as the upper-cased word followed by more |
| `Dispatcher.StatementConfirmed` | server/server.js:50-97 | a non-blank statement of any kind that the engine runs successfully makes one `db.run` call with the original text and answers 200 with that kind's confirmation |
| `Dispatcher.CreateIndexUnsupported` | server/server.js:50 | every query whose inspected text starts with "CREATE INDEX" matches no prefix and answers 400 with the unsupported-command message, with no engine call |
| `Dispatcher.DropIndexReportedAsTable` | server/server.js:90-97 | every query whose inspected text starts with "DROP INDEX" is run on the statement path with its original text and, when the engine succeeds, is confirmed as "Table dropped successfully" |
| `Dispatcher.SelectWithoutSeparator` | server/server.js:37-41 | any query that is whitespace, then "select" in any case, then anything at all (such as "selectx") makes exactly one `db.all` call with its original text: the keyword needs no separator after it |
| `Dispatcher.LongSSelect` | server/server.js:37-41 | any query that is whitespace, then a long s, then "elect" in any case, then anything, makes exactly one `db.all` call: the long s upper-cases to S |
| `Dispatcher.NameOf` | server/server.js:116 | a row's `name` column, or null when the row has none |
| `Dispatcher.TableNames` | server/server.js:116 | the table list has one element per catalog row, in the same order, each that row's name |
| `Dispatcher.HandleTables` | server/server.js:109-118 | one catalog query is made; failure answers 400 with the engine's message, success 200 with the rows' names |
| `Console.ErrorText` | src/App.jsx:37 | the error line shows the server's message, or "Error executing query" when the message is missing or empty; it is never empty |
| `Console.HistoryOnSuccess` | src/App.jsx:33 | the current history with exactly one entry appended at the end |
| `Console.HistoryOnSuccessAsWritten` | src/App.jsx:33 | as written, the new history is the history captured at submission with exactly one element, the entry, appended; the current history plays no part |
| `Console.ClearDuringExecutionUndone` | src/App.jsx:33 | as written, a history cleared while a statement executes comes back when it succeeds; the corrected update keeps it cleared |
| `Console.HistoryOnSuccessAgrees` | src/App.jsx:33 | when the history does not change during the request, the as-written and the corrected updates agree |
| `Console.Session.constructor` | src/App.jsx:5-10 | the console starts with empty input, output, history, tables and error line, and not busy |
| `Console.Session.Edit` | src/App.jsx:78 | typing replaces the input text and changes nothing else |
| `Console.Session.ClearInput` | src/App.jsx:86 | "Clear Input" empties the input text and changes nothing else |
| `Console.Session.Submit` | src/App.jsx:12-21 | blank input sets the error line to "Please enter a SQL command", sends nothing and changes nothing else; otherwise the console is busy, the error line and output are cleared, and the input text is sent as it is |
| `Console.Session.Complete` | src/App.jsx:29-43 | not busy on every path; on an ok reply the output is the result, the entry is appended to the history as it is when the reply arrives (the corrected update `Console.HistoryOnSuccess`, not the code's update at line 33), the input is cleared and a table refresh is requested; otherwise history, input and output are unchanged and the error line shows the server's message or "Connection error: " and the reason |
| `Console.Session.Execute` | src/App.jsx:12-44 | the requests sent, in order, and the final state of a whole execution, for each kind of reply |
| `Console.Session.FetchTables` | src/App.jsx:46-56 | the table list is replaced only by an ok reply and kept otherwise |
| `Console.Session.ClearHistory` | src/App.jsx:62 | the history becomes empty and nothing else changes |
| `Console.Session.ClearOutput` | src/App.jsx:63 | the output becomes empty and nothing else, the history included, changes |
| `Console.Last` | src/App.jsx:121 | for `n` of at least one, `slice(-n)` gives the last `n` elements, or all if fewer, in their order |
| `Console.Reverse` | src/App.jsx:121 | `reverse()` keeps the length and puts element `i` at position `length - 1 - i` |
| `Console.Lines` | src/App.jsx:121-126 | the mapped list has one line per entry, in the same order, line `i` showing entry `i` |
| `Console.Line` | src/App.jsx:122-124 | a history line shows the entry's time and the excerpt of its statement |
| `Console.LineShowsQueryStart` | src/App.jsx:124 | a line shows a start of the statement, at most fifty characters, cut short only when the statement is longer, then "..." |
| `Console.Excerpt` | src/App.jsx:124 | the shown text is the first fifty characters of the query, or all of it if shorter, followed by "..." |
| `Console.HistoryView` | src/App.jsx:121 | the panel never shows more than five entries |
| `Console.HistoryViewNewestFirst` | src/App.jsx:121-124 | the panel shows the last five entries, or all if fewer, the most recent first |
| `Console.HistoryViewAfterAppend` | src/App.jsx:121-124 | after a success the new entry is at the top of the panel, the others move down one and the oldest shown one drops out once five are shown |
| `Console.ShortQueryShownWhole` | src/App.jsx:124 | a query of at most fifty characters is shown whole, still followed by "..." |

## Left out

- The Express application, routing, CORS, environment configuration, the JSON body parser and `app.listen`: HTTP plumbing with no decisions in it.
- The SQLite engine: opening the database, `PRAGMA foreign_keys`, parsing and running SQL, and the catalog query's filter on internal names. The engine is an oracle from a call to `Success(rows)` or `Failure(message)`.
- The `rows || []` fallback: the engine's success outcome always carries a row list, possibly empty.
- The 500 branch of the `catch` at server/server.js:102-105: nothing in the modelled logic can throw. A non-string `query` would throw at `query.trim()` outside the `try`; request bodies are modelled as an absent or string `query` only.
- The health route (server/server.js:122-124): it always answers the same constant.
- Process shutdown on SIGINT and `db.close`: process lifecycle.
- `fetch`, `async`/`await` and the mount effect's timing. Each reply is an input to the transition that consumes it; a request a transition sends is returned, not performed. The mount-time `fetchTables` is the caller's first `FetchTables`.
- `JSON.stringify(data.result, null, 2)` and `toLocaleTimeString()`: the serialised result is a field of the reply, and the time is a parameter.
- A reply body that is not JSON makes `response.json()` throw; it is modelled as `ConnectionError` like any other exception.
- `Text.UpperChar`: only the ASCII letters, dotless i and long s are upper-cased. Other non-ASCII letters are kept as they are, where JavaScript upper-cases them too (`é` to `É`, `ß` to `SS`). The dispatcher's classification can differ from JavaScript's only where a character upper-cases to several characters that start with an ASCII letter and complete a keyword; the only such case is U+1E97 (upper case `T` followed by a combining diaeresis) as the final T of SELECT or INSERT.
- `Console.Session.Complete`: appends the entry to the history as it is when the reply arrives, the corrected update `Console.HistoryOnSuccess`. The code at src/App.jsx:33 appends to the history captured when the statement was submitted; that update is `Console.HistoryOnSuccessAsWritten`. The two differ only when the history changes while a statement executes (see "## Findings").
- `Console.Excerpt`: `substring` counts UTF-16 code units; the model counts Unicode scalar values. They differ for characters outside the Basic Multilingual Plane.
- Console logging, the JSX markup, CSS and rendering other than the history panel's computation.

## Findings

| source | as written | input that shows it | evidently intended | confidence | as-written member | corrected member |
|---|---|---|---|---|---|---|
| src/App.jsx:33 | `setHistory([...history, entry])` appends to the `history` that the `executeSql` closure captured when the statement was submitted | submit a statement, press the history panel's "Clear" while it executes, and receive an ok reply: the cleared entries reappear (`Console.ClearDuringExecutionUndone`) | append to the history as it is when the reply arrives | medium, not executed | `Console.HistoryOnSuccessAsWritten` | `Console.HistoryOnSuccess` |
