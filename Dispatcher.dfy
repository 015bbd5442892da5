/**
 * The `/api/execute` and `/api/tables` handlers of the server: the SQL text is
 * validated, classified by its leading keyword and handed, unchanged, to the
 * embedded database engine; the engine's outcome is turned into an HTTP status
 * and a JSON body. The engine is an oracle from the call it receives to its
 * outcome, so a handler is a pure function of the request and the oracle.
 */
module Dispatcher {
  import opened Wrappers
  import opened Text

  /** A column value as the engine returns it. */
  datatype Value = Null | Integer(i: int) | Real(r: real) | TextValue(s: string) | Blob(bytes: seq<bv8>)

  /** One result row: column name to value. */
  type Row = map<string, Value>

  /** The five statement kinds that go to the engine's statement path. */
  datatype StatementKind = CreateTable | Insert | Update | Delete | Drop

  /** What the leading keyword selects: the row path or a statement kind. */
  datatype Command = Select | Statement(kind: StatementKind)

  /** The handler's decision before the engine is involved. */
  datatype Action =
    | Reject(message: string)
    | RunQuery(sql: string)
    | RunStatement(sql: string, kind: StatementKind)

  /** A call into the engine: `db.all` (rows) or `db.run` (statement). */
  datatype Call = All(sql: string) | Run(sql: string)

  /** What the engine reports back; `Run` ignores the rows of a success. */
  datatype Outcome = Success(rows: seq<Row>) | Failure(message: string)

  /** The JSON body: `{ result: rows }`, `{ result: text }`, `{ message }` or `{ tables }`. */
  datatype Body =
    | ResultRows(rows: seq<Row>)
    | ResultText(text: string)
    | Message(message: string)
    | Tables(tables: seq<Value>)

  datatype Response = Response(status: nat, body: Body)

  /** A handled request: the engine calls it made, in order, and the response. */
  datatype Exchange = Exchange(calls: seq<Call>, response: Response)

  const QueryRequired := "Query is required"
  const UnsupportedCommand :=
    "Unsupported SQL command. Supported: SELECT, INSERT, UPDATE, DELETE, CREATE TABLE, DROP TABLE"
  const CatalogQuery :=
    "SELECT name FROM sqlite_master WHERE type='table' AND name NOT LIKE 'sqlite_%'"

  /** The prefix each command is recognised by, as compared with the upper-cased text. */
  function Keyword(c: Command): string {
    match c
    case Select => "SELECT"
    case Statement(CreateTable) => "CREATE TABLE"
    case Statement(Insert) => "INSERT"
    case Statement(Update) => "UPDATE"
    case Statement(Delete) => "DELETE"
    case Statement(Drop) => "DROP"
  }

  /** The position of each test in the handler's if/else chain. */
  function Rank(c: Command): nat {
    match c
    case Select => 0
    case Statement(CreateTable) => 1
    case Statement(Insert) => 2
    case Statement(Update) => 3
    case Statement(Delete) => 4
    case Statement(Drop) => 5
  }

  /** The confirmation each statement kind reports on success. */
  function Confirmation(k: StatementKind): string {
    match k
    case CreateTable => "Table created successfully"
    case Insert => "Data inserted successfully"
    case Update => "Data updated successfully"
    case Delete => "Data deleted successfully"
    case Drop => "Table dropped successfully"
  }

  /** The if/else chain of `startsWith` tests on the upper-cased, trimmed text. */
  function Recognize(upper: string): (r: Option<Command>)
    ensures r.Some? ==> StartsWith(upper, Keyword(r.value))
  {
    if StartsWith(upper, "SELECT") then Some(Select)
    else if StartsWith(upper, "CREATE TABLE") then Some(Statement(CreateTable))
    else if StartsWith(upper, "INSERT") then Some(Statement(Insert))
    else if StartsWith(upper, "UPDATE") then Some(Statement(Update))
    else if StartsWith(upper, "DELETE") then Some(Statement(Delete))
    else if StartsWith(upper, "DROP") then Some(Statement(Drop))
    else None
  }

  /** The text the handler inspects: `query.trim().toUpperCase()`. */
  function Normalize(query: string): (n: string)
    ensures |n| == |Trim(query)|
    ensures n == [] <==> AllSpace(query)
  {
    Upper(Trim(query))
  }

  /**
   * Validation and classification. A missing query, or one that is empty or
   * whitespace only, is rejected; otherwise the keyword decides, and the
   * ORIGINAL text, not the normalised copy, is what the engine will receive.
   */
  function Classify(query: Option<string>): (a: Action)
    ensures a == Reject(QueryRequired) <==> query.None? || AllSpace(query.value)
    ensures a.RunQuery? ==> a.sql == query.value && StartsWith(Normalize(query.value), "SELECT")
    ensures a.RunStatement? ==> a.sql == query.value && StartsWith(Normalize(query.value), Keyword(Statement(a.kind)))
  {
    match query
    case None => Reject(QueryRequired)
    case Some(q) =>
      if Trim(q) == [] then Reject(QueryRequired)
      else match Recognize(Normalize(q))
        case None => Reject(UnsupportedCommand)
        case Some(Select) => RunQuery(q)
        case Some(Statement(k)) => RunStatement(q, k)
  }

  /** The engine call an action makes, if any. */
  function EngineCall(a: Action): (c: Option<Call>)
    ensures c.None? <==> a.Reject?
  {
    match a
    case Reject(_) => None
    case RunQuery(q) => Some(All(q))
    case RunStatement(q, _) => Some(Run(q))
  }

  /** Shapes the response from the action and the engine's outcome. */
  function Respond(a: Action, outcome: Outcome): (r: Response)
    ensures r.status == 200 || r.status == 400
    ensures a.Reject? ==> r == Response(400, Message(a.message))
    ensures !a.Reject? && outcome.Failure? ==> r == Response(400, Message(outcome.message))
    ensures a.RunQuery? && outcome.Success? ==> r == Response(200, ResultRows(outcome.rows))
    ensures a.RunStatement? && outcome.Success? ==> r == Response(200, ResultText(Confirmation(a.kind)))
  {
    match a
    case Reject(m) => Response(400, Message(m))
    case RunQuery(_) =>
      if outcome.Failure? then Response(400, Message(outcome.message))
      else Response(200, ResultRows(outcome.rows))
    case RunStatement(_, k) =>
      if outcome.Failure? then Response(400, Message(outcome.message))
      else Response(200, ResultText(Confirmation(k)))
  }

  /** `POST /api/execute` with body `{ query }`, against the engine `engine`. */
  function Handle(query: Option<string>, engine: Call -> Outcome): (x: Exchange)
    ensures x.calls == [] <==> Classify(query).Reject?
    ensures x.calls == [] ==> x.response == Response(400, Message(Classify(query).message))
    ensures x.calls != [] ==>
      && x.calls == [EngineCall(Classify(query)).value]
      && x.response == Respond(Classify(query), engine(x.calls[0]))
  {
    var a := Classify(query);
    match EngineCall(a)
    case None => Exchange([], Respond(a, Success([])))
    case Some(c) => Exchange([c], Respond(a, engine(c)))
  }

  /** `row.name`; a row without that column gives what JSON makes of `undefined` in an array. */
  function NameOf(row: Row): (v: Value)
    ensures "name" in row ==> v == row["name"]
    ensures "name" !in row ==> v == Null
  {
    if "name" in row then row["name"] else Null
  }

  /** `rows.map(row => row.name)`. */
  function TableNames(rows: seq<Row>): (names: seq<Value>)
    ensures |names| == |rows|
    ensures forall i :: 0 <= i < |rows| ==> names[i] == NameOf(rows[i])
  {
    if rows == [] then [] else [NameOf(rows[0])] + TableNames(rows[1..])
  }

  /** `GET /api/tables`: one catalog query, its rows projected to their names. */
  function HandleTables(engine: Call -> Outcome): (x: Exchange)
    ensures x.calls == [All(CatalogQuery)]
    ensures engine(All(CatalogQuery)).Failure? ==>
      x.response == Response(400, Message(engine(All(CatalogQuery)).message))
    ensures engine(All(CatalogQuery)).Success? ==>
      x.response == Response(200, Tables(TableNames(engine(All(CatalogQuery)).rows)))
  {
    match engine(All(CatalogQuery))
    case Failure(m) => Exchange([All(CatalogQuery)], Response(400, Message(m)))
    case Success(rows) => Exchange([All(CatalogQuery)], Response(200, Tables(TableNames(rows))))
  }

  // ---------------------------------------------------------------------------
  // Classification

  /**
   * No keyword is a prefix of another, so at most one test of the chain can
   * succeed on any text: the order of the tests does not matter.
   */
  lemma KeywordsExclusive(upper: string, c: Command, d: Command)
    requires StartsWith(upper, Keyword(c)) && StartsWith(upper, Keyword(d))
    ensures c == d
  {
    assert upper[0] == Keyword(c)[0] == Keyword(d)[0];
    assert upper[1] == Keyword(c)[1] == Keyword(d)[1];
  }

  /**
   * `Recognize` picks the first keyword, in the handler's order, that the text
   * starts with, and gives nothing exactly when it starts with none of them.
   */
  lemma RecognizeFirstMatch(upper: string)
    ensures Recognize(upper).Some? ==>
      StartsWith(upper, Keyword(Recognize(upper).value)) &&
      forall c :: Rank(c) < Rank(Recognize(upper).value) ==> !StartsWith(upper, Keyword(c))
    ensures Recognize(upper).None? <==> forall c :: !StartsWith(upper, Keyword(c))
  {
    if Recognize(upper).None? {
      forall c ensures !StartsWith(upper, Keyword(c)) {
        match c
        case Select =>
        case Statement(k) =>
      }
    }
  }

  /**
   * Classification sees only `query.trim().toUpperCase()`: whitespace around
   * the text and the case of its letters change neither the verdict nor the kind.
   */
  lemma ClassifyIgnoresCaseAndPadding(pre: string, q: string, q': string, post: string)
    requires AllSpace(pre) && AllSpace(post) && Upper(q) == Upper(q')
    ensures SameDecision(Classify(Some(pre + q + post)), Classify(Some(q')))
  {
    var x := pre + q + post;
    TrimIgnoresPadding(pre, q, post);
    UpperTrimCommute(q);
    UpperTrimCommute(q');
    assert Normalize(x) == Normalize(q');
    assert |Trim(x)| == |Normalize(x)| == |Normalize(q')| == |Trim(q')|;
    ClassifyByNormalForm(x, q');
  }

  /** Classification depends only on whether the trimmed text is empty and on the normalised text. */
  lemma ClassifyByNormalForm(a: string, b: string)
    requires (Trim(a) == []) == (Trim(b) == []) && Normalize(a) == Normalize(b)
    ensures SameDecision(Classify(Some(a)), Classify(Some(b)))
  {
    if Trim(a) != [] {
      var r := Recognize(Normalize(a));
      assert r == Recognize(Normalize(b));
      match r
      case None =>
      case Some(Select) =>
      case Some(Statement(k)) =>
    }
  }

  /** Two actions take the same branch: same rejection, or same path and kind. */
  predicate SameDecision(a: Action, b: Action) {
    match a
    case Reject(m) => b == Reject(m)
    case RunQuery(_) => b.RunQuery?
    case RunStatement(_, k) => b.RunStatement? && b.kind == k
  }

  // ---------------------------------------------------------------------------
  // The handler end to end

  /** Missing, empty or whitespace-only input: 400, "Query is required", no engine call. */
  lemma BlankQueryRejected(query: Option<string>, engine: Call -> Outcome)
    requires query.None? || AllSpace(query.value)
    ensures Handle(query, engine) == Exchange([], Response(400, Message(QueryRequired)))
  {
  }

  /** Text that starts with no keyword: 400 with the fixed message, no engine call. */
  lemma UnsupportedRejected(q: string, engine: Call -> Outcome)
    requires !AllSpace(q) && forall c :: !StartsWith(Normalize(q), Keyword(c))
    ensures Handle(Some(q), engine) == Exchange([], Response(400, Message(UnsupportedCommand)))
  {
    RecognizeFirstMatch(Normalize(q));
  }

  /**
   * A supported command makes exactly one engine call, with the original text,
   * on the row path for SELECT and on the statement path for the other five.
   */
  lemma SupportedCommandForwarded(q: string, c: Command, engine: Call -> Outcome)
    requires !AllSpace(q) && StartsWith(Normalize(q), Keyword(c))
    ensures Handle(Some(q), engine).calls == [if c == Select then All(q) else Run(q)]
  {
    RecognizeFirstMatch(Normalize(q));
    KeywordsExclusive(Normalize(q), c, Recognize(Normalize(q)).value);
  }

  /**
   * On engine success a SELECT answers 200 with the rows and a statement 200
   * with its kind's confirmation; on engine failure any supported command
   * answers 400 with the engine's message unchanged.
   */
  lemma SupportedCommandResponse(q: string, c: Command, engine: Call -> Outcome)
    requires !AllSpace(q) && StartsWith(Normalize(q), Keyword(c))
    ensures var call := if c == Select then All(q) else Run(q);
      var r := Handle(Some(q), engine).response;
      && (engine(call).Failure? ==> r == Response(400, Message(engine(call).message)))
      && (engine(call).Success? && c == Select ==> r == Response(200, ResultRows(engine(call).rows)))
      && (engine(call).Success? && c.Statement? ==> r == Response(200, ResultText(Confirmation(c.kind))))
  {
    RecognizeFirstMatch(Normalize(q));
    KeywordsExclusive(Normalize(q), c, Recognize(Normalize(q)).value);
  }

  /**
   * The request succeeds (200) exactly when the handler made an engine call and
   * the engine succeeded on it; every other answer is a 400.
   */
  lemma HandleSucceedsIff(query: Option<string>, engine: Call -> Outcome)
    ensures var x := Handle(query, engine);
      && (x.response.status == 200 <==> |x.calls| == 1 && engine(x.calls[0]).Success?)
      && (x.response.status != 200 ==> x.response.status == 400)
  {
  }

  /** At most one engine call is ever made, and it always carries the original text. */
  lemma EngineSeesOriginalText(query: Option<string>, engine: Call -> Outcome)
    ensures |Handle(query, engine).calls| <= 1
    ensures forall c :: c in Handle(query, engine).calls ==> query.Some? && c.sql == query.value
  {
  }

  // ---------------------------------------------------------------------------
  // Consequences of matching raw characters rather than tokens

  /**
   * A text made of whitespace, then a word that neither starts nor ends with
   * whitespace, then anything, is inspected as the upper-cased word followed by more.
   */
  lemma NormalizeStartsWithWord(pre: string, w: string, rest: string)
    requires AllSpace(pre) && w != [] && IsTrimmed(w)
    ensures !AllSpace(pre + w + rest)
    ensures StartsWith(Normalize(pre + w + rest), Upper(w))
  {
    var q := pre + w + rest;
    TrimSplit(q);
    var n, t := SkipSpaces(q, 0), Trim(q);
    var e := |pre| + |w|;
    assert q[|pre|] == w[0] && q[e - 1] == w[|w| - 1];
    assert n == |pre|;
    assert n + |t| >= e;
    forall i | 0 <= i < |w| ensures Upper(t)[i] == Upper(w)[i] {
      assert t[i] == q[n + i] == w[i];
    }
  }

  /** A text that differs from `p` at position `i` does not start with `p`. */
  lemma Mismatch(s: string, p: string, i: nat)
    requires i < |p| && i < |s| && s[i] != p[i]
    ensures !StartsWith(s, p)
  {
  }

  /** A statement the engine runs successfully is answered with its kind's confirmation. */
  lemma StatementConfirmed(q: string, k: StatementKind, engine: Call -> Outcome)
    requires !AllSpace(q) && StartsWith(Normalize(q), Keyword(Statement(k))) && engine(Run(q)).Success?
    ensures Handle(Some(q), engine) == Exchange([Run(q)], Response(200, ResultText(Confirmation(k))))
  {
    SupportedCommandForwarded(q, Statement(k), engine);
    SupportedCommandResponse(q, Statement(k), engine);
  }

  /** A text that starts with `p` starts with every prefix of `p`. */
  lemma StartsWithShorter(s: string, p: string, n: nat)
    requires StartsWith(s, p) && n <= |p|
    ensures StartsWith(s, p[..n])
  {
  }

  /** Any text whose normalised form starts with "CREATE INDEX" is rejected as unsupported. */
  lemma CreateIndexUnsupported(q: string, engine: Call -> Outcome)
    requires StartsWith(Normalize(q), "CREATE INDEX")
    ensures Handle(Some(q), engine) == Exchange([], Response(400, Message(UnsupportedCommand)))
  {
    var u := Normalize(q);
    assert !AllSpace(q) by { assert Trim(q) != []; }
    assert u[0] == 'C' && u[7] == 'I';
    forall c ensures !StartsWith(u, Keyword(c)) {
      match c
      case Select => Mismatch(u, "SELECT", 0);
      case Statement(CreateTable) => Mismatch(u, "CREATE TABLE", 7);
      case Statement(Insert) => Mismatch(u, "INSERT", 0);
      case Statement(Update) => Mismatch(u, "UPDATE", 0);
      case Statement(Delete) => Mismatch(u, "DELETE", 0);
      case Statement(Drop) => Mismatch(u, "DROP", 0);
    }
    UnsupportedRejected(q, engine);
  }

  /** Any DROP, even of an index, is sent to the statement path and confirmed as a dropped table. */
  lemma DropIndexReportedAsTable(q: string, engine: Call -> Outcome)
    requires StartsWith(Normalize(q), "DROP INDEX") && engine(Run(q)).Success?
    ensures Handle(Some(q), engine)
      == Exchange([Run(q)], Response(200, ResultText("Table dropped successfully")))
  {
    assert !AllSpace(q) by { assert Trim(q) != []; }
    assert StartsWith(Normalize(q), Keyword(Statement(Drop))) by {
      StartsWithShorter(Normalize(q), "DROP INDEX", 4);
      assert "DROP INDEX"[..4] == Keyword(Statement(Drop));
    }
    StatementConfirmed(q, Drop, engine);
  }

  /**
   * Whatever follows the keyword, a text that starts, after whitespace, with
   * SELECT in any case is a SELECT: "selectx" needs no separator after the keyword.
   */
  lemma SelectWithoutSeparator(pre: string, w: string, rest: string, engine: Call -> Outcome)
    requires AllSpace(pre) && Upper(w) == "SELECT"
    ensures Handle(Some(pre + w + rest), engine).calls == [All(pre + w + rest)]
  {
    assert Upper(w)[0] == 'S' && Upper(w)[5] == 'T';
    UpperCharKeepsSpace(w[0]);
    UpperCharKeepsSpace(w[|w| - 1]);
    NormalizeStartsWithWord(pre, w, rest);
    SupportedCommandForwarded(pre + w + rest, Select, engine);
  }

  /** Upper-casing is Unicode's: a long s followed by "elect", in any case, is a SELECT. */
  lemma LongSSelect(pre: string, e: string, rest: string, engine: Call -> Outcome)
    requires AllSpace(pre) && Upper(e) == "ELECT"
    ensures Handle(Some(pre + (['\U{017F}'] + e) + rest), engine).calls
      == [All(pre + (['\U{017F}'] + e) + rest)]
  {
    UpperConcat(['\U{017F}'], e);
    assert Upper(['\U{017F}']) == "S";
    SelectWithoutSeparator(pre, ['\U{017F}'] + e, rest, engine);
  }
}
