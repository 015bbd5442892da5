/**
 * The browser console: the input text, the output pane, the query history, the
 * table list, the busy flag and the error line, updated by the console's
 * event handlers. Each network round trip is an input to a transition: the
 * reply is a parameter, and the requests a transition would send are returned.
 */
module Console {
  import opened Wrappers
  import opened Text

  /** One successfully executed statement, with the local time it completed. */
  datatype HistoryEntry = HistoryEntry(query: string, timestamp: string)

  /**
   * The reply to `POST /api/execute`. `result` is `data.result` already
   * serialised as JSON; `message` is `data.message`, absent when not sent.
   * Any exception (network failure, a body that is not JSON) is `ConnectionError`.
   */
  datatype ExecuteReply =
    | Answered(ok: bool, result: string, message: Option<string>)
    | ConnectionError(reason: string)

  /** The reply to `GET /api/tables`. */
  datatype TablesReply =
    | TablesAnswered(ok: bool, tables: seq<string>)
    | TablesError(message: string)

  /** A request the console sends to the server. */
  datatype Request = ExecuteRequest(query: string) | TablesRequest

  const EmptyCommandError := "Please enter a SQL command"
  const DefaultExecuteError := "Error executing query"
  const ConnectionErrorPrefix := "Connection error: "

  /** `data.message || 'Error executing query'`: an empty message counts as missing. */
  function ErrorText(message: Option<string>): (e: string)
    ensures e != []
    ensures message.Some? && message.value != [] ==> e == message.value
    ensures message.None? || message.value == [] ==> e == DefaultExecuteError
  {
    if message.Some? && message.value != [] then message.value else DefaultExecuteError
  }

  /**
   * The history after a successful execution, as intended: the current history
   * with the new entry appended.
   */
  function HistoryOnSuccess(current: seq<HistoryEntry>, entry: HistoryEntry): (h: seq<HistoryEntry>)
    ensures |h| == |current| + 1 && h[..|current|] == current && h[|current|] == entry
  {
    current + [entry]
  }

  /**
   * The history after a successful execution, as written: the handler appends
   * to the history it captured when the statement was submitted, so the current
   * history plays no part.
   */
  function HistoryOnSuccessAsWritten(atSubmit: seq<HistoryEntry>, current: seq<HistoryEntry>, entry: HistoryEntry): (h: seq<HistoryEntry>)
    ensures |h| == |atSubmit| + 1 && h[..|atSubmit|] == atSubmit && h[|atSubmit|] == entry
  {
    atSubmit + [entry]
  }

  /**
   * Clearing the history while a statement is executing is undone by the
   * statement's success as written, and kept as intended.
   */
  lemma ClearDuringExecutionUndone(earlier: HistoryEntry, entry: HistoryEntry)
    ensures HistoryOnSuccessAsWritten([earlier], [], entry) == [earlier, entry]
    ensures HistoryOnSuccess([], entry) == [entry]
    ensures HistoryOnSuccessAsWritten([earlier], [], entry) != HistoryOnSuccess([], entry)
  {
  }

  /** The two agree whenever the history did not change while the request was out. */
  lemma HistoryOnSuccessAgrees(h: seq<HistoryEntry>, entry: HistoryEntry)
    ensures HistoryOnSuccessAsWritten(h, h, entry) == HistoryOnSuccess(h, entry)
  {
  }

  class Session {
    var sqlCommand: string
    var output: string
    var history: seq<HistoryEntry>
    var tables: seq<string>
    var loading: bool
    var error: string

    /** The state on first render. */
    constructor ()
      ensures sqlCommand == [] && output == [] && history == [] && tables == []
      ensures !loading && error == []
    {
      sqlCommand, output, history, tables := [], [], [], [];
      loading, error := false, [];
    }

    /** Typing in the editor. */
    method Edit(text: string)
      modifies this`sqlCommand
      ensures sqlCommand == text
    {
      sqlCommand := text;
    }

    /** The "Clear Input" button. */
    method ClearInput()
      modifies this`sqlCommand
      ensures sqlCommand == []
    {
      sqlCommand := [];
    }

    /**
     * `executeSql` up to the request: blank input only sets the error line;
     * otherwise the console becomes busy, the error line and the output are
     * cleared and the input text is sent as it is.
     */
    method Submit() returns (request: Option<Request>)
      modifies this`error, this`loading, this`output
      ensures AllSpace(sqlCommand) ==>
        request.None? && error == EmptyCommandError && loading == old(loading) && output == old(output)
      ensures !AllSpace(sqlCommand) ==>
        request == Some(ExecuteRequest(sqlCommand)) && loading && error == [] && output == []
    {
      if Trim(sqlCommand) == [] {
        error := EmptyCommandError;
        return None;
      }
      loading := true;
      error := [];
      output := [];
      request := Some(ExecuteRequest(sqlCommand));
    }

    /**
     * `executeSql` after the reply to `submitted` arrived at local time `now`.
     * The console is no longer busy on every path. On success the output shows
     * the result, the statement joins the history, the input is cleared and a
     * table refresh is requested; otherwise only the error line changes.
     */
    method Complete(submitted: string, reply: ExecuteReply, now: string) returns (refresh: Option<Request>)
      modifies this`output, this`history, this`sqlCommand, this`error, this`loading
      ensures !loading
      ensures reply.Answered? && reply.ok ==>
        && output == reply.result
        && history == HistoryOnSuccess(old(history), HistoryEntry(submitted, now))
        && sqlCommand == [] && error == old(error)
        && refresh == Some(TablesRequest)
      ensures !(reply.Answered? && reply.ok) ==>
        && output == old(output) && history == old(history) && sqlCommand == old(sqlCommand)
        && refresh.None?
      ensures reply.Answered? && !reply.ok ==> error == ErrorText(reply.message)
      ensures reply.ConnectionError? ==> error == ConnectionErrorPrefix + reply.reason
    {
      refresh := None;
      match reply {
        case Answered(ok, result, message) =>
          if ok {
            output := result;
            history := HistoryOnSuccess(history, HistoryEntry(submitted, now));
            sqlCommand := [];
            refresh := Some(TablesRequest);
          } else {
            error := ErrorText(message);
          }
        case ConnectionError(reason) =>
          error := ConnectionErrorPrefix + reason;
      }
      loading := false;
    }

    /**
     * The whole of `executeSql` when nothing else happens while the request is
     * out: the requests sent, in order, and the final state.
     */
    method Execute(reply: ExecuteReply, now: string) returns (requests: seq<Request>)
      modifies this`output, this`history, this`sqlCommand, this`error, this`loading
      ensures AllSpace(old(sqlCommand)) ==>
        && requests == [] && error == EmptyCommandError
        && output == old(output) && history == old(history)
        && sqlCommand == old(sqlCommand) && loading == old(loading)
      ensures !AllSpace(old(sqlCommand)) ==> !loading
      ensures !AllSpace(old(sqlCommand)) && reply.Answered? && reply.ok ==>
        && requests == [ExecuteRequest(old(sqlCommand)), TablesRequest]
        && output == reply.result && error == []
        && history == old(history) + [HistoryEntry(old(sqlCommand), now)]
        && sqlCommand == []
      ensures !AllSpace(old(sqlCommand)) && !(reply.Answered? && reply.ok) ==>
        && requests == [ExecuteRequest(old(sqlCommand))]
        && output == [] && history == old(history) && sqlCommand == old(sqlCommand)
        && error == (if reply.Answered? then ErrorText(reply.message) else ConnectionErrorPrefix + reply.reason)
    {
      var request := Submit();
      if request.None? {
        return [];
      }
      requests := [request.value];
      var refresh := Complete(sqlCommand, reply, now);
      if refresh.Some? {
        requests := requests + [refresh.value];
      }
    }

    /** `fetchTables`: the table list is replaced only by a successful reply. */
    method FetchTables(reply: TablesReply)
      modifies this`tables
      ensures tables == if reply.TablesAnswered? && reply.ok then reply.tables else old(tables)
    {
      if reply.TablesAnswered? && reply.ok {
        tables := reply.tables;
      }
    }

    /** The history's "Clear" button. */
    method ClearHistory()
      modifies this`history
      ensures history == []
    {
      history := [];
    }

    /** The output pane's "Clear" button. */
    method ClearOutput()
      modifies this`output
      ensures output == []
    {
      output := [];
    }
  }

  // ---------------------------------------------------------------------------
  // The history panel

  /** One line of the history panel: the time and an excerpt of the statement. */
  datatype HistoryLine = HistoryLine(time: string, text: string)

  const ShownEntries := 5
  const ExcerptLength := 50

  function Min(a: int, b: int): int {
    if a < b then a else b
  }

  /** `query.substring(0, 50) + "..."`: the ellipsis is added even to a short query. */
  function Excerpt(query: string): (t: string)
    ensures |t| == Min(|query|, ExcerptLength) + 3
    ensures t == query[..|t| - 3] + "..."
  {
    query[..Min(|query|, ExcerptLength)] + "..."
  }

  /** One `history-item`: the entry's time, then the start of its statement and "...". */
  function Line(e: HistoryEntry): (l: HistoryLine)
    ensures l.time == e.timestamp && l.text == Excerpt(e.query)
  {
    HistoryLine(e.timestamp, Excerpt(e.query))
  }

  /** `s.reverse()`. */
  function Reverse<T>(s: seq<T>): (r: seq<T>)
    ensures |r| == |s|
    ensures forall i :: 0 <= i < |s| ==> r[i] == s[|s| - 1 - i]
  {
    if s == [] then [] else [s[|s| - 1]] + Reverse(s[..|s| - 1])
  }

  /**
   * `s.slice(-n)` for `n >= 1`: the last `n` elements, or all of them if there
   * are fewer. (`slice(-0)` is `slice(0)`, the whole array, so 0 is excluded.)
   */
  function Last<T>(s: seq<T>, n: nat): (r: seq<T>)
    requires n > 0
    ensures |r| == Min(|s|, n)
    ensures forall i :: 0 <= i < |r| ==> r[i] == s[|s| - |r| + i]
  {
    s[|s| - Min(|s|, n)..]
  }

  /** `.map((item, idx) => …)`: one line per entry, in the same order. */
  function Lines(entries: seq<HistoryEntry>): (lines: seq<HistoryLine>)
    ensures |lines| == |entries|
    ensures forall i :: 0 <= i < |entries| ==> lines[i] == Line(entries[i])
  {
    seq(|entries|, i requires 0 <= i < |entries| => Line(entries[i]))
  }

  /** `history.slice(-5).reverse()`, each entry shown as a line. */
  function HistoryView(history: seq<HistoryEntry>): (view: seq<HistoryLine>)
    ensures |view| <= ShownEntries
  {
    Lines(Reverse(Last(history, ShownEntries)))
  }

  /**
   * The panel shows the five most recent entries (all of them if there are
   * fewer), most recent first.
   */
  lemma HistoryViewNewestFirst(history: seq<HistoryEntry>)
    ensures |HistoryView(history)| == Min(|history|, ShownEntries)
    ensures forall i :: 0 <= i < |HistoryView(history)| ==>
      HistoryView(history)[i] == Line(history[|history| - 1 - i])
  {
    var recent := Last(history, ShownEntries);
    var newest := Reverse(recent);
    assert HistoryView(history) == Lines(newest);
    forall i | 0 <= i < |newest|
      ensures Lines(newest)[i] == Line(history[|history| - 1 - i])
    {
      var k := |recent| - 1 - i;
      assert newest[i] == recent[k];
      assert recent[k] == history[|history| - |recent| + k];
    }
  }

  /**
   * A new entry appears at the top of the panel and pushes the oldest shown
   * entry out once five are shown; the stored history itself is never capped.
   */
  lemma HistoryViewAfterAppend(history: seq<HistoryEntry>, entry: HistoryEntry)
    ensures HistoryView(history + [entry]) ==
      [Line(entry)] + HistoryView(history)[..Min(|history|, ShownEntries - 1)]
  {
    HistoryViewNewestFirst(history);
    HistoryViewNewestFirst(history + [entry]);
    ShiftDown(history, entry, HistoryView(history), HistoryView(history + [entry]));
  }

  /** The step of `HistoryViewAfterAppend`, on any two views laid out newest first. */
  lemma ShiftDown(history: seq<HistoryEntry>, entry: HistoryEntry, v: seq<HistoryLine>, v': seq<HistoryLine>)
    requires |v| == Min(|history|, ShownEntries)
    requires forall i :: 0 <= i < |v| ==> v[i] == Line(history[|history| - 1 - i])
    requires |v'| == Min(|history| + 1, ShownEntries)
    requires forall i :: 0 <= i < |v'| ==> v'[i] == Line((history + [entry])[|history| - i])
    ensures v' == [Line(entry)] + v[..Min(|history|, ShownEntries - 1)]
  {
    var rhs := [Line(entry)] + v[..Min(|history|, ShownEntries - 1)];
    forall i | 0 <= i < |v'| ensures v'[i] == rhs[i] {
      if i > 0 {
        assert (history + [entry])[|history| - i] == history[|history| - 1 - (i - 1)];
      }
    }
  }

  /**
   * What a line shows of its statement: a start of it, at most fifty
   * characters long and cut short only when the statement is longer, then "...".
   */
  lemma LineShowsQueryStart(e: HistoryEntry)
    ensures var t := Line(e).text;
      && 3 <= |t| <= ExcerptLength + 3 && t[|t| - 3..] == "..."
      && StartsWith(e.query, t[..|t| - 3])
      && (|t| - 3 < |e.query| ==> |t| - 3 == ExcerptLength)
  {
  }

  /** A statement of at most fifty characters is shown whole, followed by "...". */
  lemma ShortQueryShownWhole(query: string)
    requires |query| <= ExcerptLength
    ensures Excerpt(query) == query + "..."
  {
  }
}
