/** `OllamaService`: one HTTP exchange with the model server per call, and
    the text processing around it. The exchange itself is a parameter (the
    `Reply` the server gave to the call's prompt). What the service makes of
    it is modelled branch by branch: the response field or its fallback, the
    SQL extracted from an answer, the suggestion lines, and the fixed text
    each public operation returns when the exchange fails. String
    comparisons are ordinal, on Unicode scalar values. */
module OllamaService {
  import opened Wrappers
  import opened Text

  // ---------------------------------------------------------------------------
  // The exchange with `/api/generate`
  // ---------------------------------------------------------------------------

  /** The body of a response, as `JsonConvert.DeserializeObject<dynamic>` reads
      it, and `responseObj?.response?.ToString()` of it. `None`: the body is
      the JSON `null` or has no `response` field. `Some(text)`: the field's
      text; a field holding the JSON `null` token reads as `Some("")`, since
      that token prints as the empty text. */
  datatype Body =
    | Unparsable(message: string)       // the deserializer throws
    | Parsed(response: Option<string>)

  /** What `PostAsync` produced. */
  datatype Reply =
    | TransportError(message: string)   // connection refused, timeout, ...
    | Response(isSuccessStatusCode: bool, statusCode: string, body: Body)

  const NoModelAnswer := "No se obtuvo respuesta del modelo."

  /** `SendRequestToOllamaAsync`: the answer text, or the exception it throws. */
  function SendRequestToOllama(reply: Reply): (r: Outcome<string>)
    ensures r.Fail? <==> reply.TransportError? || !reply.isSuccessStatusCode || reply.body.Unparsable?
    ensures reply.Response? && !reply.isSuccessStatusCode ==>
      r == Fail("Error en la petición a Ollama: " + reply.statusCode)
    ensures reply.Response? && reply.isSuccessStatusCode && reply.body == Parsed(None) ==>
      r == Ok(NoModelAnswer)
    ensures reply.Response? && reply.isSuccessStatusCode && reply.body.Parsed? && reply.body.response.Some? ==>
      r == Ok(reply.body.response.value)
  {
    match reply
    case TransportError(m) => Fail(m)
    case Response(ok, status, body) =>
      if !ok then Fail("Error en la petición a Ollama: " + status)
      else match body
        case Unparsable(m) => Fail(m)
        case Parsed(None) => Ok(NoModelAnswer)
        case Parsed(Some(text)) => Ok(text)
  }

  // ---------------------------------------------------------------------------
  // The public operations: each catches every failure of the exchange
  // ---------------------------------------------------------------------------

  const AskFallback := "Lo siento, no pude procesar tu pregunta en este momento. Verifica que Ollama esté ejecutándose."
  const SqlFallback := "-- Error: No se pudo generar la consulta SQL"
  const ExplainFallback := "No pude analizar los datos en este momento."
  const SuggestionsFallback := "No se pudieron generar sugerencias en este momento."

  /** `AskQuestionAsync`: the model's answer, or the apology. */
  function AskQuestion(reply: Reply): (r: string)
    ensures SendRequestToOllama(reply).Fail? ==> r == AskFallback
    ensures SendRequestToOllama(reply).Ok? ==> r == SendRequestToOllama(reply).value
  {
    match SendRequestToOllama(reply)
    case Ok(answer) => answer
    case Fail(_) => AskFallback
  }

  /** `GenerateSqlQueryAsync`: the SQL extracted from the answer, or the
      `-- Error` sentinel. */
  function GenerateSqlQuery(reply: Reply): (r: string)
    ensures SendRequestToOllama(reply).Fail? ==> r == SqlFallback
    ensures SendRequestToOllama(reply).Ok? ==> r == CleanSql(SendRequestToOllama(reply).value)
  {
    match SendRequestToOllama(reply)
    case Ok(answer) => CleanSql(answer)
    case Fail(_) => SqlFallback
  }

  /** `ExplainDataAsync`: the model's explanation, or the fixed excuse. */
  function ExplainData(reply: Reply): (r: string)
    ensures SendRequestToOllama(reply).Fail? ==> r == ExplainFallback
    ensures SendRequestToOllama(reply).Ok? ==> r == SendRequestToOllama(reply).value
  {
    match SendRequestToOllama(reply)
    case Ok(answer) => answer
    case Fail(_) => ExplainFallback
  }

  /** `GetQuerySuggestionsAsync`: at most five trimmed non-blank answer lines
      in answer order, or the one-entry fallback list. */
  function GetQuerySuggestions(reply: Reply): (r: seq<string>)
    ensures |r| <= 5
    ensures SendRequestToOllama(reply).Fail? ==> r == [SuggestionsFallback]
    ensures SendRequestToOllama(reply).Ok? ==>
      r == Take(TrimmedNonBlank(Split(SendRequestToOllama(reply).value, '\n')), 5)
    ensures SendRequestToOllama(reply).Ok? ==> forall k :: 0 <= k < |r| ==> IsCleanLine(r[k])
  {
    match SendRequestToOllama(reply)
    case Ok(answer) => TrimmedLines(answer, 5)
    case Fail(_) => [SuggestionsFallback]
  }

  // ---------------------------------------------------------------------------
  // Extracting the SQL from an answer
  // ---------------------------------------------------------------------------

  /** A trimmed line that starts a query: it begins with `SELECT` or `WITH`,
      in any letter case. */
  predicate OpensTrimmed(t: string) {
    StartsWithIgnoreCase(t, "SELECT") || StartsWithIgnoreCase(t, "WITH")
  }

  /** A trimmed line that ends a query: it ends with `;`, or it is not empty
      and contains none of the six upper-case clause keywords. */
  predicate ClosesTrimmed(t: string) {
    EndsWith(t, ";")
    || (!Contains(t, "SELECT") && !Contains(t, "FROM") && !Contains(t, "WHERE")
        && !Contains(t, "GROUP") && !Contains(t, "ORDER") && !Contains(t, "HAVING")
        && |t| > 0)
  }

  predicate Opens(line: string) { OpensTrimmed(Trim(line)) }

  predicate Closes(line: string) { ClosesTrimmed(Trim(line)) }

  /** The first line at or after `k` that satisfies `p` (`|lines|` if none). */
  function FirstWhere(lines: seq<string>, k: nat, p: string -> bool): (r: nat)
    requires k <= |lines|
    ensures k <= r <= |lines|
    ensures r < |lines| ==> p(lines[r])
    decreases |lines| - k
  {
    if k == |lines| || p(lines[k]) then k else FirstWhere(lines, k + 1, p)
  }

  /** No line the scan passes over satisfies the test. */
  lemma {:induction false} FirstWhereBefore(lines: seq<string>, k: nat, p: string -> bool)
    requires k <= |lines|
    ensures forall j :: k <= j < FirstWhere(lines, k, p) ==> !p(lines[j])
    decreases |lines| - k
  {
    if k < |lines| && !p(lines[k]) {
      FirstWhereBefore(lines, k + 1, p);
    }
  }

  /** The end (exclusive) of the block that starts at line `s`: just past the
      first line from `s` on that satisfies `closes`, or the end of the text. */
  function BlockEnd(lines: seq<string>, s: nat, closes: string -> bool): (e: nat)
    requires s < |lines|
    ensures s < e <= |lines|
  {
    var c := FirstWhere(lines, s, closes);
    if c < |lines| then c + 1 else |lines|
  }

  /** The block of lines a pair of tests selects: from the first line that
      `opens` through the first one at or after it that `closes` (that line
      included); no line when none opens. */
  function Block(lines: seq<string>, opens: string -> bool, closes: string -> bool): (b: seq<string>)
    ensures |b| == 0 <==> FirstWhere(lines, 0, opens) == |lines|
  {
    var s := FirstWhere(lines, 0, opens);
    if s == |lines| then [] else lines[s..BlockEnd(lines, s, closes)]
  }

  /** The extraction for a given pair of tests: the block, lines kept
      untrimmed, joined by `\n`; the whole text when the block is empty. */
  function Extract(response: string, opens: string -> bool, closes: string -> bool): string
  {
    var b := Block(Split(response, '\n'), opens, closes);
    if |b| > 0 then Join(b, '\n') else response
  }

  /** What `CleanSqlResponse` returns. */
  function CleanSql(response: string): string
  {
    Extract(response, Opens, Closes)
  }

  /** `CleanSqlResponse`: the answer is cut into lines and scanned with the
      `inSqlBlock` flag; the collected lines are joined back, or the whole
      answer is returned when none was collected. */
  method CleanSqlResponse(response: string) returns (r: string)
    ensures r == CleanSql(response)
  {
    var lines := Split(response, '\n');
    var sqlLines := ScanBlock(lines, Opens, Closes);
    r := if |sqlLines| > 0 then Join(sqlLines, '\n') else response;
  }

  /** The loop of `CleanSqlResponse`, for a given pair of line tests: a line
      that `opens` sets `inSqlBlock`; while it is set every line is
      collected, and the first collected line that `closes` ends the scan. */
  method ScanBlock(lines: seq<string>, opens: string -> bool, closes: string -> bool)
    returns (sqlLines: seq<string>)
    ensures sqlLines == Block(lines, opens, closes)
  {
    sqlLines := [];
    var inSqlBlock := false;
    ghost var s: nat := 0;
    var i := 0;
    while i < |lines|
      invariant i <= |lines|
      invariant !inSqlBlock ==> sqlLines == [] && FirstWhere(lines, 0, opens) >= i
      invariant inSqlBlock ==>
        s < i && s == FirstWhere(lines, 0, opens) && sqlLines == lines[s..i] && FirstWhere(lines, s, closes) >= i
    {
      var line := lines[i];
      if opens(line) {
        if !inSqlBlock {
          FirstWhereHere(lines, 0, opens, i);
          s := i;
        }
        inSqlBlock := true;
      } else if !inSqlBlock {
        FirstWhereLater(lines, 0, opens, i);
      }
      if inSqlBlock {
        SliceGrows(lines, s, i);
        sqlLines := sqlLines + [line];
        if closes(line) {
          FirstWhereHere(lines, s, closes, i);
          break;
        }
        FirstWhereLater(lines, s, closes, i);
      }
      i := i + 1;
    }
    if inSqlBlock {
      BlockFrom(lines, opens, closes, s);
    } else {
      BlockFrom(lines, opens, closes, |lines|);
    }
  }

  lemma SliceGrows(lines: seq<string>, s: nat, i: nat)
    requires s <= i < |lines|
    ensures lines[s..i + 1] == lines[s..i] + [lines[i]]
  {
  }

  /** A scan that has passed line `i` without a match stops at `i` when
      line `i` matches ... */
  lemma FirstWhereHere(lines: seq<string>, k: nat, p: string -> bool, i: nat)
    requires k <= i < |lines| && FirstWhere(lines, k, p) >= i && p(lines[i])
    ensures FirstWhere(lines, k, p) == i
  {
    FirstWhereBefore(lines, k, p);
  }

  /** ... and goes on past `i` when it does not. */
  lemma FirstWhereLater(lines: seq<string>, k: nat, p: string -> bool, i: nat)
    requires k <= i < |lines| && FirstWhere(lines, k, p) >= i && !p(lines[i])
    ensures FirstWhere(lines, k, p) > i
  {
  }

  /** `Block` in terms of its two scans. */
  lemma BlockFrom(lines: seq<string>, opens: string -> bool, closes: string -> bool, s: nat)
    requires s == FirstWhere(lines, 0, opens)
    ensures s == |lines| ==> Block(lines, opens, closes) == []
    ensures s < |lines| ==>
      Block(lines, opens, closes) == lines[s..if FirstWhere(lines, s, closes) < |lines| then FirstWhere(lines, s, closes) + 1 else |lines|]
  {
  }

  // ---------------------------------------------------------------------------
  // Properties of the extraction, for any pair of tests
  // ---------------------------------------------------------------------------

  /** `FirstWhere` is determined by the two properties that define it. */
  lemma {:induction false} FirstWhereIs(lines: seq<string>, k: nat, p: string -> bool, j: nat)
    requires k <= j <= |lines|
    requires j < |lines| ==> p(lines[j])
    requires forall m :: k <= m < j ==> !p(lines[m])
    ensures FirstWhere(lines, k, p) == j
    decreases j - k
  {
    if k < j {
      FirstWhereIs(lines, k + 1, p, j);
    }
  }

  /** A text in which no line opens a block comes back unchanged. */
  lemma ExtractWithoutBlock(response: string, opens: string -> bool, closes: string -> bool)
    requires forall k :: 0 <= k < |Split(response, '\n')| ==> !opens(Split(response, '\n')[k])
    ensures Extract(response, opens, closes) == response
  {
    FirstWhereIs(Split(response, '\n'), 0, opens, |Split(response, '\n')|);
  }

  /** The block, characterized by its two boundary lines: `i` is the first
      line that opens it and `j` the first line from `i` on that closes it. */
  lemma {:induction false} BlockClosed(lines: seq<string>, opens: string -> bool, closes: string -> bool, i: nat, j: nat)
    requires i <= j < |lines|
    requires opens(lines[i]) && forall k :: 0 <= k < i ==> !opens(lines[k])
    requires closes(lines[j]) && forall k :: i <= k < j ==> !closes(lines[k])
    ensures Block(lines, opens, closes) == lines[i..j + 1]
  {
    FirstWhereIs(lines, 0, opens, i);
    FirstWhereIs(lines, i, closes, j);
  }

  /** A block that no line closes runs to the last line. */
  lemma {:induction false} BlockUnclosed(lines: seq<string>, opens: string -> bool, closes: string -> bool, i: nat)
    requires i < |lines|
    requires opens(lines[i]) && forall k :: 0 <= k < i ==> !opens(lines[k])
    requires forall k :: i <= k < |lines| ==> !closes(lines[k])
    ensures Block(lines, opens, closes) == lines[i..]
  {
    FirstWhereIs(lines, 0, opens, i);
    FirstWhereIs(lines, i, closes, |lines|);
  }

  /** A non-empty block is its own block: it starts with an opening line and
      none of its lines but the last closes. */
  lemma {:induction false} BlockOfBlock(lines: seq<string>, opens: string -> bool, closes: string -> bool)
    ensures var b := Block(lines, opens, closes);
      |b| > 0 ==> opens(b[0]) && Block(b, opens, closes) == b
  {
    var s := FirstWhere(lines, 0, opens);
    if s < |lines| {
      var c := FirstWhere(lines, s, closes);
      FirstWhereBefore(lines, s, closes);
      var b := lines[s..BlockEnd(lines, s, closes)];
      assert forall k :: 0 <= k < |b| ==> b[k] == lines[s + k];
      FirstWhereIs(b, 0, opens, 0);
      if c < |lines| {
        FirstWhereIs(b, 0, closes, c - s);
      } else {
        FirstWhereIs(b, 0, closes, |b|);
      }
    }
  }

  /** The extracted text, split again, gives back the block. */
  lemma ExtractSplitsToBlock(response: string, opens: string -> bool, closes: string -> bool)
    requires |Block(Split(response, '\n'), opens, closes)| > 0
    ensures Split(Extract(response, opens, closes), '\n') == Block(Split(response, '\n'), opens, closes)
  {
    var lines := Split(response, '\n');
    var b := Block(lines, opens, closes);
    var s := FirstWhere(lines, 0, opens);
    assert forall k :: 0 <= k < |b| ==> b[k] == lines[s + k];
    SplitJoin(b, '\n');
  }

  /** Extracting twice gives what extracting once gives. */
  lemma ExtractIdempotent(response: string, opens: string -> bool, closes: string -> bool)
    ensures Extract(Extract(response, opens, closes), opens, closes) == Extract(response, opens, closes)
  {
    var b := Block(Split(response, '\n'), opens, closes);
    if |b| > 0 {
      ExtractSplitsToBlock(response, opens, closes);
      BlockOfBlock(Split(response, '\n'), opens, closes);
    }
  }

  /** `CleanSqlResponse` is idempotent: a query it extracted comes back unchanged. */
  lemma CleanSqlIdempotent(response: string)
    ensures CleanSql(CleanSql(response)) == CleanSql(response)
  {
    ExtractIdempotent(response, Opens, Closes);
  }

  /** A blank line never closes a query, so blank lines inside a query are kept. */
  lemma BlankLineDoesNotClose(line: string)
    requires IsBlank(line)
    ensures !Closes(line)
  {
    TrimShape(line);
  }

  lemma BlockOfMiddleLine(before: string, middle: string, after: string, opens: string -> bool, closes: string -> bool)
    requires !opens(before) && opens(middle) && closes(middle)
    ensures Block([before, middle, after], opens, closes) == [middle]
  {
    BlockClosed([before, middle, after], opens, closes, 1, 1);
    assert [before, middle, after][1..2] == [middle];
  }

  /** A query on one line between two lines of prose is extracted alone:
      the answer "Here is your query:", "SELECT * FROM Foo;", "Hope that
      helps!" yields exactly its middle line. */
  lemma {:induction false} CleanSqlQueryBetweenProse(before: string, query: string, after: string)
    requires '\n' !in before && '\n' !in query && '\n' !in after
    requires !Opens(before) && Opens(query) && Closes(query)
    ensures CleanSql(before + "\n" + query + "\n" + after) == query
  {
    var answer := before + "\n" + query + "\n" + after;
    var lines := [before, query, after];
    assert Split(answer, '\n') == lines by {
      assert answer == before + ['\n'] + (query + ['\n'] + after);
      SplitWithout(after, '\n');
      SplitAtSeparator(query, after, '\n');
      SplitAtSeparator(before, query + ['\n'] + after, '\n');
    }
    BlockOfMiddleLine(before, query, after, Opens, Closes);
  }

  /** The closing test looks for upper-case keywords only: a query written
      in lower case is cut after its first line, so "select *" followed by
      "from Foo" yields "select *". */
  lemma {:induction false} CleanSqlLowerCaseQuery(first: string, rest: string)
    requires '\n' !in first && forall i :: 0 <= i < |first| ==> !('A' <= first[i] <= 'Z')
    requires Opens(first)
    ensures CleanSql(first + "\n" + rest) == first
  {
    var t := Trim(first);
    assert forall i :: 0 <= i < |t| ==> !('A' <= t[i] <= 'Z') by {
      forall i | 0 <= i < |t| ensures !('A' <= t[i] <= 'Z') {
        assert t[i] == first[TrimOffset(first) + i];
      }
    }
    NoUpperCase(t, "SELECT");
    NoUpperCase(t, "FROM");
    NoUpperCase(t, "WHERE");
    NoUpperCase(t, "GROUP");
    NoUpperCase(t, "ORDER");
    NoUpperCase(t, "HAVING");
    assert |t| > 0;
    assert first + "\n" + rest == first + ['\n'] + rest;
    SplitAtSeparator(first, rest, '\n');
    var lines := [first] + Split(rest, '\n');
    BlockClosed(lines, Opens, Closes, 0, 0);
    assert lines[0..1] == [first];
  }

  /** A text without upper-case letters contains no non-empty word that starts
      with one. */
  lemma {:induction false} NoUpperCase(s: string, word: string)
    requires forall i :: 0 <= i < |s| ==> !('A' <= s[i] <= 'Z')
    requires |word| > 0 && 'A' <= word[0] <= 'Z'
    ensures !Contains(s, word)
    decreases |s|
  {
    if |s| > 0 {
      NoUpperCase(s[1..], word);
    }
  }

  // ---------------------------------------------------------------------------
  // The failure sentinels
  // ---------------------------------------------------------------------------

  /** A failed exchange makes each operation return its fixed text, and
      an exchange that gives no `response` field is not a failure. */
  lemma FailedExchange(reply: Reply)
    requires reply.TransportError? || !reply.isSuccessStatusCode
    ensures AskQuestion(reply) == AskFallback
    ensures GenerateSqlQuery(reply) == SqlFallback
    ensures ExplainData(reply) == ExplainFallback
    ensures GetQuerySuggestions(reply) == [SuggestionsFallback]
  {
  }

  /** A one-line text whose first visible letter cannot start `SELECT` or
      `WITH` opens no query, so it is its own cleaned SQL. */
  lemma ProseIsItsOwnSql(s: string)
    requires '\n' !in s && |s| > 0 && !IsWhiteSpace(s[0]) && !IsWhiteSpace(s[|s| - 1])
    requires AsciiUpper(s[0]) != 'S' && AsciiUpper(s[0]) != 'W'
    ensures CleanSql(s) == s
  {
    SplitWithout(s, '\n');
    TrimUnchanged(s);
    assert !Opens(s);
    ExtractWithoutBlock(s, Opens, Closes);
  }

  /** The placeholder is its own cleaned SQL. */
  lemma PlaceholderIsItsOwnSql()
    ensures CleanSql(NoModelAnswer) == NoModelAnswer
  {
    var s := NoModelAnswer;
    assert s[0] == 'N' && s[|s| - 1] == '.';
    assert forall i :: 0 <= i < |s| ==> s[i] != '\n';
    ProseIsItsOwnSql(s);
  }

  /** The empty answer is its own cleaned SQL. */
  lemma EmptyIsItsOwnSql()
    ensures CleanSql("") == ""
  {
    assert Split("", '\n') == [""];
    assert Trim("") == "";
    assert !Opens("");
    FirstWhereIs([""], 0, Opens, 1);
  }

  /** When the body has no `response` field the placeholder is the answer:
      it is what a question gets back, and SQL generation returns it
      unchanged as the query. */
  lemma MissingResponseField(status: string)
    ensures var reply := Response(true, status, Parsed(None));
      AskQuestion(reply) == NoModelAnswer && ExplainData(reply) == NoModelAnswer
      && GenerateSqlQuery(reply) == NoModelAnswer
  {
    PlaceholderIsItsOwnSql();
  }

  /** When the `response` field holds the JSON `null` the answer is empty,
      and so is the generated SQL. */
  lemma NullResponseField(status: string)
    ensures var reply := Response(true, status, Parsed(Some("")));
      AskQuestion(reply) == "" && ExplainData(reply) == "" && GenerateSqlQuery(reply) == ""
  {
    EmptyIsItsOwnSql();
  }
}
