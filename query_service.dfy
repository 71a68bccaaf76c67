/** `QueryService`: the orchestration between the model server and the
    database. Its collaborators are parameters (`Services`): each call either
    returns a value or throws, and every operation also returns the trace of
    the calls it made, so the contracts can say which collaborators were
    consulted, with which arguments and in which order. */
module QueryService {
  import opened Wrappers
  import opened Text
  import opened Models
  import OllamaService

  // ---------------------------------------------------------------------------
  // Collaborators
  // ---------------------------------------------------------------------------

  /** A column value of a row that an arbitrary query returns. */
  datatype Value = Null | Number(n: real) | Text(s: string) | Flag(b: bool) | Instant(t: DateTime)

  /** A row as Dapper returns it for `dynamic`: its columns in order. */
  type Row = seq<(string, Value)>

  /** The tables `ExplainDatabaseEntityAsync` has a fixed question for. */
  datatype Topic = ReceiptHeaders | ReceiptLines | Suppliers | Articles | Schema

  /** What is asked of the model: a text built here, one of the fixed table
      questions, or the insights question around a statistics text (the
      fixed wording of the last two is not part of this model). */
  datatype Prompt =
    | Literal(text: string)
    | AboutTopic(topic: Topic)
    | InsightsFor(statsContext: string)

  /** The collaborators: the `IOllamaService` operations, the repository's
      `ExecuteCustomQueryAsync` (an oracle: the SQL is not interpreted) and
      `GetDatabaseStatisticsAsync` (in `Sage200Repository`, a function of
      the tables), and the JSON serializer. */
  datatype Services = Services(
    generateSql: string -> Outcome<string>,
    ask: Prompt -> Outcome<string>,
    explainData: (string, string) -> Outcome<string>,
    suggest: string -> Outcome<seq<string>>,
    execute: string -> Outcome<seq<Row>>,
    statistics: Outcome<DatabaseStatistics>,
    serializeRows: seq<Row> -> string,
    serializeStatistics: DatabaseStatistics -> string)

  /** One call to a collaborator. */
  datatype Call =
    | GenerateSql(query: string)
    | Ask(prompt: Prompt)
    | ExplainData(data: string, context: string)
    | Suggest(context: string)
    | Execute(sql: string)
    | Statistics

  // ---------------------------------------------------------------------------
  // Results
  // ---------------------------------------------------------------------------

  /** `QueryResult`; `executionTime` is the stopwatch reading, a parameter. */
  datatype QueryResult = QueryResult(
    success: bool,
    errorMessage: string,
    data: seq<Row>,
    sqlQuery: string,
    explanation: string,
    recordCount: int,
    executionTime: nat,
    suggestions: seq<string>)

  /** `new QueryResult()`. */
  const EmptyResult := QueryResult(false, "", [], "", "", 0, 0, [])

  /** `DatabaseSummary`. */
  datatype DatabaseSummary = DatabaseSummary(
    statistics: DatabaseStatistics,
    analysis: string,
    keyInsights: seq<string>,
    recommendedQueries: seq<string>)

  const SqlErrorMarker := "-- Error"
  const NoValidSql := "No se pudo generar una consulta SQL válida"
  const DatabaseErrorPrefix := "Error al ejecutar la consulta en la base de datos: "
  const InternalErrorPrefix := "Error interno del sistema: "
  const RephraseExplanation := "Hubo un error al procesar tu consulta. Por favor, intenta reformularla."
  const NoMatchingData := "No se encontraron datos que coincidan con tu consulta."
  const NoRowsReturned := "La consulta se ejecutó correctamente pero no devolvió resultados."
  const SummaryContext := "Estadísticas generales de la base de datos empresarial Sage 200"
  const AnalysisFallback := "No se pudo generar el análisis en este momento."
  const InsightsFallback := "Error al obtener insights"
  const RecommendationsFallback := "Error al obtener recomendaciones"

  /** The number of rows handed to the explainer. */
  const RowsForExplanation := 5

  /** The guard on a generated query: not blank and not the generator's
      `-- Error` sentinel. */
  predicate RunnableSql(sql: string) {
    !IsBlank(sql) && !StartsWith(sql, SqlErrorMarker)
  }

  /** The sentinel the concrete generator returns on failure never passes
      the guard, so a failed generation never reaches the database. */
  lemma GeneratorSentinelIsNotRun()
    ensures !RunnableSql(OllamaService.SqlFallback)
  {
    var s := OllamaService.SqlFallback;
    assert s[0] == '-' && s[1] == '-' && s[2] == ' ' && s[3] == 'E' && s[4] == 'r' && s[5] == 'r' && s[6] == 'o' && s[7] == 'r';
    assert s[..8] == SqlErrorMarker;
  }

  /** A reply whose `response` field holds the JSON `null` yields empty SQL,
      which the guard rejects ... */
  lemma NullResponseIsNotRun(status: string)
    ensures !RunnableSql(OllamaService.GenerateSqlQuery(OllamaService.Response(true, status, OllamaService.Parsed(Some("")))))
  {
    OllamaService.NullResponseField(status);
  }

  /** ... while a reply without the field yields the placeholder sentence,
      which passes the guard and is sent to the database as a query. */
  lemma PlaceholderIsRun(status: string)
    ensures RunnableSql(OllamaService.GenerateSqlQuery(OllamaService.Response(true, status, OllamaService.Parsed(None))))
  {
    OllamaService.MissingResponseField(status);
    PlaceholderPassesGuard();
  }

  lemma PlaceholderPassesGuard()
    ensures RunnableSql(OllamaService.NoModelAnswer)
  {
    var s := OllamaService.NoModelAnswer;
    assert s[0] == 'N';
    VisibleNonDashIsRun(s);
  }

  /** A text that starts with a visible character other than `-` passes the
      guard. */
  lemma VisibleNonDashIsRun(s: string)
    requires |s| > 0 && !IsWhiteSpace(s[0]) && s[0] != '-'
    ensures RunnableSql(s)
  {
    assert SqlErrorMarker[0] == '-';
  }

  // ---------------------------------------------------------------------------
  // The execution phase shared by both query operations
  // ---------------------------------------------------------------------------

  /** Where the execution phase stopped: the result as it stands, the calls
      made, and the message of the exception that ended it early, if any. */
  datatype Phase = Phase(result: QueryResult, calls: seq<Call>, thrown: Option<string>)

  /** The body of the inner `try`: execute `sql`, record the rows, their
      count and success, explain the first five rows under `explainContext`
      (or take `noRows` when there is none), then ask for suggestions about
      `suggestContext`. The first call that throws ends the phase. */
  function Executed(svc: Services, sql: string, explainContext: string, noRows: string,
                    suggestContext: string, before: QueryResult): (p: Phase)
    ensures |p.calls| >= 1 && p.calls[0] == Execute(sql)
    ensures forall i :: 1 <= i < |p.calls| ==> !p.calls[i].Execute?
    ensures p.result.sqlQuery == before.sqlQuery
    ensures svc.execute(sql).Fail? ==> p == Phase(before, [Execute(sql)], Some(svc.execute(sql).message))
    ensures svc.execute(sql).Ok? ==>
      var rows := svc.execute(sql).value;
      var explain := ExplainData(svc.serializeRows(Take(rows, RowsForExplanation)), explainContext);
      var explained := if |rows| > 0 then svc.explainData(explain.data, explain.context) else Ok(noRows);
      p.result.data == rows && p.result.recordCount == |rows| && p.result.success
      && p.calls[1..] == (if |rows| > 0 then [explain] else []) + (if explained.Ok? then [Suggest(suggestContext)] else [])
      && (p.thrown.None? <==> explained.Ok? && svc.suggest(suggestContext).Ok?)
      && (p.thrown.None? ==>
            p.result == before.(success := true, data := rows, recordCount := |rows|,
                                explanation := explained.value, suggestions := svc.suggest(suggestContext).value))
      && (explained.Fail? ==> p.thrown == Some(explained.message))
      && (explained.Ok? && svc.suggest(suggestContext).Fail? ==> p.thrown == Some(svc.suggest(suggestContext).message))
    ensures p.thrown.Some? ==> p.result.suggestions == before.suggestions
  {
    match svc.execute(sql)
    case Fail(m) => Phase(before, [Execute(sql)], Some(m))
    case Ok(rows) =>
      var counted := before.(data := rows, recordCount := |rows|, success := true);
      var explain := ExplainData(svc.serializeRows(Take(rows, RowsForExplanation)), explainContext);
      var explainCalls := if |rows| > 0 then [explain] else [];
      var explained := if |rows| > 0 then svc.explainData(explain.data, explain.context) else Ok(noRows);
      match explained
      case Fail(m) => Phase(counted, [Execute(sql)] + explainCalls, Some(m))
      case Ok(text) =>
        var described := counted.(explanation := text);
        var calls := [Execute(sql)] + explainCalls + [Suggest(suggestContext)];
        match svc.suggest(suggestContext)
        case Fail(m) => Phase(described, calls, Some(m))
        case Ok(suggestions) => Phase(described.(suggestions := suggestions), calls, None)
  }

  /** The execution phase, step by step: `result` is updated field by field
      as each call returns, and the first exception ends the phase. */
  method RunExecution(svc: Services, sql: string, explainContext: string, noRows: string,
                      suggestContext: string, before: QueryResult)
    returns (result: QueryResult, calls: seq<Call>, thrown: Option<string>)
    ensures Phase(result, calls, thrown) == Executed(svc, sql, explainContext, noRows, suggestContext, before)
  {
    result := before;
    calls := [Execute(sql)];
    thrown := None;
    var executed := svc.execute(sql);
    if executed.Fail? {
      thrown := Some(executed.message);
      return;
    }
    var rows := executed.value;
    result := result.(data := rows, recordCount := |rows|, success := true);
    if |rows| > 0 {
      var dataForExplanation := svc.serializeRows(Take(rows, RowsForExplanation));
      calls := calls + [ExplainData(dataForExplanation, explainContext)];
      var explained := svc.explainData(dataForExplanation, explainContext);
      if explained.Fail? {
        thrown := Some(explained.message);
        return;
      }
      result := result.(explanation := explained.value);
    } else {
      result := result.(explanation := noRows);
    }
    calls := calls + [Suggest(suggestContext)];
    var suggested := svc.suggest(suggestContext);
    if suggested.Fail? {
      thrown := Some(suggested.message);
      return;
    }
    result := result.(suggestions := suggested.value);
  }

  // ---------------------------------------------------------------------------
  // ProcessNaturalLanguageQueryAsync
  // ---------------------------------------------------------------------------

  /** `ProcessNaturalLanguageQueryAsync`: generate SQL, guard it, run the
      execution phase. An exception in that phase is reported as a database
      error with the model's account of why the query might fail; a failure
      of the generator, or of the model while an error is being reported,
      reaches the outer handler. */
  method ProcessNaturalLanguageQuery(svc: Services, query: string, elapsed: nat)
    returns (result: QueryResult, calls: seq<Call>)
    // always
    ensures |calls| >= 1 && calls[0] == GenerateSql(query)
    ensures result.executionTime == elapsed
    ensures result.success <==> result.errorMessage == ""
    ensures !result.success ==> result.suggestions == []
    ensures svc.generateSql(query).Ok? && RunnableSql(svc.generateSql(query).value) ==>
      |calls| >= 2 && calls[1] == Execute(svc.generateSql(query).value)
    ensures !(svc.generateSql(query).Ok? && RunnableSql(svc.generateSql(query).value)) ==>
      forall c :: c in calls ==> !c.Execute?
    // the generator throws
    ensures svc.generateSql(query).Fail? ==>
      calls == [GenerateSql(query)]
      && result == EmptyResult.(errorMessage := InternalErrorPrefix + svc.generateSql(query).message,
                                explanation := RephraseExplanation, executionTime := elapsed)
    // a query was generated: it is reported whatever happens next
    ensures svc.generateSql(query).Ok? ==> result.sqlQuery == svc.generateSql(query).value
    // ... it does not pass the guard
    ensures svc.generateSql(query).Ok? && !RunnableSql(svc.generateSql(query).value) ==>
      calls == [GenerateSql(query), Ask(Literal(query))]
      && !result.success && result.data == [] && result.recordCount == 0
      && (svc.ask(Literal(query)).Ok? ==>
            result.errorMessage == NoValidSql && result.explanation == svc.ask(Literal(query)).value)
      && (svc.ask(Literal(query)).Fail? ==>
            result.errorMessage == InternalErrorPrefix + svc.ask(Literal(query)).message
            && result.explanation == RephraseExplanation)
    // ... it passes the guard
    ensures svc.generateSql(query).Ok? && RunnableSql(svc.generateSql(query).value) ==>
      var sql := svc.generateSql(query).value;
      var p := Executed(svc, sql, "Consulta original: " + query, NoMatchingData, query, EmptyResult.(sqlQuery := sql));
      var why := Literal("Explica por qué esta consulta SQL podría fallar: " + sql);
      (p.thrown.None? ==> calls == [GenerateSql(query)] + p.calls && result == p.result.(executionTime := elapsed))
      && (p.thrown.Some? ==>
            calls == [GenerateSql(query)] + p.calls + [Ask(why)]
            && result.data == p.result.data && result.recordCount == p.result.recordCount
            && (svc.ask(why).Ok? ==>
                  result.errorMessage == DatabaseErrorPrefix + p.thrown.value
                  && result.explanation == svc.ask(why).value)
            && (svc.ask(why).Fail? ==>
                  result.errorMessage == InternalErrorPrefix + svc.ask(why).message
                  && result.explanation == RephraseExplanation))
  {
    result := EmptyResult;
    calls := [GenerateSql(query)];
    var escaped: Option<string> := None;
    var generated := svc.generateSql(query);
    if generated.Fail? {
      escaped := Some(generated.message);
    } else {
      var sql := generated.value;
      result := result.(sqlQuery := sql);
      if RunnableSql(sql) {
        var phaseCalls, thrown;
        result, phaseCalls, thrown := RunExecution(svc, sql, "Consulta original: " + query, NoMatchingData, query, result);
        calls := calls + phaseCalls;
        if thrown.Some? {
          result := result.(success := false, errorMessage := DatabaseErrorPrefix + thrown.value);
          var why := Literal("Explica por qué esta consulta SQL podría fallar: " + sql);
          calls := calls + [Ask(why)];
          match svc.ask(why)
          case Fail(m) => escaped := Some(m);
          case Ok(answer) => result := result.(explanation := answer);
        }
      } else {
        result := result.(success := false, errorMessage := NoValidSql);
        calls := calls + [Ask(Literal(query))];
        match svc.ask(Literal(query))
        case Fail(m) => escaped := Some(m);
        case Ok(answer) => result := result.(explanation := answer);
      }
    }
    if escaped.Some? {
      result := result.(success := false, errorMessage := InternalErrorPrefix + escaped.value,
                        explanation := RephraseExplanation);
    }
    result := result.(executionTime := elapsed);
  }

  // ---------------------------------------------------------------------------
  // ExecuteSqlQueryAsync
  // ---------------------------------------------------------------------------

  /** `ExecuteSqlQueryAsync`: the query runs as given (no guard). A failure
      is reported with the exception's own message and the model's account
      of it; when the model fails too, that exception leaves the method. */
  method ExecuteSqlQuery(svc: Services, sqlQuery: string, elapsed: nat)
    returns (outcome: Outcome<QueryResult>, calls: seq<Call>)
    ensures var p := Executed(svc, sqlQuery, "Resultado de consulta SQL: " + sqlQuery, NoRowsReturned,
                              "SQL: " + sqlQuery, EmptyResult.(sqlQuery := sqlQuery));
      (p.thrown.None? ==> calls == p.calls && outcome == Ok(p.result.(executionTime := elapsed)))
      && (p.thrown.Some? ==>
            var why := Literal("Explica este error de SQL: " + p.thrown.value + " en la consulta: " + sqlQuery);
            calls == p.calls + [Ask(why)]
            && (svc.ask(why).Fail? ==> outcome == Fail(svc.ask(why).message))
            && (svc.ask(why).Ok? ==>
                  outcome == Ok(p.result.(success := false, errorMessage := p.thrown.value,
                                          explanation := svc.ask(why).value, executionTime := elapsed))))
  {
    var result, thrown;
    result, calls, thrown := RunExecution(svc, sqlQuery, "Resultado de consulta SQL: " + sqlQuery, NoRowsReturned,
                                          "SQL: " + sqlQuery, EmptyResult.(sqlQuery := sqlQuery));
    if thrown.Some? {
      result := result.(success := false, errorMessage := thrown.value);
      var why := Literal("Explica este error de SQL: " + thrown.value + " en la consulta: " + sqlQuery);
      calls := calls + [Ask(why)];
      var answer := svc.ask(why);
      if answer.Fail? {
        outcome := Fail(answer.message);
        return;
      }
      result := result.(explanation := answer.value);
    }
    outcome := Ok(result.(executionTime := elapsed));
  }

  // ---------------------------------------------------------------------------
  // ExplainDatabaseEntityAsync
  // ---------------------------------------------------------------------------

  /** Every name the `switch` recognises, lower-cased. */
  const EntityAliases: set<string> := {
    "cabeceraalbaran", "cabeceraalbaran proveedores",
    "lineasalbaran", "lineas albaran", "lineas",
    "proveedores", "proveedor",
    "articulos", "articulo", "productos",
    "sage200", "base de datos", "esquema"}

  /** The `switch` on the lower-cased name: the table with a fixed question. */
  function EntityTopic(lowered: string): (r: Option<Topic>)
    ensures r == Some(ReceiptHeaders) <==> lowered in {"cabeceraalbaran", "cabeceraalbaran proveedores"}
    ensures r == Some(ReceiptLines) <==> lowered in {"lineasalbaran", "lineas albaran", "lineas"}
    ensures r == Some(Suppliers) <==> lowered in {"proveedores", "proveedor"}
    ensures r == Some(Articles) <==> lowered in {"articulos", "articulo", "productos"}
    ensures r == Some(Schema) <==> lowered in {"sage200", "base de datos", "esquema"}
    ensures r.None? <==> lowered !in EntityAliases
  {
    if lowered == "cabeceraalbaran" || lowered == "cabeceraalbaran proveedores" then Some(ReceiptHeaders)
    else if lowered == "lineasalbaran" || lowered == "lineas albaran" || lowered == "lineas" then Some(ReceiptLines)
    else if lowered == "proveedores" || lowered == "proveedor" then Some(Suppliers)
    else if lowered == "articulos" || lowered == "articulo" || lowered == "productos" then Some(Articles)
    else if lowered == "sage200" || lowered == "base de datos" || lowered == "esquema" then Some(Schema)
    else None
  }

  /** The question asked about a name the `switch` does not recognise. */
  function EntityQuestion(entityName: string): string {
    "Explica qué es '" + entityName + "' en el contexto de una base de datos empresarial Sage 200"
  }

  /** The text returned when the model fails. */
  function NoInformation(entityName: string): string {
    "No pude obtener información sobre '" + entityName + "' en este momento."
  }

  /** The prompt the name selects: a fixed table question for a recognised
      name, in any letter case, and otherwise a question quoting the name. */
  function EntityPrompt(entityName: string): (p: Prompt)
    ensures ToLower(entityName) in EntityAliases ==>
      p.AboutTopic? && Some(p.topic) == EntityTopic(ToLower(entityName))
    ensures ToLower(entityName) !in EntityAliases ==>
      p == Literal(EntityQuestion(entityName)) && Contains(p.text, entityName)
  {
    match EntityTopic(ToLower(entityName))
    case Some(topic) => AboutTopic(topic)
    case None =>
      ContainsMiddle("Explica qué es '", entityName, "' en el contexto de una base de datos empresarial Sage 200");
      Literal(EntityQuestion(entityName))
  }

  /** `ExplainDatabaseEntityAsync`: one question to the model, and its answer
      or the apology naming the entity. */
  function ExplainDatabaseEntity(svc: Services, entityName: string): (r: (string, seq<Call>))
    ensures r.1 == [Ask(EntityPrompt(entityName))]
    ensures svc.ask(EntityPrompt(entityName)).Ok? ==> r.0 == svc.ask(EntityPrompt(entityName)).value
    ensures svc.ask(EntityPrompt(entityName)).Fail? ==> r.0 == NoInformation(entityName) && Contains(r.0, entityName)
  {
    var prompt := EntityPrompt(entityName);
    match svc.ask(prompt)
    case Ok(answer) => (answer, [Ask(prompt)])
    case Fail(_) =>
      ContainsMiddle("No pude obtener información sobre '", entityName, "' en este momento.");
      (NoInformation(entityName), [Ask(prompt)])
  }

  /** The routing ignores letter case: two names that differ only in the
      case of their letters are both recognised, with the same question, or
      both get the generic question. */
  lemma EntityRoutingIgnoresCase(entityName: string, other: string)
    requires SameUpToCase(entityName, other)
    ensures EntityPrompt(entityName).AboutTopic? <==> EntityPrompt(other).AboutTopic?
    ensures EntityPrompt(entityName).AboutTopic? ==> EntityPrompt(entityName) == EntityPrompt(other)
  {
    SameUpToCaseLowersEqual(entityName, other);
  }

  /** A name in capitals selects its table ... */
  lemma UpperCaseLines()
    ensures EntityPrompt("LINEAS") == AboutTopic(ReceiptLines)
  {
    assert ToLower("LINEAS") == "lineas";
  }

  /** No alias has an 'í' in fourth place ... */
  lemma AccentedFourthLetterIsNoAlias(lowered: string)
    requires |lowered| > 3 && lowered[3] == 'í'
    ensures lowered !in EntityAliases
  {
  }

  /** ... and lower-casing keeps it, so such a name gets the generic
      question. */
  lemma AccentedNameNotRecognised(name: string)
    requires |name| > 3 && name[3] == 'í'
    ensures EntityPrompt(name) == Literal(EntityQuestion(name))
  {
    assert ToLower(name)[3] == 'í';
    AccentedFourthLetterIsNoAlias(ToLower(name));
  }

  /** The accented "Artículos", the name the explorer lists, is therefore
      not one of the aliases. */
  lemma AccentedArticlesNotRecognised()
    ensures EntityPrompt("Artículos") == Literal(EntityQuestion("Artículos"))
  {
    AccentedNameNotRecognised("Artículos");
  }

  // ---------------------------------------------------------------------------
  // GetQuerySuggestionsAsync
  // ---------------------------------------------------------------------------

  /** The five questions returned when anything fails. */
  const FallbackQuestions := [
    "¿Cuáles son los proveedores con más albaranes?",
    "¿Qué artículos se han recibido este mes?",
    "¿Cuál es el importe total de compras por proveedor?",
    "¿Qué albaranes están pendientes de recepción?",
    "¿Cuáles son los artículos más comprados?"]

  /** The context built from the statistics when none is given. */
  function StatisticsContext(stats: DatabaseStatistics): string {
    "Base de datos con " + NatToString(stats.totalAlbaranes) + " albaranes, "
    + NatToString(stats.totalProveedores) + " proveedores, "
    + NatToString(stats.totalArticulos) + " artículos"
  }

  /** `GetQuerySuggestionsAsync(context)`: an empty context is replaced by
      one built from the statistics; the model's suggestions, or the five
      fixed questions when the statistics or the model fail. */
  function GetQuerySuggestions(svc: Services, context: string): (r: (seq<string>, seq<Call>))
    ensures context != "" ==>
      r.1 == [Suggest(context)]
      && r.0 == (if svc.suggest(context).Ok? then svc.suggest(context).value else FallbackQuestions)
    ensures context == "" && svc.statistics.Fail? ==> r == (FallbackQuestions, [Statistics])
    ensures context == "" && svc.statistics.Ok? ==>
      var generated := StatisticsContext(svc.statistics.value);
      r.1 == [Statistics, Suggest(generated)]
      && r.0 == (if svc.suggest(generated).Ok? then svc.suggest(generated).value else FallbackQuestions)
    ensures Statistics in r.1 <==> context == ""
  {
    if context == "" then
      match svc.statistics
      case Fail(_) => (FallbackQuestions, [Statistics])
      case Ok(stats) =>
        var generated := StatisticsContext(stats);
        var suggestions := if svc.suggest(generated).Ok? then svc.suggest(generated).value else FallbackQuestions;
        (suggestions, [Statistics, Suggest(generated)])
    else
      (if svc.suggest(context).Ok? then svc.suggest(context).value else FallbackQuestions, [Suggest(context)])
  }

  // ---------------------------------------------------------------------------
  // GetDatabaseSummaryAsync
  // ---------------------------------------------------------------------------

  /** The summary after a failure: the statistics read so far and the three
      fixed texts. */
  function SummaryFallback(stats: DatabaseStatistics): DatabaseSummary {
    DatabaseSummary(stats, AnalysisFallback, [InsightsFallback], [RecommendationsFallback])
  }

  /** The number of insight lines kept. */
  const InsightCount := 5

  /** `GetDatabaseSummaryAsync`: statistics, the model's analysis of their
      JSON form, the insight lines of a second answer, and the general
      suggestions; any failure leaves the statistics read so far and the
      fixed texts. The insights are the fixed text or at most five clean
      lines. */
  method GetDatabaseSummary(svc: Services) returns (summary: DatabaseSummary, calls: seq<Call>)
    ensures |calls| >= 1 && calls[0] == Statistics
    ensures svc.statistics.Fail? ==> summary == SummaryFallback(DefaultStatistics) && calls == [Statistics]
    ensures svc.statistics.Ok? ==>
      var stats := svc.statistics.value;
      var statsContext := svc.serializeStatistics(stats);
      var analysis := svc.explainData(statsContext, SummaryContext);
      var insights := svc.ask(InsightsFor(statsContext));
      summary.statistics == stats
      && (analysis.Fail? ==> summary == SummaryFallback(stats) && calls == [Statistics, ExplainData(statsContext, SummaryContext)])
      && (analysis.Ok? && insights.Fail? ==>
            summary == SummaryFallback(stats)
            && calls == [Statistics, ExplainData(statsContext, SummaryContext), Ask(InsightsFor(statsContext))])
      && (analysis.Ok? && insights.Ok? ==>
            summary == DatabaseSummary(stats, analysis.value, TrimmedLines(insights.value, InsightCount),
                                       GetQuerySuggestions(svc, "").0)
            && calls == [Statistics, ExplainData(statsContext, SummaryContext), Ask(InsightsFor(statsContext))]
                        + GetQuerySuggestions(svc, "").1)
    ensures summary.keyInsights == [InsightsFallback]
            || (|summary.keyInsights| <= InsightCount
                && forall k :: 0 <= k < |summary.keyInsights| ==> IsCleanLine(summary.keyInsights[k]))
  {
    var fetched := svc.statistics;
    calls := [Statistics];
    if fetched.Fail? {
      return SummaryFallback(DefaultStatistics), calls;
    }
    var stats := fetched.value;
    var statsContext := svc.serializeStatistics(stats);
    calls := [Statistics, ExplainData(statsContext, SummaryContext)];
    var analysis := svc.explainData(statsContext, SummaryContext);
    if analysis.Fail? {
      return SummaryFallback(stats), calls;
    }
    calls := [Statistics, ExplainData(statsContext, SummaryContext), Ask(InsightsFor(statsContext))];
    var insights := svc.ask(InsightsFor(statsContext));
    if insights.Fail? {
      return SummaryFallback(stats), calls;
    }
    var keyInsights := TrimmedLines(insights.value, InsightCount);
    var recommended := GetQuerySuggestions(svc, "");
    summary := DatabaseSummary(stats, analysis.value, keyInsights, recommended.0);
    calls := calls + recommended.1;
  }
}
