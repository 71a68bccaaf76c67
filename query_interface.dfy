/** `QueryInterfaceViewModel`: the query console. Its observable properties
    are the fields of a class that the commands update in place; the query
    service behind it is a parameter (`QueryApi`) whose calls return a value
    or throw. */
module QueryInterface {
  import opened Wrappers
  import opened Text
  import opened QueryService

  /** `QueryType`. */
  datatype QueryType = Natural | Sql

  /** `QueryHistoryItem`; `executedAt` is the clock reading, a parameter. */
  datatype QueryHistoryItem = QueryHistoryItem(
    query: string,
    queryType: QueryType,
    executedAt: int,
    success: bool,
    recordCount: int,
    executionTime: nat)

  /** The most items the history keeps. */
  const MaxHistory := 50

  /** The most query characters `DisplayText` shows. */
  const DisplayLength := 50

  /** `QueryHistoryItem.DisplayText`: the query's first fifty characters,
      then an ellipsis, which is appended even when nothing was cut. */
  function DisplayText(item: QueryHistoryItem): (r: string)
    ensures |r| == Min(DisplayLength, |item.query|) + 3
    ensures StartsWith(item.query, r[..|r| - 3]) && EndsWith(r, "...")
    ensures |item.query| <= DisplayLength ==> r == item.query + "..."
  {
    item.query[..Min(DisplayLength, |item.query|)] + "..."
  }

  /** The history after `AddToHistory`: the new item first, then the old
      items in order, as many as fit in `MaxHistory`. */
  function Pushed(history: seq<QueryHistoryItem>, item: QueryHistoryItem): (r: seq<QueryHistoryItem>)
    ensures |r| == Min(|history| + 1, MaxHistory) && |r| <= MaxHistory
    ensures r[0] == item
    ensures r[1..] == history[..|r| - 1]
  {
    ([item] + history)[..Min(|history| + 1, MaxHistory)]
  }

  /** The history after a run of queries, oldest first. */
  function PushedAll(history: seq<QueryHistoryItem>, items: seq<QueryHistoryItem>): seq<QueryHistoryItem>
    decreases |items|
  {
    if items == [] then history else PushedAll(Pushed(history, items[0]), items[1..])
  }

  function Reversed<T>(s: seq<T>): (r: seq<T>)
    ensures |r| == |s| && forall i :: 0 <= i < |s| ==> r[i] == s[|s| - 1 - i]
  {
    if s == [] then [] else Reversed(s[1..]) + [s[0]]
  }

  /** After any run of queries the history is the most recent ones, newest
      first, followed by the older history, all cut to `MaxHistory`. */
  lemma {:induction false} HistoryIsMostRecentFirst(history: seq<QueryHistoryItem>, items: seq<QueryHistoryItem>)
    requires |history| <= MaxHistory
    ensures var all := Reversed(items) + history;
      PushedAll(history, items) == all[..Min(|all|, MaxHistory)]
    decreases |items|
  {
    if items != [] {
      var h1 := Pushed(history, items[0]);
      HistoryIsMostRecentFirst(h1, items[1..]);
      var all := Reversed(items) + history;
      var all1 := Reversed(items[1..]) + h1;
      assert Reversed(items) == Reversed(items[1..]) + [items[0]];
      assert all == Reversed(items[1..]) + ([items[0]] + history);
      assert all1 == all[..|all1|];
      assert Min(|all1|, MaxHistory) == Min(|all|, MaxHistory);
      calc {
        PushedAll(history, items);
        PushedAll(h1, items[1..]);
        all1[..Min(|all1|, MaxHistory)];
        all[..|all1|][..Min(|all|, MaxHistory)];
        all[..Min(|all|, MaxHistory)];
      }
    }
  }

  /** The history never holds more than `MaxHistory` items, whatever ran. */
  lemma HistoryBounded(history: seq<QueryHistoryItem>, items: seq<QueryHistoryItem>)
    requires |history| <= MaxHistory
    ensures |PushedAll(history, items)| <= MaxHistory
  {
    HistoryIsMostRecentFirst(history, items);
  }

  // ---------------------------------------------------------------------------
  // The service the console calls
  // ---------------------------------------------------------------------------

  /** The three `IQueryService` operations the console uses. */
  datatype QueryApi = QueryApi(
    processNaturalLanguageQuery: string -> Outcome<QueryResult>,
    executeSqlQuery: string -> Outcome<QueryResult>,
    getQuerySuggestions: string -> Outcome<seq<string>>)

  /** One call to the service. */
  datatype ApiCall = ProcessNatural(query: string) | ExecuteSql(sql: string) | GetSuggestions(context: string)

  /** What the service answers to a query sent in the given mode. */
  function Sent(api: QueryApi, queryType: QueryType, query: string): Outcome<QueryResult>
  {
    match queryType
    case Natural => api.processNaturalLanguageQuery(query)
    case Sql => api.executeSqlQuery(query)
  }

  /** The call a query sent in the given mode makes. */
  function SentCall(queryType: QueryType, query: string): ApiCall
  {
    match queryType
    case Natural => ProcessNatural(query)
    case Sql => ExecuteSql(query)
  }

  /** The console's observable properties, one field each. `executionTime`
      is `None` for the empty text and `Some(t)` for the formatted reading of
      `t` milliseconds; collections are sequences the commands reassign. */
  class QueryInterfaceViewModel {
    const api: QueryApi
    var currentQuery: string
    var isProcessing: bool
    var selectedQueryType: QueryType
    var lastQueryResult: Option<QueryResult>
    var resultExplanation: string
    var generatedSql: string
    var resultCount: int
    var executionTime: Option<nat>
    var hasError: bool
    var errorMessage: string
    var queryHistory: seq<QueryHistoryItem>
    var suggestions: seq<string>
    var queryResults: seq<Row>

    /** The history is bounded. */
    ghost predicate Valid()
      reads this
    {
      |queryHistory| <= MaxHistory
    }

    /** The constructor: empty collections and texts, natural-language
        mode. (The initial suggestions are loaded by a separate call.) */
    constructor(api: QueryApi)
      ensures Valid() && this.api == api
      ensures currentQuery == "" && !isProcessing && selectedQueryType == Natural && lastQueryResult == None
      ensures resultExplanation == "" && generatedSql == "" && resultCount == 0 && executionTime == None
      ensures !hasError && errorMessage == ""
      ensures queryHistory == [] && suggestions == [] && queryResults == []
    {
      this.api := api;
      currentQuery := "";
      isProcessing := false;
      selectedQueryType := Natural;
      lastQueryResult := None;
      resultExplanation := "";
      generatedSql := "";
      resultCount := 0;
      executionTime := None;
      hasError := false;
      errorMessage := "";
      queryHistory := [];
      suggestions := [];
      queryResults := [];
    }

    /** `AddToHistory`: the item goes in front, then the last item is
        removed while there are more than `MaxHistory`. */
    method AddToHistory(query: string, result: QueryResult, now: int)
      modifies this`queryHistory
      ensures queryHistory == Pushed(old(queryHistory),
        QueryHistoryItem(query, selectedQueryType, now, result.success, result.recordCount, result.executionTime))
      ensures Valid()
    {
      var historyItem := QueryHistoryItem(query, selectedQueryType, now, result.success, result.recordCount, result.executionTime);
      queryHistory := [historyItem] + queryHistory;
      while |queryHistory| > MaxHistory
        invariant queryHistory == ([historyItem] + old(queryHistory))[..|queryHistory|]
        invariant |queryHistory| >= Min(|old(queryHistory)| + 1, MaxHistory)
        decreases |queryHistory|
      {
        queryHistory := queryHistory[..|queryHistory| - 1];
      }
    }

    /** `HandleQueryError`: the error is shown and the result area emptied. */
    method HandleQueryError(message: string)
      modifies this`hasError, this`errorMessage, this`resultCount, this`executionTime, this`queryResults
      ensures hasError && errorMessage == message
      ensures resultCount == 0 && executionTime == None && queryResults == []
    {
      hasError := true;
      errorMessage := message;
      resultCount := 0;
      executionTime := None;
      queryResults := [];
    }

    /** `ProcessQueryResultAsync`: a successful result is copied row by row
        into the result area with its count, time, explanation and SQL; a
        failed one is handled as an error. */
    method ProcessQueryResult(result: QueryResult)
      modifies this`lastQueryResult, this`queryResults, this`resultCount, this`executionTime,
               this`resultExplanation, this`generatedSql, this`hasError, this`errorMessage
      ensures lastQueryResult == Some(result)
      ensures result.success ==>
        queryResults == result.data && resultCount == result.recordCount
        && executionTime == Some(result.executionTime)
        && resultExplanation == result.explanation && generatedSql == result.sqlQuery
        && hasError == old(hasError) && errorMessage == old(errorMessage)
      ensures !result.success ==>
        hasError && errorMessage == result.errorMessage
        && queryResults == [] && resultCount == 0 && executionTime == None
        && resultExplanation == old(resultExplanation) && generatedSql == old(generatedSql)
    {
      lastQueryResult := Some(result);
      if result.success {
        queryResults := [];
        var i := 0;
        while i < |result.data|
          invariant i <= |result.data|
          invariant queryResults == result.data[..i]
          modifies this`queryResults
        {
          queryResults := queryResults + [result.data[i]];
          i := i + 1;
        }
        resultCount := result.recordCount;
        executionTime := Some(result.executionTime);
        resultExplanation := result.explanation;
        generatedSql := result.sqlQuery;
        if selectedQueryType == Natural && !IsBlank(result.sqlQuery) {
          generatedSql := result.sqlQuery;
        }
      } else {
        HandleQueryError(result.errorMessage);
      }
    }

    /** The suggestion list refilled from a successful answer; kept as it
        was when the service throws. */
    method RefillSuggestions(answer: Outcome<seq<string>>)
      modifies this`suggestions
      ensures suggestions == if answer.Ok? then answer.value else old(suggestions)
    {
      if answer.Ok? {
        suggestions := [];
        for i := 0 to |answer.value|
          invariant suggestions == answer.value[..i]
        {
          suggestions := suggestions + [answer.value[i]];
        }
      }
    }

    /** `UpdateSuggestionsAsync`: suggestions for the current query. */
    method UpdateSuggestions() returns (calls: seq<ApiCall>)
      modifies this`suggestions
      ensures calls == [GetSuggestions(currentQuery)]
      ensures var answer := api.getQuerySuggestions(currentQuery);
        suggestions == if answer.Ok? then answer.value else old(suggestions)
    {
      calls := [GetSuggestions(currentQuery)];
      RefillSuggestions(api.getQuerySuggestions(currentQuery));
    }

    /** `LoadInitialSuggestionsAsync`: the general suggestions (empty context). */
    method LoadInitialSuggestions() returns (calls: seq<ApiCall>)
      modifies this`suggestions
      ensures calls == [GetSuggestions("")]
      ensures var answer := api.getQuerySuggestions("");
        suggestions == if answer.Ok? then answer.value else old(suggestions)
    {
      calls := [GetSuggestions("")];
      RefillSuggestions(api.getQuerySuggestions(""));
    }

    /** The query handed to the operation the selected mode names. */
    method Send(query: string) returns (outcome: Outcome<QueryResult>, calls: seq<ApiCall>)
      ensures outcome == Sent(api, selectedQueryType, query)
      ensures calls == [SentCall(selectedQueryType, query)]
    {
      if selectedQueryType == Natural {
        outcome := api.processNaturalLanguageQuery(query);
        calls := [ProcessNatural(query)];
      } else {
        outcome := api.executeSqlQuery(query);
        calls := [ExecuteSql(query)];
      }
    }

    /** The effect of `ExecuteQuery` once the service has answered (or
        thrown), with the error and the result area already reset. A thrown
        exception is handled as an error and nothing is recorded; a result is
        shown (as an error when it failed), recorded in the history, and
        followed by one call for new suggestions for the query. */
    twostate predicate Answered(new outcome: Outcome<QueryResult>, now: int, new calls: seq<ApiCall>)
      reads this`currentQuery, this`selectedQueryType, this`lastQueryResult, this`queryResults,
            this`resultCount, this`executionTime, this`resultExplanation, this`generatedSql,
            this`hasError, this`errorMessage, this`queryHistory, this`suggestions
    {
      match outcome
      case Fail(message) =>
        calls == []
        && hasError && errorMessage == message
        && queryResults == [] && resultCount == 0 && executionTime == None
        && lastQueryResult == old(lastQueryResult) && resultExplanation == old(resultExplanation)
        && generatedSql == old(generatedSql)
        && queryHistory == old(queryHistory) && suggestions == old(suggestions)
      case Ok(result) =>
        var answer := api.getQuerySuggestions(currentQuery);
        calls == [GetSuggestions(currentQuery)]
        && lastQueryResult == Some(result)
        && queryHistory == Pushed(old(queryHistory),
             QueryHistoryItem(currentQuery, selectedQueryType, now, result.success, result.recordCount, result.executionTime))
        && suggestions == (if answer.Ok? then answer.value else old(suggestions))
        && (result.success ==>
              !hasError && errorMessage == ""
              && queryResults == result.data && resultCount == result.recordCount
              && executionTime == Some(result.executionTime)
              && resultExplanation == result.explanation && generatedSql == result.sqlQuery)
        && (!result.success ==>
              hasError && errorMessage == result.errorMessage
              && queryResults == [] && resultCount == 0 && executionTime == None
              && resultExplanation == old(resultExplanation) && generatedSql == old(generatedSql))
    }

    /** The `try` block of `ExecuteQuery`: the error and the result area
        are reset and the query goes to the operation the mode selects. A
        thrown exception goes to `HandleQueryError`; a result is processed,
        added to the history, and the suggestions are updated. */
    method Run(now: int) returns (calls: seq<ApiCall>)
      modifies this`lastQueryResult, this`queryResults, this`resultCount, this`executionTime,
               this`resultExplanation, this`generatedSql, this`hasError, this`errorMessage,
               this`queryHistory, this`suggestions
      ensures |calls| >= 1 && calls[0] == SentCall(selectedQueryType, currentQuery)
      ensures Answered(Sent(api, selectedQueryType, currentQuery), now, calls[1..])
      ensures old(Valid()) ==> Valid()
    {
      hasError := false;
      errorMessage := "";
      queryResults := [];
      var outcome;
      outcome, calls := Send(currentQuery);
      match outcome {
        case Fail(message) =>
          HandleQueryError(message);
        case Ok(result) =>
          ProcessQueryResult(result);
          AddToHistory(currentQuery, result, now);
          var suggestionCalls := UpdateSuggestions();
          calls := calls + suggestionCalls;
      }
    }

    /** `ExecuteQuery`: nothing happens for a blank query. Otherwise the
        query runs as `Run` describes, with `IsProcessing` on meanwhile and
        off at the end. */
    method ExecuteQuery(now: int) returns (calls: seq<ApiCall>)
      modifies this`isProcessing, this`lastQueryResult, this`resultExplanation, this`generatedSql,
               this`resultCount, this`executionTime, this`hasError, this`errorMessage,
               this`queryHistory, this`suggestions, this`queryResults
      ensures IsBlank(currentQuery) ==> calls == [] && unchanged(this)
      ensures !IsBlank(currentQuery) ==>
        !isProcessing && |calls| >= 1 && calls[0] == SentCall(selectedQueryType, currentQuery)
        && Answered(Sent(api, selectedQueryType, currentQuery), now, calls[1..])
      ensures old(Valid()) ==> Valid()
    {
      calls := [];
      if IsBlank(currentQuery) {
        return;
      }
      isProcessing := true;
      calls := Run(now);
      isProcessing := false;
    }

    /** `ClearQuery`: the query, the error and the result area are reset;
        history, suggestions and mode are kept. */
    method ClearQuery()
      modifies this`currentQuery, this`hasError, this`errorMessage, this`queryResults,
               this`generatedSql, this`resultExplanation, this`resultCount, this`executionTime
      ensures currentQuery == "" && !hasError && errorMessage == ""
      ensures queryResults == [] && generatedSql == "" && resultExplanation == ""
      ensures resultCount == 0 && executionTime == None
    {
      currentQuery := "";
      hasError := false;
      errorMessage := "";
      queryResults := [];
      generatedSql := "";
      resultExplanation := "";
      resultCount := 0;
      executionTime := None;
    }

    /** `UseSuggestion`: a non-blank suggestion becomes the query. */
    method UseSuggestion(suggestion: string)
      modifies this`currentQuery
      ensures currentQuery == if IsBlank(suggestion) then old(currentQuery) else suggestion
    {
      if !IsBlank(suggestion) {
        currentQuery := suggestion;
      }
    }

    /** `ReuseHistoryQuery`: a history item (not null) gives back its query
        and its mode. */
    method ReuseHistoryQuery(historyItem: Option<QueryHistoryItem>)
      modifies this`currentQuery, this`selectedQueryType
      ensures historyItem.None? ==> currentQuery == old(currentQuery) && selectedQueryType == old(selectedQueryType)
      ensures historyItem.Some? ==>
        currentQuery == historyItem.value.query && selectedQueryType == historyItem.value.queryType
    {
      if historyItem.Some? {
        currentQuery := historyItem.value.query;
        selectedQueryType := historyItem.value.queryType;
      }
    }

    /** `ChangeQueryType`. */
    method ChangeQueryType(queryType: QueryType)
      modifies this`selectedQueryType
      ensures selectedQueryType == queryType
    {
      selectedQueryType := queryType;
    }
  }
}
