# EnterpriseKnowledgeHub core in Dafny

EnterpriseKnowledgeHub is a WPF desktop application over a Sage 200 purchasing
database. It has three tables of receipts ("albaranes"), suppliers
("proveedores") and articles ("artículos"). A user asks questions in Spanish
or in SQL. A local Ollama model server turns the questions into SQL,
explains the results and suggests further questions. This project models
the application's core:

- **`OllamaService`** (`ollama.dfy`). One HTTP exchange per call. The
  exchange is a parameter (`Reply`). What the service makes of it is
  modelled branch by branch, with ordinal string comparisons:
  - the `response` field, or its placeholder when the field is missing;
  - the fixed text each public operation returns when the exchange fails;
  - the suggestion lines;
  - the `inSqlBlock` scan of `CleanSqlResponse`, as a loop proved against
    a specification function (`Block`/`CleanSql`).
- **`QueryService`** (`query_service.dfy`). The orchestration between the
  model server and the database. Its collaborators are a `Services` value.
  Each collaborator call returns a value or throws, and every operation also
  returns the trace of the calls it made. The contracts therefore say which
  calls happen, in which order and with which arguments. This covers:
  - the guard that keeps the generator's `-- Error` sentinel away from the
    database;
  - the inner and outer exception handlers;
  - the entity-name routing;
  - the suggestion context;
  - the summary.
- **`QueryInterfaceViewModel`** (`query_interface.dfy`). A class whose fields
  are the view model's observable properties. Its commands update them in
  place. The history is bounded to fifty entries, newest first.
- **`DatabaseExplorerViewModel`** (`database_explorer.dfy`). A class with
  paging (`Skip`/`Take`, a ceiling page count) and the table-name routing of
  its two `switch` statements. Its repository is an abstract value. The
  `Sage200` function builds it from the repository model, and lemmas carry
  the repository's guarantees through paging.
- **`Sage200Repository`** (`repository.dfy`). Each SQL statement becomes a
  pure function of the four tables (`Store`), built from the relational
  blocks in `relational.dfy`.

`text.dfy` gives the .NET string and LINQ operations the code relies on:

- `Trim`, `Split`, `Join`, `ToLower`, `Contains`, `StartsWith`;
- `Take`, `Skip`;
- `IsNullOrWhiteSpace`.

`models.dfy` holds the entity records. `wrappers.dfy` holds `Option` and
`Outcome`. `Outcome` is a value or the message of the exception that was
thrown.

The code behaves in some ways the application's own description does not
mention. The model follows the code:

- The explorer lists its third table as "Artículos", with an accent. Both
  `switch` statements match only the unaccented "articulos". Selecting that
  table therefore loads no articles, and searching it reloads the table
  instead of searching (`DatabaseExplorer.ArticlesTableRoutesNowhere`). The
  same name gets the generic question from `ExplainDatabaseEntityAsync`
  (`QueryService.AccentedArticlesNotRecognised`).
- `ExecuteSqlQueryAsync` is not exception-free. When the model call inside
  its `catch` throws, that exception leaves the method
  (`QueryService.ExecuteSqlQuery` returns `Fail`).
- The closing test of `CleanSqlResponse` looks for upper-case keywords
  only. A query written in lower case over several lines is cut after its
  first line (`OllamaService.CleanSqlLowerCaseQuery`).
- `DisplayText` appends "..." even when nothing was cut.
- A reply whose body has no `response` field gives the placeholder sentence
  "No se obtuvo respuesta del modelo.". It opens no query, so SQL
  generation returns it unchanged, and it passes the guard of
  `ProcessNaturalLanguageQueryAsync`: the sentence is sent to the database
  as a query (`QueryService.PlaceholderIsRun`). A field holding the JSON
  `null` gives the empty text instead, which the guard rejects
  (`QueryService.NullResponseIsNotRun`).

## Model

All source paths are relative to the repository root.

| member | source | states |
|---|---|---|
| OllamaService.SendRequestToOllama | EnterpriseKnowledgeHub/Services/OllamaService.cs:272-295 | fails exactly on a transport error, a non-success status (with the status in the message) or an unparsable body; a missing `response` field gives the placeholder answer, a JSON `null` one the empty text, any other is returned as is |
| OllamaService.AskQuestion | EnterpriseKnowledgeHub/Services/OllamaService.cs:40-68 | the answer when the exchange succeeds, the fixed apology when it fails |
| OllamaService.GenerateSqlQuery | EnterpriseKnowledgeHub/Services/OllamaService.cs:73-139 | the SQL extracted from the answer (`CleanSql`), or the `-- Error` sentinel when the exchange fails |
| OllamaService.ExplainData | EnterpriseKnowledgeHub/Services/OllamaService.cs:145-174 | the answer, or the fixed excuse when the exchange fails |
| OllamaService.GetQuerySuggestions | EnterpriseKnowledgeHub/Services/OllamaService.cs:179-207 | at most five entries; on success exactly the first five trimmed non-blank answer lines in order, each non-empty, trimmed and without a line break; on failure the one-entry fallback list |
| OllamaService.FailedExchange | EnterpriseKnowledgeHub/Services/OllamaService.cs:40-207 | a failed exchange makes each of the four public operations return its own fixed text |
| OllamaService.MissingResponseField | EnterpriseKnowledgeHub/Services/OllamaService.cs:294 | a body without `response` is not a failure: the placeholder is the answer, and SQL generation returns it unchanged |
| OllamaService.NullResponseField | EnterpriseKnowledgeHub/Services/OllamaService.cs:294 | a `response` field holding the JSON `null` is not a failure either: the answer and the generated SQL are the empty text |
| OllamaService.ProseIsItsOwnSql | EnterpriseKnowledgeHub/Services/OllamaService.cs:300-335 | a one-line answer whose first visible letter cannot start `SELECT` or `WITH` comes back unchanged |
| OllamaService.CleanSqlResponse | EnterpriseKnowledgeHub/Services/OllamaService.cs:300-335 | the line loop with its `inSqlBlock` flag returns `CleanSql(response)`: the lines from the first opening line through the first closing line from there, joined by `\n`, or the whole answer when no line opens |
| OllamaService.ScanBlock | EnterpriseKnowledgeHub/Services/OllamaService.cs:307-332 | the `foreach` collects exactly `Block(lines, opens, closes)`, for any pair of line tests |
| OllamaService.FirstWhereBefore | EnterpriseKnowledgeHub/Services/OllamaService.cs:307-332 | no line the scan passes over satisfies its test |
| OllamaService.FirstWhereIs | EnterpriseKnowledgeHub/Services/OllamaService.cs:307-332 | the scan's stopping line is the unique line that satisfies the test with none before it satisfying it |
| OllamaService.BlockClosed | EnterpriseKnowledgeHub/Services/OllamaService.cs:312-331 | the collected block is exactly the lines from the first opening line through the first closing line at or after it |
| OllamaService.BlockUnclosed | EnterpriseKnowledgeHub/Services/OllamaService.cs:312-331 | a block no line closes runs to the last line |
| OllamaService.ExtractWithoutBlock | EnterpriseKnowledgeHub/Services/OllamaService.cs:334 | an answer in which no line opens a query comes back unchanged |
| OllamaService.BlockOfBlock | EnterpriseKnowledgeHub/Services/OllamaService.cs:312-331 | a non-empty block starts with an opening line and is its own block |
| OllamaService.ExtractSplitsToBlock | EnterpriseKnowledgeHub/Services/OllamaService.cs:303-334 | splitting the extracted text again gives back the block (join/split round trip) |
| OllamaService.ExtractIdempotent | EnterpriseKnowledgeHub/Services/OllamaService.cs:300-335 | extracting twice equals extracting once, for any pair of line tests |
| OllamaService.CleanSqlIdempotent | EnterpriseKnowledgeHub/Services/OllamaService.cs:300-335 | `CleanSqlResponse` is idempotent |
| OllamaService.BlankLineDoesNotClose | EnterpriseKnowledgeHub/Services/OllamaService.cs:323-330 | a blank line never closes a query (the `Length > 0` test), so blank lines inside a query are kept |
| OllamaService.CleanSqlQueryBetweenProse | EnterpriseKnowledgeHub/Services/OllamaService.cs:300-335 | a one-line query between two lines of prose is extracted alone |
| OllamaService.CleanSqlLowerCaseQuery | EnterpriseKnowledgeHub/Services/OllamaService.cs:323-330 | a lower-case query is cut after its first line, because the closing test looks for upper-case keywords |
| QueryService.GeneratorSentinelIsNotRun | EnterpriseKnowledgeHub/Services/QueryService.cs:49 | the generator's failure sentinel never passes the guard, so a failed generation never reaches the database |
| QueryService.VisibleNonDashIsRun | EnterpriseKnowledgeHub/Services/QueryService.cs:49 | any text starting with a visible character other than `-` passes the guard |
| QueryService.NullResponseIsNotRun | EnterpriseKnowledgeHub/Services/QueryService.cs:49 | the empty SQL generated from a JSON `null` field is rejected by the guard |
| QueryService.PlaceholderIsRun | EnterpriseKnowledgeHub/Services/QueryService.cs:49 | the placeholder generated from a reply without the field passes the guard, so it is executed as SQL |
| QueryService.Executed | EnterpriseKnowledgeHub/Services/QueryService.cs:51-75 | the inner `try`: one execute call first and no other; rows, count and success recorded; the explainer called only for a non-empty result; the first call that throws ends the phase with its message and keeps the suggestions |
| QueryService.RunExecution | EnterpriseKnowledgeHub/Services/QueryService.cs:51-75 | the step-by-step field updates of the inner `try` produce exactly `Executed` |
| QueryService.ProcessNaturalLanguageQuery | EnterpriseKnowledgeHub/Services/QueryService.cs:35-109 | the first call is the generator; the database is called (second) iff the SQL passes the guard; `Success` iff no error message; the SQL is reported once generated; each of the three paths (generator throws, guard rejects, guard passes with or without a database error) gives its message, explanation and calls; a model failure while an error is reported reaches the outer handler |
| QueryService.ExecuteSqlQuery | EnterpriseKnowledgeHub/Services/QueryService.cs:114-165 | the query runs unguarded; a failure is reported with the exception's own message and the model's account of it; when that model call throws too, the method fails with that exception |
| QueryService.EntityTopic | EnterpriseKnowledgeHub/Services/QueryService.cs:174-188 | each fixed table question is chosen iff the lower-cased name is one of its aliases; no question iff it is none of them |
| QueryService.EntityPrompt | EnterpriseKnowledgeHub/Services/QueryService.cs:174-188 | a recognised name, in any letter case, selects its table's question; any other name gets the generic question, which contains the name |
| QueryService.ExplainDatabaseEntity | EnterpriseKnowledgeHub/Services/QueryService.cs:170-197 | one question to the model; its answer, or the apology, which contains the entity name |
| QueryService.EntityRoutingIgnoresCase | EnterpriseKnowledgeHub/Services/QueryService.cs:174 | two names that differ only in letter case are both recognised with the same table question, or both get the generic question |
| QueryService.UpperCaseLines | EnterpriseKnowledgeHub/Services/QueryService.cs:174-179 | "LINEAS" selects the receipt-lines question |
| QueryService.AccentedNameNotRecognised | EnterpriseKnowledgeHub/Services/QueryService.cs:174-188 | a name with an accented 'í' in fourth place is never recognised |
| QueryService.AccentedArticlesNotRecognised | EnterpriseKnowledgeHub/Services/QueryService.cs:174-188 | "Artículos" gets the generic question, not the articles question |
| QueryService.GetQuerySuggestions | EnterpriseKnowledgeHub/Services/QueryService.cs:202-227 | an empty context is replaced by one built from the statistics; the statistics are read iff the context is empty; the model's suggestions, or the five fixed questions when the statistics or the model fail |
| QueryService.GetDatabaseSummary | EnterpriseKnowledgeHub/Services/QueryService.cs:232-272 | statistics first; each failure point leaves the statistics read so far, the three fixed texts and the calls made up to it; on success the analysis, at most five clean insight lines and the general suggestions |
| QueryInterface.DisplayText | EnterpriseKnowledgeHub/ViewModels/QueryInterfaceViewModel.cs:403 | the query's first `min(50, length)` characters followed by "...", appended even when nothing was cut |
| QueryInterface.Pushed | EnterpriseKnowledgeHub/ViewModels/QueryInterfaceViewModel.cs:349-355 | the new item first, then the older items in order, at most fifty in all |
| QueryInterface.HistoryIsMostRecentFirst | EnterpriseKnowledgeHub/ViewModels/QueryInterfaceViewModel.cs:336-356 | after any run of queries the history is those queries newest first, then the older history, cut to fifty |
| QueryInterface.HistoryBounded | EnterpriseKnowledgeHub/ViewModels/QueryInterfaceViewModel.cs:352-355 | the history never exceeds fifty entries, whatever ran |
| QueryInterface.QueryInterfaceViewModel.constructor | EnterpriseKnowledgeHub/ViewModels/QueryInterfaceViewModel.cs:23-114 | empty query, texts and collections; natural-language mode; not processing; no error |
| QueryInterface.QueryInterfaceViewModel.AddToHistory | EnterpriseKnowledgeHub/ViewModels/QueryInterfaceViewModel.cs:336-356 | the insert-then-trim loop leaves exactly `Pushed(old history, item)` with the query, mode, clock, success, count and time; the history stays bounded |
| QueryInterface.QueryInterfaceViewModel.HandleQueryError | EnterpriseKnowledgeHub/ViewModels/QueryInterfaceViewModel.cs:324-331 | the error is shown and the count, time and rows are cleared; nothing else changes |
| QueryInterface.QueryInterfaceViewModel.ProcessQueryResult | EnterpriseKnowledgeHub/ViewModels/QueryInterfaceViewModel.cs:290-319 | the result is recorded; a successful one is copied in full (rows, count, time, explanation, SQL) and leaves the error as it was; a failed one is handled as an error and leaves explanation and SQL |
| QueryInterface.QueryInterfaceViewModel.RefillSuggestions | EnterpriseKnowledgeHub/ViewModels/QueryInterfaceViewModel.cs:365-376 | the suggestion list becomes exactly the answer, or stays as it was when the service throws |
| QueryInterface.QueryInterfaceViewModel.UpdateSuggestions | EnterpriseKnowledgeHub/ViewModels/QueryInterfaceViewModel.cs:361-377 | one call for suggestions about the current query, and the list refilled from its answer |
| QueryInterface.QueryInterfaceViewModel.LoadInitialSuggestions | EnterpriseKnowledgeHub/ViewModels/QueryInterfaceViewModel.cs:267-285 | one call with the empty context, and the list refilled from its answer |
| QueryInterface.QueryInterfaceViewModel.Send | EnterpriseKnowledgeHub/ViewModels/QueryInterfaceViewModel.cs:144-151 | the query goes to natural-language processing or to SQL execution, as the mode selects, in one call |
| QueryInterface.QueryInterfaceViewModel.Run | EnterpriseKnowledgeHub/ViewModels/QueryInterfaceViewModel.cs:132-164 | the `try` block: the first call is the mode's operation; a thrown exception is shown as an error and recorded nowhere; a result is shown, added to the history and followed by one suggestions call (`Answered`); the history stays bounded |
| QueryInterface.QueryInterfaceViewModel.ExecuteQuery | EnterpriseKnowledgeHub/ViewModels/QueryInterfaceViewModel.cs:123-174 | a blank query changes nothing and calls nothing; otherwise as `Run`, and processing is off at the end |
| QueryInterface.QueryInterfaceViewModel.ClearQuery | EnterpriseKnowledgeHub/ViewModels/QueryInterfaceViewModel.cs:180-190 | query, rows, explanation, SQL, count, time and error are reset; history and suggestions are kept |
| QueryInterface.QueryInterfaceViewModel.UseSuggestion | EnterpriseKnowledgeHub/ViewModels/QueryInterfaceViewModel.cs:196-203 | a non-blank suggestion becomes the query; a blank one changes nothing |
| QueryInterface.QueryInterfaceViewModel.ReuseHistoryQuery | EnterpriseKnowledgeHub/ViewModels/QueryInterfaceViewModel.cs:209-217 | a history item gives back its query and its mode; null changes nothing |
| QueryInterface.QueryInterfaceViewModel.ChangeQueryType | EnterpriseKnowledgeHub/ViewModels/QueryInterfaceViewModel.cs:254-258 | the mode becomes the given one and nothing else changes |
| DatabaseExplorer.TableListing | EnterpriseKnowledgeHub/ViewModels/DatabaseExplorerViewModel.cs:130-147 | each list is loaded iff the lower-cased name is one of its two labels; none otherwise |
| DatabaseExplorer.SearchListing | EnterpriseKnowledgeHub/ViewModels/DatabaseExplorerViewModel.cs:390-404 | a search happens iff the name is a supplier or article label; it fills the list a load would fill, never the receipts |
| DatabaseExplorer.RoutingIgnoresCase | EnterpriseKnowledgeHub/ViewModels/DatabaseExplorerViewModel.cs:130 | two table names that differ only in letter case load and search the same list |
| DatabaseExplorer.ReceiptsTableRoutes | EnterpriseKnowledgeHub/ViewModels/DatabaseExplorerViewModel.cs:259-264 | the first listed table loads the receipts and is never searched |
| DatabaseExplorer.SuppliersTableRoutes | EnterpriseKnowledgeHub/ViewModels/DatabaseExplorerViewModel.cs:259-264 | the second listed table loads and searches the suppliers |
| DatabaseExplorer.AccentedNameRoutesNowhere | EnterpriseKnowledgeHub/ViewModels/DatabaseExplorerViewModel.cs:130-147 | a name with 'í' in fourth place matches no case of either `switch` |
| DatabaseExplorer.ArticlesTableRoutesNowhere | EnterpriseKnowledgeHub/ViewModels/DatabaseExplorerViewModel.cs:263 | the listed "Artículos" table loads no list, and searching it reloads the table |
| DatabaseExplorer.PageCountIsCeiling | EnterpriseKnowledgeHub/ViewModels/DatabaseExplorerViewModel.cs:304 | the page count is the ceiling of count over page size: its pages hold every item, and one page fewer does not |
| DatabaseExplorer.PageIsSlice | EnterpriseKnowledgeHub/ViewModels/DatabaseExplorerViewModel.cs:294-296 | page `p` is the slice of at most `pageSize` items starting at `(p-1)*pageSize`, and empty past the end |
| DatabaseExplorer.ItemPageInRange | EnterpriseKnowledgeHub/ViewModels/DatabaseExplorerViewModel.cs:294-304 | every item's page, `i / pageSize + 1`, is between 1 and the page count |
| DatabaseExplorer.ItemOnItsPage | EnterpriseKnowledgeHub/ViewModels/DatabaseExplorerViewModel.cs:294-304 | every item appears on page `i / pageSize + 1` at offset `i % pageSize`, and that page is one of the counted pages |
| DatabaseExplorer.PagesUpToCountAreFilled | EnterpriseKnowledgeHub/ViewModels/DatabaseExplorerViewModel.cs:294-304 | every page from 1 to the page count holds at least one item |
| DatabaseExplorer.PagesPastCountAreEmpty | EnterpriseKnowledgeHub/ViewModels/DatabaseExplorerViewModel.cs:294-304 | every page past the page count is empty |
| DatabaseExplorer.TakeIsFirstPage | EnterpriseKnowledgeHub/ViewModels/DatabaseExplorerViewModel.cs:422 | a search's `Take(PageSize)` is page 1 |
| DatabaseExplorer.ReceiptPagesNewestFirst | EnterpriseKnowledgeHub/ViewModels/DatabaseExplorerViewModel.cs:286-313 | over the repository model, every page of receipts is newest first and the page count covers every receipt in the table |
| DatabaseExplorer.ListedSuppliersAreActive | EnterpriseKnowledgeHub/ViewModels/DatabaseExplorerViewModel.cs:318-344 | over the repository model, a listed supplier is an active row of the supplier table |
| DatabaseExplorer.ListedArticlesAreActive | EnterpriseKnowledgeHub/ViewModels/DatabaseExplorerViewModel.cs:349-375 | over the repository model, a listed article is an active row of the article table |
| DatabaseExplorer.SearchedRowsMatch | EnterpriseKnowledgeHub/ViewModels/DatabaseExplorerViewModel.cs:415-456 | over the repository model, a shown supplier is active and its name contains the filter; a shown article is active and its description or extended description contains it |
| DatabaseExplorer.DatabaseExplorerViewModel.constructor | EnterpriseKnowledgeHub/ViewModels/DatabaseExplorerViewModel.cs:25-106 | no tables or rows; page 1 of 1; pages of fifty; not loading |
| DatabaseExplorer.DatabaseExplorerViewModel.LoadAlbaranes | EnterpriseKnowledgeHub/ViewModels/DatabaseExplorerViewModel.cs:286-313 | the list becomes the current page of all receipts and the page count is recomputed from all of them; when the repository throws, the list is empty and the count kept |
| DatabaseExplorer.DatabaseExplorerViewModel.LoadProveedores | EnterpriseKnowledgeHub/ViewModels/DatabaseExplorerViewModel.cs:318-344 | the same for the active suppliers |
| DatabaseExplorer.DatabaseExplorerViewModel.LoadArticulos | EnterpriseKnowledgeHub/ViewModels/DatabaseExplorerViewModel.cs:349-375 | the same for the active articles |
| DatabaseExplorer.DatabaseExplorerViewModel.LoadTableData | EnterpriseKnowledgeHub/ViewModels/DatabaseExplorerViewModel.cs:116-160 | null changes nothing; otherwise the table is selected and its explanation shown, or the error text with no list loaded; the list its name routes to is reloaded with the current page; the other lists are kept; loading is off |
| DatabaseExplorer.DatabaseExplorerViewModel.SearchProveedores | EnterpriseKnowledgeHub/ViewModels/DatabaseExplorerViewModel.cs:415-433 | the list becomes page 1 of the matching suppliers; the page count is taken from all of them |
| DatabaseExplorer.DatabaseExplorerViewModel.SearchArticulos | EnterpriseKnowledgeHub/ViewModels/DatabaseExplorerViewModel.cs:438-456 | the list becomes page 1 of the matching articles; the page count is taken from all of them |
| DatabaseExplorer.DatabaseExplorerViewModel.ApplySearchFilter | EnterpriseKnowledgeHub/ViewModels/DatabaseExplorerViewModel.cs:380-410 | a blank filter, no table or an unrouted table reloads the selected table; a supplier or article table is searched, and nothing else changes |
| DatabaseExplorer.DatabaseExplorerViewModel.SearchTable | EnterpriseKnowledgeHub/ViewModels/DatabaseExplorerViewModel.cs:166-187 | without a selected table nothing changes; otherwise the filter is applied as above and loading is off at the end |
| DatabaseExplorer.DatabaseExplorerViewModel.ClearSearch | EnterpriseKnowledgeHub/ViewModels/DatabaseExplorerViewModel.cs:193-198 | the filter is emptied, page 1 is selected and the selected table is reloaded |
| DatabaseExplorer.DatabaseExplorerViewModel.PreviousPage | EnterpriseKnowledgeHub/ViewModels/DatabaseExplorerViewModel.cs:204-211 | after page 1, the page before is selected and the table reloaded; on page 1 nothing changes; pages stay from 1 |
| DatabaseExplorer.DatabaseExplorerViewModel.NextPage | EnterpriseKnowledgeHub/ViewModels/DatabaseExplorerViewModel.cs:217-224 | before the last page, the next page is selected and the table reloaded; otherwise nothing changes |
| DatabaseExplorer.DatabaseExplorerViewModel.RefreshData | EnterpriseKnowledgeHub/ViewModels/DatabaseExplorerViewModel.cs:230-233 | the selected table is reloaded |
| DatabaseExplorer.DatabaseExplorerViewModel.ListTables | EnterpriseKnowledgeHub/ViewModels/DatabaseExplorerViewModel.cs:256-269 | the cleared list ends up holding exactly the given tables in order |
| DatabaseExplorer.DatabaseExplorerViewModel.LoadDatabaseStructure | EnterpriseKnowledgeHub/ViewModels/DatabaseExplorerViewModel.cs:252-281 | the three tables are listed in order and the first one is loaded |
| Relational.Filter | EnterpriseKnowledgeHub/Data/Sage200Repository.cs:249 | `WHERE`: a row is kept iff it satisfies the condition, with its multiplicity, and nothing is added |
| Relational.SingleOrDefault | EnterpriseKnowledgeHub/Data/Sage200Repository.cs:86-87 | no row gives null; one row gives it; more than one throws |
| Relational.Sort | EnterpriseKnowledgeHub/Data/Sage200Repository.cs:53 | an ordered permutation of the rows |
| Relational.ArgMax | EnterpriseKnowledgeHub/Data/Sage200Repository.cs:491-496 | `TOP 1 ... ORDER BY ... DESC`: the index of a row of highest score |
| Sage200Repository.Query | EnterpriseKnowledgeHub/Data/Sage200Repository.cs:55-66 | a connection or execution failure is rethrown with its message; otherwise the query's value |
| Sage200Repository.GetAlbaranesProveedor | EnterpriseKnowledgeHub/Data/Sage200Repository.cs:36-66 | every header exactly once, newest first |
| Sage200Repository.GetAlbaranProveedorById | EnterpriseKnowledgeHub/Data/Sage200Repository.cs:72-102 | null iff no header has the id; throws iff several have it; otherwise that header, with its lines attached |
| Sage200Repository.GetAlbaranesByProveedor | EnterpriseKnowledgeHub/Data/Sage200Repository.cs:108-132 | exactly the supplier's headers, newest first |
| Sage200Repository.GetAlbaranesByFecha | EnterpriseKnowledgeHub/Data/Sage200Repository.cs:139-163 | exactly the headers dated within both inclusive ends, newest first; none for an inverted range |
| Sage200Repository.GetLineasAlbaran | EnterpriseKnowledgeHub/Data/Sage200Repository.cs:174-198 | exactly the header's lines, by line number |
| Sage200Repository.JoinedLines | EnterpriseKnowledgeHub/Data/Sage200Repository.cs:212-214 | the inner join: a line of the article paired with the date of each header it belongs to |
| Sage200Repository.SortedJoinedLines | EnterpriseKnowledgeHub/Data/Sage200Repository.cs:215 | the joined rows ordered newest header first, then by line number |
| Sage200Repository.GetLineasByArticulo | EnterpriseKnowledgeHub/Data/Sage200Repository.cs:205-230 | exactly the article's lines whose header exists, in the joined order |
| Sage200Repository.GetProveedores | EnterpriseKnowledgeHub/Data/Sage200Repository.cs:241-262 | exactly the active suppliers, with their multiplicity |
| Sage200Repository.GetProveedorByCodigo | EnterpriseKnowledgeHub/Data/Sage200Repository.cs:269-291 | null iff no supplier has the code; throws iff several have it; inactive suppliers are found too |
| Sage200Repository.BuscarProveedoresByNombre | EnterpriseKnowledgeHub/Data/Sage200Repository.cs:298-322 | exactly the active suppliers whose name contains the text |
| Sage200Repository.GetArticulos | EnterpriseKnowledgeHub/Data/Sage200Repository.cs:333-355 | exactly the active articles, with their multiplicity |
| Sage200Repository.GetArticuloByCodigo | EnterpriseKnowledgeHub/Data/Sage200Repository.cs:362-385 | null iff no article has the code; throws iff several have it; inactive articles are found too |
| Sage200Repository.BuscarArticulosByDescripcion | EnterpriseKnowledgeHub/Data/Sage200Repository.cs:392-418 | exactly the active articles whose description or non-null extended description contains the text |
| Sage200Repository.GetArticulosByCategoria | EnterpriseKnowledgeHub/Data/Sage200Repository.cs:425-450 | exactly the active articles of that (non-null) category |
| Sage200Repository.LatestFecha | EnterpriseKnowledgeHub/Data/Sage200Repository.cs:490 | `MAX(FechaAlbaran)`: null iff there is no header, otherwise the date of a header and no header is later |
| Sage200Repository.MostActiveSupplier | EnterpriseKnowledgeHub/Data/Sage200Repository.cs:491-493 | null iff there is no header, otherwise the name of a supplier group no other group outnumbers |
| Sage200Repository.MostMovedArticle | EnterpriseKnowledgeHub/Data/Sage200Repository.cs:494-496 | null iff there is no line, otherwise the description of an article group no other group exceeds in quantity |
| Sage200Repository.TotalImporteAppend | EnterpriseKnowledgeHub/Data/Sage200Repository.cs:489 | `SUM(ImporteTotal)` is additive: the sum over two runs of headers is the sum of their sums |
| Sage200Repository.GetDatabaseStatistics | EnterpriseKnowledgeHub/Data/Sage200Repository.cs:481-509 | the counts of headers, lines, active suppliers and active articles; the total is `SUM(ImporteTotal)`, 0 for no header; the latest date is absent for no header and otherwise a header's date no header exceeds; the most active supplier is the name of a largest group and the most moved article the description of a group of largest quantity, each empty when its table is empty |
| Text.TrimShape | EnterpriseKnowledgeHub/Services/OllamaService.cs:309 | `Trim` is empty iff the text is blank, and otherwise starts and ends with a non-whitespace character |
| Text.TrimIdempotent | EnterpriseKnowledgeHub/Services/OllamaService.cs:309 | trimming twice equals trimming once |
| Text.SplitJoin | EnterpriseKnowledgeHub/Services/OllamaService.cs:334 | splitting a join of separator-free pieces gives the pieces back |
| Text.JoinSplit | EnterpriseKnowledgeHub/Services/OllamaService.cs:303 | joining the pieces of a split restores the text |
| Text.TrimmedLines | EnterpriseKnowledgeHub/Services/OllamaService.cs:194-197 | the split-filter-trim-take chain: at most `count` entries, each non-empty, trimmed and without a line break, in line order |
| Text.ToLowerIdempotent | EnterpriseKnowledgeHub/Services/QueryService.cs:174 | lower-casing twice equals lower-casing once |
| Text.SameUpToCaseLowersEqual | EnterpriseKnowledgeHub/Services/QueryService.cs:174 | texts that differ only in letter case lower-case to the same text |

## Left out

- HTTP, JSON and prompts. The HTTP transport, the JSON request body, and
  the wording of the prompts sent to the model are not modelled. The same
  holds for the fixed wording of the five table questions and the insights
  question. Each exchange is a `Reply` parameter.
- `IsServiceAvailableAsync`, `GetModelInfoAsync`, `Dispose`: they only
  probe the server or release the client, and no core operation uses them.
- `ExecuteCustomQueryAsync` is an oracle (`Services.execute`). Arbitrary
  SQL is not interpreted.
- The JSON serialization of rows and statistics is a parameter.
- Connections, logging and the `DatabaseConnectionService` are not part of
  this model. A failure is an `Outcome` carrying the exception's message.
- Clocks are parameters: the stopwatch reading (`elapsed`) and the history
  timestamp (`now`). The `F2` millisecond formatting of the execution time
  is replaced by the millisecond count itself.
- Asynchrony is not modelled. Each `await` is a sequential call. The
  constructors' fire-and-forget loads (`LoadInitialSuggestionsAsync`,
  `LoadDatabaseStructureAsync`) are separate methods that a caller invokes
  after construction.
- The WPF views, the commands' `CanExecute` wiring, `ShowQueryHelp`,
  `ExportResults` and `ExportToCSV` are left out. They only show dialogs or
  messages.
- `MainWindowViewModel` and the value converters are not part of this
  model.
- Sage200Repository.GetProveedores: the SQL orders by `Nombre` under the
  database's collation, and the model does not state that order. The
  result is in table order, and the contracts state membership and
  multiplicity only. The same holds for the other supplier and article
  lists.
- Sage200Repository.GetAlbaranesProveedor: rows with equal dates come out
  in table order (a stable sort). The database leaves their order
  unspecified.
- Sage200Repository.MostActiveSupplier: a tie between groups picks the
  first row of highest score. `TOP 1` leaves the tie-break to the database.
  MostMovedArticle is treated the same way.
- Sage200Repository.BuscarProveedoresByNombre: `LIKE` is modelled as an
  ordinal, case-sensitive `Contains`. The database's collation is usually
  case-insensitive, and `%`/`_` inside the filter are taken literally. The
  same holds for `BuscarArticulosByDescripcion`.
- Sage200Repository.GetDatabaseStatistics: amounts are `real`. SQL
  `decimal` precision and rounding are not modelled.
- Text.ToLower: lower-cases ASCII and Latin-1 letters only. Culture-specific
  mappings beyond Latin-1 are not modelled.
- Text.StartsWithIgnoreCase: case folding is ASCII-only, which is enough
  for the `SELECT`/`WITH` prefixes it is used with.
- Null strings are not modelled. The code's null checks appear only where
  a value can be absent (`Option`), as with a null history item or a null
  table. A `response` field holding the JSON `null` reads as the empty
  text, as converting that token to a string does.
- Integer overflow is not modelled. This covers `(CurrentPage - 1) *
  PageSize`, the `Count()` of a result, and the `(int)Math.Ceiling` of a
  double. Integers are unbounded, and the page count is the exact integer
  ceiling.
- DatabaseExplorer.DatabaseExplorerViewModel.LoadTableData: requires
  `Valid()`, meaning a positive page size and a page of at least 1. The
  source starts at 50 and 1, and the page never drops below 1: it is only
  decremented from a page above 1 and reset to 1. The page can exceed the
  page count, since every load or search recomputes the count and keeps
  the page. Its page size is settable only from the UI binding, and a zero
  page size is not modelled. The other explorer commands carry the same
  requirement.
- The explorer's `catch` blocks around the table loads and searches are
  modelled as the repository or the explanation call returning `Fail`.
  With the `QueryService` of this model, `ExplainDatabaseEntityAsync` never
  throws. The error text therefore appears only with other implementations
  of the interface.
- QueryService.GetDatabaseSummary: `GetQuerySuggestionsAsync` is modelled
  as it behaves here. It catches its own failures, so the summary's final
  step cannot fail.
- OllamaService.ClosesTrimmed: `EndsWith(";")` is modelled as an ordinal
  comparison. The source's overload is culture-sensitive and skips
  ignorable code points such as U+200B, so a line ending in `;` followed
  by such a character closes a query in the source but not in the model.
- QueryService.RunnableSql: `StartsWith("-- Error")` is modelled as an
  ordinal comparison. The source's culture-sensitive overload also rejects
  a text that starts with ignorable code points (U+00AD, say) before
  `-- Error`; the model lets such a text through to the database.
- QueryInterface.DisplayText: lengths and the cut count Unicode scalar
  values. `Length` and `Substring` count UTF-16 code units, so a query
  holding characters outside the Basic Multilingual Plane (an emoji) is
  cut at a different place.
- Sage200Repository.NameOrEmpty: a NULL name column is read as the empty
  text, as the mapper leaves the property at its `string.Empty`
  initializer; a stored empty name is not told apart from it.
