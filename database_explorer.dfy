/** `DatabaseExplorerViewModel`: the table browser. Its observable properties
    are the fields of a class that the commands update in place. The
    repository behind it is the `Sage200Repository` model over a database
    that either answers (`Ok(store)`) or throws (`Fail(message)`); the query
    service's explanation call is a parameter that returns a text or throws. */
module DatabaseExplorer {
  import opened Wrappers
  import opened Text
  import opened Models
  import opened Sage200Repository

  /** `DatabaseTable`: a table the explorer lists. */
  datatype DatabaseTable = DatabaseTable(name: string, description: string, icon: string)

  /** The tables `LoadDatabaseStructureAsync` lists, in order. */
  const StructureTables: seq<DatabaseTable> := [
    DatabaseTable("Albaranes", "Cabeceras de albaranes de proveedores", "\U{1F4CB}"),
    DatabaseTable("Proveedores", "Información de proveedores", "\U{1F3E2}"),
    DatabaseTable("Artículos", "Catálogo de artículos/productos", "\U{1F4E6}")
  ]

  /** The page size a new explorer starts with. */
  const DefaultPageSize := 50

  /** The explanation shown when loading a table throws. */
  const LoadErrorText := "Error al cargar la explicación de la tabla."

  // ---------------------------------------------------------------------------
  // Routing a table name to a listing
  // ---------------------------------------------------------------------------

  /** The three lists the explorer can fill. */
  datatype Listing = Receipts | Suppliers | Articles

  /** The `switch` of `LoadTableData` on the lower-cased table name: which
      list it loads, if any. */
  function TableListing(lowered: string): (r: Option<Listing>)
    ensures r == Some(Receipts) <==> lowered in {"albaranes", "cabeceraalbaran"}
    ensures r == Some(Suppliers) <==> lowered in {"proveedores", "proveedor"}
    ensures r == Some(Articles) <==> lowered in {"articulos", "articulo"}
    ensures r.None? <==> lowered !in {"albaranes", "cabeceraalbaran", "proveedores", "proveedor", "articulos", "articulo"}
  {
    if lowered == "albaranes" || lowered == "cabeceraalbaran" then Some(Receipts)
    else if lowered == "proveedores" || lowered == "proveedor" then Some(Suppliers)
    else if lowered == "articulos" || lowered == "articulo" then Some(Articles)
    else None
  }

  /** The `switch` of `ApplySearchFilterAsync`: which list a search fills;
      `None` means the table is reloaded instead. Receipts are never
      searched, and a searched list is the one a load would fill. */
  function SearchListing(lowered: string): (r: Option<Listing>)
    ensures r.Some? <==> lowered in {"proveedores", "proveedor", "articulos", "articulo"}
    ensures r.Some? ==> r == TableListing(lowered) && r != Some(Receipts)
  {
    if lowered == "proveedores" || lowered == "proveedor" then Some(Suppliers)
    else if lowered == "articulos" || lowered == "articulo" then Some(Articles)
    else None
  }

  /** The routing ignores the case of the table name: two names that differ
      only in letter case load and search the same list. */
  lemma RoutingIgnoresCase(name: string, other: string)
    requires SameUpToCase(name, other)
    ensures TableListing(ToLower(name)) == TableListing(ToLower(other))
    ensures SearchListing(ToLower(name)) == SearchListing(ToLower(other))
  {
    SameUpToCaseLowersEqual(name, other);
  }

  /** Lower-casing a capitalised ASCII word lowers its first letter only. */
  lemma LowerCapitalised(name: string, lowered: string)
    requires |name| == |lowered| > 0 && 'A' <= name[0] <= 'Z' && lowered[0] == (name[0] as int + 32) as char
    requires forall k :: 1 <= k < |name| ==> 'a' <= name[k] <= 'z' && lowered[k] == name[k]
    ensures ToLower(name) == lowered
  {
  }

  /** The first listed table, "Albaranes", loads the receipts and is not
      searched. */
  lemma ReceiptsTableRoutes()
    ensures TableListing(ToLower(StructureTables[0].name)) == Some(Receipts)
    ensures SearchListing(ToLower(StructureTables[0].name)) == None
  {
    LowerCapitalised("Albaranes", "albaranes");
  }

  /** The second listed table, "Proveedores", loads and searches suppliers. */
  lemma SuppliersTableRoutes()
    ensures TableListing(ToLower(StructureTables[1].name)) == Some(Suppliers)
    ensures SearchListing(ToLower(StructureTables[1].name)) == Some(Suppliers)
  {
    LowerCapitalised("Proveedores", "proveedores");
  }

  /** Every case label is unaccented, with a plain letter in fourth place: a
      lower-cased name with an accented 'í' there matches none. */
  lemma AccentedFourthLetterMatchesNothing(lowered: string)
    requires |lowered| > 3 && lowered[3] == 'í'
    ensures TableListing(lowered) == None && SearchListing(lowered) == None
  {
  }

  /** Lower-casing keeps the 'í', so a table name with 'í' in fourth place
      routes nowhere. */
  lemma AccentedNameRoutesNowhere(name: string)
    requires |name| > 3 && name[3] == 'í'
    ensures TableListing(ToLower(name)) == None && SearchListing(ToLower(name)) == None
  {
    assert ToLower(name)[3] == 'í';
    AccentedFourthLetterMatchesNothing(ToLower(name));
  }

  /** The third listed table is spelt with an accent, "Artículos", which no
      case of either `switch` matches: selecting it loads no list and
      searching it reloads the table rather than searching the articles. */
  lemma ArticlesTableRoutesNowhere()
    ensures TableListing(ToLower(StructureTables[2].name)) == None
    ensures SearchListing(ToLower(StructureTables[2].name)) == None
  {
    AccentedNameRoutesNowhere(StructureTables[2].name);
  }

  // ---------------------------------------------------------------------------
  // Paging
  // ---------------------------------------------------------------------------

  /** `(int)Math.Ceiling((double)count / pageSize)` for a positive page
      size. */
  function PageCount(count: nat, pageSize: int): nat
    requires pageSize > 0
  {
    (count + pageSize - 1) / pageSize
  }

  /** The page count is the ceiling of the quotient: the fewest pages of
      `pageSize` items that hold `count` items (0 for none). */
  lemma PageCountIsCeiling(count: nat, pageSize: int)
    requires pageSize > 0
    ensures PageCount(count, pageSize) * pageSize >= count
    ensures (PageCount(count, pageSize) - 1) * pageSize < count
  {
    var q := (count + pageSize - 1) / pageSize;
    var m := (count + pageSize - 1) % pageSize;
    assert q * pageSize + m == count + pageSize - 1 && 0 <= m < pageSize;
  }

  /** `Skip((page - 1) * pageSize).Take(pageSize)`: the items of page `page`,
      counted from 1. */
  function Page<T>(items: seq<T>, page: int, pageSize: int): seq<T>
    requires page >= 1 && pageSize > 0
  {
    Take(Skip(items, (page - 1) * pageSize), pageSize)
  }

  /** Page `page` is the slice of at most `pageSize` items that starts after
      the items of the pages before it, and empty past the end. */
  lemma PageIsSlice<T>(items: seq<T>, page: int, pageSize: int)
    requires page >= 1 && pageSize > 0
    ensures var first := (page - 1) * pageSize;
      first >= 0
      && (first >= |items| ==> Page(items, page, pageSize) == [])
      && (first < |items| ==> Page(items, page, pageSize) == items[first..Min(first + pageSize, |items|)])
  {
    MulMonotone(0, page - 1, pageSize);
  }

  lemma MulMonotone(a: int, b: int, d: int)
    requires a <= b && d > 0
    ensures a * d <= b * d
  {
    assert b * d - a * d == (b - a) * d;
  }

  lemma DivMod(i: int, d: int)
    requires d > 0
    ensures i == (i / d) * d + i % d && 0 <= i % d < d
  {
  }

  /** The page of item `i`, `i / pageSize + 1`, is one of the `PageCount`
      pages. */
  lemma ItemPageInRange(count: nat, i: int, pageSize: int)
    requires 0 <= i < count && pageSize > 0
    ensures 1 <= i / pageSize + 1 <= PageCount(count, pageSize)
  {
    var q, r := i / pageSize, PageCount(count, pageSize);
    DivMod(i, pageSize);
    PageCountIsCeiling(count, pageSize);
    if r < q + 1 {
      MulMonotone(r, q, pageSize);
      assert false;
    }
  }

  /** Every item lies on page `i / pageSize + 1`, at offset `i % pageSize`,
      and that page is one of the `PageCount` pages. */
  lemma ItemOnItsPage<T>(items: seq<T>, i: int, pageSize: int)
    requires 0 <= i < |items| && pageSize > 0
    ensures var p := i / pageSize + 1;
      1 <= p <= PageCount(|items|, pageSize)
      && i % pageSize < |Page(items, p, pageSize)|
      && Page(items, p, pageSize)[i % pageSize] == items[i]
  {
    ItemPageInRange(|items|, i, pageSize);
    var q, m := i / pageSize, i % pageSize;
    DivMod(i, pageSize);
    var first := q * pageSize;
    assert first + m == i;
    PageIsSlice(items, q + 1, pageSize);
    assert (q + 1 - 1) * pageSize == first;
    var page := Page(items, q + 1, pageSize);
    assert page == items[first..Min(first + pageSize, |items|)];
    assert page[m] == items[first + m];
  }

  /** Every page from 1 to `PageCount` holds at least one item. */
  lemma PagesUpToCountAreFilled<T>(items: seq<T>, page: int, pageSize: int)
    requires pageSize > 0 && 1 <= page <= PageCount(|items|, pageSize)
    ensures |Page(items, page, pageSize)| > 0
  {
    PageCountIsCeiling(|items|, pageSize);
    MulMonotone(page - 1, PageCount(|items|, pageSize) - 1, pageSize);
    PageIsSlice(items, page, pageSize);
  }

  /** Every page past `PageCount` is empty. */
  lemma PagesPastCountAreEmpty<T>(items: seq<T>, page: int, pageSize: int)
    requires pageSize > 0 && page > PageCount(|items|, pageSize) && page >= 1
    ensures Page(items, page, pageSize) == []
  {
    PageCountIsCeiling(|items|, pageSize);
    MulMonotone(PageCount(|items|, pageSize), page - 1, pageSize);
    PageIsSlice(items, page, pageSize);
  }

  /** `Take(pageSize)`, as the searches show their matches, is the first page. */
  lemma TakeIsFirstPage<T>(items: seq<T>, pageSize: int)
    requires pageSize > 0
    ensures Take(items, pageSize) == Page(items, 1, pageSize)
  {
  }

  /** A list after a load or search of page `page`: that page of the fetched
      rows, or empty when the fetch threw (the list is cleared first). */
  function Loaded<T>(fetched: Outcome<seq<T>>, page: int, pageSize: int): seq<T>
    requires page >= 1 && pageSize > 0
  {
    if fetched.Ok? then Page(fetched.value, page, pageSize) else []
  }

  /** The page count after a load or search: from all the fetched rows, or
      kept when the fetch threw. */
  function PagesAfter<T>(fetched: Outcome<seq<T>>, pageSize: int, before: int): int
    requires pageSize > 0
  {
    if fetched.Ok? then PageCount(|fetched.value|, pageSize) else before
  }

  // ---------------------------------------------------------------------------
  // The repository behind the explorer
  // ---------------------------------------------------------------------------

  /** The `ISage200Repository` operations the explorer calls; each returns
      its rows or throws. */
  datatype Repository = Repository(
    albaranes: Outcome<seq<HeaderRow>>,
    proveedores: Outcome<seq<Proveedor>>,
    articulos: Outcome<seq<Articulo>>,
    buscarProveedores: string -> Outcome<seq<Proveedor>>,
    buscarArticulos: string -> Outcome<seq<Articulo>>)

  /** `Sage200Repository` over a database that answers or throws. */
  function Sage200(db: Outcome<Store>): Repository
  {
    Repository(
      Query(db, GetAlbaranesProveedor),
      Query(db, GetProveedores),
      Query(db, GetArticulos),
      (filter: string) => Query(db, (s: Store) => BuscarProveedoresByNombre(s, filter)),
      (filter: string) => Query(db, (s: Store) => BuscarArticulosByDescripcion(s, filter)))
  }

  /** Over `Sage200Repository`, every page of receipts is newest first, and
      the page count covers every receipt in the table. */
  lemma ReceiptPagesNewestFirst(db: Outcome<Store>, page: int, pageSize: int, before: int)
    requires page >= 1 && pageSize > 0
    ensures NewestFirst(Loaded(Sage200(db).albaranes, page, pageSize))
    ensures db.Ok? ==> PagesAfter(Sage200(db).albaranes, pageSize, before) == PageCount(|db.value.cabeceras|, pageSize)
  {
    if db.Ok? {
      var all := GetAlbaranesProveedor(db.value);
      assert |all| == |multiset(all)| == |multiset(db.value.cabeceras)| == |db.value.cabeceras|;
      PageIsSlice(all, page, pageSize);
    }
  }

  /** Over `Sage200Repository`, a listed supplier is an active row of the
      supplier table. */
  lemma ListedSuppliersAreActive(db: Outcome<Store>, page: int, pageSize: int)
    requires page >= 1 && pageSize > 0
    ensures forall p :: p in Loaded(Sage200(db).proveedores, page, pageSize) ==>
      db.Ok? && p in db.value.proveedores && p.activo
  {
    if db.Ok? {
      var all := GetProveedores(db.value);
      PageIsSlice(all, page, pageSize);
      forall p | p in Loaded(Sage200(db).proveedores, page, pageSize)
        ensures p in all
      {
      }
    }
  }

  /** Over `Sage200Repository`, a listed article is an active row of the
      article table. */
  lemma ListedArticlesAreActive(db: Outcome<Store>, page: int, pageSize: int)
    requires page >= 1 && pageSize > 0
    ensures forall a :: a in Loaded(Sage200(db).articulos, page, pageSize) ==>
      db.Ok? && a in db.value.articulos && a.activo
  {
    if db.Ok? {
      var all := GetArticulos(db.value);
      PageIsSlice(all, page, pageSize);
      forall a | a in Loaded(Sage200(db).articulos, page, pageSize)
        ensures a in all
      {
      }
    }
  }

  /** Over `Sage200Repository`, a supplier a search shows is active and its
      name contains the filter; an article shown is active and its
      description (or extended description) contains the filter. */
  lemma SearchedRowsMatch(db: Outcome<Store>, filter: string, pageSize: int)
    requires pageSize > 0
    ensures forall p :: p in Loaded(Sage200(db).buscarProveedores(filter), 1, pageSize) ==>
      db.Ok? && p in db.value.proveedores && p.activo && Contains(p.nombre, filter)
    ensures forall a :: a in Loaded(Sage200(db).buscarArticulos(filter), 1, pageSize) ==>
      db.Ok? && a in db.value.articulos && a.activo && DescriptionMatches(a, filter)
  {
    if db.Ok? {
      PageIsSlice(BuscarProveedoresByNombre(db.value, filter), 1, pageSize);
      PageIsSlice(BuscarArticulosByDescripcion(db.value, filter), 1, pageSize);
    }
  }

  // ---------------------------------------------------------------------------
  // The view model
  // ---------------------------------------------------------------------------

  /** The explorer's observable properties, one field each; collections are
      sequences the commands reassign. `repository` is `ISage200Repository`
      and `explain` is `IQueryService.ExplainDatabaseEntityAsync`. */
  class DatabaseExplorerViewModel {
    const repository: Repository
    const explain: string -> Outcome<string>
    var isLoading: bool
    var selectedTable: Option<DatabaseTable>
    var tableExplanation: string
    var pageSize: int
    var currentPage: int
    var totalPages: int
    var searchFilter: string
    var databaseTables: seq<DatabaseTable>
    var albaranes: seq<HeaderRow>
    var proveedores: seq<Proveedor>
    var articulos: seq<Articulo>

    /** Pages are counted from 1 and hold at least one item. */
    ghost predicate Valid()
      reads this
    {
      pageSize > 0 && currentPage >= 1
    }

    /** The effect of `LoadTableData(table)` for a table (not null): the
        table is selected, its explanation shown (or the error text when the
        explanation throws, in which case no list is loaded), the list its
        name routes to is refilled with the current page, and loading is
        off. */
    twostate predicate Reloaded(table: DatabaseTable)
      reads this
      requires pageSize > 0 && currentPage >= 1
    {
      var answer := explain(table.name);
      var route := if answer.Ok? then TableListing(ToLower(table.name)) else None;
      var receipts := repository.albaranes;
      var suppliers := repository.proveedores;
      var articles := repository.articulos;
      !isLoading && selectedTable == Some(table)
      && tableExplanation == (if answer.Ok? then answer.value else LoadErrorText)
      && albaranes == (if route == Some(Receipts) then Loaded(receipts, currentPage, pageSize) else old(albaranes))
      && proveedores == (if route == Some(Suppliers) then Loaded(suppliers, currentPage, pageSize) else old(proveedores))
      && articulos == (if route == Some(Articles) then Loaded(articles, currentPage, pageSize) else old(articulos))
      && totalPages == (match route
                        case Some(Receipts) => PagesAfter(receipts, pageSize, old(totalPages))
                        case Some(Suppliers) => PagesAfter(suppliers, pageSize, old(totalPages))
                        case Some(Articles) => PagesAfter(articles, pageSize, old(totalPages))
                        case None => old(totalPages))
    }

    /** The effect of `LoadTableData(SelectedTable)`: a reload of the table
        selected before, or nothing when none is. */
    twostate predicate ReloadedSelected()
      reads this
      requires pageSize > 0 && currentPage >= 1
    {
      match old(selectedTable)
      case Some(table) => Reloaded(table)
      case None =>
        isLoading == old(isLoading) && selectedTable == None && tableExplanation == old(tableExplanation)
        && albaranes == old(albaranes) && proveedores == old(proveedores) && articulos == old(articulos)
        && totalPages == old(totalPages)
    }

    /** The constructor: no tables, no rows, page 1 of 1 with pages of
        fifty. (The structure is loaded by a separate call.) */
    constructor(repository: Repository, explain: string -> Outcome<string>)
      ensures Valid() && this.repository == repository && this.explain == explain
      ensures !isLoading && selectedTable == None && tableExplanation == ""
      ensures pageSize == DefaultPageSize && currentPage == 1 && totalPages == 1 && searchFilter == ""
      ensures databaseTables == [] && albaranes == [] && proveedores == [] && articulos == []
    {
      this.repository := repository;
      this.explain := explain;
      isLoading := false;
      selectedTable := None;
      tableExplanation := "";
      pageSize := DefaultPageSize;
      currentPage := 1;
      totalPages := 1;
      searchFilter := "";
      databaseTables := [];
      albaranes := [];
      proveedores := [];
      articulos := [];
    }

    /** `LoadAlbaranesAsync`: the list is cleared, then filled with the
        current page of all receipts and the page count recomputed; when
        the repository throws the list stays empty and the count is kept. */
    method LoadAlbaranes()
      requires Valid()
      modifies this`albaranes, this`totalPages
      ensures albaranes == Loaded(repository.albaranes, currentPage, pageSize)
      ensures totalPages == PagesAfter(repository.albaranes, pageSize, old(totalPages))
    {
      albaranes := [];
      match repository.albaranes {
        case Fail(_) =>
        case Ok(all) =>
          var paged := Take(Skip(all, (currentPage - 1) * pageSize), pageSize);
          for i := 0 to |paged|
            invariant albaranes == paged[..i]
          {
            albaranes := albaranes + [paged[i]];
          }
          totalPages := PageCount(|all|, pageSize);
      }
    }

    /** `LoadProveedoresAsync`: as `LoadAlbaranes`, for the active suppliers. */
    method LoadProveedores()
      requires Valid()
      modifies this`proveedores, this`totalPages
      ensures proveedores == Loaded(repository.proveedores, currentPage, pageSize)
      ensures totalPages == PagesAfter(repository.proveedores, pageSize, old(totalPages))
    {
      proveedores := [];
      match repository.proveedores {
        case Fail(_) =>
        case Ok(all) =>
          var paged := Take(Skip(all, (currentPage - 1) * pageSize), pageSize);
          for i := 0 to |paged|
            invariant proveedores == paged[..i]
          {
            proveedores := proveedores + [paged[i]];
          }
          totalPages := PageCount(|all|, pageSize);
      }
    }

    /** `LoadArticulosAsync`: as `LoadAlbaranes`, for the active articles. */
    method LoadArticulos()
      requires Valid()
      modifies this`articulos, this`totalPages
      ensures articulos == Loaded(repository.articulos, currentPage, pageSize)
      ensures totalPages == PagesAfter(repository.articulos, pageSize, old(totalPages))
    {
      articulos := [];
      match repository.articulos {
        case Fail(_) =>
        case Ok(all) =>
          var paged := Take(Skip(all, (currentPage - 1) * pageSize), pageSize);
          for i := 0 to |paged|
            invariant articulos == paged[..i]
          {
            articulos := articulos + [paged[i]];
          }
          totalPages := PageCount(|all|, pageSize);
      }
    }

    /** `LoadTableData`: nothing for no table; otherwise the reload that
        `Reloaded` describes. */
    method LoadTableData(table: Option<DatabaseTable>)
      requires Valid()
      modifies this`isLoading, this`selectedTable, this`tableExplanation,
               this`albaranes, this`proveedores, this`articulos, this`totalPages
      ensures table.None? ==> unchanged(this)
      ensures table.Some? ==> Reloaded(table.value)
    {
      if table.None? {
        return;
      }
      var t := table.value;
      isLoading := true;
      selectedTable := table;
      match explain(t.name) {
        case Fail(_) =>
          tableExplanation := LoadErrorText;
        case Ok(text) =>
          tableExplanation := text;
          match TableListing(ToLower(t.name)) {
            case Some(Receipts) => LoadAlbaranes();
            case Some(Suppliers) => LoadProveedores();
            case Some(Articles) => LoadArticulos();
            case None =>
          }
      }
      isLoading := false;
    }

    /** `SearchProveedoresAsync`: the list is cleared, then filled with the
        first page of the active suppliers whose name contains the filter,
        and the page count is recomputed from all of them. */
    method SearchProveedores()
      requires Valid()
      modifies this`proveedores, this`totalPages
      ensures proveedores == Loaded(repository.buscarProveedores(searchFilter), 1, pageSize)
      ensures totalPages == PagesAfter(repository.buscarProveedores(searchFilter), pageSize, old(totalPages))
    {
      proveedores := [];
      match repository.buscarProveedores(searchFilter) {
        case Fail(_) =>
        case Ok(found) =>
          var shown := Take(found, pageSize);
          for i := 0 to |shown|
            invariant proveedores == shown[..i]
          {
            proveedores := proveedores + [shown[i]];
          }
          TakeIsFirstPage(found, pageSize);
          totalPages := PageCount(|found|, pageSize);
      }
    }

    /** `SearchArticulosAsync`: as `SearchProveedores`, for the active
        articles whose description contains the filter. */
    method SearchArticulos()
      requires Valid()
      modifies this`articulos, this`totalPages
      ensures articulos == Loaded(repository.buscarArticulos(searchFilter), 1, pageSize)
      ensures totalPages == PagesAfter(repository.buscarArticulos(searchFilter), pageSize, old(totalPages))
    {
      articulos := [];
      match repository.buscarArticulos(searchFilter) {
        case Fail(_) =>
        case Ok(found) =>
          var shown := Take(found, pageSize);
          for i := 0 to |shown|
            invariant articulos == shown[..i]
          {
            articulos := articulos + [shown[i]];
          }
          TakeIsFirstPage(found, pageSize);
          totalPages := PageCount(|found|, pageSize);
      }
    }

    /** `ApplySearchFilterAsync`: a blank filter, no table, or a table the
        search does not route reloads the selected table; otherwise the
        suppliers or articles are searched. */
    method ApplySearchFilter()
      requires Valid()
      modifies this`isLoading, this`selectedTable, this`tableExplanation,
               this`albaranes, this`proveedores, this`articulos, this`totalPages
      ensures var route := if IsBlank(searchFilter) || old(selectedTable).None? then None
                           else SearchListing(ToLower(old(selectedTable).value.name));
        route.None? ==> ReloadedSelected()
      ensures (!IsBlank(searchFilter) && old(selectedTable).Some?
               && SearchListing(ToLower(old(selectedTable).value.name)) == Some(Suppliers)) ==>
        proveedores == Loaded(repository.buscarProveedores(searchFilter), 1, pageSize)
        && totalPages == PagesAfter(repository.buscarProveedores(searchFilter), pageSize, old(totalPages))
        && unchanged(this`isLoading, this`selectedTable, this`tableExplanation, this`albaranes, this`articulos)
      ensures (!IsBlank(searchFilter) && old(selectedTable).Some?
               && SearchListing(ToLower(old(selectedTable).value.name)) == Some(Articles)) ==>
        articulos == Loaded(repository.buscarArticulos(searchFilter), 1, pageSize)
        && totalPages == PagesAfter(repository.buscarArticulos(searchFilter), pageSize, old(totalPages))
        && unchanged(this`isLoading, this`selectedTable, this`tableExplanation, this`albaranes, this`proveedores)
    {
      if IsBlank(searchFilter) {
        LoadTableData(selectedTable);
        return;
      }
      match selectedTable {
        case None =>
          LoadTableData(selectedTable);
        case Some(t) =>
          var route := SearchListing(ToLower(t.name));
          if route == Some(Suppliers) {
            SearchProveedores();
          } else if route == Some(Articles) {
            SearchArticulos();
          } else {
            LoadTableData(selectedTable);
          }
      }
    }

    /** `SearchTable`: nothing without a selected table; otherwise the filter
        is applied and loading is off at the end. */
    method SearchTable()
      requires Valid()
      modifies this`isLoading, this`selectedTable, this`tableExplanation,
               this`albaranes, this`proveedores, this`articulos, this`totalPages
      ensures old(selectedTable).None? ==> unchanged(this)
      ensures old(selectedTable).Some? ==> !isLoading
      ensures old(selectedTable).Some? && (IsBlank(searchFilter) || SearchListing(ToLower(old(selectedTable).value.name)).None?) ==>
        Reloaded(old(selectedTable).value)
      ensures (!IsBlank(searchFilter) && old(selectedTable).Some?
               && SearchListing(ToLower(old(selectedTable).value.name)) == Some(Suppliers)) ==>
        proveedores == Loaded(repository.buscarProveedores(searchFilter), 1, pageSize)
        && totalPages == PagesAfter(repository.buscarProveedores(searchFilter), pageSize, old(totalPages))
        && unchanged(this`selectedTable, this`tableExplanation, this`albaranes, this`articulos)
      ensures (!IsBlank(searchFilter) && old(selectedTable).Some?
               && SearchListing(ToLower(old(selectedTable).value.name)) == Some(Articles)) ==>
        articulos == Loaded(repository.buscarArticulos(searchFilter), 1, pageSize)
        && totalPages == PagesAfter(repository.buscarArticulos(searchFilter), pageSize, old(totalPages))
        && unchanged(this`selectedTable, this`tableExplanation, this`albaranes, this`proveedores)
    {
      if selectedTable.None? {
        return;
      }
      isLoading := true;
      ApplySearchFilter();
      isLoading := false;
    }

    /** `ClearSearch`: the filter is emptied, page 1 is selected, and the
        selected table is reloaded. */
    method ClearSearch()
      requires Valid()
      modifies this`searchFilter, this`currentPage, this`isLoading, this`selectedTable, this`tableExplanation,
               this`albaranes, this`proveedores, this`articulos, this`totalPages
      ensures Valid()
      ensures searchFilter == "" && currentPage == 1
      ensures ReloadedSelected()
    {
      searchFilter := "";
      currentPage := 1;
      LoadTableData(selectedTable);
    }

    /** `PreviousPage`: from a page after the first, the page before it is
        selected and the table reloaded; on page 1 nothing happens. */
    method PreviousPage()
      requires Valid()
      modifies this`currentPage, this`isLoading, this`selectedTable, this`tableExplanation,
               this`albaranes, this`proveedores, this`articulos, this`totalPages
      ensures Valid()
      ensures old(currentPage) <= 1 ==> unchanged(this)
      ensures old(currentPage) > 1 ==> currentPage == old(currentPage) - 1 && ReloadedSelected()
    {
      if currentPage > 1 {
        currentPage := currentPage - 1;
        LoadTableData(selectedTable);
      }
    }

    /** `NextPage`: before the last page, the next page is selected and the
        table reloaded; otherwise nothing happens. */
    method NextPage()
      requires Valid()
      modifies this`currentPage, this`isLoading, this`selectedTable, this`tableExplanation,
               this`albaranes, this`proveedores, this`articulos, this`totalPages
      ensures Valid()
      ensures old(currentPage) >= old(totalPages) ==> unchanged(this)
      ensures old(currentPage) < old(totalPages) ==> currentPage == old(currentPage) + 1 && ReloadedSelected()
    {
      if currentPage < totalPages {
        currentPage := currentPage + 1;
        LoadTableData(selectedTable);
      }
    }

    /** `RefreshData`: the selected table is reloaded. */
    method RefreshData()
      requires Valid()
      modifies this`isLoading, this`selectedTable, this`tableExplanation,
               this`albaranes, this`proveedores, this`articulos, this`totalPages
      ensures ReloadedSelected()
    {
      LoadTableData(selectedTable);
    }

    /** The `foreach` of `LoadDatabaseStructureAsync`: the tables are added
        one by one to the cleared list. */
    method ListTables(tables: seq<DatabaseTable>)
      modifies this`databaseTables
      ensures databaseTables == tables
    {
      databaseTables := [];
      for i := 0 to |tables|
        invariant databaseTables == tables[..i]
      {
        databaseTables := databaseTables + [tables[i]];
      }
    }

    /** `LoadDatabaseStructureAsync`: the three tables are listed and the
        first one is loaded. */
    method LoadDatabaseStructure()
      requires Valid()
      modifies this`databaseTables, this`isLoading, this`selectedTable, this`tableExplanation,
               this`albaranes, this`proveedores, this`articulos, this`totalPages
      ensures databaseTables == StructureTables
      ensures Reloaded(StructureTables[0])
    {
      ListTables(StructureTables);
      if |databaseTables| > 0 {
        LoadTableData(Some(databaseTables[0]));
      }
    }
  }
}
