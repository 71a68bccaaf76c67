/** `Sage200Repository`: each typed query is one declarative SQL statement,
    modelled as a pure function of the four tables. A connection or execution
    failure is logged and rethrown unchanged, so a caller sees the repository
    either as `Ok(store)` or as `Fail(message)` (see `Query`). */
module Sage200Repository {
  import opened Wrappers
  import opened Text
  import opened Relational
  import opened Models

  /** A row of the header table: `lineas` is not a column, so it is empty. */
  type HeaderRow = h: CabeceraAlbaranProveedor | h.lineas == []
    witness CabeceraAlbaranProveedor(0, "", "", "", 0, None, 0.0, "", None, None, "", 0, [])

  /** The four tables, rows in the store's own order. */
  datatype Store = Store(
    cabeceras: seq<HeaderRow>,
    lineas: seq<LineasAlbaranProveedor>,
    proveedores: seq<Proveedor>,
    articulos: seq<Articulo>)

  /** Every method catches, logs and rethrows (`throw;`): a failure reaches
      the caller with its message, a success is the query's value. */
  function Query<T>(db: Outcome<Store>, q: Store -> T): (r: Outcome<T>)
    ensures db.Fail? ==> r == Fail(db.message)
    ensures db.Ok? ==> r == Ok(q(db.value))
  {
    match db
    case Fail(m) => Fail(m)
    case Ok(store) => Ok(q(store))
  }

  // ---------------------------------------------------------------------------
  // Receipt headers
  // ---------------------------------------------------------------------------

  /** `ORDER BY FechaAlbaran DESC`. */
  predicate NewestFirst(hs: seq<CabeceraAlbaranProveedor>) {
    forall i, j :: 0 <= i < j < |hs| ==> hs[i].fechaAlbaran >= hs[j].fechaAlbaran
  }

  function SortNewestFirst(hs: seq<HeaderRow>): (r: seq<HeaderRow>)
    ensures NewestFirst(r)
    ensures multiset(r) == multiset(hs)
    ensures forall h :: h in r <==> h in hs
  {
    var key := (h: HeaderRow) => (-h.fechaAlbaran, 0);
    var r := Sort(hs, key);
    assert forall i, j :: 0 <= i < j < |r| ==> KeyLe(key(r[i]), key(r[j]));
    r
  }

  /** Every header, newest first. */
  function GetAlbaranesProveedor(store: Store): (r: seq<HeaderRow>)
    ensures multiset(r) == multiset(store.cabeceras)
    ensures NewestFirst(r)
  {
    SortNewestFirst(store.cabeceras)
  }

  /** `WHERE Id = @Id` through `QuerySingleOrDefault`, with the header's lines
      attached. */
  function GetAlbaranProveedorById(store: Store, id: int): (r: Outcome<Option<CabeceraAlbaranProveedor>>)
    ensures r == Ok(None) <==> forall h :: h in store.cabeceras ==> h.id != id
    ensures r.Fail? <==> |Filter(store.cabeceras, (h: HeaderRow) => h.id == id)| > 1
    ensures r.Ok? && r.value.Some? ==>
      var h := r.value.value;
      h.id == id && h.(lineas := []) in store.cabeceras && h.lineas == GetLineasAlbaran(store, id)
  {
    var found := SingleOrDefault(Filter(store.cabeceras, (h: HeaderRow) => h.id == id));
    match found
    case Fail(m) => Fail(m)
    case Ok(None) => Ok(None)
    case Ok(Some(h)) =>
      assert h.(lineas := []) == h;
      Ok(Some(h.(lineas := GetLineasAlbaran(store, id))))
  }

  /** `WHERE CodigoProveedor = @CodigoProveedor ORDER BY FechaAlbaran DESC`. */
  function GetAlbaranesByProveedor(store: Store, codigoProveedor: string): (r: seq<HeaderRow>)
    ensures forall h :: h in r <==> h in store.cabeceras && h.codigoProveedor == codigoProveedor
    ensures multiset(r) == multiset(Filter(store.cabeceras, (h: HeaderRow) => h.codigoProveedor == codigoProveedor))
    ensures NewestFirst(r)
  {
    SortNewestFirst(Filter(store.cabeceras, (h: HeaderRow) => h.codigoProveedor == codigoProveedor))
  }

  /** `WHERE FechaAlbaran BETWEEN @FechaInicio AND @FechaFin ORDER BY FechaAlbaran DESC`:
      both ends inclusive. */
  function GetAlbaranesByFecha(store: Store, fechaInicio: DateTime, fechaFin: DateTime): (r: seq<HeaderRow>)
    ensures forall h :: h in r <==> h in store.cabeceras && fechaInicio <= h.fechaAlbaran <= fechaFin
    ensures multiset(r) == multiset(Filter(store.cabeceras, (h: HeaderRow) => fechaInicio <= h.fechaAlbaran <= fechaFin))
    ensures NewestFirst(r)
    ensures fechaInicio > fechaFin ==> r == []
  {
    var r := SortNewestFirst(Filter(store.cabeceras, (h: HeaderRow) => fechaInicio <= h.fechaAlbaran <= fechaFin));
    assert fechaInicio > fechaFin && |r| > 0 ==> r[0] in r;
    r
  }

  // ---------------------------------------------------------------------------
  // Receipt lines
  // ---------------------------------------------------------------------------

  /** `WHERE CabeceraAlbaranId = @CabeceraAlbaranId ORDER BY NumeroLinea`. */
  function GetLineasAlbaran(store: Store, cabeceraAlbaranId: int): (r: seq<LineasAlbaranProveedor>)
    ensures forall l :: l in r <==> l in store.lineas && l.cabeceraAlbaranId == cabeceraAlbaranId
    ensures multiset(r) == multiset(Filter(store.lineas, (l: LineasAlbaranProveedor) => l.cabeceraAlbaranId == cabeceraAlbaranId))
    ensures forall i, j :: 0 <= i < j < |r| ==> r[i].numeroLinea <= r[j].numeroLinea
  {
    var ofHeader := (l: LineasAlbaranProveedor) => l.cabeceraAlbaranId == cabeceraAlbaranId;
    var key := (l: LineasAlbaranProveedor) => (l.numeroLinea, 0);
    var f := Filter(store.lineas, ofHeader);
    var r := Sort(f, key);
    assert SortedBy(r, key);
    r
  }


  /** A joined row of `LineasAlbaranProveedor l INNER JOIN CabeceraAlbaranProveedor c`:
      the line and its header's `FechaAlbaran`. */
  type JoinedLine = (LineasAlbaranProveedor, DateTime)

  /** One joined row per header whose `Id` is the line's `CabeceraAlbaranId`. */
  function JoinHeaders(l: LineasAlbaranProveedor, hs: seq<HeaderRow>): (r: seq<JoinedLine>)
    ensures forall p :: p in r <==> p.0 == l && exists h :: h in hs && h.id == l.cabeceraAlbaranId && h.fechaAlbaran == p.1
  {
    if hs == [] then []
    else
      var rest := JoinHeaders(l, hs[1..]);
      assert forall h :: h in hs <==> h == hs[0] || h in hs[1..];
      if hs[0].id == l.cabeceraAlbaranId then [(l, hs[0].fechaAlbaran)] + rest else rest
  }

  /** The joined rows of `WHERE l.CodigoArticulo = @CodigoArticulo`, lines in table order. */
  function JoinedLines(ls: seq<LineasAlbaranProveedor>, hs: seq<HeaderRow>, codigoArticulo: string): (r: seq<JoinedLine>)
    ensures forall p :: p in r <==>
      p.0 in ls && p.0.codigoArticulo == codigoArticulo
      && exists h :: h in hs && h.id == p.0.cabeceraAlbaranId && h.fechaAlbaran == p.1
  {
    if ls == [] then []
    else
      var rest := JoinedLines(ls[1..], hs, codigoArticulo);
      assert forall l :: l in ls <==> l == ls[0] || l in ls[1..];
      if ls[0].codigoArticulo == codigoArticulo then JoinHeaders(ls[0], hs) + rest else rest
  }

  /** `ORDER BY c.FechaAlbaran DESC, l.NumeroLinea`. */
  predicate NewestHeaderThenLine(rows: seq<JoinedLine>) {
    forall i, j :: 0 <= i < j < |rows| ==>
      rows[i].1 > rows[j].1 || (rows[i].1 == rows[j].1 && rows[i].0.numeroLinea <= rows[j].0.numeroLinea)
  }

  function SortedJoinedLines(store: Store, codigoArticulo: string): (r: seq<JoinedLine>)
    ensures multiset(r) == multiset(JoinedLines(store.lineas, store.cabeceras, codigoArticulo))
    ensures forall p :: p in r <==> p in JoinedLines(store.lineas, store.cabeceras, codigoArticulo)
    ensures NewestHeaderThenLine(r)
  {
    var key := (p: JoinedLine) => (-p.1, p.0.numeroLinea);
    var r := Sort(JoinedLines(store.lineas, store.cabeceras, codigoArticulo), key);
    assert forall i, j :: 0 <= i < j < |r| ==> KeyLe(key(r[i]), key(r[j]));
    r
  }

  /** The line of each joined row (the `SELECT l.*` projection). */
  function Projection(rows: seq<JoinedLine>): (r: seq<LineasAlbaranProveedor>)
    ensures |r| == |rows| && forall i :: 0 <= i < |r| ==> r[i] == rows[i].0
  {
    seq(|rows|, i requires 0 <= i < |rows| => rows[i].0)
  }

  /** The lines of an article whose header exists (inner join), newest
      header first, then by line number. */
  function GetLineasByArticulo(store: Store, codigoArticulo: string): (r: seq<LineasAlbaranProveedor>)
    ensures forall l :: l in r <==>
      l in store.lineas && l.codigoArticulo == codigoArticulo
      && exists h :: h in store.cabeceras && h.id == l.cabeceraAlbaranId
    ensures var rows := SortedJoinedLines(store, codigoArticulo);
      |r| == |rows| && forall i :: 0 <= i < |r| ==> r[i] == rows[i].0
  {
    var rows := SortedJoinedLines(store, codigoArticulo);
    var r := Projection(rows);
    forall l | l in r
      ensures l in store.lineas && l.codigoArticulo == codigoArticulo
      && exists h :: h in store.cabeceras && h.id == l.cabeceraAlbaranId
    {
      var i :| 0 <= i < |r| && r[i] == l;
      assert rows[i] in rows;
    }
    forall l | l in store.lineas && l.codigoArticulo == codigoArticulo
      && exists h :: h in store.cabeceras && h.id == l.cabeceraAlbaranId
      ensures l in r
    {
      var h :| h in store.cabeceras && h.id == l.cabeceraAlbaranId;
      assert (l, h.fechaAlbaran) in rows;
      var i :| 0 <= i < |rows| && rows[i] == (l, h.fechaAlbaran);
      assert r[i] == l;
    }
    r
  }

  // ---------------------------------------------------------------------------
  // Suppliers (ORDER BY Nombre is left to the store's collation: rows are
  // given in table order and only membership and multiplicity are stated)
  // ---------------------------------------------------------------------------

  /** `WHERE Activo = 1`. */
  function GetProveedores(store: Store): (r: seq<Proveedor>)
    ensures forall p :: p in r <==> p in store.proveedores && p.activo
    ensures forall p :: multiset(r)[p] == if p.activo then multiset(store.proveedores)[p] else 0
  {
    Filter(store.proveedores, (p: Proveedor) => p.activo)
  }

  /** `WHERE Codigo = @Codigo` through `QuerySingleOrDefault`; inactive
      suppliers are found too. */
  function GetProveedorByCodigo(store: Store, codigo: string): (r: Outcome<Option<Proveedor>>)
    ensures r == Ok(None) <==> forall p :: p in store.proveedores ==> p.codigo != codigo
    ensures r.Fail? <==> |Filter(store.proveedores, (p: Proveedor) => p.codigo == codigo)| > 1
    ensures r.Ok? && r.value.Some? ==> r.value.value in store.proveedores && r.value.value.codigo == codigo
  {
    var rows := Filter(store.proveedores, (p: Proveedor) => p.codigo == codigo);
    var r := SingleOrDefault(rows);
    assert r.Ok? && r.value.Some? ==> r.value.value in rows;
    r
  }

  /** `WHERE Nombre LIKE '%' + nombre + '%' AND Activo = 1`. */
  function BuscarProveedoresByNombre(store: Store, nombre: string): (r: seq<Proveedor>)
    ensures forall p :: p in r <==> p in store.proveedores && p.activo && Contains(p.nombre, nombre)
    ensures forall p :: multiset(r)[p] == if p.activo && Contains(p.nombre, nombre) then multiset(store.proveedores)[p] else 0
  {
    Filter(store.proveedores, (p: Proveedor) => Contains(p.nombre, nombre) && p.activo)
  }

  // ---------------------------------------------------------------------------
  // Articles (ORDER BY Descripcion: as for suppliers)
  // ---------------------------------------------------------------------------

  /** `WHERE Activo = 1`. */
  function GetArticulos(store: Store): (r: seq<Articulo>)
    ensures forall a :: a in r <==> a in store.articulos && a.activo
    ensures forall a :: multiset(r)[a] == if a.activo then multiset(store.articulos)[a] else 0
  {
    Filter(store.articulos, (a: Articulo) => a.activo)
  }

  /** `WHERE Codigo = @Codigo` through `QuerySingleOrDefault`; inactive
      articles are found too. */
  function GetArticuloByCodigo(store: Store, codigo: string): (r: Outcome<Option<Articulo>>)
    ensures r == Ok(None) <==> forall a :: a in store.articulos ==> a.codigo != codigo
    ensures r.Fail? <==> |Filter(store.articulos, (a: Articulo) => a.codigo == codigo)| > 1
    ensures r.Ok? && r.value.Some? ==> r.value.value in store.articulos && r.value.value.codigo == codigo
  {
    var rows := Filter(store.articulos, (a: Articulo) => a.codigo == codigo);
    var r := SingleOrDefault(rows);
    assert r.Ok? && r.value.Some? ==> r.value.value in rows;
    r
  }

  /** `Descripcion LIKE @p OR DescripcionExtendida LIKE @p`; a NULL extended
      description never matches. */
  predicate DescriptionMatches(a: Articulo, descripcion: string) {
    Contains(a.descripcion, descripcion)
    || (a.descripcionExtendida.Some? && Contains(a.descripcionExtendida.value, descripcion))
  }

  /** `WHERE (Descripcion LIKE ... OR DescripcionExtendida LIKE ...) AND Activo = 1`. */
  function BuscarArticulosByDescripcion(store: Store, descripcion: string): (r: seq<Articulo>)
    ensures forall a :: a in r <==> a in store.articulos && a.activo && DescriptionMatches(a, descripcion)
    ensures forall a :: multiset(r)[a] == if a.activo && DescriptionMatches(a, descripcion) then multiset(store.articulos)[a] else 0
  {
    Filter(store.articulos, (a: Articulo) => DescriptionMatches(a, descripcion) && a.activo)
  }

  /** `WHERE Categoria = @Categoria AND Activo = 1`; a NULL category never matches. */
  function GetArticulosByCategoria(store: Store, categoria: string): (r: seq<Articulo>)
    ensures forall a :: a in r <==> a in store.articulos && a.activo && a.categoria == Some(categoria)
    ensures forall a :: multiset(r)[a] == if a.activo && a.categoria == Some(categoria) then multiset(store.articulos)[a] else 0
  {
    Filter(store.articulos, (a: Articulo) => a.categoria == Some(categoria) && a.activo)
  }

  // ---------------------------------------------------------------------------
  // Statistics
  // ---------------------------------------------------------------------------

  /** `SUM(ImporteTotal)` over the headers (0 on none, as `ISNULL(..., 0)`). */
  function TotalImporte(hs: seq<HeaderRow>): Decimal
  {
    if hs == [] then 0.0 else hs[0].importeTotal + TotalImporte(hs[1..])
  }

  /** The sum over two runs of headers is the sum of their sums. */
  lemma {:induction false} TotalImporteAppend(a: seq<HeaderRow>, b: seq<HeaderRow>)
    ensures TotalImporte(a + b) == TotalImporte(a) + TotalImporte(b)
  {
    if a == [] {
      assert a + b == b;
    } else {
      assert (a + b)[1..] == a[1..] + b;
      TotalImporteAppend(a[1..], b);
    }
  }

  /** `MAX(FechaAlbaran)`: NULL on no header. */
  function LatestFecha(hs: seq<HeaderRow>): (r: Option<DateTime>)
    ensures r.None? <==> hs == []
    ensures r.Some? ==> (exists h :: h in hs && h.fechaAlbaran == r.value)
                        && forall h :: h in hs ==> h.fechaAlbaran <= r.value
  {
    if hs == [] then None
    else
      var rest := LatestFecha(hs[1..]);
      assert forall h :: h in hs <==> h == hs[0] || h in hs[1..];
      if rest.None? || hs[0].fechaAlbaran >= rest.value then Some(hs[0].fechaAlbaran) else rest
  }

  /** The size of a header's `GROUP BY CodigoProveedor, NombreProveedor` group. */
  function SupplierReceipts(hs: seq<HeaderRow>, h: CabeceraAlbaranProveedor): nat
  {
    |Filter(hs, (g: HeaderRow) => g.codigoProveedor == h.codigoProveedor && g.nombreProveedor == h.nombreProveedor)|
  }

  /** `SUM(Cantidad)` over a line's `GROUP BY CodigoArticulo, DescripcionArticulo` group. */
  function ArticleQuantity(ls: seq<LineasAlbaranProveedor>, l: LineasAlbaranProveedor): Decimal
  {
    if ls == [] then 0.0
    else
      (if ls[0].codigoArticulo == l.codigoArticulo && ls[0].descripcionArticulo == l.descripcionArticulo
       then ls[0].cantidad else 0.0)
      + ArticleQuantity(ls[1..], l)
  }

  /** `TOP 1 NombreProveedor ... ORDER BY COUNT(*) DESC`: a name of a largest
      group, NULL when there is no header. */
  function MostActiveSupplier(hs: seq<HeaderRow>): (r: Option<string>)
    ensures r.None? <==> hs == []
    ensures r.Some? ==> exists h :: (h in hs && h.nombreProveedor == r.value
      && forall g :: g in hs ==> SupplierReceipts(hs, g) <= SupplierReceipts(hs, h))
  {
    if hs == [] then None
    else
      var k := ArgMax(hs, (h: HeaderRow) => SupplierReceipts(hs, h) as real);
      assert hs[k] in hs;
      Some(hs[k].nombreProveedor)
  }

  /** `TOP 1 DescripcionArticulo ... ORDER BY SUM(Cantidad) DESC`: a description
      of a group with the largest total quantity, NULL when there is no line. */
  function MostMovedArticle(ls: seq<LineasAlbaranProveedor>): (r: Option<string>)
    ensures r.None? <==> ls == []
    ensures r.Some? ==> exists l :: (l in ls && l.descripcionArticulo == r.value
      && forall g :: g in ls ==> ArticleQuantity(ls, g) <= ArticleQuantity(ls, l))
  {
    if ls == [] then None
    else
      var k := ArgMax(ls, (l: LineasAlbaranProveedor) => ArticleQuantity(ls, l));
      assert ls[k] in ls;
      Some(ls[k].descripcionArticulo)
  }

  /** A name column as the mapper reads it: SQL NULL leaves the empty
      initializer. */
  function NameOrEmpty(name: Option<string>): string {
    if name.Some? then name.value else ""
  }

  /** The single statistics row: the four counts, the total amount, the
      latest date and the two most frequent names. */
  function GetDatabaseStatistics(store: Store): (r: DatabaseStatistics)
    ensures r.totalAlbaranes == |store.cabeceras| && r.totalLineasAlbaran == |store.lineas|
    ensures r.totalProveedores == |GetProveedores(store)| && r.totalArticulos == |GetArticulos(store)|
    ensures r.importeTotalAlbaranes == TotalImporte(store.cabeceras)
    ensures store.cabeceras == [] ==>
      r.importeTotalAlbaranes == 0.0 && r.ultimoAlbaran.None? && r.proveedorMasActivo == ""
    ensures store.cabeceras != [] ==>
      r.ultimoAlbaran.Some?
      && (exists h :: h in store.cabeceras && h.fechaAlbaran == r.ultimoAlbaran.value)
      && (forall h :: h in store.cabeceras ==> h.fechaAlbaran <= r.ultimoAlbaran.value)
    ensures store.cabeceras != [] ==>
      exists h :: h in store.cabeceras && h.nombreProveedor == r.proveedorMasActivo
        && forall g :: g in store.cabeceras ==>
             SupplierReceipts(store.cabeceras, g) <= SupplierReceipts(store.cabeceras, h)
    ensures store.lineas == [] ==> r.articuloMasMovido == ""
    ensures store.lineas != [] ==>
      exists l :: l in store.lineas && l.descripcionArticulo == r.articuloMasMovido
        && forall g :: g in store.lineas ==> ArticleQuantity(store.lineas, g) <= ArticleQuantity(store.lineas, l)
  {
    DatabaseStatistics(
      |store.cabeceras|,
      |store.lineas|,
      |GetProveedores(store)|,
      |GetArticulos(store)|,
      TotalImporte(store.cabeceras),
      LatestFecha(store.cabeceras),
      NameOrEmpty(MostActiveSupplier(store.cabeceras)),
      NameOrEmpty(MostMovedArticle(store.lineas)))
  }
}
