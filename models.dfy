/** The four ERP record types (the `Models` folder) and the statistics row. Dates
    are instants on an integer time line (ticks); `decimal` amounts are
    exact reals; a nullable column is an `Option`. */
module Models {
  import opened Wrappers

  type DateTime = int
  type Decimal = real

  /** A receipt line (`LineasAlbaranProveedor`). */
  datatype LineasAlbaranProveedor = LineasAlbaranProveedor(
    id: int,
    cabeceraAlbaranId: int,
    numeroLinea: int,
    codigoArticulo: string,
    descripcionArticulo: string,
    cantidad: Decimal,
    unidadMedida: string,
    precioUnitario: Decimal,
    descuento: Decimal,
    importeLinea: Decimal,
    codigoAlmacen: Option<string>,
    nombreAlmacen: Option<string>,
    lote: Option<string>,
    fechaCaducidad: Option<DateTime>,
    numeroSerie: Option<string>,
    observaciones: Option<string>)

  /** A supplier receipt header (`CabeceraAlbaranProveedor`). `lineas` is not
      a column: it is empty on every row the table holds and is filled only
      by the get-by-id query. */
  datatype CabeceraAlbaranProveedor = CabeceraAlbaranProveedor(
    id: int,
    numeroAlbaran: string,
    codigoProveedor: string,
    nombreProveedor: string,
    fechaAlbaran: DateTime,
    fechaRecepcion: Option<DateTime>,
    importeTotal: Decimal,
    estado: string,
    referenciaExterna: Option<string>,
    observaciones: Option<string>,
    usuarioCreacion: string,
    fechaCreacion: DateTime,
    lineas: seq<LineasAlbaranProveedor>)

  /** A supplier (`Proveedor`). */
  datatype Proveedor = Proveedor(
    id: int,
    codigo: string,
    nombre: string,
    razonSocial: string,
    nif: string,
    direccion: string,
    ciudad: string,
    codigoPostal: string,
    provincia: string,
    pais: string,
    telefono: Option<string>,
    email: Option<string>,
    personaContacto: Option<string>,
    condicionesPago: Option<string>,
    descuentoHabitual: Decimal,
    activo: bool,
    fechaAlta: DateTime,
    observaciones: Option<string>)

  /** An article (`Articulo`). */
  datatype Articulo = Articulo(
    id: int,
    codigo: string,
    descripcion: string,
    descripcionExtendida: Option<string>,
    categoria: Option<string>,
    subcategoria: Option<string>,
    unidadMedida: string,
    precioCompra: Decimal,
    precioVenta: Decimal,
    stockActual: Decimal,
    stockMinimo: Decimal,
    stockMaximo: Decimal,
    peso: Option<Decimal>,
    volumen: Option<Decimal>,
    codigoBarras: Option<string>,
    ubicacion: Option<string>,
    activo: bool,
    controlLotes: bool,
    numeroSerie: bool,
    fechaAlta: DateTime,
    observaciones: Option<string>)

  /** `DatabaseStatistics`. When the subquery behind a name finds no row
      (SQL NULL), the mapper leaves the property at its initializer, so the
      name is empty. */
  datatype DatabaseStatistics = DatabaseStatistics(
    totalAlbaranes: nat,
    totalLineasAlbaran: nat,
    totalProveedores: nat,
    totalArticulos: nat,
    importeTotalAlbaranes: Decimal,
    ultimoAlbaran: Option<DateTime>,
    proveedorMasActivo: string,
    articuloMasMovido: string)

  /** `new DatabaseStatistics()`: zero counts, no date, empty names. */
  const DefaultStatistics := DatabaseStatistics(0, 0, 0, 0, 0.0, None, "", "")
}
