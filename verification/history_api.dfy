/** The history listing handler (pages/api/historial.ts): every history
    document, most recent first, reshaped with defaults for missing fields. */
module HistoryApi {
  import opened Wrappers
  import opened Text
  import opened Store

  /** One formatted history row. Copied fields keep the stored value, or stay
      absent (`None`) when the document has no such field. */
  datatype HistoryRow = HistoryRow(
    iD: Option<string>,
    numeroOrden: Option<string>,
    fecha: int,
    hora: Option<string>,
    pedido: Option<string>,
    combo: string,
    algoMasExtra: string,
    nombre: Option<string>,
    telefono: Option<string>,
    direccionEnvio: Option<string>,
    referenciaOcomentario: Option<string>,
    efectivoTarjeta: Option<string>,
    estado: string)

  datatype Reply =
    | Rows(rows: seq<HistoryRow>)  // 200
    | MethodNotAllowed             // 405 { message: 'Método no permitido' }

  const NoCombo := "Sin combo"
  const NoExtras := "Sin extras"
  const Pending := "pendiente"

  /** `v || fallback` for an optional string field. */
  function OrElse(v: Option<string>, fallback: string): string
  {
    if Truthy(v) then v.value else fallback
  }

  /** The `map` callback: `iD` takes the stored `ID`; a falsy `combo`,
      `algoMasExtra` or `estado` becomes `Sin combo`, `Sin extras` or
      `pendiente`, so these three are never empty; every other field is copied. */
  function FormatRow(d: OrderDoc): (row: HistoryRow)
    ensures row.combo != "" && row.algoMasExtra != "" && row.estado != ""
    ensures Truthy(Field(d, "combo")) ==> row.combo == d.fields["combo"]
    ensures !Truthy(Field(d, "combo")) ==> row.combo == NoCombo
    ensures Truthy(Field(d, "algoMasExtra")) ==> row.algoMasExtra == d.fields["algoMasExtra"]
    ensures !Truthy(Field(d, "algoMasExtra")) ==> row.algoMasExtra == NoExtras
    ensures Truthy(Field(d, "estado")) ==> row.estado == d.fields["estado"]
    ensures !Truthy(Field(d, "estado")) ==> row.estado == Pending
    ensures row.iD == Field(d, "ID") && row.numeroOrden == Field(d, "numeroOrden") && row.fecha == d.fecha
    ensures row.hora == Field(d, "hora") && row.pedido == Field(d, "pedido") && row.nombre == Field(d, "nombre")
    ensures row.telefono == Field(d, "telefono") && row.direccionEnvio == Field(d, "direccionEnvio")
    ensures row.referenciaOcomentario == Field(d, "referenciaOcomentario")
    ensures row.efectivoTarjeta == Field(d, "efectivoTarjeta")
  {
    HistoryRow(
      Field(d, "ID"),
      Field(d, "numeroOrden"),
      d.fecha,
      Field(d, "hora"),
      Field(d, "pedido"),
      OrElse(Field(d, "combo"), NoCombo),
      OrElse(Field(d, "algoMasExtra"), NoExtras),
      Field(d, "nombre"),
      Field(d, "telefono"),
      Field(d, "direccionEnvio"),
      Field(d, "referenciaOcomentario"),
      Field(d, "efectivoTarjeta"),
      OrElse(Field(d, "estado"), Pending))
  }

  /** `docs.map(FormatRow)`: one row per document, in the same order. */
  function FormatAll(docs: seq<OrderDoc>): (rows: seq<HistoryRow>)
    ensures |rows| == |docs|
    ensures forall i :: 0 <= i < |docs| ==> rows[i] == FormatRow(docs[i])
  {
    seq(|docs|, i requires 0 <= i < |docs| => FormatRow(docs[i]))
  }

  /** The handler: anything but GET is refused; GET answers the stored history
      sorted by `fecha` descending and formatted row by row. */
  function Handle(verb: string, stored: seq<OrderDoc>): (reply: Reply)
    ensures verb != "GET" <==> reply == MethodNotAllowed
  {
    if verb != "GET" then MethodNotAllowed
    else Rows(FormatAll(SortByFechaDesc(stored)))
  }

  /** A GET answers one row per stored document: the rows are the formatted
      documents of a permutation of the history, most recent first. */
  lemma HistoryListing(stored: seq<OrderDoc>)
    ensures Handle("GET", stored).Rows?
    ensures |Handle("GET", stored).rows| == |stored|
    ensures forall i, j :: 0 <= i < j < |stored| ==>
      Handle("GET", stored).rows[i].fecha >= Handle("GET", stored).rows[j].fecha
    ensures exists p :: (multiset(p) == multiset(stored) && SortedDesc(p) &&
                         Handle("GET", stored).rows == FormatAll(p))
  {
    var p := SortByFechaDesc(stored);
    assert Handle("GET", stored).rows == FormatAll(p);
  }
}
