/** The order documents kept in the active-orders and history collections, and
    the `find({}).sort({ fecha: -1 })` query both listing handlers run. */
module Store {
  import opened Wrappers

  /** A stored order: its `fecha` timestamp and every other field by name.
      A field that is absent from the document is absent from `fields`. */
  datatype OrderDoc = OrderDoc(fecha: int, fields: map<string, string>)

  function Field(d: OrderDoc, name: string): (v: Option<string>)
    ensures v.Some? <==> name in d.fields
  {
    if name in d.fields then Some(d.fields[name]) else None
  }

  /** Most recent first. */
  predicate SortedDesc(s: seq<OrderDoc>)
  {
    forall i, j :: 0 <= i < j < |s| ==> s[i].fecha >= s[j].fecha
  }

  function InsertDesc(d: OrderDoc, s: seq<OrderDoc>): (r: seq<OrderDoc>)
    requires SortedDesc(s)
    ensures SortedDesc(r)
    ensures multiset(r) == multiset(s) + multiset{d}
    ensures |r| == |s| + 1
    ensures s != [] ==> r[0] == d || r[0] == s[0]
  {
    if s == [] || d.fecha >= s[0].fecha then
      [d] + s
    else
      var rest := InsertDesc(d, s[1..]);
      assert s == [s[0]] + s[1..];
      [s[0]] + rest
  }

  /** The result of `sort({ fecha: -1 })`: the same documents, most recent first.
      Documents with equal `fecha` may come in any order, as in the database. */
  function SortByFechaDesc(s: seq<OrderDoc>): (r: seq<OrderDoc>)
    ensures SortedDesc(r)
    ensures multiset(r) == multiset(s)
    ensures |r| == |s|
  {
    if s == [] then []
    else
      assert s == [s[0]] + s[1..];
      InsertDesc(s[0], SortByFechaDesc(s[1..]))
  }
}
