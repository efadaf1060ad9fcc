/** The active-orders handler (pages/api/pedidos/index.ts): GET lists the
    active orders most recent first; POST stores a new order in the active
    collection and a re-stamped copy in the history collection. */
module OrdersApi {
  import opened Wrappers
  import opened Store

  datatype Reply =
    | Orders(docs: seq<OrderDoc>)            // 200
    | Created                                // 201 with the insert result
    | Failure(status: int, message: string)  // 500 { error }
    | MethodNotAllowed                       // 405, Allow: GET, POST

  const CreateFailed := "Error al crear el pedido"

  /** The number of documents whose `numeroOrden` field is `n`. */
  function CountOrder(docs: seq<OrderDoc>, n: string): nat
  {
    if docs == [] then 0
    else CountOrder(docs[..|docs| - 1], n) + (if Field(docs[|docs| - 1], "numeroOrden") == Some(n) then 1 else 0)
  }

  /** Appending a document adds one to the count of its own order number and
      nothing to any other: there is no uniqueness check, so the same order
      number can be stored any number of times. */
  lemma {:induction false} CountAfterInsert(docs: seq<OrderDoc>, d: OrderDoc, n: string)
    ensures CountOrder(docs + [d], n) == CountOrder(docs, n) + (if Field(d, "numeroOrden") == Some(n) then 1 else 0)
  {
    assert (docs + [d])[..|docs + [d]| - 1] == docs;
  }

  /** Posting the same order twice leaves two active records with its number. */
  lemma DuplicatePostsCoexist(docs: seq<OrderDoc>, body: OrderDoc, n: string)
    requires Field(body, "numeroOrden") == Some(n)
    ensures CountOrder(docs + [body] + [body], n) == CountOrder(docs, n) + 2
  {
    CountAfterInsert(docs, body, n);
    CountAfterInsert(docs + [body], body, n);
  }

  class OrderCollections {
    var active: seq<OrderDoc>
    var history: seq<OrderDoc>

    constructor(active0: seq<OrderDoc>, history0: seq<OrderDoc>)
      ensures active == active0 && history == history0
    {
      active := active0;
      history := history0;
    }

    /** `find({}).sort({ fecha: -1 })` on the active collection. */
    method List() returns (docs: seq<OrderDoc>)
      ensures SortedDesc(docs)
      ensures multiset(docs) == multiset(active)
    {
      docs := SortByFechaDesc(active);
    }

    /** The whole handler. `now` is the server clock; `activeOk` and
        `historyOk` say whether each `insertOne` succeeds. */
    method Handle(verb: string, body: OrderDoc, now: int, activeOk: bool, historyOk: bool) returns (reply: Reply)
      modifies this
      ensures verb == "GET" ==>
        reply.Orders? && SortedDesc(reply.docs) && multiset(reply.docs) == multiset(old(active)) &&
        active == old(active) && history == old(history)
      ensures (verb == "POST" && !activeOk) ==>
        reply == Failure(500, CreateFailed) && active == old(active) && history == old(history)
      ensures (verb == "POST" && activeOk) ==>
        reply == Created &&
        active == old(active) + [body] &&
        history == old(history) + (if historyOk then [body.(fecha := now)] else [])
      ensures (verb == "POST" && activeOk && Field(body, "numeroOrden").Some?) ==>
        CountOrder(active, Field(body, "numeroOrden").value) ==
        CountOrder(old(active), Field(body, "numeroOrden").value) + 1
      ensures verb != "GET" && verb != "POST" ==>
        reply == MethodNotAllowed && active == old(active) && history == old(history)
    {
      if verb == "GET" {
        var docs := List();
        reply := Orders(docs);
      } else if verb == "POST" {
        if !activeOk {
          return Failure(500, CreateFailed);
        }
        if Field(body, "numeroOrden").Some? {
          CountAfterInsert(active, body, Field(body, "numeroOrden").value);
        }
        active := active + [body];
        // the 201 answer is sent here, before the history insert: a failing
        // history insert neither changes it nor undoes the active insert
        reply := Created;
        if historyOk {
          history := history + [body.(fecha := now)];
        }
      } else {
        reply := MethodNotAllowed;
      }
    }
  }
}
