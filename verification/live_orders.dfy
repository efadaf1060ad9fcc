/** The live order view of the dashboard (pages/dashboard/pedidos-recientes.tsx):
    the client's list of active orders, the transforms its handlers apply to it,
    and the badge styling of an order's status. */
module LiveOrders {
  import opened Wrappers
  import opened Text
  import opened Badges
  import opened Http

  /** An active order as the client holds it. `atendido` and `selected` are
      client-local flags; `nuevoEstado` is the proposed, not yet committed status. */
  datatype Pedido = Pedido(
    id: string,
    numeroOrden: string,
    fecha: string,
    pedido: string,
    combo: string,
    algoMasExtra: string,
    nombre: string,
    telefono: string,
    direccionEnvio: string,
    referenciaOcomentario: string,
    efectivoTarjeta: string,
    estado: string,
    nuevoEstado: Option<string>,
    atendido: bool,
    selected: bool)

  /** `ps.some(p => p.numeroOrden === n)`. */
  predicate HasNumber(ps: seq<Pedido>, n: string)
  {
    exists i :: 0 <= i < |ps| && ps[i].numeroOrden == n
  }

  /** Position of the record that `ps.find(p => p.numeroOrden === n)` returns,
      or `|ps|` when it returns undefined. */
  function IndexOf(ps: seq<Pedido>, n: string): (k: nat)
    ensures k <= |ps|
    ensures k < |ps| ==> ps[k].numeroOrden == n
    ensures forall j :: 0 <= j < k ==> ps[j].numeroOrden != n
  {
    if ps == [] then 0
    else if ps[0].numeroOrden == n then 0
    else 1 + IndexOf(ps[1..], n)
  }

  // ---------------------------------------------------------------------------
  // Refresh merge and new-order detection
  // ---------------------------------------------------------------------------

  /** One fetched record with the previous view's flags carried over by order number. */
  function Carry(prev: seq<Pedido>, fetched: Pedido): Pedido
  {
    var k := IndexOf(prev, fetched.numeroOrden);
    if k < |prev| then fetched.(atendido := prev[k].atendido, selected := prev[k].selected)
    else fetched.(atendido := false, selected := false)
  }

  /** The view after a poll: exactly the fetched records, in fetched order, each
      keeping every fetched field (its `nuevoEstado` included) except the two
      client flags, which come from the first previous record with the same
      order number, or are false when there is none. */
  function Merge(prev: seq<Pedido>, data: seq<Pedido>): (r: seq<Pedido>)
    ensures |r| == |data|
    ensures forall i :: 0 <= i < |data| ==>
      r[i].(atendido := data[i].atendido, selected := data[i].selected) == data[i]
    ensures forall i :: 0 <= i < |data| && !HasNumber(prev, data[i].numeroOrden) ==>
      !r[i].atendido && !r[i].selected
    ensures forall i, j ::
      (0 <= i < |data| && 0 <= j < |prev| && prev[j].numeroOrden == data[i].numeroOrden &&
       forall k :: 0 <= k < j ==> prev[k].numeroOrden != data[i].numeroOrden) ==>
      r[i].atendido == prev[j].atendido && r[i].selected == prev[j].selected
  {
    seq(|data|, i requires 0 <= i < |data| => Carry(prev, data[i]))
  }

  /** `updated.filter(p => !prev.some(q => q.numeroOrden === p.numeroOrden))`. */
  function NewOrders(prev: seq<Pedido>, updated: seq<Pedido>): (r: seq<Pedido>)
    ensures forall p :: p in r ==> p in updated && !HasNumber(prev, p.numeroOrden)
    ensures forall i :: 0 <= i < |updated| && !HasNumber(prev, updated[i].numeroOrden) ==> updated[i] in r
  {
    if updated == [] then []
    else
      (if IndexOf(prev, updated[0].numeroOrden) == |prev| then [updated[0]] else [])
      + NewOrders(prev, updated[1..])
  }

  /** The new-order alert is raised exactly when the fetch holds an order number
      that the previous view did not have. */
  lemma NewOrderAlert(prev: seq<Pedido>, data: seq<Pedido>)
    ensures |NewOrders(prev, Merge(prev, data))| > 0 <==>
      exists i :: 0 <= i < |data| && !HasNumber(prev, data[i].numeroOrden)
  {
    var m := Merge(prev, data);
    var r := NewOrders(prev, m);
    if |r| > 0 {
      assert r[0] in r;
      var i :| 0 <= i < |m| && m[i] == r[0];
      assert m[i].numeroOrden == data[i].numeroOrden;
    }
    if i :| 0 <= i < |data| && !HasNumber(prev, data[i].numeroOrden) {
      assert m[i].numeroOrden == data[i].numeroOrden;
      assert m[i] in r;
    }
  }

  /** Two lists with the same order numbers position by position find the same position. */
  lemma IndexOfSameNumbers(a: seq<Pedido>, b: seq<Pedido>, n: string)
    requires |a| == |b|
    requires forall i :: 0 <= i < |a| ==> a[i].numeroOrden == b[i].numeroOrden
    ensures IndexOf(a, n) == IndexOf(b, n)
  {
  }

  /** A second poll that returns the same records leaves the view as the first one left it. */
  lemma MergeIdempotent(prev: seq<Pedido>, data: seq<Pedido>)
    ensures Merge(Merge(prev, data), data) == Merge(prev, data)
  {
    var m := Merge(prev, data);
    var m2 := Merge(m, data);
    forall i | 0 <= i < |data|
      ensures m2[i] == m[i]
    {
      var n := data[i].numeroOrden;
      IndexOfSameNumbers(m, data, n);
      var k := IndexOf(data, n);
      assert k <= i;
      assert data[k].numeroOrden == n;
      assert m[k] == Carry(prev, data[k]);
      assert m[i] == Carry(prev, data[i]);
      assert m2[i] == Carry(m, data[i]);
    }
  }

  /** A second poll that returns the same records raises no new-order alert. */
  lemma RepollRaisesNoAlert(prev: seq<Pedido>, data: seq<Pedido>)
    ensures NewOrders(Merge(prev, data), Merge(Merge(prev, data), data)) == []
  {
    var m := Merge(prev, data);
    MergeIdempotent(prev, data);
    NewOrderAlert(m, data);
    forall i | 0 <= i < |data|
      ensures HasNumber(m, data[i].numeroOrden)
    {
      assert m[i].numeroOrden == data[i].numeroOrden;
    }
  }

  // ---------------------------------------------------------------------------
  // Propose, commit outcome and delete
  // ---------------------------------------------------------------------------

  /** `handleCambioEstado`: the records with order number `n` get the proposed
      status and are marked attended; nothing else changes. */
  function Propose(ps: seq<Pedido>, n: string, e: string): (r: seq<Pedido>)
    ensures |r| == |ps|
    ensures forall i :: 0 <= i < |ps| && ps[i].numeroOrden == n ==>
      r[i].nuevoEstado == Some(e) && r[i].atendido &&
      r[i].(nuevoEstado := ps[i].nuevoEstado, atendido := ps[i].atendido) == ps[i]
    ensures forall i :: 0 <= i < |ps| && ps[i].numeroOrden != n ==> r[i] == ps[i]
  {
    seq(|ps|, i requires 0 <= i < |ps| =>
      if ps[i].numeroOrden == n then ps[i].(nuevoEstado := Some(e), atendido := true) else ps[i])
  }

  /** Proposing the same status twice is proposing it once. */
  lemma ProposeIdempotent(ps: seq<Pedido>, n: string, e: string)
    ensures Propose(Propose(ps, n, e), n, e) == Propose(ps, n, e)
  {
  }

  /** A later proposal for the same order replaces an earlier one. */
  lemma ProposeLastWins(ps: seq<Pedido>, n: string, e1: string, e2: string)
    ensures Propose(Propose(ps, n, e1), n, e2) == Propose(ps, n, e2)
  {
  }

  /** A poll after a proposal keeps the order attended but drops the proposal
      in favour of whatever the server sent. */
  lemma PollAfterProposeKeepsAttended(ps: seq<Pedido>, n: string, e: string, data: seq<Pedido>, i: int)
    requires 0 <= i < |data| && data[i].numeroOrden == n && HasNumber(ps, n)
    ensures Merge(Propose(ps, n, e), data)[i].atendido
    ensures Merge(Propose(ps, n, e), data)[i].nuevoEstado == data[i].nuevoEstado
  {
    var p := Propose(ps, n, e);
    var j := IndexOf(p, n);
    assert p[j].numeroOrden == n;
  }

  /** The local outcome of a committed status other than `Enviado`: the records
      with order number `n` take the lower-cased status, lose the proposal and
      are marked attended; nothing else changes. */
  function Committed(ps: seq<Pedido>, n: string, e: string): (r: seq<Pedido>)
    ensures |r| == |ps|
    ensures forall i :: 0 <= i < |ps| && ps[i].numeroOrden == n ==>
      r[i].estado == Lower(e) && r[i].nuevoEstado == None && r[i].atendido &&
      r[i].(estado := ps[i].estado, nuevoEstado := ps[i].nuevoEstado, atendido := ps[i].atendido) == ps[i]
    ensures forall i :: 0 <= i < |ps| && ps[i].numeroOrden != n ==> r[i] == ps[i]
  {
    seq(|ps|, i requires 0 <= i < |ps| =>
      if ps[i].numeroOrden == n then ps[i].(estado := Lower(e), nuevoEstado := None, atendido := true) else ps[i])
  }

  /** Committing a proposal that was made in the view clears it again: the
      proposal leaves no trace but the attended flag and the new status. */
  lemma CommitClearsProposal(ps: seq<Pedido>, n: string, e: string)
    ensures Committed(Propose(ps, n, e), n, e) == Committed(ps, n, e)
  {
  }

  /** `ps.filter(p => p.numeroOrden !== n)`. */
  function Without(ps: seq<Pedido>, n: string): (r: seq<Pedido>)
    ensures forall p :: p in r ==> p in ps && p.numeroOrden != n
    ensures forall i :: 0 <= i < |ps| && ps[i].numeroOrden != n ==> ps[i] in r
    ensures !HasNumber(ps, n) ==> r == ps
  {
    if ps == [] then []
    else
      assert ps == [ps[0]] + ps[1..];
      (if ps[0].numeroOrden == n then [] else [ps[0]]) + Without(ps[1..], n)
  }

  /** The number of records with order number `n`. */
  function CountNumber(ps: seq<Pedido>, n: string): nat
  {
    if ps == [] then 0 else (if ps[0].numeroOrden == n then 1 else 0) + CountNumber(ps[1..], n)
  }

  /** Deleting keeps the other records in their order: the filter works piecewise. */
  lemma {:induction false} WithoutAppend(a: seq<Pedido>, b: seq<Pedido>, n: string)
    ensures Without(a + b, n) == Without(a, n) + Without(b, n)
  {
    if a == [] {
      assert a + b == b;
    } else {
      var head := if a[0].numeroOrden == n then [] else [a[0]];
      assert (a + b)[0] == a[0];
      assert (a + b)[1..] == a[1..] + b;
      WithoutAppend(a[1..], b, n);
      calc {
        Without(a + b, n);
        head + Without(a[1..] + b, n);
        head + (Without(a[1..], n) + Without(b, n));
        (head + Without(a[1..], n)) + Without(b, n);
        Without(a, n) + Without(b, n);
      }
    }
  }

  /** Deleting removes exactly the records with that order number. */
  lemma {:induction false} WithoutSize(ps: seq<Pedido>, n: string)
    ensures |Without(ps, n)| + CountNumber(ps, n) == |ps|
  {
    if ps != [] {
      WithoutSize(ps[1..], n);
    }
  }

  /** Deleting twice is deleting once. */
  lemma WithoutIdempotent(ps: seq<Pedido>, n: string)
    ensures Without(Without(ps, n), n) == Without(ps, n)
  {
  }

  /** No record is selected. */
  predicate NoneSelected(ps: seq<Pedido>)
  {
    forall i :: 0 <= i < |ps| ==> !ps[i].selected
  }

  /** No transform of the view sets `selected`: from an empty view, every
      record of every reachable view has it false. */
  lemma SelectedStaysFalse(ps: seq<Pedido>, data: seq<Pedido>, n: string, e: string)
    requires NoneSelected(ps)
    ensures NoneSelected(Merge(ps, data))
    ensures NoneSelected(Propose(ps, n, e))
    ensures NoneSelected(Committed(ps, n, e))
    ensures NoneSelected(Without(ps, n))
  {
    var m := Merge(ps, data);
    forall i | 0 <= i < |m|
      ensures !m[i].selected
    {
      assert m[i] == Carry(ps, data[i]);
    }
    var w := Without(ps, n);
    forall i | 0 <= i < |w|
      ensures !w[i].selected
    {
      assert w[i] in w;
    }
  }

  // ---------------------------------------------------------------------------
  // Status badge
  // ---------------------------------------------------------------------------

  /** `getStatusColor`: a case-sensitive switch on the stored status. Only the
      exact string `Cancelado` is red; every string outside the switch is gray. */
  function StatusColor(estado: string): (b: Badge)
    ensures b == Yellow <==> estado == "pendiente"
    ensures b == Blue <==> estado == "procesando"
    ensures b == Cyan <==> estado == "listo para enviar"
    ensures b == Green <==> estado == "enviado"
    ensures b == Red <==> estado == "Cancelado"
    ensures b == Gray <==>
      estado !in ["pendiente", "procesando", "listo para enviar", "enviado", "Cancelado"]
  {
    if estado == "pendiente" then Yellow
    else if estado == "procesando" then Blue
    else if estado == "listo para enviar" then Cyan
    else if estado == "enviado" then Green
    else if estado == "Cancelado" then Red
    else Gray
  }

  /** `getStatusIcon`: the same case-sensitive switch. */
  function StatusIcon(estado: string): (icon: Icon)
    ensures icon == Clock <==> estado == "pendiente"
    ensures icon == Package <==> estado == "procesando"
    ensures icon == XCircle <==> estado == "Cancelado"
    ensures icon == CheckCircle <==> estado == "listo para enviar" || estado == "enviado"
    ensures icon == AlertCircle <==>
      estado !in ["pendiente", "procesando", "listo para enviar", "enviado", "Cancelado"]
  {
    if estado == "pendiente" then Clock
    else if estado == "procesando" then Package
    else if estado == "listo para enviar" then CheckCircle
    else if estado == "enviado" then CheckCircle
    else if estado == "Cancelado" then XCircle
    else AlertCircle
  }

  /** The text of the badge: `completado` is shown as `Enviado`, anything else as stored. */
  function StatusLabel(estado: string): (text: string)
    ensures text == estado <==> estado != "completado"
    ensures text != estado ==> text == "Enviado"
  {
    if estado == "completado" then "Enviado" else estado
  }

  /** A committed `Cancelado` is stored lower-cased, so its badge is the gray
      default and not the red one the switch reserves for `Cancelado`. */
  lemma CommittedCanceladoIsGray(ps: seq<Pedido>, n: string, i: int)
    requires 0 <= i < |ps| && ps[i].numeroOrden == n
    ensures Committed(ps, n, "Cancelado")[i].estado == "cancelado"
    ensures StatusColor(Committed(ps, n, "Cancelado")[i].estado) == Gray
    ensures StatusIcon(Committed(ps, n, "Cancelado")[i].estado) == AlertCircle
    ensures StatusColor("Cancelado") == Red
  {
    assert Lower("Cancelado") == "cancelado";
  }

  // ---------------------------------------------------------------------------
  // The view and its handlers
  // ---------------------------------------------------------------------------

  datatype PollOutcome = Refreshed | PollSessionExpired | PollFailed
  datatype DeleteOutcome = Deleted | DeleteSessionExpired | DeleteFailed
  datatype CommitOutcome =
    | NothingProposed      // the guard: no proposal, no request
    | SessionExpired       // a 401 answer: the token is dropped and the view is kept; after a
                           // 401 on the DELETE of `Enviado` the page still reports success
    | CommitFailed         // a non-ok answer: the error is reported, the view is kept
    | Removed              // `Enviado` committed and the order deleted from the view
    | StatusUpdated        // any other status committed locally

  /** The JSON body posted to the customer-notification endpoint. */
  datatype Notification = Notification(numeroOrden: string, nuevoEstado: string, telefono: string)

  /** The JSON body of the `PATCH /api/pedidos/{numeroOrden}` request. */
  datatype StatusPatch = StatusPatch(numeroOrden: string, nuevoEstado: string, telefono: string)

  class LiveOrderView {
    var pedidos: seq<Pedido>
    var nuevoPedido: bool

    constructor()
      ensures pedidos == [] && !nuevoPedido
    {
      pedidos := [];
      nuevoPedido := false;
    }

    /** `fetchPedidos`, given the status and body of the `GET /api/pedidos` answer. */
    method Poll(status: int, data: seq<Pedido>) returns (outcome: PollOutcome)
      modifies this
      ensures status == Unauthorized ==>
        outcome == PollSessionExpired && pedidos == old(pedidos) && nuevoPedido == old(nuevoPedido)
      ensures status != Unauthorized && !IsOk(status) ==>
        outcome == PollFailed && pedidos == old(pedidos) && nuevoPedido == old(nuevoPedido)
      ensures IsOk(status) ==>
        outcome == Refreshed && pedidos == Merge(old(pedidos), data) &&
        nuevoPedido == (old(nuevoPedido) || exists i :: 0 <= i < |data| && !HasNumber(old(pedidos), data[i].numeroOrden))
    {
      if status == Unauthorized {
        return PollSessionExpired;
      }
      if !IsOk(status) {
        return PollFailed;
      }
      var updated := Merge(pedidos, data);
      var newOrders := NewOrders(pedidos, updated);
      NewOrderAlert(pedidos, data);
      if |newOrders| > 0 {
        nuevoPedido := true;
      }
      pedidos := updated;
      outcome := Refreshed;
    }

    /** The timer that hides the new-order alert again. */
    method ClearAlert()
      modifies this
      ensures pedidos == old(pedidos) && !nuevoPedido
    {
      nuevoPedido := false;
    }

    /** `handleCambioEstado`. */
    method ChangeStatus(numeroOrden: string, nuevoEstado: string)
      modifies this
      ensures pedidos == Propose(old(pedidos), numeroOrden, nuevoEstado)
      ensures nuevoPedido == old(nuevoPedido)
    {
      pedidos := Propose(pedidos, numeroOrden, nuevoEstado);
    }

    /** `eliminarOrden`, given the status of the `DELETE /api/pedidos/{numeroOrden}` answer. */
    method RemoveOrder(numeroOrden: string, status: int) returns (outcome: DeleteOutcome)
      modifies this
      ensures nuevoPedido == old(nuevoPedido)
      ensures status == Unauthorized ==> outcome == DeleteSessionExpired && pedidos == old(pedidos)
      ensures status != Unauthorized && !IsOk(status) ==> outcome == DeleteFailed && pedidos == old(pedidos)
      ensures IsOk(status) ==> outcome == Deleted && pedidos == Without(old(pedidos), numeroOrden)
    {
      if status == Unauthorized {
        return DeleteSessionExpired;
      }
      if !IsOk(status) {
        return DeleteFailed;
      }
      pedidos := Without(pedidos, numeroOrden);
      outcome := Deleted;
    }

    /** `handleEnviarEstado` for the order snapshot `pedido`, given the answers to
        the PATCH (`None` when its `fetch` rejects, which skips the notification),
        the status of the notification answer and (for `Enviado`) the status of
        the DELETE answer. `patched` is the PATCH request and `notified` the
        notification request, each when one is sent. */
    method SendStatus(pedido: Pedido, patch: Option<int>, notifyStatus: int, deleteStatus: int)
      returns (outcome: CommitOutcome, patched: Option<StatusPatch>, notified: Option<Notification>)
      modifies this
      ensures nuevoPedido == old(nuevoPedido)
      ensures patched.Some? <==> Truthy(pedido.nuevoEstado)
      ensures patched.Some? ==>
        patched.value == StatusPatch(pedido.numeroOrden, pedido.nuevoEstado.value, pedido.telefono)
      ensures !Truthy(pedido.nuevoEstado) ==>
        outcome == NothingProposed && notified == None && pedidos == old(pedidos)
      ensures Truthy(pedido.nuevoEstado) && patch.None? ==>
        outcome == CommitFailed && notified == None && pedidos == old(pedidos)
      ensures Truthy(pedido.nuevoEstado) && patch == Some(Unauthorized) ==>
        outcome == SessionExpired && notified == None && pedidos == old(pedidos)
      ensures Truthy(pedido.nuevoEstado) && patch.Some? && patch.value != Unauthorized ==>
        notified == Some(Notification(pedido.numeroOrden, pedido.nuevoEstado.value, pedido.telefono))
      ensures (Truthy(pedido.nuevoEstado) && patch.Some? && patch.value != Unauthorized &&
               !(IsOk(patch.value) && IsOk(notifyStatus))) ==>
        outcome == CommitFailed && pedidos == old(pedidos)
      ensures (Truthy(pedido.nuevoEstado) && patch.Some? && IsOk(patch.value) && IsOk(notifyStatus) &&
               pedido.nuevoEstado.value == "Enviado") ==>
        (IsOk(deleteStatus) ==> outcome == Removed && pedidos == Without(old(pedidos), pedido.numeroOrden)) &&
        (deleteStatus == Unauthorized ==> outcome == SessionExpired && pedidos == old(pedidos)) &&
        (deleteStatus != Unauthorized && !IsOk(deleteStatus) ==> outcome == CommitFailed && pedidos == old(pedidos))
      ensures (Truthy(pedido.nuevoEstado) && patch.Some? && IsOk(patch.value) && IsOk(notifyStatus) &&
               pedido.nuevoEstado.value != "Enviado") ==>
        outcome == StatusUpdated &&
        pedidos == Committed(old(pedidos), pedido.numeroOrden, pedido.nuevoEstado.value)
    {
      if !Truthy(pedido.nuevoEstado) {
        return NothingProposed, None, None;
      }
      var nuevoEstado := pedido.nuevoEstado.value;
      patched := Some(StatusPatch(pedido.numeroOrden, nuevoEstado, pedido.telefono));
      if patch.None? {
        // the rejected PATCH lands in the catch before the notification is sent
        return CommitFailed, patched, None;
      }
      var patchStatus := patch.value;
      if patchStatus == Unauthorized {
        return SessionExpired, patched, None;
      }
      notified := Some(Notification(pedido.numeroOrden, nuevoEstado, pedido.telefono));
      if IsOk(patchStatus) && IsOk(notifyStatus) {
        if nuevoEstado == "Enviado" {
          var deleted := RemoveOrder(pedido.numeroOrden, deleteStatus);
          outcome := match deleted
            case Deleted => Removed
            case DeleteSessionExpired => SessionExpired
            case DeleteFailed => CommitFailed;
        } else {
          pedidos := Committed(pedidos, pedido.numeroOrden, nuevoEstado);
          outcome := StatusUpdated;
        }
      } else {
        outcome := CommitFailed;
      }
    }
  }
}
