/** The order history page of the dashboard (pages/dashboard/historial-pedidos.tsx):
    case-insensitive status styling, the status label, and the per-customer
    switch that adds a phone number to the blacklist or takes it out. */
module HistoryPage {
  import opened Wrappers
  import opened Text
  import opened Badges
  import opened Http
  import HistoryApi
  import BlacklistApi

  /** `getStatusColor`: a switch on the lower-cased status, where `procesando`
      and `en proceso` share the blue badge, `enviado` and `completado` the
      green one, and every other string gets the gray default. */
  function StatusColor(estado: string): (b: Badge)
    ensures b == Yellow <==> Lower(estado) == "pendiente"
    ensures b == Blue <==> Lower(estado) == "procesando" || Lower(estado) == "en proceso"
    ensures b == Cyan <==> Lower(estado) == "listo para enviar"
    ensures b == Green <==> Lower(estado) == "enviado" || Lower(estado) == "completado"
    ensures b == Gray <==>
      Lower(estado) !in ["pendiente", "procesando", "en proceso", "listo para enviar", "enviado", "completado"]
  {
    var s := Lower(estado);
    if s == "pendiente" then Yellow
    else if s == "procesando" || s == "en proceso" then Blue
    else if s == "listo para enviar" then Cyan
    else if s == "enviado" || s == "completado" then Green
    else Gray
  }

  /** `getStatusIcon`: the same grouping; ready, shipped and completed share the check mark. */
  function StatusIcon(estado: string): (icon: Icon)
    ensures icon == Clock <==> Lower(estado) == "pendiente"
    ensures icon == Package <==> Lower(estado) == "procesando" || Lower(estado) == "en proceso"
    ensures icon == CheckCircle <==>
      Lower(estado) == "listo para enviar" || Lower(estado) == "enviado" || Lower(estado) == "completado"
    ensures icon != XCircle
    ensures icon == AlertCircle <==>
      Lower(estado) !in ["pendiente", "procesando", "en proceso", "listo para enviar", "enviado", "completado"]
  {
    var s := Lower(estado);
    if s == "pendiente" then Clock
    else if s == "procesando" || s == "en proceso" then Package
    else if s == "listo para enviar" then CheckCircle
    else if s == "enviado" || s == "completado" then CheckCircle
    else AlertCircle
  }

  /** Badge colour and icon ignore letter case: `s` and `lower(s)` look the same. */
  lemma StylingIgnoresCase(s: string)
    ensures StatusColor(s) == StatusColor(Lower(s))
    ensures StatusIcon(s) == StatusIcon(Lower(s))
  {
    LowerIdempotent(s);
  }

  /** `estado.charAt(0).toUpperCase() + estado.slice(1)`. */
  function Capitalize(s: string): string
  {
    if s == [] then [] else [UpperChar(s[0])] + s[1..]
  }

  /** `formatStatus`: `completado` in any letter case reads `Enviado`; any
      other status gets its first character upper-cased and is otherwise kept,
      so its length is kept and the empty status stays empty. */
  function FormatStatus(estado: string): (r: string)
    ensures Lower(estado) == "completado" ==> r == "Enviado"
    ensures Lower(estado) != "completado" ==> |r| == |estado|
    ensures Lower(estado) != "completado" && estado != [] ==>
      r[0] == UpperChar(estado[0]) && r[1..] == estado[1..]
    ensures estado == [] ==> r == []
  {
    if Lower(estado) == "completado" then "Enviado" else Capitalize(estado)
  }

  /** Upper-casing the first character does not change the lower-case form. */
  lemma LowerCapitalize(s: string)
    ensures Lower(Capitalize(s)) == Lower(s)
  {
    if s != [] {
      var c := Capitalize(s);
      assert LowerChar(UpperChar(s[0])) == LowerChar(s[0]);
      forall i | 0 <= i < |s|
        ensures Lower(c)[i] == Lower(s)[i]
      {
      }
    }
  }

  /** Formatting a formatted status changes nothing. */
  lemma FormatStatusIdempotent(estado: string)
    ensures FormatStatus(FormatStatus(estado)) == FormatStatus(estado)
  {
    if Lower(estado) == "completado" {
      assert Lower("Enviado") == "enviado";
    } else {
      LowerCapitalize(estado);
      var c := Capitalize(estado);
      if c != [] {
        assert UpperChar(UpperChar(estado[0])) == UpperChar(estado[0]);
        assert Capitalize(c) == c;
      }
    }
  }

  /** The label a row shows and the badge it is drawn in agree: formatting
      never moves a status to another colour or icon. */
  lemma FormattedStatusKeepsStyle(estado: string)
    ensures StatusColor(FormatStatus(estado)) == StatusColor(estado)
    ensures StatusIcon(FormatStatus(estado)) == StatusIcon(estado)
  {
    if Lower(estado) == "completado" {
      assert Lower("Enviado") == "enviado";
    } else {
      LowerCapitalize(estado);
    }
  }

  /** The local set update of `handleSwitchChange` after an ok answer: checked
      adds the number, unchecked removes it, every other number is untouched. */
  function Toggle(blacklisted: set<string>, checked: bool, telefono: string): (r: set<string>)
    ensures telefono in r <==> checked
    ensures forall x :: x != telefono ==> (x in r <==> x in blacklisted)
  {
    if checked then blacklisted + {telefono} else blacklisted - {telefono}
  }

  /** Flipping the switch twice the same way is flipping it once. */
  lemma ToggleIdempotent(blacklisted: set<string>, checked: bool, telefono: string)
    ensures Toggle(Toggle(blacklisted, checked, telefono), checked, telefono) == Toggle(blacklisted, checked, telefono)
  {
  }

  /** Switching a number on and off again restores a set that did not hold it. */
  lemma ToggleUndo(blacklisted: set<string>, telefono: string)
    requires telefono !in blacklisted
    ensures Toggle(Toggle(blacklisted, true, telefono), false, telefono) == blacklisted
  {
  }

  /** The POST body the switch sends: the number is looked up among the
      loaded rows (`pedidos.find(p => p.telefono === telefono)?.telefono`),
      so it is missing when no row has that phone. */
  function SwitchRequest(rows: seq<HistoryApi.HistoryRow>, checked: bool, telefono: string): (body: BlacklistApi.PostBody)
    ensures body.intent == Some(if checked then "add" else "remove")
    ensures body.number.Some? <==> exists i :: 0 <= i < |rows| && rows[i].telefono == Some(telefono)
    ensures body.number.Some? ==> body.number.value == telefono
  {
    var found := exists i :: 0 <= i < |rows| && rows[i].telefono == Some(telefono);
    BlacklistApi.PostBody(if found then Some(telefono) else None, Some(if checked then "add" else "remove"))
  }

  /** The register accepts the switch's request exactly when the phone is
      non-empty and belongs to a loaded row; otherwise it answers 400. */
  lemma SwitchRequestValidation(rows: seq<HistoryApi.HistoryRow>, checked: bool, telefono: string)
    ensures BlacklistApi.Validate(SwitchRequest(rows, checked, telefono)).None? <==>
      telefono != "" && exists i :: 0 <= i < |rows| && rows[i].telefono == Some(telefono)
    ensures BlacklistApi.Validate(SwitchRequest(rows, checked, telefono)).Some? ==>
      BlacklistApi.Validate(SwitchRequest(rows, checked, telefono)) ==
      Some(BlacklistApi.Failure(400, BlacklistApi.MissingFields))
  {
  }

  class HistoryPageState {
    var pedidos: seq<HistoryApi.HistoryRow>
    var blacklisted: set<string>

    constructor()
      ensures pedidos == [] && blacklisted == {}
    {
      pedidos := [];
      blacklisted := {};
    }

    /** `fetchPedidos`, given the status and rows of the `GET /api/historial` answer. */
    method LoadOrders(status: int, rows: seq<HistoryApi.HistoryRow>)
      modifies this
      ensures blacklisted == old(blacklisted)
      ensures pedidos == if IsOk(status) then rows else old(pedidos)
    {
      if IsOk(status) {
        pedidos := rows;
      }
    }

    /** `fetchBlacklistedNumbers`, given the status and `numbers` of the `GET /api/blacklist` answer. */
    method LoadBlacklist(status: int, numbers: seq<string>)
      modifies this
      ensures pedidos == old(pedidos)
      ensures IsOk(status) ==> forall x :: x in blacklisted <==> x in numbers
      ensures !IsOk(status) ==> blacklisted == old(blacklisted)
    {
      if IsOk(status) {
        blacklisted := set x | x in numbers;
      }
    }

    /** `handleSwitchChange`, given the status of the `POST /api/blacklist` answer.
        Returns the body it posts. */
    method SwitchChange(checked: bool, telefono: string, status: int) returns (request: BlacklistApi.PostBody)
      modifies this
      ensures request == SwitchRequest(old(pedidos), checked, telefono)
      ensures pedidos == old(pedidos)
      ensures IsOk(status) ==> blacklisted == Toggle(old(blacklisted), checked, telefono)
      ensures !IsOk(status) ==> blacklisted == old(blacklisted)
    {
      request := SwitchRequest(pedidos, checked, telefono);
      if IsOk(status) {
        blacklisted := Toggle(blacklisted, checked, telefono);
      }
    }
  }
}
