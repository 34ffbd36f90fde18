/** The customer's order list (src/pages/OrderList.tsx): the state filter
    and its per-state counts, which orders may be cancelled or rated, the
    rating dialog, and the state badge and label lookups. Loading the
    orders and the cancel and rating requests are network calls; their
    outcomes are not modelled, only whether a request is made. */
module OrderList {
  import opened Wrappers
  import opened Types

  /** The filter value that shows every order. */
  const Todos := "Todos"

  /** The filter buttons, in display order: 'Todos' and the seven states. */
  const Estados: seq<string> :=
    [Todos, "recibido", "confirmado", "en_preparacion", "listo_entrega", "en_ruta", "entregado", "cancelado"]

  /** `pedidos.filter(p => p.estado === estado)`. */
  function ByEstado(pedidos: seq<Pedido>, estado: string): (r: seq<Pedido>)
    ensures |r| <= |pedidos|
    ensures forall p :: p in r <==> p in pedidos && p.estado.Name() == estado
  {
    if pedidos == [] then []
    else if pedidos[0].estado.Name() == estado then [pedidos[0]] + ByEstado(pedidos[1..], estado)
    else ByEstado(pedidos[1..], estado)
  }

  /** `filteredPedidos`: every order for 'Todos', else the orders in the
      chosen state. */
  function Filtered(pedidos: seq<Pedido>, filterEstado: string): (r: seq<Pedido>)
    ensures filterEstado == Todos ==> r == pedidos
    ensures filterEstado != Todos ==> forall p :: p in r <==> p in pedidos && p.estado.Name() == filterEstado
    ensures |r| <= |pedidos|
  {
    if filterEstado == Todos then pedidos else ByEstado(pedidos, filterEstado)
  }

  /** The state filter keeps the list order: filtering a concatenation is
      the concatenation of the filtered parts. */
  lemma {:induction false} ByEstadoAppend(a: seq<Pedido>, b: seq<Pedido>, estado: string)
    ensures ByEstado(a + b, estado) == ByEstado(a, estado) + ByEstado(b, estado)
  {
    if a == [] {
      assert a + b == b;
    } else {
      assert (a + b)[1..] == a[1..] + b;
      ByEstadoAppend(a[1..], b, estado);
    }
  }

  /** Choosing a state's button and then that filter again shows the same
      orders: the filter is idempotent. */
  lemma {:induction false} FilteredIdempotent(pedidos: seq<Pedido>, filterEstado: string)
    ensures Filtered(Filtered(pedidos, filterEstado), filterEstado) == Filtered(pedidos, filterEstado)
  {
    if filterEstado != Todos && pedidos != [] {
      FilteredIdempotent(pedidos[1..], filterEstado);
      if pedidos[0].estado.Name() == filterEstado {
        var rest := ByEstado(pedidos[1..], filterEstado);
        assert ([pedidos[0]] + rest)[1..] == rest;
      }
    }
  }

  /** The count shown on a state's button. */
  function Count(pedidos: seq<Pedido>, estado: PedidoEstado): nat {
    |ByEstado(pedidos, estado.Name())|
  }

  /** The sum of the seven buttons' counts. */
  function CountsTotal(pedidos: seq<Pedido>): nat {
    Count(pedidos, Recibido) + Count(pedidos, Confirmado) + Count(pedidos, EnPreparacion) +
    Count(pedidos, ListoEntrega) + Count(pedidos, EnRuta) + Count(pedidos, Entregado) +
    Count(pedidos, Cancelado)
  }

  /** Every order is counted under exactly one button: the seven counts add
      up to the number of orders. */
  lemma {:induction false} CountsAddUp(pedidos: seq<Pedido>)
    ensures CountsTotal(pedidos) == |pedidos|
  {
    if pedidos != [] {
      CountsAddUp(pedidos[1..]);
      OneCount(pedidos);
    }
  }

  /** The first order adds one to its own state's count and nothing to the others. */
  lemma OneCount(pedidos: seq<Pedido>)
    requires pedidos != []
    ensures CountsTotal(pedidos) == 1 + CountsTotal(pedidos[1..])
  {
    var st := pedidos[0].estado;
    ParseEstadoName(st);
  }

  /** The button of a state counts exactly the orders the same filter shows. */
  lemma CountIsFilterLength(pedidos: seq<Pedido>, estado: PedidoEstado)
    ensures Count(pedidos, estado) == |Filtered(pedidos, estado.Name())|
    ensures Count(pedidos, estado) <= |pedidos|
  {
    ParseEstadoName(estado);
  }

  /** The cancel button: only a received or confirmed order may be cancelled. */
  predicate CanCancel(p: Pedido) {
    p.estado == Recibido || p.estado == Confirmado
  }

  /** `!pedido.calificacion`: no rating, or the falsy rating 0. */
  predicate Unrated(p: Pedido) {
    p.calificacion.None? || p.calificacion.value == 0
  }

  /** The rate button: only a delivered order without a rating. */
  predicate CanRate(p: Pedido) {
    p.estado == Entregado && Unrated(p)
  }

  /** No order offers both buttons, and an order in preparation, ready, on
      its way or cancelled offers neither. */
  lemma ActionsDisjoint(p: Pedido)
    ensures !(CanCancel(p) && CanRate(p))
    ensures p.estado in {EnPreparacion, ListoEntrega, EnRuta, Cancelado} ==> !CanCancel(p) && !CanRate(p)
    ensures CanRate(p) ==> p.calificacion != Some(1)
  {
  }

  /** The rating dialog's state: the selected order, the chosen stars, the
      comment and whether the dialog is open. */
  datatype RatingDialog = RatingDialog(
    selected: Option<Pedido>, calificacion: int, comentario: string, open: bool)

  /** The page's initial dialog state. */
  const InitialDialog := RatingDialog(None, 0, "", false)

  /** `handleCalificar`: select the order, reset the stars and the comment,
      open the dialog. */
  function OpenRating(d: RatingDialog, p: Pedido): (r: RatingDialog)
    ensures r.selected == Some(p) && r.open
    ensures r.calificacion == 0 && r.comentario == ""
  {
    RatingDialog(Some(p), 0, "", true)
  }

  /** Clicking one of the five stars. */
  function ChooseStar(d: RatingDialog, star: int): (r: RatingDialog)
    requires 1 <= star <= 5
    ensures r == d.(calificacion := star)
  {
    d.(calificacion := star)
  }

  /** Typing the comment. */
  function TypeComment(d: RatingDialog, text: string): (r: RatingDialog)
    ensures r == d.(comentario := text)
  {
    d.(comentario := text)
  }

  /** The request `calificarPedido(id, calificacion, comentario)`. */
  datatype RatingRequest = RatingRequest(pedido: int, calificacion: int, comentario: string)

  const MsgSelecciona := "⚠️ Por favor selecciona una calificación"

  /** What `handleEnviarCalificacion` does before the network call: with no
      selected order or no stars it only warns; otherwise it sends the
      rating. `sent` says whether the server accepted it, which closes the
      dialog. */
  datatype SubmitResult = SubmitResult(request: Option<RatingRequest>, warning: Option<string>, dialog: RatingDialog)

  function SubmitRating(d: RatingDialog, sent: bool): (r: SubmitResult)
    ensures (d.selected.None? || d.calificacion == 0) <==> r.request.None?
    ensures r.request.None? ==> r.warning == Some(MsgSelecciona) && r.dialog == d
    ensures r.request.Some? ==>
              r.request.value == RatingRequest(d.selected.value.id, d.calificacion, d.comentario) &&
              r.warning.None? &&
              r.dialog == d.(open := !sent)
  {
    if d.selected.None? || d.calificacion == 0 then SubmitResult(None, Some(MsgSelecciona), d)
    else SubmitResult(Some(RatingRequest(d.selected.value.id, d.calificacion, d.comentario)), None,
                      d.(open := !sent))
  }

  /** Opening the dialog always forgets an earlier choice: submitting right
      after opening only warns, whatever had been chosen before. */
  lemma OpenThenSubmitWarns(d: RatingDialog, p: Pedido, sent: bool)
    ensures SubmitRating(OpenRating(d, p), sent).request.None?
    ensures SubmitRating(OpenRating(d, p), sent).warning == Some(MsgSelecciona)
  {
  }

  /** Opening, choosing stars and typing a comment sends exactly that rating
      for the opened order. */
  lemma OpenChooseSubmit(d: RatingDialog, p: Pedido, star: int, text: string, sent: bool)
    requires 1 <= star <= 5
    ensures SubmitRating(TypeComment(ChooseStar(OpenRating(d, p), star), text), sent).request ==
            Some(RatingRequest(p.id, star, text))
  {
  }

  /** `handleCancelar`: after the user confirms, the state change to
      'cancelado' is requested for that order; otherwise nothing is sent. */
  function CancelRequest(p: Pedido, confirmed: bool): (r: Option<(int, PedidoEstado)>)
    ensures r.Some? <==> confirmed
    ensures r.Some? ==> r.value == (p.id, Cancelado)
  {
    if confirmed then Some((p.id, Cancelado)) else None
  }

  /** The badge table of `getEstadoBadgeClass`. */
  const Badges: map<string, string> := map[
    "recibido" := "badge-warning",
    "confirmado" := "badge-info",
    "en_preparacion" := "badge-processing",
    "listo_entrega" := "badge-shipped",
    "en_ruta" := "badge-transit",
    "entregado" := "badge-success",
    "cancelado" := "badge-error"]

  /** `classes[estado] || 'badge-default'`. */
  function Badge(estado: string): (r: string)
    ensures ParseEstado(estado).None? ==> r == "badge-default"
  {
    if estado in Badges && Badges[estado] != "" then Badges[estado] else "badge-default"
  }

  /** The class list of the badge: `status-badge` and the state's class. */
  function BadgeClass(estado: string): (r: string)
    ensures |r| > 13 && r[..13] == "status-badge " && r[13..] == Badge(estado)
  {
    "status-badge " + Badge(estado)
  }

  /** Each of the seven states has its own badge, none of them the default. */
  lemma BadgesDistinct(a: PedidoEstado, b: PedidoEstado)
    ensures BadgeClass(a.Name()) == BadgeClass(b.Name()) ==> a == b
    ensures Badge(a.Name()) != "badge-default"
  {
    assert BadgeClass(a.Name()) == BadgeClass(b.Name()) ==> Badge(a.Name()) == Badge(b.Name());
  }

  /** The label table of `getEstadoLabel`. */
  const Labels: map<string, string> := map[
    "recibido" := "Recibido",
    "confirmado" := "Confirmado",
    "en_preparacion" := "En Preparación",
    "listo_entrega" := "Listo para Entrega",
    "en_ruta" := "En Ruta",
    "entregado" := "Entregado",
    "cancelado" := "Cancelado"]

  /** `labels[estado] || estado`: the table's label, else the raw text. */
  function Label(estado: string): (r: string)
    ensures ParseEstado(estado).None? ==> r == estado
    ensures estado != "" ==> r != ""
  {
    if estado in Labels && Labels[estado] != "" then Labels[estado] else estado
  }

  /** Each state has its own label, and no label is a state's wire name. */
  lemma LabelsDistinct(a: PedidoEstado, b: PedidoEstado)
    ensures Label(a.Name()) == Label(b.Name()) ==> a == b
    ensures ParseEstado(Label(a.Name())).None?
  {
  }

  /** The filter buttons are 'Todos' and the seven state names, each once. */
  lemma EstadosButtons(st: PedidoEstado)
    ensures st.Name() in Estados && st.Name() != Todos
    ensures forall i :: 1 <= i < |Estados| ==> ParseEstado(Estados[i]).Some?
  {
  }
}
