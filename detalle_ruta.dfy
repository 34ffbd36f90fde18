/** The route detail page (src/pages/DetalleRuta.tsx): the state badge and
    label, the tag marker, the delivery progress, which route actions the
    state offers, and the priority column of the order table. The route's
    state itself changes only on the server, behind the action buttons. */
module DetalleRuta {
  import opened Text
  import opened Wrappers
  import opened LogisticaService

  /** The three states of a route that is out on the road. */
  const MovingStates: set<string> := {"en_progreso", "en_transito", "entregando"}

  /** `getEstadoBadgeClass`: one class per state, shared by the moving
      states, and a default for any other text. */
  function BadgeClass(estado: string): (r: string)
    ensures r == "badge-primary" <==> estado in MovingStates
    ensures r == "badge-default" <==> ParseRouteState(estado).None?
  {
    match estado
    case "planificada" => "badge-warning"
    case "asignada" => "badge-info"
    case "en_progreso" => "badge-primary"
    case "en_transito" => "badge-primary"
    case "entregando" => "badge-primary"
    case "completada" => "badge-success"
    case "cancelada" => "badge-danger"
    case _ => "badge-default"
  }

  /** Two states share a badge only when both are moving states. */
  lemma BadgeGroups(a: RouteState, b: RouteState)
    ensures BadgeClass(a.Name()) == BadgeClass(b.Name()) <==>
              a == b || (a.Name() in MovingStates && b.Name() in MovingStates)
  {
  }

  /** The label table of `getEstadoLabel`. */
  const Labels: map<string, string> := map[
    "planificada" := "Planificada",
    "asignada" := "Asignada",
    "en_progreso" := "En Progreso",
    "en_transito" := "En Tránsito",
    "entregando" := "Entregando",
    "completada" := "Completada",
    "cancelada" := "Cancelada"]

  /** `labels[estado] || estado`: the table's label, else the raw text. */
  function Label(estado: string): (r: string)
    ensures ParseRouteState(estado).None? ==> r == estado
    ensures estado != "" ==> r != ""
  {
    if estado in Labels && Labels[estado] != "" then Labels[estado] else estado
  }

  /** Every state has its own label, and no label is the wire name of a state. */
  lemma LabelsDistinct(a: RouteState, b: RouteState)
    ensures Label(a.Name()) == Label(b.Name()) ==> a == b
    ensures ParseRouteState(Label(a.Name())).None?
  {
  }

  /** The marker table of `getEtiquetaEmoji`: every entry is empty. */
  const Emojis: map<string, string> := map[
    "terraceria" := "",
    "lluvia" := "",
    "fragil" := "",
    "prioritario" := ""]

  /** `emojis[etiqueta] || '🏷️'`: since every table entry is the empty
      string, each tag, known or not, gets the default marker. */
  function EtiquetaEmoji(etiqueta: string): (r: string)
    ensures r == "🏷️"
  {
    if etiqueta in Emojis && Emojis[etiqueta] != "" then Emojis[etiqueta] else "🏷️"
  }

  /** The delivery progress in percent, guarded against an empty route. */
  function Progress(pedidosEntregados: int, totalPedidos: int): (r: real)
    ensures totalPedidos <= 0 ==> r == 0.0
    ensures totalPedidos > 0 ==> r * totalPedidos as real == pedidosEntregados as real * 100.0
  {
    if totalPedidos > 0 then (pedidosEntregados as real / totalPedidos as real) * 100.0 else 0.0
  }

  /** For a route whose delivered count does not exceed its total, the
      progress lies between 0 and 100, and is 100 exactly when all are delivered. */
  lemma ProgressBounds(pedidosEntregados: int, totalPedidos: int)
    requires 0 <= pedidosEntregados <= totalPedidos
    ensures 0.0 <= Progress(pedidosEntregados, totalPedidos) <= 100.0
    ensures totalPedidos > 0 ==>
              (Progress(pedidosEntregados, totalPedidos) == 100.0 <==> pedidosEntregados == totalPedidos)
  {
    if totalPedidos > 0 {
      var r := Progress(pedidosEntregados, totalPedidos);
      var t := totalPedidos as real;
      ScaleCompare(r, 100.0, t);
      ScaleCompare(100.0, r, t);
      ScaleCompare(0.0, r, t);
    }
  }

  /** Multiplying by a positive number keeps the order. */
  lemma ScaleCompare(a: real, b: real, t: real)
    requires t > 0.0
    ensures a <= b <==> a * t <= b * t
  {
    if a <= b {
      assert (b - a) * t >= 0.0;
    } else {
      assert (a - b) * t > 0.0;
    }
  }

  /** The buttons the header shows for a route. */
  datatype Acciones = Acciones(iniciar: bool, eliminar: bool, finalizar: bool)

  /** The header actions: start and delete a planned route, finish a moving
      one, nothing otherwise. */
  function AccionesFor(estado: string): (r: Acciones)
    ensures r.iniciar == r.eliminar
    ensures !(r.iniciar && r.finalizar)
    ensures r.iniciar <==> estado == "planificada"
    ensures r.finalizar <==> estado in MovingStates
  {
    var planned := estado == "planificada";
    Acciones(planned, planned,
             estado == "en_progreso" || estado == "en_transito" || estado == "entregando")
  }

  /** Per state: only a planned route can be started or deleted, only a
      moving route finished, and an assigned, completed or cancelled route
      offers nothing. */
  lemma AccionesByState(st: RouteState)
    ensures AccionesFor(st.Name()).iniciar <==> st == Planificada
    ensures AccionesFor(st.Name()).finalizar <==> st in {EnProgreso, EnTransito, Entregando}
    ensures st in {Asignada, Completada, Cancelada} ==>
              AccionesFor(st.Name()) == Acciones(false, false, false)
  {
  }

  /** The finish button appears exactly on the routes that wear the primary badge. */
  lemma FinalizarIffPrimary(estado: string)
    ensures AccionesFor(estado).finalizar <==> BadgeClass(estado) == "badge-primary"
  {
  }

  /** The priority column's text. */
  function PriorityLabel(prioridad: int): (r: string)
    ensures r == "Alta" <==> prioridad == 1
    ensures r == "Media" <==> prioridad != 1 && prioridad <= 3
    ensures r == "Normal" <==> prioridad > 3
  {
    if prioridad == 1 then "Alta" else if prioridad <= 3 then "Media" else "Normal"
  }

  /** The priority column's class, `prioridad-${prioridad || 5}`. */
  function PriorityClass(prioridad: int): (r: string)
    ensures |r| > 10 && r[..10] == "prioridad-"
    ensures ParseInt(r[10..]) == Int(if prioridad != 0 then prioridad else 5)
  {
    var n := if prioridad != 0 then prioridad else 5;
    ParseIntToString(n);
    var r := "prioridad-" + IntToString(n);
    assert r[10..] == IntToString(n);
    r
  }

  /** A falsy priority is styled as priority 5 yet labelled 'Media', the
      label of priorities 2 and 3. */
  lemma ZeroPriorityMismatch()
    ensures ParseInt(PriorityClass(0)[10..]) == Int(5)
    ensures PriorityLabel(0) == PriorityLabel(2) && PriorityLabel(5) == "Normal"
  {
  }
}
