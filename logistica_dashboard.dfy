/** The logistics dashboard (src/pages/LogisticaDashboard.tsx): the list of
    active routes, its own four-state badge and label lookups, and a progress
    bar computed without the zero guard the other pages have. */
module LogisticaDashboard {
  import opened LogisticaService
  import DetalleRuta

  predicate IsActive(r: RutaEntrega) {
    r.estado == EnProgreso || r.estado == Planificada
  }

  /** `rutas.filter(r => r.estado === 'en_progreso' || r.estado === 'planificada')`. */
  function ActiveRoutes(rutas: seq<RutaEntrega>): (r: seq<RutaEntrega>)
    ensures |r| <= |rutas|
    ensures forall x :: x in r <==> x in rutas && IsActive(x)
  {
    if rutas == [] then []
    else if IsActive(rutas[0]) then [rutas[0]] + ActiveRoutes(rutas[1..])
    else ActiveRoutes(rutas[1..])
  }

  /** The filter keeps the original order: filtering a concatenation is the
      concatenation of the filtered parts. */
  lemma {:induction false} ActiveRoutesAppend(a: seq<RutaEntrega>, b: seq<RutaEntrega>)
    ensures ActiveRoutes(a + b) == ActiveRoutes(a) + ActiveRoutes(b)
  {
    if a != [] {
      assert (a + b)[1..] == a[1..] + b;
      ActiveRoutesAppend(a[1..], b);
    } else {
      assert a + b == b;
    }
  }

  /** Filtering twice is filtering once. */
  lemma {:induction false} ActiveRoutesIdempotent(rutas: seq<RutaEntrega>)
    ensures ActiveRoutes(ActiveRoutes(rutas)) == ActiveRoutes(rutas)
  {
    if rutas != [] {
      ActiveRoutesIdempotent(rutas[1..]);
      if IsActive(rutas[0]) {
        var rest := ActiveRoutes(rutas[1..]);
        assert ([rutas[0]] + rest)[1..] == rest;
      }
    }
  }

  /** The dashboard's `getEstadoBadgeClass`: only four states have a class. */
  function BadgeClass(estado: string): (r: string)
    ensures r != "badge-default" <==> estado in {"planificada", "en_progreso", "completada", "cancelada"}
  {
    match estado
    case "planificada" => "badge-warning"
    case "en_progreso" => "badge-info"
    case "completada" => "badge-success"
    case "cancelada" => "badge-danger"
    case _ => "badge-default"
  }

  /** Where the dashboard's badges differ from the detail page's: a route in
      progress gets the class the detail page gives an assigned one, and the
      assigned and the two other moving states get the default. */
  lemma BadgeVersusDetalle(st: RouteState)
    ensures st in {Planificada, Completada, Cancelada} ==>
              BadgeClass(st.Name()) == DetalleRuta.BadgeClass(st.Name())
    ensures BadgeClass(EnProgreso.Name()) == DetalleRuta.BadgeClass(Asignada.Name())
    ensures BadgeClass(EnProgreso.Name()) != DetalleRuta.BadgeClass(EnProgreso.Name())
    ensures st in {Asignada, EnTransito, Entregando} ==> BadgeClass(st.Name()) == "badge-default"
  {
  }

  /** The dashboard's `getEstadoLabel`: four labels, any other text verbatim. */
  function Label(estado: string): (r: string)
    ensures estado !in {"planificada", "en_progreso", "completada", "cancelada"} ==> r == estado
  {
    match estado
    case "planificada" => "Planificada"
    case "en_progreso" => "En Progreso"
    case "completada" => "Completada"
    case "cancelada" => "Cancelada"
    case _ => estado
  }

  /** The dashboard's labels agree with the detail page's on its four states;
      the three others appear as their raw wire names. */
  lemma LabelVersusDetalle(st: RouteState)
    ensures st in {Planificada, EnProgreso, Completada, Cancelada} ==>
              Label(st.Name()) == DetalleRuta.Label(st.Name())
    ensures st in {Asignada, EnTransito, Entregando} ==>
              Label(st.Name()) == st.Name() != DetalleRuta.Label(st.Name())
  {
  }

  /** A JavaScript division result: a finite number, or NaN (0/0) or
      Infinity (n/0 for n > 0), both of which the style ignores. */
  datatype Ratio = Finite(value: real) | NaN | Infinity | NegInfinity

  /** `(pedidos_entregados / total_pedidos) * 100`, with no zero guard. */
  function Progress(pedidosEntregados: int, totalPedidos: int): (r: Ratio)
    ensures totalPedidos != 0 <==> r.Finite?
    ensures totalPedidos == 0 && pedidosEntregados == 0 ==> r.NaN?
  {
    if totalPedidos != 0 then Finite((pedidosEntregados as real / totalPedidos as real) * 100.0)
    else if pedidosEntregados == 0 then NaN
    else if pedidosEntregados > 0 then Infinity
    else NegInfinity
  }

  /** On a route with orders the dashboard shows the detail page's progress;
      on an empty route it has no number to show, where the detail page shows 0. */
  lemma ProgressVersusDetalle(pedidosEntregados: int, totalPedidos: nat)
    ensures totalPedidos > 0 ==>
              Progress(pedidosEntregados, totalPedidos) ==
              Finite(DetalleRuta.Progress(pedidosEntregados, totalPedidos))
    ensures totalPedidos == 0 ==>
              !Progress(pedidosEntregados, totalPedidos).Finite? &&
              DetalleRuta.Progress(pedidosEntregados, totalPedidos) == 0.0
  {
  }
}
