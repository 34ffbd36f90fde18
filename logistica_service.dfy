/** The logistics API client (src/api/logisticaService.ts): the shapes of a
    delivery route and its member orders, the seven route states, and the
    requests whose query strings the client builds. The routes' lifecycle
    itself runs on the server behind these endpoints. */
module LogisticaService {
  import opened Text
  import opened Wrappers
  import opened Url

  /** The seven states a route can be in. */
  datatype RouteState =
    | Planificada | Asignada | EnProgreso | EnTransito | Entregando | Completada | Cancelada
  {
    /** The wire name of the state. */
    function Name(): string {
      match this
      case Planificada => "planificada"
      case Asignada => "asignada"
      case EnProgreso => "en_progreso"
      case EnTransito => "en_transito"
      case Entregando => "entregando"
      case Completada => "completada"
      case Cancelada => "cancelada"
    }
  }

  /** The state a wire name stands for, if any. */
  function ParseRouteState(s: string): (r: Option<RouteState>)
    ensures r.Some? ==> r.value.Name() == s
  {
    match s
    case "planificada" => Some(Planificada)
    case "asignada" => Some(Asignada)
    case "en_progreso" => Some(EnProgreso)
    case "en_transito" => Some(EnTransito)
    case "entregando" => Some(Entregando)
    case "completada" => Some(Completada)
    case "cancelada" => Some(Cancelada)
    case _ => None
  }

  /** Every state is recognised by its own name, so the names are distinct. */
  lemma ParseRouteStateName(st: RouteState)
    ensures ParseRouteState(st.Name()) == Some(st)
  {
  }

  /** The three vehicle kinds. */
  datatype VehiculoTipo = Camion | Pickup | Panel

  /** A vehicle as the server returns it; the decimal measures stay text. */
  datatype Vehiculo = Vehiculo(
    id: int,
    placa: string,
    tipo: VehiculoTipo,
    marca: string,
    modelo: string,
    anio: Option<int>,
    capacidadCargaKg: string,
    capacidadVolumenM3: Option<string>,
    largoM: Option<string>,
    anchoM: Option<string>,
    altoM: Option<string>,
    transportista: Option<int>,
    observaciones: string,
    activo: bool)

  /** A carrier; only the fields the client reads are kept. */
  datatype Transportista = Transportista(id: int, nombre: string)

  /** One order inside a route (PedidoRuta). Weights and volumes stay the
      decimal strings the server sends. */
  datatype PedidoRuta = PedidoRuta(
    id: int,
    pedido: int,
    pedidoCodigo: string,
    ordenEntrega: int,
    entregado: bool,
    pesoEstimadoKg: string,
    volumenEstimadoM3: string,
    prioridad: int)

  /** A delivery route as the server returns it (RutaEntrega). */
  datatype RutaEntrega = RutaEntrega(
    id: int,
    codigoRuta: string,
    nombreRuta: string,
    estado: RouteState,
    vehiculo: Option<int>,
    etiquetas: seq<string>,
    pedidos: seq<PedidoRuta>,
    totalPedidos: nat,
    pedidosEntregados: nat)

  /** The optional filters of `getRutas`. */
  datatype RutasFiltro = RutasFiltro(estado: Option<string>, departamento: Option<int>)

  /** `filtros?.estado` is truthy. */
  predicate EstadoGiven(f: Option<RutasFiltro>) {
    f.Some? && f.value.estado.Some? && f.value.estado.value != ""
  }

  /** `filtros?.departamento` is truthy: present and not 0. */
  predicate DepartamentoGiven(f: Option<RutasFiltro>) {
    f.Some? && f.value.departamento.Some? && f.value.departamento.value != 0
  }

  /** The estado filter as it should reach the server, if given. */
  function EstadoValue(f: Option<RutasFiltro>): Option<string> {
    if EstadoGiven(f) then Some(f.value.estado.value) else None
  }

  /** The departamento filter as it should reach the server, if given. */
  function DepartamentoValue(f: Option<RutasFiltro>): Option<string> {
    if DepartamentoGiven(f) then Some(IntToString(f.value.departamento.value)) else None
  }

  /** The query parameters of `getRutas`, appended one at a time: each
      filter that is given appears once under its own key, estado first. */
  method RutasQuery(filtros: Option<RutasFiltro>) returns (params: seq<Param>)
    ensures filtros.None? ==> params == []
    ensures |params| <= 2
    ensures |params| == (if EstadoGiven(filtros) then 1 else 0) + (if DepartamentoGiven(filtros) then 1 else 0)
    ensures Get(params, "estado") == EstadoValue(filtros)
    ensures Get(params, "departamento") == DepartamentoValue(filtros)
    ensures EstadoGiven(filtros) ==> params[0].key == "estado"
    ensures forall i :: 0 <= i < |params| ==>
              (params[i].key == "estado" && EstadoValue(filtros) == Some(params[i].value)) ||
              (params[i].key == "departamento" && DepartamentoValue(filtros) == Some(params[i].value))
  {
    params := [];
    if EstadoGiven(filtros) {
      params := params + [Param("estado", filtros.value.estado.value)];
    }
    if DepartamentoGiven(filtros) {
      params := params + [Param("departamento", IntToString(filtros.value.departamento.value))];
    }
  }

  /** The select offers only state names, which carry no '&'. */
  predicate PlainFiltro(f: Option<RutasFiltro>) {
    EstadoGiven(f) ==> '&' !in f.value.estado.value
  }

  /** The URL `getRutas` requests: with no filters its query string is empty;
      otherwise the server reads back exactly the filters that were given. */
  method RutasUrl(filtros: Option<RutasFiltro>) returns (url: string)
    ensures filtros.None? ==> url == "/rutas/?"
    ensures PlainFiltro(filtros) ==>
              Get(ParseQuery(QueryOf(url)), "estado") == EstadoValue(filtros)
    ensures PlainFiltro(filtros) ==>
              Get(ParseQuery(QueryOf(url)), "departamento") == DepartamentoValue(filtros)
  {
    var params := RutasQuery(filtros);
    url := "/rutas/?" + Serialize(params);
    if PlainFiltro(filtros) {
      forall i | 0 <= i < |params| ensures Plain(params[i]) {
        if params[i].key == "departamento" {
          IntToStringHasNo(filtros.value.departamento.value, '&');
        }
      }
      ReadBack("/rutas/?", params);
    }
  }

  /** `getPedidosDisponibles` always asks for the orders ready for delivery. */
  const PedidosDisponiblesUrl := "/pedidos/?estado=listo_entrega"

  /** `getVehiculosDisponibles` always asks for the active vehicles. */
  const VehiculosDisponiblesUrl := "/vehiculos/?activo=true"

  lemma PedidosDisponiblesShape(url: string)
    requires url == PedidosDisponiblesUrl
    ensures url == "/pedidos/?" + Serialize([Param("estado", "listo_entrega")])
  {
    assert Serialize([Param("estado", "listo_entrega")]) == "estado=listo_entrega";
  }

  lemma VehiculosDisponiblesShape(url: string)
    requires url == VehiculosDisponiblesUrl
    ensures url == "/vehiculos/?" + Serialize([Param("activo", "true")])
  {
    assert Serialize([Param("activo", "true")]) == "activo=true";
  }

  /** The orders offered for a new route are filtered on `listo_entrega` only. */
  lemma PedidosDisponiblesFilter(url: string)
    requires url == PedidosDisponiblesUrl
    ensures ParseQuery(QueryOf(url)) == [Param("estado", "listo_entrega")]
  {
    PedidosDisponiblesShape(url);
    ReadBack("/pedidos/?", [Param("estado", "listo_entrega")]);
  }

  /** The vehicles offered for a route are filtered on `activo=true` only. */
  lemma VehiculosDisponiblesFilter(url: string)
    requires url == VehiculosDisponiblesUrl
    ensures ParseQuery(QueryOf(url)) == [Param("activo", "true")]
  {
    VehiculosDisponiblesShape(url);
    ReadBack("/vehiculos/?", [Param("activo", "true")]);
  }
}
