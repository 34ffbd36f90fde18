/** The shared record shapes of src/types.ts that the modelled pages read:
    users, catalogue plants, orders and their seven states, and the
    order-creation request. Only the fields the client logic reads are kept. */
module Types {
  import opened Wrappers

  /** A user; `roles` holds the role names the route guard checks. */
  datatype Usuario = Usuario(id: int, email: string, nombreCompleto: string, roles: seq<string>)

  datatype CategoriaPlanta = CategoriaPlanta(id: int, nombre: string)

  /** A catalogue plant (CatalogoPilon). The price stays the decimal text
      the server sends. */
  datatype CatalogoPilon = CatalogoPilon(
    id: int,
    nombreComun: string,
    nombreCientifico: Option<string>,
    categoria: Option<CategoriaPlanta>,
    descripcion: Option<string>,
    precioUnitario: string)

  /** The seven states of an order. */
  datatype PedidoEstado =
    | Recibido | Confirmado | EnPreparacion | ListoEntrega | EnRuta | Entregado | Cancelado
  {
    function Name(): string {
      match this
      case Recibido => "recibido"
      case Confirmado => "confirmado"
      case EnPreparacion => "en_preparacion"
      case ListoEntrega => "listo_entrega"
      case EnRuta => "en_ruta"
      case Entregado => "entregado"
      case Cancelado => "cancelado"
    }
  }

  /** The state named by a wire string, if any. */
  function ParseEstado(s: string): (r: Option<PedidoEstado>)
    ensures r.Some? ==> r.value.Name() == s
  {
    match s
    case "recibido" => Some(Recibido)
    case "confirmado" => Some(Confirmado)
    case "en_preparacion" => Some(EnPreparacion)
    case "listo_entrega" => Some(ListoEntrega)
    case "en_ruta" => Some(EnRuta)
    case "entregado" => Some(Entregado)
    case "cancelado" => Some(Cancelado)
    case _ => None
  }

  /** Every state is read back from its wire name, so the names are distinct. */
  lemma ParseEstadoName(st: PedidoEstado)
    ensures ParseEstado(st.Name()) == Some(st)
  {
  }

  /** An order as the list page reads it. */
  datatype Pedido = Pedido(id: int, estado: PedidoEstado, calificacion: Option<int>)

  datatype TipoPago = Transferencia | ContraEntrega | Efectivo | Tarjeta
  {
    function Name(): string {
      match this
      case Transferencia => "transferencia"
      case ContraEntrega => "contra_entrega"
      case Efectivo => "efectivo"
      case Tarjeta => "tarjeta"
    }
  }

  /** One order line of a creation request. */
  datatype DetalleLinea = DetalleLinea(pilon: int, cantidad: int, precioUnitario: string)

  /** A payment receipt file; only its identity matters to the client. */
  datatype Archivo = Archivo(nombre: string)

  /** CreatePedidoRequest; an absent optional field is None. The municipality
      is the text of the selected option: the form stores the select's value
      as it comes, and the declared number type is not enforced. */
  datatype CreatePedidoRequest = CreatePedidoRequest(
    nombreContacto: string,
    telefonoContacto: string,
    nombresCliente: Option<string>,
    apellidosCliente: Option<string>,
    nitFacturacion: Option<string>,
    nombreFacturacion: Option<string>,
    direccionFacturacion: Option<string>,
    direccionEntrega: string,
    municipioEntrega: string,
    referenciaEntrega: Option<string>,
    centroPoblado: Option<string>,
    tipoPago: TipoPago,
    comentarioPago: Option<string>,
    numeroDeposito: Option<string>,
    fechaDeposito: Option<string>,
    montoDeposito: Option<string>,
    comprobantePago: Option<Archivo>,
    detalles: seq<DetalleLinea>,
    observaciones: Option<string>,
    canalOrigen: Option<string>)
}
