/** The checkout page (src/pages/CreateOrder.tsx): the two checks made
    before an order is sent, the CreatePedidoRequest built from the form and
    the cart, what a create outcome does to the cart, the quantity field of
    the order summary and its plant total. */
module CreateOrder {
  import opened Wrappers
  import opened Text
  import opened Types
  import opened CartItems
  import CartContext

  /** The page's form state; every field is the text typed or selected. */
  datatype OrderForm = OrderForm(
    nombresCliente: string,
    apellidosCliente: string,
    nombreContacto: string,
    telefonoContacto: string,
    nitFacturacion: string,
    nombreFacturacion: string,
    direccionFacturacion: string,
    direccionEntrega: string,
    centroPoblado: string,
    municipioEntrega: string,
    referenciaEntrega: string,
    tipoPago: TipoPago,
    comentarioPago: string,
    numeroDeposito: string,
    fechaDeposito: string,
    montoDeposito: string,
    observaciones: string)

  const MsgCarritoVacio := "El carrito está vacío. Agrega productos antes de crear el pedido."
  const MsgMunicipio := "Selecciona un municipio de entrega."
  const MsgErrorGenerico := "Error al crear el pedido. Por favor, intenta de nuevo."
  const MsgCreado := "✅ Pedido creado exitosamente"
  const PedidosPath := "/pedidos"

  /** The checks of `handleSubmit`: an empty cart first, then a missing municipality. */
  function Validate(items: seq<CartItem>, f: OrderForm): (r: Option<string>)
    ensures items == [] ==> r == Some(MsgCarritoVacio)
    ensures items != [] && f.municipioEntrega == "" ==> r == Some(MsgMunicipio)
    ensures r.None? <==> items != [] && f.municipioEntrega != ""
  {
    if items == [] then Some(MsgCarritoVacio)
    else if f.municipioEntrega == "" then Some(MsgMunicipio)
    else None
  }

  /** A text with no white space at either end. */
  predicate Bare(s: string) {
    s == [] || (!IsSpace(s[0]) && !IsSpace(s[|s| - 1]))
  }

  /** Trimming the full name changes nothing when both parts are given and
      neither has white space at its ends. */
  lemma TrimFullName(nombres: string, apellidos: string)
    requires nombres != "" && apellidos != "" && Bare(nombres) && Bare(apellidos)
    ensures Trim(nombres + " " + apellidos) == nombres + " " + apellidos
  {
    var full := nombres + " " + apellidos;
    assert full[0] == nombres[0];
    assert SkipSpaces(full) == full;
    assert full[|full| - 1] == apellidos[|apellidos| - 1];
    assert TrimEnd(full) == full;
  }

  /** `nombre_contacto || `${nombres} ${apellidos}`.trim()`: the contact name
      typed, else the client's full name. */
  function ContactName(f: OrderForm): (r: string)
    ensures f.nombreContacto != "" ==> r == f.nombreContacto
    ensures f.nombreContacto == "" && f.nombresCliente != "" && f.apellidosCliente != "" &&
            Bare(f.nombresCliente) && Bare(f.apellidosCliente) ==>
              r == f.nombresCliente + " " + f.apellidosCliente
    ensures f.nombreContacto == "" ==> r == Trim(f.nombresCliente + " " + f.apellidosCliente)
    ensures f.nombreContacto == "" && f.nombresCliente == "" && f.apellidosCliente == "" ==> r == ""
  {
    if f.nombreContacto != "" then f.nombreContacto
    else if f.nombresCliente != "" && f.apellidosCliente != "" &&
            Bare(f.nombresCliente) && Bare(f.apellidosCliente) then
      TrimFullName(f.nombresCliente, f.apellidosCliente);
      Trim(f.nombresCliente + " " + f.apellidosCliente)
    else
      assert f.nombresCliente == "" && f.apellidosCliente == "" ==> f.nombresCliente + " " + f.apellidosCliente == " ";
      Trim(f.nombresCliente + " " + f.apellidosCliente)
  }

  /** `value || undefined`: an empty text is left out of the request. */
  function OptionalText(s: string): (r: Option<string>)
    ensures r.None? <==> s == ""
    ensures r.Some? ==> r.value == s
  {
    if s == "" then None else Some(s)
  }

  /** The order line of one cart entry. */
  function LineaOf(item: CartItem): DetalleLinea {
    DetalleLinea(item.planta.id, item.cantidad, item.planta.precioUnitario)
  }

  /** `items.map(...)`: one order line per cart entry, in cart order. */
  function Detalles(items: seq<CartItem>): (r: seq<DetalleLinea>)
    ensures |r| == |items|
    ensures forall i :: 0 <= i < |items| ==> r[i] == LineaOf(items[i])
  {
    if items == [] then [] else [LineaOf(items[0])] + Detalles(items[1..])
  }

  /** The number of plants the order lines ask for. */
  function LineasTotal(ds: seq<DetalleLinea>): int {
    if ds == [] then 0 else ds[0].cantidad + LineasTotal(ds[1..])
  }

  /** The lines ask for exactly as many plants as the summary's plant total
      (the cart's `getTotalItems` sum). */
  lemma {:induction false} DetallesTotal(items: seq<CartItem>)
    ensures LineasTotal(Detalles(items)) == TotalItems(items)
  {
    if items != [] {
      assert Detalles(items)[1..] == Detalles(items[1..]);
      DetallesTotal(items[1..]);
    }
  }

  /** A cart with unique plant ids yields lines with unique `pilon` ids. */
  lemma DetallesUnique(items: seq<CartItem>)
    requires UniqueIds(items)
    ensures forall i, j :: 0 <= i < j < |items| ==> Detalles(items)[i].pilon != Detalles(items)[j].pilon
  {
    var ds := Detalles(items);
    forall i, j | 0 <= i < j < |items| ensures ds[i].pilon != ds[j].pilon {
      assert ds[i] == LineaOf(items[i]) && ds[j] == LineaOf(items[j]);
    }
  }

  /** The request of `handleSubmit`: the form's texts as given, the contact
      name fallback, empty deposit date and amount left out, the receipt
      file if one was chosen, the cart's lines and the channel 'web'. */
  function BuildRequest(f: OrderForm, items: seq<CartItem>, comprobante: Option<Archivo>): (r: CreatePedidoRequest)
    ensures r.nombreContacto == ContactName(f)
    ensures r.nombresCliente == Some(f.nombresCliente) && r.apellidosCliente == Some(f.apellidosCliente)
    ensures r.nitFacturacion == Some(f.nitFacturacion) && r.nombreFacturacion == Some(f.nombreFacturacion)
    ensures r.direccionFacturacion == Some(f.direccionFacturacion)
    ensures r.referenciaEntrega == Some(f.referenciaEntrega) && r.centroPoblado == Some(f.centroPoblado)
    ensures r.comentarioPago == Some(f.comentarioPago) && r.numeroDeposito == Some(f.numeroDeposito)
    ensures r.observaciones == Some(f.observaciones)
    ensures r.fechaDeposito == OptionalText(f.fechaDeposito)
    ensures r.montoDeposito == OptionalText(f.montoDeposito)
    ensures r.fechaDeposito.None? <==> f.fechaDeposito == ""
    ensures r.montoDeposito.None? <==> f.montoDeposito == ""
    ensures r.canalOrigen == Some("web")
    ensures r.comprobantePago == comprobante
    ensures r.telefonoContacto == f.telefonoContacto && r.direccionEntrega == f.direccionEntrega
    ensures r.municipioEntrega == f.municipioEntrega && r.tipoPago == f.tipoPago
    ensures r.detalles == Detalles(items)
    ensures |r.detalles| == |items| && LineasTotal(r.detalles) == TotalItems(items)
  {
    DetallesTotal(items);
    CreatePedidoRequest(
      nombreContacto := ContactName(f),
      telefonoContacto := f.telefonoContacto,
      nombresCliente := Some(f.nombresCliente),
      apellidosCliente := Some(f.apellidosCliente),
      nitFacturacion := Some(f.nitFacturacion),
      nombreFacturacion := Some(f.nombreFacturacion),
      direccionFacturacion := Some(f.direccionFacturacion),
      direccionEntrega := f.direccionEntrega,
      municipioEntrega := f.municipioEntrega,
      referenciaEntrega := Some(f.referenciaEntrega),
      centroPoblado := Some(f.centroPoblado),
      tipoPago := f.tipoPago,
      comentarioPago := Some(f.comentarioPago),
      numeroDeposito := Some(f.numeroDeposito),
      fechaDeposito := OptionalText(f.fechaDeposito),
      montoDeposito := OptionalText(f.montoDeposito),
      comprobantePago := comprobante,
      detalles := Detalles(items),
      observaciones := Some(f.observaciones),
      canalOrigen := Some("web"))
  }

  /** The reply to `createPedido`: the order is created, or the request
      fails with the server's `detail` and `message` texts, if any. */
  datatype PedidoOutcome = Created | Failed(detail: Option<string>, message: Option<string>)

  /** `detail || message || generic text`: an empty string is falsy. */
  function ErrorMessage(detail: Option<string>, message: Option<string>): (r: string)
    ensures r != ""
    ensures detail.Some? && detail.value != "" ==> r == detail.value
    ensures (detail.None? || detail.value == "") && message.Some? && message.value != "" ==> r == message.value
    ensures (detail.None? || detail.value == "") && (message.None? || message.value == "") ==>
              r == MsgErrorGenerico
  {
    if detail.Some? && detail.value != "" then detail.value
    else if message.Some? && message.value != "" then message.value
    else MsgErrorGenerico
  }

  /** `handleSubmit`: a failed check shows its message, sends nothing and
      leaves the cart alone; otherwise the request is sent, and the cart is
      emptied, the success alert raised and the orders page opened only
      when the order is created. A failure keeps the cart and shows the
      server's message. */
  method Submit(cart: CartContext.CartProvider, f: OrderForm, comprobante: Option<Archivo>,
                outcome: PedidoOutcome)
    returns (sent: Option<CreatePedidoRequest>, error: string, alertText: Option<string>,
             navigateTo: Option<string>)
    modifies cart
    ensures Validate(old(cart.items), f).Some? ==>
              sent.None? && error == Validate(old(cart.items), f).value &&
              alertText.None? && navigateTo.None? && cart.items == old(cart.items)
    ensures Validate(old(cart.items), f).None? ==>
              sent == Some(BuildRequest(f, old(cart.items), comprobante))
    ensures sent.Some? && outcome.Created? ==>
              cart.items == [] && error == "" && alertText == Some(MsgCreado) &&
              navigateTo == Some(PedidosPath)
    ensures sent.Some? && outcome.Failed? ==>
              cart.items == old(cart.items) && alertText.None? && navigateTo.None? &&
              error == ErrorMessage(outcome.detail, outcome.message)
  {
    var check := Validate(cart.items, f);
    if check.Some? {
      return None, check.value, None, None;
    }
    error := "";
    var data := BuildRequest(f, cart.items, comprobante);
    sent := Some(data);
    match outcome
    case Created =>
      cart.Clear();
      alertText := Some(MsgCreado);
      navigateTo := Some(PedidosPath);
    case Failed(detail, message) =>
      error := ErrorMessage(detail, message);
      alertText := None;
      navigateTo := None;
  }

  /** The quantity field's `parseInt(value) || 1`: a number that is not 0,
      else 1. */
  function QuantityInput(text: string): (r: int)
    ensures r != 0
    ensures ParseInt(text).Truthy() ==> r == ParseInt(text).v
    ensures !ParseInt(text).Truthy() ==> r == 1
  {
    var n := ParseInt(text);
    if n.Truthy() then n.v else 1
  }

  /** A positive quantity typed into the field reads back as that quantity. */
  lemma QuantityInputOf(n: int)
    requires n > 0
    ensures QuantityInput(IntToString(n)) == n
  {
    ParseIntToString(n);
  }

  /** `handleQuantityChange`: only a positive quantity reaches
      `updateQuantity`, so editing the field never removes an entry; the
      entries, their plants and their order stay, and only the edited
      plant's quantity can change. */
  method ChangeQuantity(cart: CartContext.CartProvider, plantaId: int, text: string)
    modifies cart
    ensures |cart.items| == |old(cart.items)|
    ensures forall i :: 0 <= i < |cart.items| ==>
              cart.items[i].planta == old(cart.items)[i].planta &&
              (cart.items[i].planta.id != plantaId ==> cart.items[i] == old(cart.items)[i])
    ensures QuantityInput(text) > 0 ==> cart.items == UpdateQuantity(old(cart.items), plantaId, QuantityInput(text))
    ensures QuantityInput(text) < 0 ==> cart.items == old(cart.items)
  {
    var q := QuantityInput(text);
    if q > 0 {
      cart.Update(plantaId, q);
    }
  }

  /** Whatever is typed, every cart entry keeps a positive quantity when it
      had one: the field can neither remove an entry nor zero it. */
  lemma QuantityStaysPositive(items: seq<CartItem>, plantaId: int, text: string)
    requires forall i :: 0 <= i < |items| ==> items[i].cantidad > 0
    ensures var r := if QuantityInput(text) > 0 then UpdateQuantity(items, plantaId, QuantityInput(text)) else items;
            |r| == |items| && forall i :: 0 <= i < |r| ==> r[i].cantidad > 0
  {
  }
}
