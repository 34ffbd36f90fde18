/** `pedidoService.createPedido` (src/api/pedidoService.ts): an order with a
    payment receipt goes out as a multipart form filled entry by entry, one
    without as a JSON body. The two encodings carry the same order. */
module PedidoService {
  import opened Wrappers
  import opened Text
  import opened Types

  /** A form entry's value: text, or the receipt file. */
  datatype FormValue = TextValue(s: string) | FileValue(archivo: Archivo)

  /** One `formData.append(key, value)`. */
  datatype Entry = Entry(key: string, value: FormValue)

  /** The JSON body; an absent optional field is None (JSON leaves out
      undefined fields). The receipt is not part of it. */
  datatype JsonPedido = JsonPedido(
    nombreContacto: string,
    telefonoContacto: string,
    nombresCliente: Option<string>,
    apellidosCliente: Option<string>,
    nitFacturacion: Option<string>,
    nombreFacturacion: Option<string>,
    direccionFacturacion: Option<string>,
    direccionEntrega: string,
    centroPoblado: Option<string>,
    municipioEntrega: string,
    referenciaEntrega: Option<string>,
    tipoPago: string,
    comentarioPago: Option<string>,
    numeroDeposito: Option<string>,
    fechaDeposito: Option<string>,
    montoDeposito: Option<string>,
    observaciones: Option<string>,
    canalOrigen: string,
    detalles: seq<DetalleLinea>)

  /** What the request sends. */
  datatype Body = Multipart(entries: seq<Entry>) | Json(payload: JsonPedido)

  /** JavaScript truthiness of an optional text: present and non-empty. */
  predicate Truthy(o: Option<string>) {
    o.Some? && o.value != ""
  }

  /** `canal_origen || 'web'`. */
  function Canal(o: Option<string>): (r: string)
    ensures r != ""
    ensures Truthy(o) ==> r == o.value
    ensures !Truthy(o) ==> r == "web"
  {
    if Truthy(o) then o.value else "web"
  }

  // ---------------------------------------------------------------- JSON branch

  /** The JSON branch's payload: every field as given, the channel
      defaulted, and the order lines with their three fields in order. */
  function JsonPayload(d: CreatePedidoRequest): (r: JsonPedido)
    ensures r.detalles == d.detalles
    ensures r.canalOrigen == Canal(d.canalOrigen)
    ensures r.nombreContacto == d.nombreContacto && r.telefonoContacto == d.telefonoContacto
    ensures r.nombresCliente == d.nombresCliente && r.apellidosCliente == d.apellidosCliente
    ensures r.nitFacturacion == d.nitFacturacion && r.nombreFacturacion == d.nombreFacturacion
    ensures r.direccionFacturacion == d.direccionFacturacion
    ensures r.direccionEntrega == d.direccionEntrega && r.centroPoblado == d.centroPoblado
    ensures r.municipioEntrega == d.municipioEntrega && r.referenciaEntrega == d.referenciaEntrega
    ensures r.tipoPago == d.tipoPago.Name()
    ensures r.comentarioPago == d.comentarioPago && r.numeroDeposito == d.numeroDeposito
    ensures r.fechaDeposito == d.fechaDeposito && r.montoDeposito == d.montoDeposito
    ensures r.observaciones == d.observaciones
  {
    JsonPedido(
      d.nombreContacto, d.telefonoContacto, d.nombresCliente, d.apellidosCliente,
      d.nitFacturacion, d.nombreFacturacion, d.direccionFacturacion,
      d.direccionEntrega, d.centroPoblado, d.municipioEntrega, d.referenciaEntrega,
      d.tipoPago.Name(), d.comentarioPago, d.numeroDeposito, d.fechaDeposito, d.montoDeposito,
      d.observaciones, Canal(d.canalOrigen), d.detalles)
  }

  // ---------------------------------------------------------------- multipart branch

  /** One field of the header: its key and the value appended, None when
      the field is skipped. */
  datatype Field = Field(key: string, value: Option<FormValue>)

  /** A field appended unconditionally. */
  function Required(key: string, v: string): Field {
    Field(key, Some(TextValue(v)))
  }

  /** `if (value) formData.append(key, value)`: a field appended only when truthy. */
  function Optional(key: string, o: Option<string>): Field {
    Field(key, OptionalValue(o))
  }

  /** An optional text as a form value, kept only when truthy. */
  function OptionalValue(o: Option<string>): Option<FormValue> {
    if Truthy(o) then Some(TextValue(o.value)) else None
  }

  /** The header keys, in the order they are appended. */
  const HeaderKeys: seq<string> := [
    "nombre_contacto",
    "telefono_contacto",
    "nombres_cliente",
    "apellidos_cliente",
    "nit_facturacion",
    "nombre_facturacion",
    "direccion_facturacion",
    "direccion_entrega",
    "municipio_entrega",
    "referencia_entrega",
    "centro_poblado",
    "tipo_pago",
    "comentario_pago",
    "numero_deposito",
    "fecha_deposito",
    "monto_deposito",
    "comprobante_pago",
    "observaciones",
    "canal_origen"]

  /** The value appended under `HeaderKeys[j]`, None for a skipped field. */
  function HeaderValue(d: CreatePedidoRequest, receipt: Archivo, j: nat): Option<FormValue> {
    match j
    case 0 => Some(TextValue(d.nombreContacto))
    case 1 => Some(TextValue(d.telefonoContacto))
    case 2 => OptionalValue(d.nombresCliente)
    case 3 => OptionalValue(d.apellidosCliente)
    case 4 => OptionalValue(d.nitFacturacion)
    case 5 => OptionalValue(d.nombreFacturacion)
    case 6 => OptionalValue(d.direccionFacturacion)
    case 7 => Some(TextValue(d.direccionEntrega))
    case 8 => Some(TextValue(d.municipioEntrega))
    case 9 => OptionalValue(d.referenciaEntrega)
    case 10 => OptionalValue(d.centroPoblado)
    case 11 => Some(TextValue(d.tipoPago.Name()))
    case 12 => OptionalValue(d.comentarioPago)
    case 13 => OptionalValue(d.numeroDeposito)
    case 14 => OptionalValue(d.fechaDeposito)
    case 15 => OptionalValue(d.montoDeposito)
    case 16 => Some(FileValue(receipt))
    case 17 => OptionalValue(d.observaciones)
    case _ => Some(TextValue(Canal(d.canalOrigen)))
  }

  /** The header fields of a request, in the order they are appended. */
  function HeaderFields(d: CreatePedidoRequest, receipt: Archivo): (r: seq<Field>)
    ensures |r| == |HeaderKeys|
    ensures forall j :: 0 <= j < |r| ==> r[j].key == HeaderKeys[j]
  {
    seq(|HeaderKeys|, j requires 0 <= j < |HeaderKeys| => Field(HeaderKeys[j], HeaderValue(d, receipt, j)))
  }


  /** The entry a field appends: one, or none when the field is skipped. */
  function Piece(f: Field): seq<Entry> {
    if f.value.Some? then [Entry(f.key, f.value.value)] else []
  }

  /** The entries appended for `fs`, in order. */
  function Emit(fs: seq<Field>): seq<Entry> {
    if fs == [] then [] else Emit(fs[..|fs| - 1]) + Piece(fs[|fs| - 1])
  }

  /** The entries of `fs` are exactly the appended values of its fields. */
  lemma {:induction false} EmitMembers(fs: seq<Field>)
    ensures forall e | e in Emit(fs) ::
              exists i :: 0 <= i < |fs| && fs[i].value == Some(e.value) && fs[i].key == e.key
    ensures forall i :: 0 <= i < |fs| && fs[i].value.Some? ==> Entry(fs[i].key, fs[i].value.value) in Emit(fs)
  {
    if fs != [] {
      var init := fs[..|fs| - 1];
      EmitMembers(init);
      assert forall i :: 0 <= i < |init| ==> init[i] == fs[i];
    }
  }

  /** One more field appends its entry, if any, after the others. */
  lemma EmitSnoc(fs: seq<Field>, f: Field)
    ensures Emit(fs + [f]) == Emit(fs) + Piece(f)
  {
    assert (fs + [f])[..|fs|] == fs;
  }

  /** The entries appended before the order lines, in order. */
  function HeaderEntries(d: CreatePedidoRequest, receipt: Archivo): seq<Entry> {
    Emit(HeaderFields(d, receipt))
  }

  /** The key `detalles[i]field` of order line i. */
  function LineKey(i: nat, field: string): string {
    "detalles[" + IntToString(i) + "]" + field
  }

  /** The three entries of order line i: pilon, cantidad, precio_unitario. */
  function LineEntries(i: nat, d: DetalleLinea): seq<Entry> {
    [Entry(LineKey(i, "pilon"), TextValue(IntToString(d.pilon))),
     Entry(LineKey(i, "cantidad"), TextValue(IntToString(d.cantidad))),
     Entry(LineKey(i, "precio_unitario"), TextValue(d.precioUnitario))]
  }

  /** The entries of the lines `ds`, numbered from `start`. */
  function DetailEntries(ds: seq<DetalleLinea>, start: nat): (r: seq<Entry>)
    ensures |r| == 3 * |ds|
  {
    if ds == [] then [] else LineEntries(start, ds[0]) + DetailEntries(ds[1..], start + 1)
  }

  /** One more line at the end adds its three entries at the end. */
  lemma {:induction false} DetailEntriesSnoc(ds: seq<DetalleLinea>, d: DetalleLinea, start: nat)
    ensures DetailEntries(ds + [d], start) == DetailEntries(ds, start) + LineEntries(start + |ds|, d)
  {
    if ds == [] {
      assert [d][1..] == [];
    } else {
      assert (ds + [d])[1..] == ds[1..] + [d];
      DetailEntriesSnoc(ds[1..], d, start + 1);
    }
  }

  /** `if (value) formData.append(key, value)`. */
  method AppendIfTruthy(entries: seq<Entry>, key: string, o: Option<string>) returns (r: seq<Entry>)
    ensures r == entries + Piece(Optional(key, o))
    ensures Truthy(o) <==> |r| == |entries| + 1
  {
    r := entries;
    if o.Some? && o.value != "" {
      r := r + [Entry(key, TextValue(o.value))];
    }
  }

  /** The multipart branch's field appends, in order: the mandatory
      fields always, the others only when truthy, and the receipt. */
  method EncodeHeader(d: CreatePedidoRequest, receipt: Archivo) returns (entries: seq<Entry>)
    ensures entries == HeaderEntries(d, receipt)
  {
    // `done` holds the header fields handled so far.
    ghost var fs := HeaderFields(d, receipt);
    ghost var done: seq<Field> := [];
    entries := [];
    EmitSnoc(done, fs[0]);
    entries := entries + [Entry("nombre_contacto", TextValue(d.nombreContacto))];
    done := done + [fs[0]];
    EmitSnoc(done, fs[1]);
    entries := entries + [Entry("telefono_contacto", TextValue(d.telefonoContacto))];
    done := done + [fs[1]];
    EmitSnoc(done, fs[2]);
    entries := AppendIfTruthy(entries, "nombres_cliente", d.nombresCliente);
    done := done + [fs[2]];
    EmitSnoc(done, fs[3]);
    entries := AppendIfTruthy(entries, "apellidos_cliente", d.apellidosCliente);
    done := done + [fs[3]];
    EmitSnoc(done, fs[4]);
    entries := AppendIfTruthy(entries, "nit_facturacion", d.nitFacturacion);
    done := done + [fs[4]];
    EmitSnoc(done, fs[5]);
    entries := AppendIfTruthy(entries, "nombre_facturacion", d.nombreFacturacion);
    done := done + [fs[5]];
    EmitSnoc(done, fs[6]);
    entries := AppendIfTruthy(entries, "direccion_facturacion", d.direccionFacturacion);
    done := done + [fs[6]];
    EmitSnoc(done, fs[7]);
    entries := entries + [Entry("direccion_entrega", TextValue(d.direccionEntrega))];
    done := done + [fs[7]];
    EmitSnoc(done, fs[8]);
    entries := entries + [Entry("municipio_entrega", TextValue(d.municipioEntrega))];
    done := done + [fs[8]];
    EmitSnoc(done, fs[9]);
    entries := AppendIfTruthy(entries, "referencia_entrega", d.referenciaEntrega);
    done := done + [fs[9]];
    EmitSnoc(done, fs[10]);
    entries := AppendIfTruthy(entries, "centro_poblado", d.centroPoblado);
    done := done + [fs[10]];
    EmitSnoc(done, fs[11]);
    entries := entries + [Entry("tipo_pago", TextValue(d.tipoPago.Name()))];
    done := done + [fs[11]];
    EmitSnoc(done, fs[12]);
    entries := AppendIfTruthy(entries, "comentario_pago", d.comentarioPago);
    done := done + [fs[12]];
    EmitSnoc(done, fs[13]);
    entries := AppendIfTruthy(entries, "numero_deposito", d.numeroDeposito);
    done := done + [fs[13]];
    EmitSnoc(done, fs[14]);
    entries := AppendIfTruthy(entries, "fecha_deposito", d.fechaDeposito);
    done := done + [fs[14]];
    EmitSnoc(done, fs[15]);
    entries := AppendIfTruthy(entries, "monto_deposito", d.montoDeposito);
    done := done + [fs[15]];
    EmitSnoc(done, fs[16]);
    entries := entries + [Entry("comprobante_pago", FileValue(receipt))];
    done := done + [fs[16]];
    EmitSnoc(done, fs[17]);
    entries := AppendIfTruthy(entries, "observaciones", d.observaciones);
    done := done + [fs[17]];
    EmitSnoc(done, fs[18]);
    entries := entries + [Entry("canal_origen", TextValue(Canal(d.canalOrigen)))];
    done := done + [fs[18]];
    assert done == fs;
  }

  /** The multipart branch: the header fields, then a loop over the order
      lines appending three entries per line. */
  method EncodeMultipart(d: CreatePedidoRequest, receipt: Archivo) returns (entries: seq<Entry>)
    ensures entries == HeaderEntries(d, receipt) + DetailEntries(d.detalles, 0)
    ensures |entries| == |HeaderEntries(d, receipt)| + 3 * |d.detalles|
  {
    entries := EncodeHeader(d, receipt);
    ghost var header := entries;
    var i := 0;
    while i < |d.detalles|
      invariant 0 <= i <= |d.detalles|
      invariant entries == header + DetailEntries(d.detalles[..i], 0)
    {
      DetailEntriesSnoc(d.detalles[..i], d.detalles[i], 0);
      assert d.detalles[..i + 1] == d.detalles[..i] + [d.detalles[i]];
      entries := entries + LineEntries(i, d.detalles[i]);
      i := i + 1;
    }
    assert d.detalles[..i] == d.detalles;
  }

  /** `createPedido`'s choice: the multipart form exactly when a receipt is
      attached, the JSON body otherwise. */
  method CreatePedido(d: CreatePedidoRequest) returns (body: Body)
    ensures body.Multipart? <==> d.comprobantePago.Some?
    ensures d.comprobantePago.Some? ==>
              body.entries == HeaderEntries(d, d.comprobantePago.value) + DetailEntries(d.detalles, 0)
    ensures d.comprobantePago.None? ==> body.payload == JsonPayload(d)
  {
    if d.comprobantePago.Some? {
      var entries := EncodeMultipart(d, d.comprobantePago.value);
      body := Multipart(entries);
    } else {
      body := Json(JsonPayload(d));
    }
  }

  // ---------------------------------------------------------------- reading the form back

  /** The value of the first entry with key `k`. */
  function Lookup(es: seq<Entry>, k: string): (r: Option<FormValue>)
    ensures r.None? <==> forall i :: 0 <= i < |es| ==> es[i].key != k
  {
    if es == [] then None
    else if es[0].key == k then Some(es[0].value)
    else Lookup(es[1..], k)
  }

  /** The text of the first entry with key `k`, if it is a text. */
  function TextAt(es: seq<Entry>, k: string): Option<string> {
    match Lookup(es, k)
    case Some(TextValue(s)) => Some(s)
    case _ => None
  }

  /** The order lines encoded in `es` from line number `i` on, if the
      entries have exactly the keys and number texts of such lines. */
  function DecodeLines(es: seq<Entry>, i: nat): Option<seq<DetalleLinea>>
    decreases |es|
  {
    if es == [] then Some([])
    else if |es| < 3 then None
    else if es[0].key != LineKey(i, "pilon") || es[1].key != LineKey(i, "cantidad") ||
            es[2].key != LineKey(i, "precio_unitario") then None
    else if !es[0].value.TextValue? || !es[1].value.TextValue? || !es[2].value.TextValue? then None
    else
      var p := ParseInt(es[0].value.s);
      var c := ParseInt(es[1].value.s);
      var rest := DecodeLines(es[3..], i + 1);
      if p.NaN? || c.NaN? || rest.None? then None
      else Some([DetalleLinea(p.v, c.v, es[2].value.s)] + rest.value)
  }

  /** Reading the line entries back gives the lines, in order. */
  lemma {:induction false} DecodeDetailEntries(ds: seq<DetalleLinea>, start: nat)
    ensures DecodeLines(DetailEntries(ds, start), start) == Some(ds)
  {
    if ds != [] {
      var rest := DetailEntries(ds[1..], start + 1);
      assert DetailEntries(ds, start) == LineEntries(start, ds[0]) + rest;
      DecodeDetailEntries(ds[1..], start + 1);
      DecodeFirstLine(start, ds, rest);
    }
  }

  /** The first line's entries in front of entries that decode to the other
      lines decode to all the lines. */
  lemma DecodeFirstLine(i: nat, ds: seq<DetalleLinea>, rest: seq<Entry>)
    requires ds != [] && DecodeLines(rest, i + 1) == Some(ds[1..])
    ensures DecodeLines(LineEntries(i, ds[0]) + rest, i) == Some(ds)
  {
    DecodeLine(i, ds[0], rest, ds[1..]);
    HeadTail(ds);
  }

  lemma HeadTail(ds: seq<DetalleLinea>)
    requires ds != []
    ensures [ds[0]] + ds[1..] == ds
  {
  }

  /** One line's entries in front of entries that decode to `ys` decode to
      that line followed by `ys`. */
  lemma DecodeLine(i: nat, d: DetalleLinea, rest: seq<Entry>, ys: seq<DetalleLinea>)
    requires DecodeLines(rest, i + 1) == Some(ys)
    ensures DecodeLines(LineEntries(i, d) + rest, i) == Some([d] + ys)
  {
    var es := LineEntries(i, d) + rest;
    assert es[0] == Entry(LineKey(i, "pilon"), TextValue(IntToString(d.pilon)));
    assert es[1] == Entry(LineKey(i, "cantidad"), TextValue(IntToString(d.cantidad)));
    assert es[2] == Entry(LineKey(i, "precio_unitario"), TextValue(d.precioUnitario));
    assert es[3..] == rest;
    ParseIntToString(d.pilon);
    ParseIntToString(d.cantidad);
  }

  /** Every line entry's key starts with `detalles[`. */
  predicate IsLineKey(k: string) {
    |k| >= 9 && k[..9] == "detalles["
  }

  /** The entries whose key is a line key, in order. */
  function LinePart(es: seq<Entry>): (r: seq<Entry>)
    ensures |r| <= |es|
  {
    if es == [] then []
    else if IsLineKey(es[0].key) then [es[0]] + LinePart(es[1..])
    else LinePart(es[1..])
  }

  lemma {:induction false} LinePartAppend(a: seq<Entry>, b: seq<Entry>)
    ensures LinePart(a + b) == LinePart(a) + LinePart(b)
  {
    if a != [] {
      assert (a + b)[1..] == a[1..] + b;
      LinePartAppend(a[1..], b);
    } else {
      assert a + b == b;
    }
  }

  /** The key of a line's entry is a line key. */
  lemma LineKeyIsLineKey(i: nat, field: string)
    ensures IsLineKey(LineKey(i, field))
  {
    var k := LineKey(i, field);
    assert k == "detalles[" + (IntToString(i) + "]" + field);
    assert k[..9] == "detalles[";
  }

  /** Every entry of the order lines has a line key. */
  lemma {:induction false} DetailKeys(ds: seq<DetalleLinea>, start: nat)
    ensures forall e | e in DetailEntries(ds, start) :: IsLineKey(e.key)
  {
    if ds != [] {
      LineKeyIsLineKey(start, "pilon");
      LineKeyIsLineKey(start, "cantidad");
      LineKeyIsLineKey(start, "precio_unitario");
      DetailKeys(ds[1..], start + 1);
    }
  }

  /** Keeping the line entries of entries that all are line entries keeps all. */
  lemma {:induction false} AllLineKeys(es: seq<Entry>)
    requires forall e | e in es :: IsLineKey(e.key)
    ensures LinePart(es) == es
  {
    if es != [] {
      AllLineKeys(es[1..]);
    }
  }

  /** Keeping the line entries of entries none of which is one keeps none. */
  lemma {:induction false} NoLineKeys(es: seq<Entry>)
    requires forall e | e in es :: !IsLineKey(e.key)
    ensures LinePart(es) == []
  {
    if es != [] {
      NoLineKeys(es[1..]);
    }
  }

  /** No header key is a line key. */
  lemma HeaderKeysNotLineKeys()
    ensures forall i :: 0 <= i < |HeaderKeys| ==> !IsLineKey(HeaderKeys[i])
  {
    forall i | 0 <= i < |HeaderKeys| ensures !IsLineKey(HeaderKeys[i]) {
      var k := HeaderKeys[i];
      assert k[0] != 'd' || k[1] != 'e';
      assert |k| >= 9 ==> k[..9][0] == k[0] && k[..9][1] == k[1];
    }
  }

  /** The header keys are pairwise different. */
  lemma HeaderKeysDistinct()
    ensures forall i, j :: 0 <= i < j < |HeaderKeys| ==> HeaderKeys[i] != HeaderKeys[j]
  {
  }

  /** The header entries all have header keys, so none is a line entry. */
  lemma HeaderNotLines(d: CreatePedidoRequest, receipt: Archivo)
    ensures forall e | e in HeaderEntries(d, receipt) :: !IsLineKey(e.key)
  {
    var fs := HeaderFields(d, receipt);
    EmitMembers(fs);
    HeaderKeysNotLineKeys();
  }

  /** The JSON body the multipart form stands for, read back from its
      entries; None when a mandatory field or a line is missing. */
  function DecodeMultipart(es: seq<Entry>): Option<JsonPedido> {
    var nombre := TextAt(es, "nombre_contacto");
    var telefono := TextAt(es, "telefono_contacto");
    var direccion := TextAt(es, "direccion_entrega");
    var municipio := TextAt(es, "municipio_entrega");
    var tipo := TextAt(es, "tipo_pago");
    var canal := TextAt(es, "canal_origen");
    var lines := DecodeLines(LinePart(es), 0);
    if nombre.None? || telefono.None? || direccion.None? || municipio.None? || tipo.None? ||
       canal.None? || lines.None? then None
    else
      Some(JsonPedido(
        nombre.value, telefono.value,
        TextAt(es, "nombres_cliente"), TextAt(es, "apellidos_cliente"),
        TextAt(es, "nit_facturacion"), TextAt(es, "nombre_facturacion"),
        TextAt(es, "direccion_facturacion"),
        direccion.value, TextAt(es, "centro_poblado"), municipio.value,
        TextAt(es, "referencia_entrega"), tipo.value,
        TextAt(es, "comentario_pago"), TextAt(es, "numero_deposito"),
        TextAt(es, "fecha_deposito"), TextAt(es, "monto_deposito"),
        TextAt(es, "observaciones"), canal.value, lines.value))
  }

  /** An optional text as the multipart form keeps it: only when truthy. */
  function Kept(o: Option<string>): (r: Option<string>)
    ensures r.Some? <==> Truthy(o)
    ensures r.Some? ==> r == o
  {
    if Truthy(o) then o else None
  }

  /** The JSON body with every falsy optional field left out. */
  function Normalized(j: JsonPedido): JsonPedido {
    j.(nombresCliente := Kept(j.nombresCliente),
       apellidosCliente := Kept(j.apellidosCliente),
       nitFacturacion := Kept(j.nitFacturacion),
       nombreFacturacion := Kept(j.nombreFacturacion),
       direccionFacturacion := Kept(j.direccionFacturacion),
       centroPoblado := Kept(j.centroPoblado),
       referenciaEntrega := Kept(j.referenciaEntrega),
       comentarioPago := Kept(j.comentarioPago),
       numeroDeposito := Kept(j.numeroDeposito),
       fechaDeposito := Kept(j.fechaDeposito),
       montoDeposito := Kept(j.montoDeposito),
       observaciones := Kept(j.observaciones))
  }

  /** The two branches agree: reading the multipart form back gives the
      JSON body the same request would have had, except that empty
      optional fields are left out instead of sent empty. */
  lemma MultipartMatchesJson(d: CreatePedidoRequest, receipt: Archivo)
    ensures DecodeMultipart(HeaderEntries(d, receipt) + DetailEntries(d.detalles, 0)) ==
            Some(Normalized(JsonPayload(d)))
  {
    var h := HeaderEntries(d, receipt);
    var t := DetailEntries(d.detalles, 0);
    LinePartAppend(h, t);
    HeaderNotLines(d, receipt);
    NoLineKeys(h);
    DetailKeys(d.detalles, 0);
    AllLineKeys(t);
    assert LinePart(h + t) == t;
    DecodeDetailEntries(d.detalles, 0);
    HeaderLookups(d, receipt, t);
  }

  /** The first entry with key `k` carries `o`'s value when every entry with
      that key does; no entry with the key means nothing is found. */
  lemma {:induction false} FieldLookup(es: seq<Entry>, k: string, o: Option<FormValue>)
    requires o.Some? ==> Entry(k, o.value) in es
    requires forall e | e in es && e.key == k :: o.Some? && e.value == o.value
    ensures Lookup(es, k) == o
  {
    if es != [] && es[0].key != k {
      FieldLookup(es[1..], k, o);
    }
  }

  /** The field at `j` is the only one with its key, and no entry of `t`
      has it: the first entry with that key in the header and `t` together
      is that field's, or there is none when the field was skipped. */
  lemma EmitLookup(fs: seq<Field>, t: seq<Entry>, j: nat)
    requires j < |fs|
    requires forall i :: 0 <= i < |fs| && i != j ==> fs[i].key != fs[j].key
    requires forall e | e in t :: e.key != fs[j].key
    ensures Lookup(Emit(fs) + t, fs[j].key) == fs[j].value
  {
    EmitMembers(fs);
    FieldLookup(Emit(fs) + t, fs[j].key, fs[j].value);
  }

  /** The text of a form value, if it is one. */
  function AsText(o: Option<FormValue>): Option<string> {
    match o
    case Some(TextValue(s)) => Some(s)
    case _ => None
  }

  /** The header field at `j` is read back as the value it was appended with. */
  lemma FieldText(d: CreatePedidoRequest, receipt: Archivo, t: seq<Entry>, j: nat)
    requires forall e | e in t :: IsLineKey(e.key)
    requires j < |HeaderKeys|
    ensures TextAt(HeaderEntries(d, receipt) + t, HeaderKeys[j]) == AsText(HeaderValue(d, receipt, j))
  {
    var fs := HeaderFields(d, receipt);
    HeaderKeysDistinct();
    HeaderKeysNotLineKeys();
    EmitLookup(fs, t, j);
  }

  /** The fields of the contact and the client are read back as appended. */
  lemma ClientLookups(d: CreatePedidoRequest, receipt: Archivo, t: seq<Entry>)
    requires forall e | e in t :: IsLineKey(e.key)
    ensures var es := HeaderEntries(d, receipt) + t;
            TextAt(es, "nombre_contacto") == Some(d.nombreContacto) &&
            TextAt(es, "telefono_contacto") == Some(d.telefonoContacto) &&
            TextAt(es, "nombres_cliente") == Kept(d.nombresCliente) &&
            TextAt(es, "apellidos_cliente") == Kept(d.apellidosCliente)
  {
    FieldText(d, receipt, t, 0);
    FieldText(d, receipt, t, 1);
    FieldText(d, receipt, t, 2);
    FieldText(d, receipt, t, 3);
  }

  /** The fields of the billing data are read back as appended. */
  lemma BillingLookups(d: CreatePedidoRequest, receipt: Archivo, t: seq<Entry>)
    requires forall e | e in t :: IsLineKey(e.key)
    ensures var es := HeaderEntries(d, receipt) + t;
            TextAt(es, "nit_facturacion") == Kept(d.nitFacturacion) &&
            TextAt(es, "nombre_facturacion") == Kept(d.nombreFacturacion) &&
            TextAt(es, "direccion_facturacion") == Kept(d.direccionFacturacion)
  {
    FieldText(d, receipt, t, 4);
    FieldText(d, receipt, t, 5);
    FieldText(d, receipt, t, 6);
  }

  /** The fields of the delivery address are read back as appended. */
  lemma DeliveryLookups(d: CreatePedidoRequest, receipt: Archivo, t: seq<Entry>)
    requires forall e | e in t :: IsLineKey(e.key)
    ensures var es := HeaderEntries(d, receipt) + t;
            TextAt(es, "direccion_entrega") == Some(d.direccionEntrega) &&
            TextAt(es, "municipio_entrega") == Some(d.municipioEntrega) &&
            TextAt(es, "referencia_entrega") == Kept(d.referenciaEntrega) &&
            TextAt(es, "centro_poblado") == Kept(d.centroPoblado)
  {
    FieldText(d, receipt, t, 7);
    FieldText(d, receipt, t, 8);
    FieldText(d, receipt, t, 9);
    FieldText(d, receipt, t, 10);
  }

  /** The fields of the payment are read back as appended. */
  lemma PaymentLookups(d: CreatePedidoRequest, receipt: Archivo, t: seq<Entry>)
    requires forall e | e in t :: IsLineKey(e.key)
    ensures var es := HeaderEntries(d, receipt) + t;
            TextAt(es, "tipo_pago") == Some(d.tipoPago.Name()) &&
            TextAt(es, "comentario_pago") == Kept(d.comentarioPago) &&
            TextAt(es, "numero_deposito") == Kept(d.numeroDeposito)
  {
    FieldText(d, receipt, t, 11);
    FieldText(d, receipt, t, 12);
    FieldText(d, receipt, t, 13);
  }

  /** The fields of the deposit are read back as appended. */
  lemma DepositLookups(d: CreatePedidoRequest, receipt: Archivo, t: seq<Entry>)
    requires forall e | e in t :: IsLineKey(e.key)
    ensures var es := HeaderEntries(d, receipt) + t;
            TextAt(es, "fecha_deposito") == Kept(d.fechaDeposito) &&
            TextAt(es, "monto_deposito") == Kept(d.montoDeposito)
  {
    FieldText(d, receipt, t, 14);
    FieldText(d, receipt, t, 15);
  }

  /** The fields of the remarks and the channel are read back as appended. */
  lemma ClosingLookups(d: CreatePedidoRequest, receipt: Archivo, t: seq<Entry>)
    requires forall e | e in t :: IsLineKey(e.key)
    ensures var es := HeaderEntries(d, receipt) + t;
            TextAt(es, "observaciones") == Kept(d.observaciones) &&
            TextAt(es, "canal_origen") == Some(Canal(d.canalOrigen))
  {
    FieldText(d, receipt, t, 17);
    FieldText(d, receipt, t, 18);
  }

  /** Each header field is found in the form with the value it was
      appended with, however many line entries follow. */
  lemma HeaderLookups(d: CreatePedidoRequest, receipt: Archivo, t: seq<Entry>)
    requires forall e | e in t :: IsLineKey(e.key)
    ensures var es := HeaderEntries(d, receipt) + t;
            TextAt(es, "nombre_contacto") == Some(d.nombreContacto) &&
            TextAt(es, "telefono_contacto") == Some(d.telefonoContacto) &&
            TextAt(es, "nombres_cliente") == Kept(d.nombresCliente) &&
            TextAt(es, "apellidos_cliente") == Kept(d.apellidosCliente) &&
            TextAt(es, "nit_facturacion") == Kept(d.nitFacturacion) &&
            TextAt(es, "nombre_facturacion") == Kept(d.nombreFacturacion) &&
            TextAt(es, "direccion_facturacion") == Kept(d.direccionFacturacion) &&
            TextAt(es, "direccion_entrega") == Some(d.direccionEntrega) &&
            TextAt(es, "municipio_entrega") == Some(d.municipioEntrega) &&
            TextAt(es, "referencia_entrega") == Kept(d.referenciaEntrega) &&
            TextAt(es, "centro_poblado") == Kept(d.centroPoblado) &&
            TextAt(es, "tipo_pago") == Some(d.tipoPago.Name()) &&
            TextAt(es, "comentario_pago") == Kept(d.comentarioPago) &&
            TextAt(es, "numero_deposito") == Kept(d.numeroDeposito) &&
            TextAt(es, "fecha_deposito") == Kept(d.fechaDeposito) &&
            TextAt(es, "monto_deposito") == Kept(d.montoDeposito) &&
            TextAt(es, "observaciones") == Kept(d.observaciones) &&
            TextAt(es, "canal_origen") == Some(Canal(d.canalOrigen))
  {
    ClientLookups(d, receipt, t);
    BillingLookups(d, receipt, t);
    DeliveryLookups(d, receipt, t);
    PaymentLookups(d, receipt, t);
    DepositLookups(d, receipt, t);
    ClosingLookups(d, receipt, t);
  }
}
