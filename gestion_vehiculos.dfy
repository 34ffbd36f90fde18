/** The vehicle management page (src/pages/GestionVehiculos.tsx): the modal
    form filled from a vehicle or reset, the payload built from the form,
    the choice between updating and creating, the carrier name lookup and
    the plate input. */
module GestionVehiculos {
  import opened Text
  import opened Wrappers
  import opened LogisticaService

  /** The modal's form, every field held as the text its input shows. */
  datatype VehiculoForm = VehiculoForm(
    placa: string,
    tipo: VehiculoTipo,
    marca: string,
    modelo: string,
    anio: string,
    capacidadCargaKg: string,
    capacidadVolumenM3: string,
    largoM: string,
    anchoM: string,
    altoM: string,
    transportista: string,
    observaciones: string,
    activo: bool)

  /** The form of a new vehicle. */
  const EmptyForm := VehiculoForm("", Camion, "", "", "", "", "", "", "", "", "", "", true)

  /** `x?.toString() || ''` and `x || ''` on a nullable field. */
  function IntText(o: Option<int>): (r: string)
    ensures o.None? <==> r == ""
    ensures o.Some? ==> ParseInt(r) == Int(o.value)
  {
    if o.Some? then ParseIntToString(o.value); IntToString(o.value) else ""
  }

  function OrEmpty(o: Option<string>): (r: string)
    ensures o.None? ==> r == ""
  {
    if o.Some? then o.value else ""
  }

  /** `handleOpenModal`: with a vehicle, edit it with its fields copied
      into the form; without one, create from the empty form. */
  function OpenModal(vehiculo: Option<Vehiculo>): (r: (Option<Vehiculo>, VehiculoForm))
    ensures r.0 == vehiculo
    ensures vehiculo.None? ==> r.1 == EmptyForm
    ensures vehiculo.Some? ==>
              var v := vehiculo.value;
              r.1 == VehiculoForm(
                v.placa, v.tipo, v.marca, v.modelo, IntText(v.anio), v.capacidadCargaKg,
                OrEmpty(v.capacidadVolumenM3), OrEmpty(v.largoM), OrEmpty(v.anchoM), OrEmpty(v.altoM),
                IntText(v.transportista), v.observaciones, v.activo)
  {
    match vehiculo
    case None => (None, EmptyForm)
    case Some(v) =>
      (Some(v), VehiculoForm(
         v.placa, v.tipo, v.marca, v.modelo, IntText(v.anio), v.capacidadCargaKg,
         OrEmpty(v.capacidadVolumenM3), OrEmpty(v.largoM), OrEmpty(v.anchoM), OrEmpty(v.altoM),
         IntText(v.transportista), v.observaciones, v.activo))
  }

  /** The body sent to the server. The decimal measures keep their text:
      parseFloat is not modelled. */
  datatype VehiculoPayload = VehiculoPayload(
    placa: string,
    tipo: VehiculoTipo,
    marca: string,
    modelo: string,
    capacidadCargaKg: string,
    activo: bool,
    anio: Option<Num>,
    capacidadVolumenM3: Option<string>,
    largoM: Option<string>,
    anchoM: Option<string>,
    altoM: Option<string>,
    transportista: Option<Num>,
    observaciones: Option<string>)

  /** The six fields every payload copies from the form. */
  predicate Fixed(data: VehiculoPayload, f: VehiculoForm) {
    data.placa == f.placa && data.tipo == f.tipo && data.marca == f.marca &&
    data.modelo == f.modelo && data.capacidadCargaKg == f.capacidadCargaKg && data.activo == f.activo
  }

  /** `data` is the payload the form describes: the six fixed fields, and
      the seven optional ones exactly when their input is non-empty. */
  predicate PayloadFrom(data: VehiculoPayload, f: VehiculoForm) {
    Fixed(data, f) &&
    NumIfGiven(data.anio, f.anio) &&
    TextIfGiven(data.capacidadVolumenM3, f.capacidadVolumenM3) &&
    TextIfGiven(data.largoM, f.largoM) &&
    TextIfGiven(data.anchoM, f.anchoM) &&
    TextIfGiven(data.altoM, f.altoM) &&
    NumIfGiven(data.transportista, f.transportista) &&
    TextIfGiven(data.observaciones, f.observaciones)
  }

  /** `handleSubmit`'s `data`: six fields always, seven more added one by
      one when their input is non-empty. */
  method BuildPayload(f: VehiculoForm) returns (data: VehiculoPayload)
    ensures Fixed(data, f)
    ensures NumIfGiven(data.anio, f.anio)
    ensures TextIfGiven(data.capacidadVolumenM3, f.capacidadVolumenM3)
    ensures TextIfGiven(data.largoM, f.largoM)
    ensures TextIfGiven(data.anchoM, f.anchoM)
    ensures TextIfGiven(data.altoM, f.altoM)
    ensures NumIfGiven(data.transportista, f.transportista)
    ensures TextIfGiven(data.observaciones, f.observaciones)
  {
    data := VehiculoPayload(f.placa, f.tipo, f.marca, f.modelo, f.capacidadCargaKg, f.activo,
                            None, None, None, None, None, None, None);
    if f.anio != "" {
      data := data.(anio := Some(ParseInt(f.anio)));
    }
    data := AddMeasures(data, f);
    if f.transportista != "" {
      data := data.(transportista := Some(ParseInt(f.transportista)));
    }
    if f.observaciones != "" {
      data := data.(observaciones := Some(f.observaciones));
    }
  }

  /** The four measure assignments of `handleSubmit`, in source order. */
  method AddMeasures(d: VehiculoPayload, f: VehiculoForm) returns (data: VehiculoPayload)
    requires d.capacidadVolumenM3.None? && d.largoM.None? && d.anchoM.None? && d.altoM.None?
    ensures data == d.(capacidadVolumenM3 := data.capacidadVolumenM3, largoM := data.largoM,
                       anchoM := data.anchoM, altoM := data.altoM)
    ensures TextIfGiven(data.capacidadVolumenM3, f.capacidadVolumenM3)
    ensures TextIfGiven(data.largoM, f.largoM)
    ensures TextIfGiven(data.anchoM, f.anchoM)
    ensures TextIfGiven(data.altoM, f.altoM)
  {
    data := d;
    if f.capacidadVolumenM3 != "" {
      data := data.(capacidadVolumenM3 := Some(f.capacidadVolumenM3));
    }
    if f.largoM != "" {
      data := data.(largoM := Some(f.largoM));
    }
    if f.anchoM != "" {
      data := data.(anchoM := Some(f.anchoM));
    }
    if f.altoM != "" {
      data := data.(altoM := Some(f.altoM));
    }
  }

  /** A nullable number copied into the form and read back by the payload
      is the same number, and a null one is not sent. */
  lemma IntTextRoundTrip(o: Option<int>, sent: Option<Num>)
    requires NumIfGiven(sent, IntText(o))
    ensures sent == (if o.Some? then Some(Int(o.value)) else None)
  {
    if o.Some? {
      ParseIntToString(o.value);
    }
  }

  /** A nullable text with the empty text read as absent. */
  function NonEmpty(o: Option<string>): Option<string> {
    if o.Some? && o.value != "" then o else None
  }

  /** A nullable text copied into the form and read back by the payload is
      sent when non-empty; null and the empty text are both not sent. */
  lemma OrEmptyRoundTrip(o: Option<string>, sent: Option<string>)
    requires TextIfGiven(sent, OrEmpty(o))
    ensures sent == NonEmpty(o)
  {
  }

  /** Saving an opened vehicle without touching the form sends back its own
      values: every copied field unchanged, the year and the carrier as the
      same numbers, and each nullable text sent when it is non-empty. */
  lemma UnchangedEditSendsSame(v: Vehiculo, data: VehiculoPayload)
    requires PayloadFrom(data, OpenModal(Some(v)).1)
    ensures data.placa == v.placa && data.tipo == v.tipo && data.marca == v.marca
    ensures data.modelo == v.modelo && data.capacidadCargaKg == v.capacidadCargaKg
    ensures data.activo == v.activo
    ensures data.anio == (if v.anio.Some? then Some(Int(v.anio.value)) else None)
    ensures data.transportista == (if v.transportista.Some? then Some(Int(v.transportista.value)) else None)
    ensures data.capacidadVolumenM3 == NonEmpty(v.capacidadVolumenM3)
    ensures data.largoM == NonEmpty(v.largoM) && data.anchoM == NonEmpty(v.anchoM)
    ensures data.altoM == NonEmpty(v.altoM)
    ensures data.observaciones == (if v.observaciones != "" then Some(v.observaciones) else None)
  {
    IntTextRoundTrip(v.anio, data.anio);
    IntTextRoundTrip(v.transportista, data.transportista);
    OrEmptyRoundTrip(v.capacidadVolumenM3, data.capacidadVolumenM3);
    OrEmptyRoundTrip(v.largoM, data.largoM);
    OrEmptyRoundTrip(v.anchoM, data.anchoM);
    OrEmptyRoundTrip(v.altoM, data.altoM);
  }

  /** The request `handleSubmit` issues. */
  datatype VehiculoRequest =
    | Update(id: int, data: VehiculoPayload)
    | Create(data: VehiculoPayload)

  /** What the server answers to the save. */
  datatype SaveOutcome = Saved | SaveFailed(detail: Option<string>)

  /** `handleSubmit`: the payload goes to an update of the vehicle being
      edited, or to a create; success closes the modal, failure alerts and
      keeps it open. */
  method Submit(editingVehiculo: Option<Vehiculo>, f: VehiculoForm, outcome: SaveOutcome)
    returns (request: VehiculoRequest, alertText: string, closeModal: bool)
    ensures editingVehiculo.Some? <==> request.Update?
    ensures request.Update? ==> request.id == editingVehiculo.value.id
    ensures PayloadFrom(request.data, f)
    ensures closeModal <==> outcome.Saved?
    ensures outcome.Saved? ==>
              alertText == (if editingVehiculo.Some? then " Vehículo actualizado" else " Vehículo creado")
    ensures outcome.SaveFailed? ==>
              alertText == "❌ Error al guardar vehículo: " +
                           (if outcome.detail.Some? && outcome.detail.value != "" then outcome.detail.value
                            else "Error desconocido")
  {
    var data := BuildPayload(f);
    if editingVehiculo.Some? {
      request := Update(editingVehiculo.value.id, data);
    } else {
      request := Create(data);
    }
    match outcome
    case Saved =>
      alertText := if editingVehiculo.Some? then " Vehículo actualizado" else " Vehículo creado";
      closeModal := true;
    case SaveFailed(detail) =>
      var reason := if detail.Some? && detail.value != "" then detail.value else "Error desconocido";
      alertText := "❌ Error al guardar vehículo: " + reason;
      closeModal := false;
  }

  /** `transportistas.find(t => t.id === id)`: the first carrier with the id. */
  function Find(transportistas: seq<Transportista>, id: int): (r: Option<Transportista>)
    ensures r.None? <==> forall i :: 0 <= i < |transportistas| ==> transportistas[i].id != id
    ensures r.Some? ==>
              (exists i :: 0 <= i < |transportistas| && r.value == transportistas[i] &&
                 r.value.id == id && forall j :: 0 <= j < i ==> transportistas[j].id != id)
  {
    if transportistas == [] then None
    else if transportistas[0].id == id then Some(transportistas[0])
    else Find(transportistas[1..], id)
  }

  /** `getTransportistaNombre`: 'Sin asignar' without a carrier (null or 0),
      the carrier's name when it is found and non-empty, else 'Desconocido'. */
  function TransportistaNombre(id: Option<int>, transportistas: seq<Transportista>): (r: string)
    ensures r != ""
    ensures id.None? || id.value == 0 ==> r == "Sin asignar"
    ensures id.Some? && id.value != 0 &&
            (forall i :: 0 <= i < |transportistas| ==> transportistas[i].id != id.value) ==>
              r == "Desconocido"
    ensures r == "Sin asignar" || r == "Desconocido" ||
            exists t :: t in transportistas && t.id == id.value && t.nombre == r
  {
    if id.None? || id.value == 0 then "Sin asignar"
    else
      match Find(transportistas, id.value)
      case Some(t) => if t.nombre != "" then t.nombre else "Desconocido"
      case None => "Desconocido"
  }

  /** With distinct carrier ids, an assigned carrier that is listed with a
      name is shown by that name. */
  lemma TransportistaNombreFound(id: int, transportistas: seq<Transportista>, i: nat)
    requires id != 0 && i < |transportistas| && transportistas[i].id == id
    requires transportistas[i].nombre != ""
    requires forall j, k :: 0 <= j < k < |transportistas| ==> transportistas[j].id != transportistas[k].id
    ensures TransportistaNombre(Some(id), transportistas) == transportistas[i].nombre
  {
    var r := Find(transportistas, id);
    assert r.Some?;
    var j :| 0 <= j < |transportistas| && transportistas[j] == r.value;
    assert j == i;
  }

  /** The plate input: upper-cased, at most 10 characters (the input's maxLength). */
  function PlacaInput(raw: string): (r: string)
    ensures |r| == (if |raw| <= 10 then |raw| else 10)
    ensures forall i :: 0 <= i < |r| ==>
      r[i] == (if 'a' <= raw[i] <= 'z' then (raw[i] as int - 32) as char else raw[i])
    ensures forall i :: 0 <= i < |r| ==> !('a' <= r[i] <= 'z')
  {
    ToUpper(if |raw| <= 10 then raw else raw[..10])
  }

  /** Typing over a plate already entered changes nothing. */
  lemma PlacaInputIdempotent(raw: string)
    ensures PlacaInput(PlacaInput(raw)) == PlacaInput(raw)
  {
    var r := PlacaInput(raw);
    assert ToUpper(r) == r;
  }
}
