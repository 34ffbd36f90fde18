/** The route-creation page (src/pages/CrearRuta.tsx): the order selection,
    the tag selection, the submit validation chain, the request it builds,
    the order count shown beside the selection, and the initial selection
    read from the `pedidos` URL parameter. */
module CrearRuta {
  import opened Text
  import opened Wrappers
  import opened Url
  import opened OrderedSet

  // ---------------------------------------------------------------- selection

  /** `handleTogglePedido`: the Set is copied, then the id is deleted when
      present and added otherwise. */
  method TogglePedido(pedidosSeleccionados: seq<Num>, pedidoId: Num) returns (newSelected: seq<Num>)
    requires NoDup(pedidosSeleccionados)
    ensures newSelected == Toggle(pedidosSeleccionados, pedidoId)
    ensures NoDup(newSelected)
    ensures pedidoId in newSelected <==> pedidoId !in pedidosSeleccionados
  {
    newSelected := pedidosSeleccionados;
    if pedidoId in newSelected {
      newSelected := Remove(newSelected, pedidoId);
    } else {
      newSelected := Add(newSelected, pedidoId);
    }
  }

  /** The four tags the page offers, by value. */
  const Etiquetas: seq<string> := ["terraceria", "lluvia", "fragil", "prioritario"]

  /** `handleToggleEtiqueta`: a selected tag is filtered out, any other is
      appended at the end. */
  function ToggleEtiqueta(etiquetas: seq<string>, etiqueta: string): (r: seq<string>)
    ensures etiqueta in r <==> etiqueta !in etiquetas
    ensures forall t :: t != etiqueta ==> (t in r <==> t in etiquetas)
    ensures NoDup(etiquetas) ==> NoDup(r)
    ensures etiqueta !in etiquetas ==> r == etiquetas + [etiqueta]
  {
    if etiqueta in etiquetas then Remove(etiquetas, etiqueta)
    else
      assert NoDup(etiquetas) ==> NoDup(etiquetas + [etiqueta]);
      etiquetas + [etiqueta]
  }

  /** Toggling only offered tags keeps every selected tag among the offered ones. */
  lemma ToggleEtiquetaOffered(etiquetas: seq<string>, etiqueta: string)
    requires forall t :: t in etiquetas ==> t in Etiquetas
    requires etiqueta in Etiquetas
    ensures forall t :: t in ToggleEtiqueta(etiquetas, etiqueta) ==> t in Etiquetas
  {
  }

  /** Toggling a tag twice gives back the same tags; a tag that was not
      selected leaves the list exactly as it was. */
  lemma ToggleEtiquetaTwice(etiquetas: seq<string>, etiqueta: string)
    ensures forall t :: t in ToggleEtiqueta(ToggleEtiqueta(etiquetas, etiqueta), etiqueta) <==> t in etiquetas
    ensures etiqueta !in etiquetas ==>
              ToggleEtiqueta(ToggleEtiqueta(etiquetas, etiqueta), etiqueta) == etiquetas
  {
    if etiqueta !in etiquetas {
      RemoveLast(etiquetas, etiqueta);
    }
  }

  // ---------------------------------------------------------------- initial selection

  /** `ids.map(id => parseInt(id))`. */
  function ParseAll(pieces: seq<string>): (r: seq<Num>)
    ensures |r| == |pieces|
    ensures forall i :: 0 <= i < |pieces| ==> r[i] == ParseInt(pieces[i])
  {
    if pieces == [] then [] else [ParseInt(pieces[0])] + ParseAll(pieces[1..])
  }

  /** The selection after the page has read its query: when `pedidos` is
      present and non-empty it is split on ',' and every piece parsed, so a
      piece that is not a number contributes NaN; otherwise the selection
      keeps its initial empty value. */
  function InitialSelection(query: seq<Param>): (r: seq<Num>)
    ensures NoDup(r)
    ensures Get(query, "pedidos") in {None, Some("")} ==> r == []
    ensures forall p :: Get(query, "pedidos") == Some(p) && p != "" ==>
              forall x :: x in r <==> x in ParseAll(Split(p, ','))
  {
    match Get(query, "pedidos")
    case Some(p) => if p != "" then FromSeq(ParseAll(Split(p, ','))) else []
    case None => []
  }

  // ---------------------------------------------------------------- submit

  /** The form fields, all held as text as the inputs deliver them. */
  datatype RutaForm = RutaForm(
    nombreRuta: string,
    tecnicoCampo: string,
    vehiculo: string,
    operadorResponsable: string,
    fechaPlanificada: string,
    departamento: string,
    puntoOrigen: string,
    kmEstimados: string,
    observaciones: string)

  /** The route-creation request; an optional field is None when it is not
      put on the object at all. */
  datatype CreateRutaRequest = CreateRutaRequest(
    nombreRuta: string,
    tecnicoCampo: Num,
    fechaPlanificada: string,
    departamento: Num,
    pedidosIds: seq<Num>,
    etiquetas: seq<string>,
    vehiculo: Option<Num>,
    operadorResponsable: Option<Num>,
    puntoOrigen: Option<Num>,
    kmEstimados: Option<string>,
    observaciones: Option<string>)

  const MsgNombre := "⚠️ El nombre de la ruta es obligatorio"
  const MsgTecnico := "⚠️ Debes asignar un técnico"
  const MsgFecha := "⚠️ Debes seleccionar una fecha"
  const MsgDepartamento := "⚠️ Debes seleccionar un departamento"
  const MsgPedidos := "⚠️ Debes seleccionar al menos un pedido"

  /** The validation chain of `handleSubmit`: the alert of the first check
      that fails, or None when the form may be sent. */
  function Validate(f: RutaForm, selected: seq<Num>): (r: Option<string>)
    ensures r.None? <==>
              f.nombreRuta != "" && f.tecnicoCampo != "" && f.fechaPlanificada != "" &&
              f.departamento != "" && selected != []
    ensures f.nombreRuta == "" ==> r == Some(MsgNombre)
    ensures f.nombreRuta != "" && f.tecnicoCampo == "" ==> r == Some(MsgTecnico)
    ensures f.nombreRuta != "" && f.tecnicoCampo != "" && f.fechaPlanificada == "" ==>
              r == Some(MsgFecha)
    ensures (f.nombreRuta != "" && f.tecnicoCampo != "" && f.fechaPlanificada != "" &&
             f.departamento == "") ==> r == Some(MsgDepartamento)
    ensures (f.nombreRuta != "" && f.tecnicoCampo != "" && f.fechaPlanificada != "" &&
             f.departamento != "" && selected == []) ==> r == Some(MsgPedidos)
  {
    if f.nombreRuta == "" then Some(MsgNombre)
    else if f.tecnicoCampo == "" then Some(MsgTecnico)
    else if f.fechaPlanificada == "" then Some(MsgFecha)
    else if f.departamento == "" then Some(MsgDepartamento)
    else if |selected| == 0 then Some(MsgPedidos)
    else None
  }

  /** `data` is the request the form describes: six fields always, the
      five optional ones exactly when their input is non-empty. */
  predicate RequestFrom(data: CreateRutaRequest, f: RutaForm, pedidosSeleccionados: seq<Num>,
                        etiquetas: seq<string>) {
    data.nombreRuta == f.nombreRuta && data.fechaPlanificada == f.fechaPlanificada &&
    data.tecnicoCampo == ParseInt(f.tecnicoCampo) &&
    data.departamento == ParseInt(f.departamento) &&
    data.pedidosIds == pedidosSeleccionados && data.etiquetas == etiquetas &&
    NumIfGiven(data.vehiculo, f.vehiculo) &&
    NumIfGiven(data.operadorResponsable, f.operadorResponsable) &&
    NumIfGiven(data.puntoOrigen, f.puntoOrigen) &&
    TextIfGiven(data.kmEstimados, f.kmEstimados) &&
    TextIfGiven(data.observaciones, f.observaciones)
  }

  /** The request of `handleSubmit`: six fields always, five more added one
      by one when their input is non-empty. */
  method BuildRequest(f: RutaForm, pedidosSeleccionados: seq<Num>, etiquetas: seq<string>)
    returns (data: CreateRutaRequest)
    ensures data.nombreRuta == f.nombreRuta && data.fechaPlanificada == f.fechaPlanificada
    ensures data.tecnicoCampo == ParseInt(f.tecnicoCampo)
    ensures data.departamento == ParseInt(f.departamento)
    ensures data.pedidosIds == pedidosSeleccionados && data.etiquetas == etiquetas
    ensures NumIfGiven(data.vehiculo, f.vehiculo)
    ensures NumIfGiven(data.operadorResponsable, f.operadorResponsable)
    ensures NumIfGiven(data.puntoOrigen, f.puntoOrigen)
    ensures TextIfGiven(data.kmEstimados, f.kmEstimados)
    ensures TextIfGiven(data.observaciones, f.observaciones)
  {
    data := CreateRutaRequest(
      f.nombreRuta, ParseInt(f.tecnicoCampo), f.fechaPlanificada, ParseInt(f.departamento),
      pedidosSeleccionados, etiquetas, None, None, None, None, None);
    if f.vehiculo != "" {
      data := data.(vehiculo := Some(ParseInt(f.vehiculo)));
    }
    if f.operadorResponsable != "" {
      data := data.(operadorResponsable := Some(ParseInt(f.operadorResponsable)));
    }
    if f.puntoOrigen != "" {
      data := data.(puntoOrigen := Some(ParseInt(f.puntoOrigen)));
    }
    if f.kmEstimados != "" {
      data := data.(kmEstimados := Some(f.kmEstimados));
    }
    if f.observaciones != "" {
      data := data.(observaciones := Some(f.observaciones));
    }
  }

  /** A select whose option values are ids rendered with `toString` sends
      back exactly the chosen id. */
  lemma SelectedId(o: Option<Num>, id: int)
    requires NumIfGiven(o, IntToString(id))
    ensures o == Some(Int(id))
  {
    ParseIntToString(id);
  }

  /** What the server answers to the create request. */
  datatype CreateOutcome =
    | Created(id: int)
    | Failed(detail: Option<string>, error: Option<string>)

  /** `detail || error || 'Error al crear ruta'`: an empty string is falsy. */
  function ErrorMessage(detail: Option<string>, error: Option<string>): (r: string)
    ensures r != ""
    ensures detail.Some? && detail.value != "" ==> r == detail.value
    ensures (detail.None? || detail.value == "") && error.Some? && error.value != "" ==>
              r == error.value
    ensures (detail.None? || detail.value == "") && (error.None? || error.value == "") ==>
              r == "Error al crear ruta"
    ensures r in {"Error al crear ruta"} + (if detail.Some? then {detail.value} else {})
                                         + (if error.Some? then {error.value} else {})
  {
    if detail.Some? && detail.value != "" then detail.value
    else if error.Some? && error.value != "" then error.value
    else "Error al crear ruta"
  }

  /** `handleSubmit`: a form that fails validation raises the first alert and
      sends nothing; otherwise the request is sent and the outcome decides
      between opening the new route and alerting the error. */
  method Submit(f: RutaForm, pedidosSeleccionados: seq<Num>, etiquetas: seq<string>,
                outcome: CreateOutcome)
    returns (sent: Option<CreateRutaRequest>, alertText: string, navigateTo: Option<string>)
    requires NoDup(pedidosSeleccionados)
    ensures Validate(f, pedidosSeleccionados).Some? ==>
              sent.None? && navigateTo.None? && alertText == Validate(f, pedidosSeleccionados).value
    ensures Validate(f, pedidosSeleccionados).None? ==>
              sent.Some? && RequestFrom(sent.value, f, pedidosSeleccionados, etiquetas) &&
              NoDup(sent.value.pedidosIds) && |sent.value.pedidosIds| > 0
    ensures sent.Some? && outcome.Created? ==>
              alertText == " Ruta creada exitosamente" &&
              navigateTo == Some("/logistica/rutas/" + IntToString(outcome.id))
    ensures sent.Some? && outcome.Failed? ==>
              navigateTo.None? && alertText == "X " + ErrorMessage(outcome.detail, outcome.error)
  {
    var check := Validate(f, pedidosSeleccionados);
    if check.Some? {
      return None, check.value, None;
    }
    var data := BuildRequest(f, pedidosSeleccionados, etiquetas);
    sent := Some(data);
    match outcome
    case Created(id) =>
      alertText := " Ruta creada exitosamente";
      navigateTo := Some("/logistica/rutas/" + IntToString(id));
    case Failed(detail, error) =>
      alertText := "X " + ErrorMessage(detail, error);
      navigateTo := None;
  }

  // ---------------------------------------------------------------- totals

  /** The ids of the listed orders that are selected, in list order
      (the filter of `calcularTotales`). */
  function SelectedAvailable(ids: seq<int>, selected: seq<Num>): (r: seq<int>)
    ensures |r| <= |ids|
    ensures forall x :: x in r <==> x in ids && Int(x) in selected
    ensures NoDup(ids) ==> NoDup(r)
  {
    if ids == [] then []
    else
      var rest := SelectedAvailable(ids[1..], selected);
      assert NoDup(ids) ==> ids[0] !in ids[1..] && NoDup(ids[1..]);
      if Int(ids[0]) in selected then [ids[0]] + rest else rest
  }

  /** The count shown never exceeds the selection's size, and falls short of
      it exactly when some selected id is not among the listed orders. */
  lemma CountBound(ids: seq<int>, selected: seq<Num>)
    requires NoDup(ids) && NoDup(selected)
    ensures |SelectedAvailable(ids, selected)| <= |selected|
    ensures |SelectedAvailable(ids, selected)| == |selected| <==>
              forall x :: x in selected ==> x.Int? && x.v in ids
  {
    var r := SelectedAvailable(ids, selected);
    var shown := set x | x in r :: Int(x);
    var chosen := set x | x in selected;
    NoDupCard(r);
    NoDupCard(selected);
    InjectiveImage(r);
    SubsetCard(shown, chosen);
    if forall x :: x in selected ==> x.Int? && x.v in ids {
      assert chosen <= shown by {
        forall x | x in chosen ensures x in shown {
          assert x.v in r;
        }
      }
      assert shown == chosen;
    }
    if |r| == |selected| {
      assert shown == chosen;
      forall x | x in selected ensures x.Int? && x.v in ids {
        assert x in chosen;
        assert x in shown;
        var y :| y in r && x == Int(y);
      }
    }
  }

  lemma SubsetCard<T>(a: set<T>, b: set<T>)
    requires a <= b
    ensures |a| <= |b|
    ensures |a| == |b| ==> a == b
  {
    assert b == a + (b - a);
    assert |b| == |a| + |b - a|;
  }

  /** Wrapping distinct ids as numbers keeps them distinct. */
  lemma {:induction false} InjectiveImage(r: seq<int>)
    requires NoDup(r)
    ensures |set x | x in r :: Int(x)| == |set x | x in r|
  {
    if r != [] {
      var rest := r[1..];
      assert NoDup(rest);
      InjectiveImage(rest);
      assert (set x | x in r :: Int(x)) == (set x | x in rest :: Int(x)) + {Int(r[0])};
      assert (set x | x in r) == (set x | x in rest) + {r[0]};
      assert r[0] !in rest;
      assert Int(r[0]) !in (set x | x in rest :: Int(x));
    }
  }
}
