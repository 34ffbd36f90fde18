/** The ready-orders page (src/pages/PedidosListos.tsx): an order picker
    over the orders ready for delivery that hands the picked ids to the
    route-creation page through its `pedidos` URL parameter. */
module PedidosListos {
  import opened Text
  import opened Url
  import opened Wrappers
  import opened OrderedSet
  import CrearRuta

  /** `handleToggleSelection`: the Set is copied, then the id is deleted when
      present and added otherwise. */
  method ToggleSelection(selectedPedidos: seq<int>, id: int) returns (newSelected: seq<int>)
    requires NoDup(selectedPedidos)
    ensures newSelected == Toggle(selectedPedidos, id)
    ensures NoDup(newSelected)
    ensures id in newSelected <==> id !in selectedPedidos
  {
    newSelected := selectedPedidos;
    if id in newSelected {
      newSelected := Remove(newSelected, id);
    } else {
      newSelected := Add(newSelected, id);
    }
  }

  /** `handleSelectAll`: a selection as large as the list is cleared;
      otherwise every listed id is selected. Only the sizes are compared. */
  function SelectAll(selectedPedidos: seq<int>, ids: seq<int>): (r: seq<int>)
    ensures NoDup(r)
    ensures |selectedPedidos| == |ids| ==> r == []
    ensures |selectedPedidos| != |ids| ==> forall x :: x in r <==> x in ids
  {
    if |selectedPedidos| == |ids| then [] else FromSeq(ids)
  }

  /** With distinct listed ids, select-all picks them in list order, and
      pressing it a second time clears the selection. */
  lemma SelectAllTwice(selectedPedidos: seq<int>, ids: seq<int>)
    requires NoDup(ids)
    requires |selectedPedidos| != |ids|
    ensures SelectAll(selectedPedidos, ids) == ids
    ensures SelectAll(SelectAll(selectedPedidos, ids), ids) == []
  {
    FromSeqNoDup(ids);
  }

  /** What pressing "create route" does. */
  datatype Action = Alert(message: string) | Navigate(path: string)

  /** The ids as `Array.from(selected).join(',')` renders them. */
  function IdList(selectedPedidos: seq<int>): string {
    Join(Strings(selectedPedidos), ',')
  }

  function Strings(ids: seq<int>): (r: seq<string>)
    ensures |r| == |ids|
    ensures forall i :: 0 <= i < |ids| ==> r[i] == IntToString(ids[i])
  {
    if ids == [] then [] else [IntToString(ids[0])] + Strings(ids[1..])
  }

  const CrearRutaPath := "/logistica/rutas/nueva?pedidos="

  /** `handleCrearRuta`: an empty selection only alerts; otherwise the page
      navigates to the creation form carrying the ids. */
  function CrearRutaAction(selectedPedidos: seq<int>): (r: Action)
    requires NoDup(selectedPedidos)
    ensures r.Alert? <==> selectedPedidos == []
    ensures r.Navigate? ==> CrearRuta.InitialSelection(ParseQuery(QueryOf(r.path)))
                              == Ints(selectedPedidos)
  {
    if |selectedPedidos| == 0 then Alert("⚠️ Selecciona al menos un pedido")
    else
      HandOff(selectedPedidos);
      Navigate(CrearRutaPath + IdList(selectedPedidos))
  }

  /** The button is disabled exactly when pressing it would only alert. */
  predicate CreateDisabled(selectedPedidos: seq<int>) {
    |selectedPedidos| == 0
  }

  lemma CreateDisabledIffAlert(selectedPedidos: seq<int>)
    requires NoDup(selectedPedidos)
    ensures CreateDisabled(selectedPedidos) <==> CrearRutaAction(selectedPedidos).Alert?
  {
  }

  /** The ids as the numbers parseInt yields. */
  function Ints(ids: seq<int>): (r: seq<Num>)
    ensures |r| == |ids|
    ensures forall i :: 0 <= i < |ids| ==> r[i] == Int(ids[i])
  {
    if ids == [] then [] else [Int(ids[0])] + Ints(ids[1..])
  }

  /** The creation page reads the id list back from the URL unchanged. */
  lemma HandOffQuery(j: string)
    requires '&' !in j
    ensures ParseQuery(QueryOf(CrearRutaPath + j)) == [Param("pedidos", j)]
  {
    var head := "/logistica/rutas/nueva?";
    var p := Param("pedidos", j);
    assert Serialize([p]) == "pedidos=" + j;
    assert CrearRutaPath + j == head + Serialize([p]);
    ReadBack(head, [p]);
  }

  /** Parsing the rendered ids gives back the ids. */
  lemma {:induction false} ParseStrings(ids: seq<int>)
    ensures CrearRuta.ParseAll(Strings(ids)) == Ints(ids)
  {
    if ids != [] {
      ParseIntToString(ids[0]);
      ParseStrings(ids[1..]);
    }
  }

  /** The rendered id list splits back into the rendered ids, and is non-empty. */
  lemma SplitIdList(ids: seq<int>)
    requires ids != []
    ensures '&' !in IdList(ids)
    ensures IdList(ids) != ""
    ensures Split(IdList(ids), ',') == Strings(ids)
  {
    var pieces := Strings(ids);
    forall i | 0 <= i < |pieces| ensures ',' !in pieces[i] && '&' !in pieces[i] {
      IntToStringHasNo(ids[i], ',');
      IntToStringHasNo(ids[i], '&');
    }
    JoinHasNo(pieces, ',', '&');
    SplitJoin(pieces, ',');
  }

  /** Distinct ids stay distinct as numbers. */
  lemma IntsNoDup(ids: seq<int>)
    requires NoDup(ids)
    ensures NoDup(Ints(ids))
  {
  }

  /** The hand-off round trip: the creation page starts with exactly the
      picked ids, in the order they were picked. */
  lemma HandOff(selectedPedidos: seq<int>)
    requires NoDup(selectedPedidos)
    requires selectedPedidos != []
    ensures CrearRuta.InitialSelection(ParseQuery(QueryOf(CrearRutaPath + IdList(selectedPedidos))))
              == Ints(selectedPedidos)
  {
    var j := IdList(selectedPedidos);
    SplitIdList(selectedPedidos);
    HandOffQuery(j);
    var query := [Param("pedidos", j)];
    assert Get(query, "pedidos") == Some(j);
    assert CrearRuta.InitialSelection(query) == FromSeq(CrearRuta.ParseAll(Split(j, ',')));
    ParseStrings(selectedPedidos);
    IntsNoDup(selectedPedidos);
    FromSeqNoDup(Ints(selectedPedidos));
  }
}
