/** The route list page (src/pages/ListaRutas.tsx): the state filter it
    sends, the delete gating, the progress bar and the result count. Its
    badge, label and progress expressions are the same as the detail
    page's and are taken from there. */
module ListaRutas {
  import opened Text
  import opened Wrappers
  import opened LogisticaService
  import DetalleRuta

  /** `filtroEstado ? { estado: filtroEstado } : undefined`. */
  function FiltroFor(filtroEstado: string): (r: Option<RutasFiltro>)
    ensures r.None? <==> filtroEstado == ""
    ensures EstadoValue(r) == (if filtroEstado == "" then None else Some(filtroEstado))
    ensures DepartamentoValue(r).None?
  {
    if filtroEstado != "" then Some(RutasFiltro(Some(filtroEstado), None)) else None
  }

  /** Every option of the state select is sent as a plain filter, so the
      server reads back exactly the chosen state (see `RutasUrl`). */
  lemma FiltroOptionsPlain(st: RouteState)
    ensures PlainFiltro(FiltroFor(st.Name()))
    ensures EstadoValue(FiltroFor(st.Name())) == Some(st.Name())
    ensures PlainFiltro(FiltroFor(""))
  {
  }

  /** The delete button of a row is disabled for every state but 'planificada'. */
  predicate DeleteDisabled(estado: string) {
    estado != "planificada"
  }

  /** The list and the detail page agree on which routes may be deleted. */
  lemma DeleteAgreesWithDetalle(estado: string)
    ensures !DeleteDisabled(estado) <==> DetalleRuta.AccionesFor(estado).eliminar
  {
  }

  /** `"${n} ruta${n !== 1 ? 's' : ''} encontrada${n !== 1 ? 's' : ''}"`. */
  function ResultText(n: nat): (r: string)
    ensures StartsWith(r, IntToString(n) + " ruta")
  {
    var s := if n != 1 then "s" else "";
    IntToString(n) + " ruta" + s + " encontrada" + s
  }

  /** The count text is plural exactly when the count is not 1: it ends in
      's', and the word "rutas" appears, iff the count differs from 1. */
  lemma ResultTextPlural(n: nat)
    ensures ResultText(n)[|ResultText(n)| - 1] == 's' <==> n != 1
    ensures n != 1 ==> Includes(ResultText(n), "rutas")
  {
    var d := IntToString(n);
    var r := ResultText(n);
    if n != 1 {
      var tail := "rutas encontradas";
      assert r == d + " " + tail;
      var k := |d| + 1;
      assert r[k..] == tail;
      assert tail[..5] == "rutas";
      IncludesAt(r, "rutas", k);
    } else {
      assert r == d + " ruta encontrada";
    }
  }
}
