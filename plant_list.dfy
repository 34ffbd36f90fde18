/** The plant catalogue page (src/pages/PlantList.tsx): the per-plant
    quantity fields kept in a map from plant id to quantity, adding a plant
    to the cart with its quantity, the search box and the shortened
    description. Loading the catalogue is a network call; its response is
    a parameter. */
module PlantList {
  import opened Wrappers
  import opened Text
  import opened Types
  import opened CartItems
  import CartContext

  /** `Math.max(1, parseInt(value) || 1)`: the quantity a field stores. */
  function StoredQuantity(value: string): (r: int)
    ensures r >= 1
    ensures ParseInt(value).Int? && ParseInt(value).v >= 1 ==> r == ParseInt(value).v
    ensures !(ParseInt(value).Int? && ParseInt(value).v >= 1) ==> r == 1
  {
    var n := ParseInt(value);
    var cantidad := if n.Truthy() then n.v else 1;
    if cantidad < 1 then 1 else cantidad
  }

  /** A positive quantity typed into a field is stored as typed. */
  lemma StoredQuantityOf(n: int)
    requires n >= 1
    ensures StoredQuantity(IntToString(n)) == n
  {
    ParseIntToString(n);
  }

  /** `quantities[planta.id] || 1`: the stored quantity, 1 when there is none. */
  function CartQuantity(quantities: map<int, int>, id: int): (r: int)
    ensures id !in quantities || quantities[id] == 0 ==> r == 1
    ensures id in quantities && quantities[id] != 0 ==> r == quantities[id]
  {
    if id in quantities && quantities[id] != 0 then quantities[id] else 1
  }

  /** The quantities right after loading: 1 for every listed plant. */
  function InitialQuantities(plantas: seq<CatalogoPilon>): (r: map<int, int>)
    ensures forall id :: id in r <==> exists p :: p in plantas && p.id == id
    ensures forall id :: id in r ==> r[id] == 1
  {
    map p | p in plantas :: p.id := 1
  }

  /** The page's state: the loaded plants and the quantity map. */
  class Page {
    var plantas: seq<CatalogoPilon>
    var quantities: map<int, int>

    /** Every stored quantity is at least 1. */
    predicate Valid()
      reads this
    {
      forall id :: id in quantities ==> quantities[id] >= 1
    }

    constructor()
      ensures plantas == [] && quantities == map[]
      ensures Valid()
    {
      plantas := [];
      quantities := map[];
    }

    /** `loadPlantas` after a successful response: the plants are shown and
        a quantity of 1 is written for each of them, one plant at a time. */
    method Load(response: seq<CatalogoPilon>)
      modifies this
      ensures plantas == response
      ensures quantities == InitialQuantities(response)
      ensures Valid()
    {
      plantas := response;
      var initial: map<int, int> := map[];
      var i := 0;
      while i < |response|
        invariant 0 <= i <= |response|
        invariant initial == InitialQuantities(response[..i])
      {
        initial := initial[response[i].id := 1];
        assert response[..i + 1] == response[..i] + [response[i]];
        i := i + 1;
      }
      assert response[..i] == response;
      quantities := initial;
    }

    /** `handleQuantityChange`: only the edited plant's quantity changes, to
        the clamped value typed. */
    method ChangeQuantity(plantaId: int, value: string)
      requires Valid()
      modifies this
      ensures quantities == old(quantities)[plantaId := StoredQuantity(value)]
      ensures plantas == old(plantas)
      ensures Valid()
    {
      quantities := quantities[plantaId := StoredQuantity(value)];
    }

    /** `handleAddToCart`: the stored quantity (1 when none) goes into the
        cart, the alert names it, and the plant's field is reset to 1. */
    method AddToCart(cart: CartContext.CartProvider, planta: CatalogoPilon) returns (cantidad: int, alertText: string)
      requires Valid()
      modifies this, cart
      ensures cantidad == CartQuantity(old(quantities), planta.id) && cantidad >= 1
      ensures cart.items == AddItem(old(cart.items), planta, cantidad)
      ensures quantities == old(quantities)[planta.id := 1]
      ensures plantas == old(plantas)
      ensures alertText == AddedText(cantidad, planta)
      ensures Valid()
    {
      cantidad := CartQuantity(quantities, planta.id);
      cart.Add(planta, cantidad);
      alertText := AddedText(cantidad, planta);
      quantities := quantities[planta.id := 1];
    }
  }

  /** The alert shown after adding: "✅ n name agregado(s) al carrito". */
  function AddedText(cantidad: int, planta: CatalogoPilon): string {
    "✅ " + IntToString(cantidad) + " " + planta.nombreComun + " agregado(s) al carrito"
  }

  /** A field read after being set to a positive quantity yields that
      quantity, and a plant whose field was never set gets 1. */
  lemma CartQuantityAfterChange(quantities: map<int, int>, id: int, n: int)
    requires n >= 1
    ensures CartQuantity(quantities[id := StoredQuantity(IntToString(n))], id) == n
  {
    StoredQuantityOf(n);
  }

  // ---------------------------------------------------------------- search

  /** `x?.toLowerCase() || ''`: a missing text searches as the empty text. */
  function LowerOrEmpty(o: Option<string>): string {
    if o.Some? then ToLower(o.value) else ""
  }

  /** The search test: the lower-cased term occurs in the lower-cased common
      name, scientific name or category name. */
  predicate Matches(p: CatalogoPilon, term: string) {
    var t := ToLower(term);
    Includes(ToLower(p.nombreComun), t) ||
    Includes(LowerOrEmpty(p.nombreCientifico), t) ||
    Includes(LowerOrEmpty(if p.categoria.Some? then Some(p.categoria.value.nombre) else None), t)
  }

  /** `filteredPlantas`. */
  function Search(plantas: seq<CatalogoPilon>, term: string): (r: seq<CatalogoPilon>)
    ensures |r| <= |plantas|
    ensures forall p :: p in r <==> p in plantas && Matches(p, term)
  {
    if plantas == [] then []
    else if Matches(plantas[0], term) then [plantas[0]] + Search(plantas[1..], term)
    else Search(plantas[1..], term)
  }

  /** Every text includes the empty text. */
  lemma IncludesEmpty(hay: string)
    ensures Includes(hay, "")
  {
    assert StartsWith(hay, "");
  }

  /** An empty search box shows the whole catalogue. */
  lemma {:induction false} SearchEmpty(plantas: seq<CatalogoPilon>)
    ensures Search(plantas, "") == plantas
  {
    if plantas != [] {
      IncludesEmpty(ToLower(plantas[0].nombreComun));
      assert Matches(plantas[0], "");
      SearchEmpty(plantas[1..]);
      assert [plantas[0]] + plantas[1..] == plantas;
    }
  }

  /** Lower-casing twice is lower-casing once. */
  lemma ToLowerIdempotent(s: string)
    ensures ToLower(ToLower(s)) == ToLower(s)
  {
  }

  /** The search ignores case: a term and its lower-cased form find the
      same plants. */
  lemma {:induction false} SearchIgnoresCase(plantas: seq<CatalogoPilon>, term: string)
    ensures Search(plantas, ToLower(term)) == Search(plantas, term)
  {
    ToLowerIdempotent(term);
    if plantas != [] {
      SearchIgnoresCase(plantas[1..], term);
    }
  }

  /** The search keeps the catalogue's order: searching a concatenation is
      the concatenation of the searched parts. */
  lemma {:induction false} SearchAppend(a: seq<CatalogoPilon>, b: seq<CatalogoPilon>, term: string)
    ensures Search(a + b, term) == Search(a, term) + Search(b, term)
  {
    if a == [] {
      assert a + b == b;
    } else {
      assert (a + b)[1..] == a[1..] + b;
      SearchAppend(a[1..], b, term);
    }
  }

  // ---------------------------------------------------------------- description

  /** The longest description shown in full. */
  const DescriptionLimit := 100

  /** A description longer than the limit is cut to its first 100
      characters followed by "...". */
  function Shortened(d: string): (r: string)
    ensures |r| <= DescriptionLimit + 3
    ensures |d| <= DescriptionLimit ==> r == d
    ensures |d| > DescriptionLimit ==> |r| == DescriptionLimit + 3 && StartsWith(d, r[..DescriptionLimit]) && r[DescriptionLimit..] == "..."
  {
    if |d| > DescriptionLimit then d[..DescriptionLimit] + "..." else d
  }

  /** `planta.descripcion && ...`: an empty or missing description shows nothing. */
  function ShownDescription(p: CatalogoPilon): (r: Option<string>)
    ensures r.None? <==> p.descripcion.None? || p.descripcion.value == ""
    ensures r.Some? ==> r.value == Shortened(p.descripcion.value)
  {
    if p.descripcion.Some? && p.descripcion.value != "" then Some(Shortened(p.descripcion.value)) else None
  }
}
