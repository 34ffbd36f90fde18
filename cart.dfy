/** The shopping cart of src/context/CartContext.tsx as list operations:
    an ordered list of (plant, quantity) entries keyed by the plant's id. */
module CartItems {
  import opened Types

  datatype CartItem = CartItem(planta: CatalogoPilon, cantidad: int)

  /** No two entries share a plant id: the shape `addItem` keeps. */
  predicate UniqueIds(items: seq<CartItem>) {
    forall i, j :: 0 <= i < j < |items| ==> items[i].planta.id != items[j].planta.id
  }

  /** `findIndex(item => item.planta.id === id)`: the first match, or -1. */
  function FindIndex(items: seq<CartItem>, id: int): (k: int)
    ensures -1 <= k < |items|
    ensures k == -1 <==> forall i :: 0 <= i < |items| ==> items[i].planta.id != id
    ensures k >= 0 ==> items[k].planta.id == id && forall i :: 0 <= i < k ==> items[i].planta.id != id
  {
    if items == [] then -1
    else if items[0].planta.id == id then 0
    else
      var k := FindIndex(items[1..], id);
      if k == -1 then -1 else k + 1
  }

  /** `addItem`'s updater: a plant already in the cart gets the amount added
      to its entry, in place; a new plant is appended. */
  function AddItem(items: seq<CartItem>, planta: CatalogoPilon, cantidad: int): (r: seq<CartItem>)
    ensures FindIndex(items, planta.id) == -1 ==> r == items + [CartItem(planta, cantidad)]
    ensures FindIndex(items, planta.id) >= 0 ==>
              var k := FindIndex(items, planta.id);
              |r| == |items| && r[k].planta == items[k].planta &&
              r[k].cantidad == items[k].cantidad + cantidad &&
              forall i :: 0 <= i < |items| && i != k ==> r[i] == items[i]
  {
    var k := FindIndex(items, planta.id);
    if k >= 0 then items[k := items[k].(cantidad := items[k].cantidad + cantidad)]
    else items + [CartItem(planta, cantidad)]
  }

  /** `removeItem`'s updater: every entry of that plant goes, the rest stay in order. */
  function RemoveItem(items: seq<CartItem>, plantaId: int): (r: seq<CartItem>)
    ensures |r| <= |items|
    ensures forall x :: x in r <==> x in items && x.planta.id != plantaId
  {
    if items == [] then []
    else if items[0].planta.id == plantaId then RemoveItem(items[1..], plantaId)
    else [items[0]] + RemoveItem(items[1..], plantaId)
  }

  /** `updateQuantity`: a non-positive amount removes the plant; otherwise
      only the plant's entries get the new amount. */
  function UpdateQuantity(items: seq<CartItem>, plantaId: int, cantidad: int): (r: seq<CartItem>)
    ensures cantidad <= 0 ==> r == RemoveItem(items, plantaId)
    ensures cantidad > 0 ==> |r| == |items|
    ensures cantidad > 0 ==>
              forall i :: 0 <= i < |items| ==>
                r[i].planta == items[i].planta &&
                r[i].cantidad == (if items[i].planta.id == plantaId then cantidad else items[i].cantidad)
  {
    if cantidad <= 0 then RemoveItem(items, plantaId)
    else seq(|items|, i requires 0 <= i < |items| =>
               if items[i].planta.id == plantaId then items[i].(cantidad := cantidad) else items[i])
  }

  /** `getTotalItems`: the sum of the quantities. */
  function TotalItems(items: seq<CartItem>): (r: int)
    ensures (forall i :: 0 <= i < |items| ==> items[i].cantidad >= 0) ==> r >= 0
    ensures (forall i :: 0 <= i < |items| ==> items[i].cantidad >= 1) ==> r >= |items|
  {
    if items == [] then 0 else items[0].cantidad + TotalItems(items[1..])
  }

  lemma {:induction false} TotalAppend(a: seq<CartItem>, b: seq<CartItem>)
    ensures TotalItems(a + b) == TotalItems(a) + TotalItems(b)
  {
    if a != [] {
      assert (a + b)[1..] == a[1..] + b;
      TotalAppend(a[1..], b);
    } else {
      assert a + b == b;
    }
  }

  /** Changing one entry's quantity changes the total by the difference. */
  lemma {:induction false} TotalUpdateAt(items: seq<CartItem>, k: nat, c: int)
    requires k < |items|
    ensures TotalItems(items[k := items[k].(cantidad := c)]) == TotalItems(items) - items[k].cantidad + c
  {
    if k > 0 {
      assert items[k := items[k].(cantidad := c)][1..] == items[1..][k - 1 := items[k].(cantidad := c)];
      TotalUpdateAt(items[1..], k - 1, c);
    }
  }

  /** Adding an amount of a plant raises the item total by that amount,
      whether the plant was in the cart or not. */
  lemma AddItemTotal(items: seq<CartItem>, planta: CatalogoPilon, cantidad: int)
    ensures TotalItems(AddItem(items, planta, cantidad)) == TotalItems(items) + cantidad
  {
    var k := FindIndex(items, planta.id);
    if k >= 0 {
      TotalUpdateAt(items, k, items[k].cantidad + cantidad);
    } else {
      TotalAppend(items, [CartItem(planta, cantidad)]);
    }
  }

  /** Adding keeps plant ids unique. */
  lemma AddItemUnique(items: seq<CartItem>, planta: CatalogoPilon, cantidad: int)
    requires UniqueIds(items)
    ensures UniqueIds(AddItem(items, planta, cantidad))
  {
    var r := AddItem(items, planta, cantidad);
    if FindIndex(items, planta.id) == -1 {
      forall i, j | 0 <= i < j < |r| ensures r[i].planta.id != r[j].planta.id {
        if j == |items| {
          assert r[i] == items[i];
        } else {
          assert r[i] == items[i] && r[j] == items[j];
        }
      }
    }
  }

  /** Removing a plant after adding it leaves the cart as removing it
      outright would: the add is undone. */
  lemma {:induction false} AddThenRemove(items: seq<CartItem>, planta: CatalogoPilon, cantidad: int)
    ensures RemoveItem(AddItem(items, planta, cantidad), planta.id) == RemoveItem(items, planta.id)
  {
    var k := FindIndex(items, planta.id);
    if k >= 0 {
      RemoveUpdated(items, k, planta.id, items[k].cantidad + cantidad);
    } else {
      RemoveAppend(items, [CartItem(planta, cantidad)], planta.id);
      assert RemoveItem([CartItem(planta, cantidad)], planta.id) == RemoveItem([], planta.id);
      assert items + [] == items;
    }
  }

  lemma {:induction false} RemoveAppend(a: seq<CartItem>, b: seq<CartItem>, id: int)
    ensures RemoveItem(a + b, id) == RemoveItem(a, id) + RemoveItem(b, id)
  {
    if a != [] {
      assert (a + b)[1..] == a[1..] + b;
      RemoveAppend(a[1..], b, id);
    } else {
      assert a + b == b;
    }
  }

  lemma {:induction false} RemoveUpdated(items: seq<CartItem>, k: nat, id: int, c: int)
    requires k < |items| && items[k].planta.id == id
    ensures RemoveItem(items[k := items[k].(cantidad := c)], id) == RemoveItem(items, id)
  {
    if k > 0 {
      assert items[k := items[k].(cantidad := c)][1..] == items[1..][k - 1 := items[k].(cantidad := c)];
      RemoveUpdated(items[1..], k - 1, id, c);
    }
  }

  /** Removing keeps the other entries in their order: removal distributes
      over concatenation (`RemoveAppend`), and an absent plant changes nothing. */
  lemma {:induction false} RemoveAbsent(items: seq<CartItem>, id: int)
    requires FindIndex(items, id) == -1
    ensures RemoveItem(items, id) == items
  {
    if items != [] {
      assert FindIndex(items[1..], id) == -1;
      RemoveAbsent(items[1..], id);
    }
  }

  /** With unique ids, setting a plant's quantity to a positive amount moves
      the total by the difference to its old quantity. */
  lemma UpdateQuantityTotal(items: seq<CartItem>, plantaId: int, cantidad: int)
    requires UniqueIds(items) && cantidad > 0
    requires FindIndex(items, plantaId) >= 0
    ensures var k := FindIndex(items, plantaId);
            TotalItems(UpdateQuantity(items, plantaId, cantidad)) ==
            TotalItems(items) - items[k].cantidad + cantidad
  {
    var k := FindIndex(items, plantaId);
    var r := UpdateQuantity(items, plantaId, cantidad);
    assert r == items[k := items[k].(cantidad := cantidad)];
    TotalUpdateAt(items, k, cantidad);
  }
}

/** The cart provider of src/context/CartContext.tsx: the `items` state and
    the operations the context exposes. */
module CartContext {
  import opened Types
  import opened CartItems

  /** The provider's state, replaced by each `setItems`. */
  class CartProvider {
    var items: seq<CartItem>

    /** Starts from the entries restored from storage (an empty cart when none). */
    constructor(saved: seq<CartItem>)
      ensures items == saved
    {
      items := saved;
    }

    method Add(planta: CatalogoPilon, cantidad: int)
      modifies this
      ensures items == AddItem(old(items), planta, cantidad)
      ensures TotalItems(items) == TotalItems(old(items)) + cantidad
      ensures UniqueIds(old(items)) ==> UniqueIds(items)
    {
      AddItemTotal(items, planta, cantidad);
      if UniqueIds(items) {
        AddItemUnique(items, planta, cantidad);
      }
      items := AddItem(items, planta, cantidad);
    }

    method Remove(plantaId: int)
      modifies this
      ensures items == RemoveItem(old(items), plantaId)
    {
      items := RemoveItem(items, plantaId);
    }

    /** A non-positive amount goes through `removeItem`. */
    method Update(plantaId: int, cantidad: int)
      modifies this
      ensures items == UpdateQuantity(old(items), plantaId, cantidad)
      ensures cantidad <= 0 ==> items == RemoveItem(old(items), plantaId)
    {
      if cantidad <= 0 {
        Remove(plantaId);
        return;
      }
      items := UpdateQuantity(items, plantaId, cantidad);
    }

    method Clear()
      modifies this
      ensures items == [] && Total() == 0
    {
      items := [];
    }

    /** `getTotalItems` over the current entries: at least one plant per
        entry when every quantity is positive. */
    function Total(): (r: int)
      reads this
      ensures (forall i :: 0 <= i < |items| ==> items[i].cantidad >= 1) ==> r >= |items|
    {
      TotalItems(items)
    }
  }

  // ---------------------------------------------------------------- as written

  /** A cart entry as a mutable object: `[...prevItems]` copies the array,
      not the entries, so the copy and the previous state share them. */
  class ItemCell {
    const planta: CatalogoPilon
    var cantidad: int

    constructor(planta: CatalogoPilon, cantidad: int)
      ensures this.planta == planta && this.cantidad == cantidad
    {
      this.planta := planta;
      this.cantidad := cantidad;
    }
  }

  /** `findIndex` over the entry objects: the first entry holding the plant, or -1. */
  function CellIndex(cells: seq<ItemCell>, id: int): (k: int)
    ensures -1 <= k < |cells|
    ensures k == -1 <==> forall i :: 0 <= i < |cells| ==> cells[i].planta.id != id
    ensures k >= 0 ==> cells[k].planta.id == id && forall i :: 0 <= i < k ==> cells[i].planta.id != id
  {
    if cells == [] then -1
    else if cells[0].planta.id == id then 0
    else
      var k := CellIndex(cells[1..], id);
      if k == -1 then -1 else k + 1
  }

  /** `addItem`'s updater as written: for a plant already in the cart it
      adds the amount to the shared entry object itself. */
  method AddItemUpdater(prevItems: seq<ItemCell>, planta: CatalogoPilon, cantidad: int)
    returns (newItems: seq<ItemCell>)
    modifies prevItems
    ensures CellIndex(prevItems, planta.id) >= 0 ==>
              var k := CellIndex(prevItems, planta.id);
              newItems == prevItems && prevItems[k].cantidad == old(prevItems[k].cantidad) + cantidad &&
              forall c :: c in prevItems && c != prevItems[k] ==> c.cantidad == old(c.cantidad)
    ensures CellIndex(prevItems, planta.id) == -1 ==>
              unchanged(prevItems) && |newItems| == |prevItems| + 1 &&
              newItems[..|prevItems|] == prevItems && fresh(newItems[|prevItems|]) &&
              newItems[|prevItems|].planta == planta && newItems[|prevItems|].cantidad == cantidad
  {
    var k := CellIndex(prevItems, planta.id);
    if k >= 0 {
      newItems := prevItems;
      newItems[k].cantidad := newItems[k].cantidad + cantidad;
    } else {
      var cell := new ItemCell(planta, cantidad);
      newItems := prevItems + [cell];
    }
  }

  /** React's StrictMode calls a state updater twice on the same previous
      state. With the mutating updater the second call sees the first call's
      write, so the plant's quantity grows by twice the amount. */
  method StrictModeAddTwice(prevItems: seq<ItemCell>, planta: CatalogoPilon, cantidad: int)
    returns (newItems: seq<ItemCell>)
    requires CellIndex(prevItems, planta.id) >= 0
    modifies prevItems
    ensures var k := CellIndex(prevItems, planta.id);
            newItems == prevItems && newItems[k].cantidad == old(prevItems[k].cantidad) + 2 * cantidad &&
            forall c :: c in prevItems && c != prevItems[k] ==> c.cantidad == old(c.cantidad)
  {
    var first := AddItemUpdater(prevItems, planta, cantidad);
    newItems := AddItemUpdater(prevItems, planta, cantidad);
  }

  /** The pure updater gives the same cart however often it is called on the
      same previous state, and that cart holds the amount added once. */
  lemma PureAddOnce(items: seq<CartItem>, planta: CatalogoPilon, cantidad: int)
    requires FindIndex(items, planta.id) >= 0
    ensures var k := FindIndex(items, planta.id);
            AddItem(items, planta, cantidad)[k].cantidad == items[k].cantidad + cantidad
  {
  }
}
