/**
 * Recipe-driven stock movement: how much of each ingredient an order
 * consumes, and the ingredient table after that amount is taken out
 * (`deductStockForOrder`) or put back (`cancelOrder`).
 */
module Stock {
  import opened Types
  import opened Seqs

  /** What one recipe line asks of ingredient `id` for `portions` portions. */
  function LineNeed(line: RecipeItem, id: string, portions: int): int
  {
    if line.ingredientId == id then line.cantidad * portions else 0
  }

  /** Σ `cantidad × portions` over the lines of `receta` that use ingredient `id`. */
  function RecipeNeed(receta: seq<RecipeItem>, id: string, portions: int): int
  {
    if |receta| == 0 then 0
    else RecipeNeed(receta[..|receta| - 1], id, portions) + LineNeed(receta[|receta| - 1], id, portions)
  }

  /** The recipe behind an order line: `menuItems.find(mi => mi.id === ...)`, first match; none when the item is unknown. */
  function RecipeOf(menu: seq<MenuItem>, menuItemId: string): seq<RecipeItem>
  {
    match FirstIndex(menu, MenuItemIdIs(menuItemId))
    case None => []
    case Some(k) => menu[k].receta
  }

  /** The aggregate the source builds in its `Map`: total quantity of ingredient `id` the order lines need. */
  function Need(items: seq<OrderItem>, menu: seq<MenuItem>, id: string): int
  {
    if |items| == 0 then 0
    else
      var last := items[|items| - 1];
      Need(items[..|items| - 1], menu, id) + RecipeNeed(RecipeOf(menu, last.menuItemId), id, last.cantidad)
  }

  /** `ingredients.findIndex(i => i.id === id)` lands on index `i` exactly when no earlier entry has that id. */
  predicate IsFirstWithId(ings: seq<Ingredient>, i: int)
    requires 0 <= i < |ings|
  {
    forall j :: 0 <= j < i ==> ings[j].id != ings[i].id
  }

  /**
   * The ingredient table after every needed amount is moved by `sign`
   * (-1 deducts, +1 restores). Only the first entry with a given id moves,
   * and nothing bounds the result below zero.
   */
  function StockAfter(ings: seq<Ingredient>, items: seq<OrderItem>, menu: seq<MenuItem>, sign: int): (r: seq<Ingredient>)
    ensures |r| == |ings|
    ensures forall i :: 0 <= i < |ings| ==> r[i] == ings[i].(stockActual := r[i].stockActual)
  {
    seq(|ings|, i requires 0 <= i < |ings| => Moved(ings, i, sign * Need(items, menu, ings[i].id)))
  }

  /** Entry `i` after `ingredients[findIndex(...)].stock_actual += delta` for its own id. */
  function Moved(ings: seq<Ingredient>, i: int, delta: int): Ingredient
    requires 0 <= i < |ings|
  {
    if IsFirstWithId(ings, i) then ings[i].(stockActual := ings[i].stockActual + delta) else ings[i]
  }

  /** A `Map<string, number>` read as `totals.get(id) || 0`. */
  function Get(totals: map<string, int>, id: string): int
  {
    if id in totals then totals[id] else 0
  }

  /** The inner `forEach` over one recipe: adds `cantidad × portions` to each line's ingredient total. */
  method AddRecipeTotals(totals: map<string, int>, receta: seq<RecipeItem>, portions: int)
    returns (t: map<string, int>)
    ensures forall id :: Get(t, id) == Get(totals, id) + RecipeNeed(receta, id, portions)
  {
    t := totals;
    for j := 0 to |receta|
      invariant forall id :: Get(t, id) == Get(totals, id) + RecipeNeed(receta[..j], id, portions)
    {
      assert receta[..j + 1][..j] == receta[..j];
      var line := receta[j];
      t := t[line.ingredientId := Get(t, line.ingredientId) + line.cantidad * portions];
    }
    assert receta[..|receta|] == receta;
  }

  /** The first loop of `deductStockForOrder` / `cancelOrder`: the per-ingredient totals of an order. */
  method NeedTotals(items: seq<OrderItem>, menu: seq<MenuItem>) returns (totals: map<string, int>)
    ensures forall id :: Get(totals, id) == Need(items, menu, id)
  {
    totals := map[];
    for k := 0 to |items|
      invariant forall id :: Get(totals, id) == Need(items[..k], menu, id)
    {
      assert items[..k + 1][..k] == items[..k];
      totals := AddRecipeTotals(totals, RecipeOf(menu, items[k].menuItemId), items[k].cantidad);
    }
    assert items[..|items|] == items;
  }

  /** The second loop: each total moves the first ingredient carrying its id, in whatever order the keys come. */
  method ApplyTotals(ings: seq<Ingredient>, totals: map<string, int>, sign: int) returns (r: seq<Ingredient>)
    ensures |r| == |ings|
    ensures forall i :: 0 <= i < |ings| ==> r[i] == Moved(ings, i, sign * Get(totals, ings[i].id))
  {
    r := ings;
    var pending := totals.Keys;
    while pending != {}
      invariant pending <= totals.Keys
      invariant |r| == |ings|
      invariant forall i :: 0 <= i < |ings| ==>
        r[i] == if ings[i].id in pending then ings[i] else Moved(ings, i, sign * Get(totals, ings[i].id))
      decreases |pending|
    {
      var id :| id in pending;
      var idx := FirstIndex(r, IngredientIdIs(id));
      if idx.Some? {
        var i := idx.value;
        assert IsFirstWithId(ings, i);
        r := r[i := r[i].(stockActual := r[i].stockActual + sign * totals[id])];
      }
      pending := pending - {id};
    }
  }

  /** Both loops together: the stock movement of one order, proved equal to `StockAfter`. */
  method AdjustStock(ings: seq<Ingredient>, items: seq<OrderItem>, menu: seq<MenuItem>, sign: int)
    returns (r: seq<Ingredient>)
    ensures r == StockAfter(ings, items, menu, sign)
  {
    var totals := NeedTotals(items, menu);
    r := ApplyTotals(ings, totals, sign);
  }

  /** Deducting an order's stock and then restoring it gives back the original table. */
  lemma StockRoundTrip(ings: seq<Ingredient>, items: seq<OrderItem>, menu: seq<MenuItem>)
    ensures StockAfter(StockAfter(ings, items, menu, -1), items, menu, 1) == ings
  {
    var mid := StockAfter(ings, items, menu, -1);
    forall i | 0 <= i < |ings|
      ensures IsFirstWithId(mid, i) == IsFirstWithId(ings, i)
    {
    }
  }

  /** An ingredient the order does not need is left exactly as it was. */
  lemma UnneededUntouched(ings: seq<Ingredient>, items: seq<OrderItem>, menu: seq<MenuItem>, sign: int, i: int)
    requires 0 <= i < |ings|
    requires Need(items, menu, ings[i].id) == 0 || !IsFirstWithId(ings, i)
    ensures StockAfter(ings, items, menu, sign)[i] == ings[i]
  {
  }

  /** A recipe with every line for ingredient `id` removed: the cascade of `deleteIngredient`. */
  function WithoutLines(receta: seq<RecipeItem>, id: string): (r: seq<RecipeItem>)
    ensures |r| <= |receta|
    ensures forall k :: 0 <= k < |r| ==> r[k].ingredientId != id && r[k] in receta
  {
    if |receta| == 0 then []
    else
      var rest := WithoutLines(receta[..|receta| - 1], id);
      var last := receta[|receta| - 1];
      if last.ingredientId == id then rest else rest + [last]
  }

  /** The menu after `deleteIngredient(id)` strips that ingredient from every recipe. */
  function MenuWithout(menu: seq<MenuItem>, id: string): (r: seq<MenuItem>)
    ensures |r| == |menu|
    ensures forall k :: 0 <= k < |menu| ==> r[k] == menu[k].(receta := WithoutLines(menu[k].receta, id))
  {
    seq(|menu|, k requires 0 <= k < |menu| => menu[k].(receta := WithoutLines(menu[k].receta, id)))
  }

  /** Stripping an ingredient's lines zeroes its need and leaves every other ingredient's need alone. */
  lemma {:induction false} RecipeNeedWithout(receta: seq<RecipeItem>, id: string, other: string, portions: int)
    ensures RecipeNeed(WithoutLines(receta, id), id, portions) == 0
    ensures other != id ==> RecipeNeed(WithoutLines(receta, id), other, portions) == RecipeNeed(receta, other, portions)
  {
    if |receta| > 0 {
      var init := receta[..|receta| - 1];
      var last := receta[|receta| - 1];
      RecipeNeedWithout(init, id, other, portions);
      var rest := WithoutLines(init, id);
      if last.ingredientId != id {
        assert (rest + [last])[..|rest + [last]| - 1] == rest;
      }
    }
  }

  /** After `deleteIngredient(id)` no order needs that ingredient any more, and the other needs are unchanged. */
  lemma {:induction false} NeedAfterDelete(items: seq<OrderItem>, menu: seq<MenuItem>, id: string, other: string)
    ensures Need(items, MenuWithout(menu, id), id) == 0
    ensures other != id ==> Need(items, MenuWithout(menu, id), other) == Need(items, menu, other)
  {
    if |items| > 0 {
      var last := items[|items| - 1];
      NeedAfterDelete(items[..|items| - 1], menu, id, other);
      var stripped := MenuWithout(menu, id);
      var k := FirstIndex(menu, MenuItemIdIs(last.menuItemId));
      if k.Some? {
        FirstIndexIs(stripped, MenuItemIdIs(last.menuItemId), k.value);
      } else {
        assert FirstIndex(stripped, MenuItemIdIs(last.menuItemId)).None? by {
          assert forall j :: 0 <= j < |stripped| ==> stripped[j].id == menu[j].id;
        }
      }
      RecipeNeedWithout(RecipeOf(menu, last.menuItemId), id, other, last.cantidad);
    }
  }
}
