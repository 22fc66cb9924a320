/**
 * The menu as the screens show it: for each stored menu item, the cost of
 * its recipe, how many portions the current stock can make (None for
 * "unlimited") and whether it is effectively available. Ingredients are
 * looked up through a `Map` built from the ingredient list, so when two
 * ingredients share an id the later one is the one seen.
 */
module Resolver {
  import opened Types
  import opened Seqs

  /** `new Map(ingredients.map(i => [i.id, i])).get(id)`. */
  function Lookup(ings: seq<Ingredient>, id: string): (r: Option<Ingredient>)
    ensures r.Some? <==> exists i :: 0 <= i < |ings| && ings[i].id == id
    ensures r.Some? ==> r.value in ings && r.value.id == id
  {
    match LastIndex(ings, IngredientIdIs(id))
    case None => None
    case Some(k) => Some(ings[k])
  }

  /** What one recipe line adds to the cost: nothing when its ingredient is unknown. */
  function LineCost(line: RecipeItem, ings: seq<Ingredient>): int
  {
    match Lookup(ings, line.ingredientId)
    case None => 0
    case Some(g) => g.costeUnitario * line.cantidad
  }

  /** The derived cost: the sum of `LineCost` over the recipe, accumulated front to back. */
  function CostOf(receta: seq<RecipeItem>, ings: seq<Ingredient>): int
  {
    if |receta| == 0 then 0
    else CostOf(receta[..|receta| - 1], ings) + LineCost(receta[|receta| - 1], ings)
  }

  /**
   * One step of the `canMake` loop, with None for `Infinity`: an unknown
   * ingredient sets the count to 0 outright; a known one with a positive
   * quantity lowers it to `floor(stock / cantidad)` if that is smaller;
   * a line with quantity 0 or less leaves it alone.
   */
  function CanMakeStep(acc: Option<int>, line: RecipeItem, ings: seq<Ingredient>): Option<int>
  {
    match Lookup(ings, line.ingredientId)
    case None => Some(0)
    case Some(g) =>
      if line.cantidad > 0 then
        var possible := g.stockActual / line.cantidad;
        if acc.None? || possible < acc.value then Some(possible) else acc
      else acc
  }

  /** The derived stock after the whole recipe: None means unlimited (`null` in the source). */
  function CanMakeOf(receta: seq<RecipeItem>, ings: seq<Ingredient>): Option<int>
  {
    if |receta| == 0 then None
    else CanMakeStep(CanMakeOf(receta[..|receta| - 1], ings), receta[|receta| - 1], ings)
  }

  /** `floor(stock / cantidad)` of a line whose ingredient exists and whose quantity is positive. */
  function Portions(line: RecipeItem, ings: seq<Ingredient>): int
    requires Lookup(ings, line.ingredientId).Some? && line.cantidad > 0
  {
    Lookup(ings, line.ingredientId).value.stockActual / line.cantidad
  }

  predicate AllKnown(receta: seq<RecipeItem>, ings: seq<Ingredient>)
  {
    forall k :: 0 <= k < |receta| ==> Lookup(ings, receta[k].ingredientId).Some?
  }

  predicate Limiting(line: RecipeItem, ings: seq<Ingredient>)
  {
    Lookup(ings, line.ingredientId).Some? && line.cantidad > 0
  }

  /** When every ingredient exists, the derived stock is unlimited exactly when no line has a positive quantity. */
  lemma {:induction false} CanMakeUnlimitedIff(receta: seq<RecipeItem>, ings: seq<Ingredient>)
    requires AllKnown(receta, ings)
    ensures CanMakeOf(receta, ings).None? <==> forall k :: 0 <= k < |receta| ==> receta[k].cantidad <= 0
  {
    if |receta| > 0 {
      var init, last := receta[..|receta| - 1], receta[|receta| - 1];
      forall k | 0 <= k < |init| ensures Lookup(ings, init[k].ingredientId).Some? {
        assert init[k] == receta[k];
      }
      CanMakeUnlimitedIff(init, ings);
      StepUnlimitedIff(CanMakeOf(init, ings), last, ings);
      if forall k :: 0 <= k < |init| ==> init[k].cantidad <= 0 {
        forall k | 0 <= k < |receta| - 1 ensures receta[k].cantidad <= 0 {
          assert receta[k] == init[k];
        }
      }
    }
  }

  /** With its ingredient known, one line keeps the derived stock unlimited exactly when it was and the line has no positive quantity. */
  lemma StepUnlimitedIff(acc: Option<int>, line: RecipeItem, ings: seq<Ingredient>)
    requires Lookup(ings, line.ingredientId).Some?
    ensures CanMakeStep(acc, line, ings).None? <==> acc.None? && line.cantidad <= 0
  {
  }

  /** When every ingredient exists, the derived stock is at most `floor(stock / cantidad)` of every line with a positive quantity. */
  lemma {:induction false} CanMakeIsLowerBound(receta: seq<RecipeItem>, ings: seq<Ingredient>)
    requires AllKnown(receta, ings)
    ensures forall k :: 0 <= k < |receta| && Limiting(receta[k], ings) ==>
      CanMakeOf(receta, ings).Some? && CanMakeOf(receta, ings).value <= Portions(receta[k], ings)
  {
    if |receta| > 0 {
      var init := receta[..|receta| - 1];
      assert forall k :: 0 <= k < |init| ==> init[k] == receta[k];
      CanMakeIsLowerBound(init, ings);
    }
  }

  /** When every ingredient exists, a limited derived stock is `floor(stock / cantidad)` of one of the lines. */
  lemma {:induction false} CanMakeIsAttained(receta: seq<RecipeItem>, ings: seq<Ingredient>)
    requires AllKnown(receta, ings)
    ensures CanMakeOf(receta, ings).Some? ==>
      exists k :: 0 <= k < |receta| && Limiting(receta[k], ings) && CanMakeOf(receta, ings).value == Portions(receta[k], ings)
  {
    if |receta| > 0 {
      var init := receta[..|receta| - 1];
      var last := receta[|receta| - 1];
      assert forall k :: 0 <= k < |init| ==> init[k] == receta[k];
      CanMakeIsAttained(init, ings);
      var prev := CanMakeOf(init, ings);
      if CanMakeOf(receta, ings) != prev {
        assert Limiting(last, ings) && CanMakeOf(receta, ings).value == Portions(last, ings);
      } else if prev.Some? {
        var j :| 0 <= j < |init| && Limiting(init[j], ings) && prev.value == Portions(init[j], ings);
        assert receta[j] == init[j];
      }
    }
  }

  /** A line whose ingredient is missing caps the derived stock at 0 or below, whatever comes after it. */
  lemma {:induction false} MissingIngredientCapsStock(receta: seq<RecipeItem>, ings: seq<Ingredient>, k: int)
    requires 0 <= k < |receta| && Lookup(ings, receta[k].ingredientId).None?
    ensures CanMakeOf(receta, ings).Some? && CanMakeOf(receta, ings).value <= 0
  {
    var init := receta[..|receta| - 1];
    if k < |receta| - 1 {
      assert init[k] == receta[k];
      MissingIngredientCapsStock(init, ings, k);
    }
  }

  /**
   * Effective availability: the stored flag, switched off when the item may not
   * be sold without stock and its derived stock is known and at most 0.
   */
  function Available(disponible: bool, permiteSinStock: bool, stock: Option<int>): (r: bool)
    ensures r ==> disponible
    ensures disponible && !r <==> disponible && !permiteSinStock && stock.Some? && stock.value <= 0
  {
    if !permiteSinStock && stock.Some? && stock.value <= 0 then false else disponible
  }

  /** The displayed copy of one menu item: the stored item with cost, stock and availability derived. */
  function Displayed(item: MenuItem, ings: seq<Ingredient>): (d: MenuItem)
    ensures d == item.(coste := d.coste, stockActual := d.stockActual, disponible := d.disponible)
    ensures d.coste == CostOf(item.receta, ings) && d.stockActual == CanMakeOf(item.receta, ings)
    ensures d.disponible == Available(item.disponible, item.permiteVentaSinStock, d.stockActual)
    ensures d.disponible ==> item.disponible
  {
    var stock := CanMakeOf(item.receta, ings);
    item.(coste := CostOf(item.receta, ings), stockActual := stock,
          disponible := Available(item.disponible, item.permiteVentaSinStock, stock))
  }

  /** `m` holds what `Lookup` finds in `ings`, key by key. */
  ghost predicate Indexes(m: map<string, Ingredient>, ings: seq<Ingredient>)
  {
    forall id :: (id in m <==> Lookup(ings, id).Some?) && (id in m ==> Lookup(ings, id) == Some(m[id]))
  }

  /** `new Map(ingredients.map(i => [i.id, i]))`, built entry by entry. */
  method IngredientMap(ings: seq<Ingredient>) returns (m: map<string, Ingredient>)
    ensures Indexes(m, ings)
  {
    m := map[];
    for k := 0 to |ings|
      invariant Indexes(m, ings[..k])
    {
      assert ings[..k + 1][..k] == ings[..k];
      m := m[ings[k].id := ings[k]];
      forall id ensures (id in m <==> Lookup(ings[..k + 1], id).Some?)
        && (id in m ==> Lookup(ings[..k + 1], id) == Some(m[id]))
      {
        var _ := Lookup(ings[..k], id);
      }
    }
    assert ings[..|ings|] == ings;
  }

  /** The body of the `menuItems.map` callback: one pass over the recipe with running `calculatedCost` and `canMake`. */
  method ResolveItem(item: MenuItem, m: map<string, Ingredient>, ghost ings: seq<Ingredient>) returns (d: MenuItem)
    requires Indexes(m, ings)
    ensures d == Displayed(item, ings)
  {
    var cost := 0;
    var canMake: Option<int> := None;
    for j := 0 to |item.receta|
      invariant cost == CostOf(item.receta[..j], ings)
      invariant canMake == CanMakeOf(item.receta[..j], ings)
    {
      var line := item.receta[j];
      assert item.receta[..j + 1][..j] == item.receta[..j];
      if line.ingredientId in m {
        var g := m[line.ingredientId];
        cost := cost + g.costeUnitario * line.cantidad;
        if line.cantidad > 0 {
          var possible := g.stockActual / line.cantidad;
          if canMake.None? || possible < canMake.value {
            canMake := Some(possible);
          }
        }
      } else {
        canMake := Some(0);
      }
    }
    assert item.receta[..|item.receta|] == item.receta;
    var available := item.disponible;
    if !item.permiteVentaSinStock && canMake.Some? && canMake.value <= 0 {
      available := false;
    }
    d := item.(coste := cost, stockActual := canMake, disponible := available);
  }

  /** `allItemsForDisplay`: every stored item, in order, replaced by its displayed copy. */
  method AllItemsForDisplay(menu: seq<MenuItem>, ings: seq<Ingredient>) returns (r: seq<MenuItem>)
    ensures |r| == |menu|
    ensures forall i :: 0 <= i < |menu| ==> r[i] == Displayed(menu[i], ings)
  {
    if |menu| == 0 {
      return [];
    }
    var m := IngredientMap(ings);
    r := [];
    for i := 0 to |menu|
      invariant |r| == i
      invariant forall k :: 0 <= k < i ==> r[k] == Displayed(menu[k], ings)
    {
      var d := ResolveItem(menu[i], m, ings);
      r := r + [d];
    }
  }

  /** The displayed menu as a value, for the functions and lemmas that use it. */
  function DisplayAll(menu: seq<MenuItem>, ings: seq<Ingredient>): (r: seq<MenuItem>)
    ensures |r| == |menu|
    ensures forall i :: 0 <= i < |menu| ==> r[i] == Displayed(menu[i], ings)
  {
    seq(|menu|, i requires 0 <= i < |menu| => Displayed(menu[i], ings))
  }

  function NotDeleted(m: MenuItem): bool
  {
    !m.isDeleted
  }

  /** `processedMenuItems`: the displayed menu without the soft-deleted items, in order. */
  function ProcessedMenuItems(menu: seq<MenuItem>, ings: seq<Ingredient>): (r: seq<MenuItem>)
    ensures forall i :: 0 <= i < |r| ==> !r[i].isDeleted && r[i] in DisplayAll(menu, ings)
    ensures forall i :: 0 <= i < |menu| && !menu[i].isDeleted ==> Displayed(menu[i], ings) in r
  {
    var all := DisplayAll(menu, ings);
    assert forall i :: 0 <= i < |menu| ==> all[i] == Displayed(menu[i], ings);
    Filter(all, NotDeleted)
  }
}
