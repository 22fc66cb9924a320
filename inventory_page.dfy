/**
 * The ingredient screen: the form's save check and numeric inputs, the
 * name search and the low-stock flag.
 */
module InventoryPage {
  import opened Types
  import opened Seqs
  import opened Text
  import opened Names
  import Stock

  /** Another ingredient than the one being edited has `name` up to case and outer spaces. */
  predicate IngredientNameInUse(name: string, ings: seq<Ingredient>, editing: Option<string>)
  {
    exists i :: 0 <= i < |ings| && editing != Some(ings[i].id) && Normalize(ings[i].nombre) == Normalize(name)
  }

  /** The names an ingredient may not share: every ingredient except the one being edited. */
  function OtherIngredientNames(ings: seq<Ingredient>, editing: Option<string>): (r: seq<string>)
    ensures forall n :: n in r <==> exists i :: 0 <= i < |ings| && ings[i].nombre == n && editing != Some(ings[i].id)
  {
    if |ings| == 0 then []
    else (if editing != Some(ings[0].id) then [ings[0].nombre] else []) + OtherIngredientNames(ings[1..], editing)
  }

  lemma TakenAmongOthers(name: string, ings: seq<Ingredient>, editing: Option<string>)
    ensures Taken(name, OtherIngredientNames(ings, editing)) <==> IngredientNameInUse(name, ings, editing)
  {
    var others := OtherIngredientNames(ings, editing);
    if Taken(name, others) {
      var k :| 0 <= k < |others| && Normalize(others[k]) == Normalize(name);
      assert others[k] in others;
    }
    if IngredientNameInUse(name, ings, editing) {
      var i :| 0 <= i < |ings| && editing != Some(ings[i].id) && Normalize(ings[i].nombre) == Normalize(name);
      assert ings[i].nombre in others;
      var k :| 0 <= k < |others| && others[k] == ings[i].nombre;
    }
  }

  /** `IngredientModal.handleSubmit`: a blank name, then a name another ingredient has, are refused. */
  function SubmitError(name: string, ings: seq<Ingredient>, editing: Option<string>): (r: Option<Error>)
    ensures r == Some(BlankName) <==> Trim(name) == ""
    ensures r == Some(DuplicateName) <==> Trim(name) != "" && IngredientNameInUse(name, ings, editing)
    ensures r.None? || r == Some(BlankName) || r == Some(DuplicateName)
  {
    TrimEmptyIffBlank(name);
    TakenAmongOthers(name, ings, editing);
    NameError(name, OtherIngredientNames(ings, editing))
  }

  /** `parseFloat(value) || 0` on a whole-number field: what does not parse counts as 0. */
  function NumericField(value: string): (r: int)
    ensures r != 0 ==> exists i :: 0 <= i < |value| && IsDigit(value[i])
  {
    match ParseLeadingInt(value)
    case None => 0
    case Some(n) => n
  }

  /** A field holding a printed number reads back as that number. */
  lemma NumericFieldRoundTrip(n: nat)
    ensures NumericField(NatToString(n)) == n
  {
    ParseNatToString(n);
  }

  /** The row highlight: stock at or below its minimum. */
  predicate LowStock(g: Ingredient)
  {
    g.stockActual <= g.stockMinimo
  }

  /** Taking an order's stock out never clears a low-stock flag, and flags any ingredient it drives to its minimum. */
  lemma DeductionKeepsLowStock(ings: seq<Ingredient>, items: seq<OrderItem>, menu: seq<MenuItem>, i: int)
    requires 0 <= i < |ings| && Stock.Need(items, menu, ings[i].id) >= 0
    ensures LowStock(ings[i]) ==> LowStock(Stock.StockAfter(ings, items, menu, -1)[i])
    ensures Stock.IsFirstWithId(ings, i) && ings[i].stockActual - Stock.Need(items, menu, ings[i].id) <= ings[i].stockMinimo ==>
      LowStock(Stock.StockAfter(ings, items, menu, -1)[i])
  {
  }

  function NameMatches(query: string): Ingredient -> bool
  {
    (g: Ingredient) => Contains(Lower(g.nombre), Lower(query))
  }

  /** `filteredIngredients`: the ingredients whose lower-cased name contains the lower-cased query, in order. */
  function Search(ings: seq<Ingredient>, query: string): (r: seq<Ingredient>)
    ensures forall g :: g in r <==> g in ings && Contains(Lower(g.nombre), Lower(query))
  {
    Filter(ings, NameMatches(query))
  }

  /** An empty search box shows every ingredient. */
  lemma EmptySearchKeepsAll(ings: seq<Ingredient>)
    ensures Search(ings, "") == ings
  {
    forall i | 0 <= i < |ings| ensures NameMatches("")(ings[i]) {
      assert OccursAt(Lower(ings[i].nombre), Lower(""), 0);
    }
    FilterAll(ings, NameMatches(""));
  }

  /** Typing more narrows the list: every match of a longer query matches the shorter one. */
  lemma LongerQueryNarrows(ings: seq<Ingredient>, query: string, more: string)
    ensures forall g :: g in Search(ings, query + more) ==> g in Search(ings, query)
  {
    assert Lower(query + more) == Lower(query) + Lower(more);
    forall g | g in Search(ings, query + more) ensures g in Search(ings, query) {
      var s := Lower(g.nombre);
      var i :| OccursAt(s, Lower(query) + Lower(more), i);
      assert s[i..i + |Lower(query)|] == (Lower(query) + Lower(more))[..|Lower(query)|];
      assert OccursAt(s, Lower(query), i);
    }
  }
}
