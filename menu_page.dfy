/**
 * The menu editor: the recipe a dish may hold (drinks take drink
 * ingredients, everything else general ones), the live cost preview, line
 * removal, the name checks on save, and the category list's reordering and
 * creation.
 */
module MenuPage {
  import opened Types
  import opened Seqs
  import opened Text
  import opened Names
  import opened Resolver

  // ----- the recipe editor ------------------------------------------------------

  function IsDrinksCategory(c: MenuCategory): bool
  {
    Lower(c.nombre) == "bebidas"
  }

  /** `cats[i]` is the first category called "bebidas" in any case. */
  predicate FirstDrinks(cats: seq<MenuCategory>, i: int)
  {
    0 <= i < |cats| && IsDrinksCategory(cats[i]) && forall j :: 0 <= j < i ==> !IsDrinksCategory(cats[j])
  }

  /** `drinksCategoryId`: the first category called "bebidas" in any case, untrimmed. */
  function DrinksCategoryId(cats: seq<MenuCategory>): (r: Option<string>)
    ensures r.None? <==> forall i :: 0 <= i < |cats| ==> Lower(cats[i].nombre) != "bebidas"
    ensures r.Some? ==> exists i :: FirstDrinks(cats, i) && r.value == cats[i].id
  {
    match FirstIndex(cats, IsDrinksCategory)
    case None => None
    case Some(k) => Some(cats[k].id)
  }

  /** The ingredient category a dish in `categoryId` must use. */
  function RequiredCategory(categoryId: string, cats: seq<MenuCategory>): IngredientCategory
  {
    if DrinksCategoryId(cats) == Some(categoryId) then Bebida else General
  }

  /** A line fits when its ingredient exists (last one with the id) and has the required category. */
  function Fits(ings: seq<Ingredient>, required: IngredientCategory): RecipeItem -> bool
  {
    (line: RecipeItem) => Lookup(ings, line.ingredientId).Some? && Lookup(ings, line.ingredientId).value.categoria == required
  }

  /** The recipe the clean-up effect keeps: the fitting lines, in their order. */
  function CleanRecipe(receta: seq<RecipeItem>, categoryId: string, cats: seq<MenuCategory>, ings: seq<Ingredient>): (r: seq<RecipeItem>)
    ensures |r| <= |receta|
    ensures forall line :: line in r <==> line in receta && Fits(ings, RequiredCategory(categoryId, cats))(line)
  {
    Filter(receta, Fits(ings, RequiredCategory(categoryId, cats)))
  }

  /** The effect writes the cleaned recipe back only when a line was dropped. */
  function RecipeEffect(receta: seq<RecipeItem>, categoryId: string, cats: seq<MenuCategory>, ings: seq<Ingredient>): seq<RecipeItem>
  {
    var clean := CleanRecipe(receta, categoryId, cats, ings);
    if |clean| != |receta| then clean else receta
  }

  /**
   * The length test loses nothing: whatever the effect leaves is the cleaned
   * recipe, running it again changes nothing, and every line left names a known ingredient.
   */
  lemma RecipeEffectCleans(receta: seq<RecipeItem>, categoryId: string, cats: seq<MenuCategory>, ings: seq<Ingredient>)
    ensures RecipeEffect(receta, categoryId, cats, ings) == CleanRecipe(receta, categoryId, cats, ings)
    ensures var c := CleanRecipe(receta, categoryId, cats, ings);
      RecipeEffect(c, categoryId, cats, ings) == c
    ensures AllKnown(CleanRecipe(receta, categoryId, cats, ings), ings)
  {
    var p := Fits(ings, RequiredCategory(categoryId, cats));
    var c := Filter(receta, p);
    if |c| == |receta| {
      FilterSameLength(receta, p);
    }
    FilterAll(c, p);
  }

  /** Cleaning keeps the relative order of lines: it works on each part of a recipe separately. */
  lemma CleanRecipeKeepsOrder(a: seq<RecipeItem>, b: seq<RecipeItem>, categoryId: string, cats: seq<MenuCategory>, ings: seq<Ingredient>)
    ensures CleanRecipe(a + b, categoryId, cats, ings) == CleanRecipe(a, categoryId, cats, ings) + CleanRecipe(b, categoryId, cats, ings)
  {
    FilterAppend(a, b, Fits(ings, RequiredCategory(categoryId, cats)));
  }

  /** `removeRecipeItem`: the line at `index` goes, the others keep their order. */
  function RemoveAt<T>(s: seq<T>, index: int): (r: seq<T>)
    ensures !(0 <= index < |s|) ==> r == s
    ensures 0 <= index < |s| ==> |r| == |s| - 1
    ensures 0 <= index < |s| ==> forall j :: 0 <= j < index ==> r[j] == s[j]
    ensures 0 <= index < |s| ==> forall j :: index <= j < |r| ==> r[j] == s[j + 1]
  {
    if 0 <= index < |s| then s[..index] + s[index + 1..] else s
  }

  /** Removing a line takes exactly that line out of the multiset of lines. */
  lemma RemoveAtMultiset<T>(s: seq<T>, index: int)
    requires 0 <= index < |s|
    ensures multiset(RemoveAt(s, index)) + multiset{s[index]} == multiset(s)
  {
    assert s == s[..index] + [s[index]] + s[index + 1..];
  }

  /** One accumulation step of the `reduce`. */
  function CostFold(acc: int, receta: seq<RecipeItem>, ings: seq<Ingredient>): int
    decreases |receta|
  {
    if |receta| == 0 then acc else CostFold(acc + LineCost(receta[0], ings), receta[1..], ings)
  }

  lemma {:induction false} CostOfAppend(a: seq<RecipeItem>, b: seq<RecipeItem>, ings: seq<Ingredient>)
    ensures CostOf(a + b, ings) == CostOf(a, ings) + CostOf(b, ings)
  {
    if |b| == 0 {
      assert a + b == a;
    } else {
      assert (a + b)[..|a + b| - 1] == a + b[..|b| - 1];
      CostOfAppend(a, b[..|b| - 1], ings);
    }
  }

  lemma {:induction false} CostFoldIsCostOf(acc: int, receta: seq<RecipeItem>, ings: seq<Ingredient>)
    ensures CostFold(acc, receta, ings) == acc + CostOf(receta, ings)
    decreases |receta|
  {
    if |receta| > 0 {
      CostFoldIsCostOf(acc + LineCost(receta[0], ings), receta[1..], ings);
      assert receta == [receta[0]] + receta[1..];
      CostOfAppend([receta[0]], receta[1..], ings);
      assert [receta[0]][..0] == [];
    }
  }

  /** `calculatedCost`: the form's preview is the cost the resolver gives the stored dish. */
  function CalculatedCost(receta: seq<RecipeItem>, ings: seq<Ingredient>): (r: int)
    ensures r == CostOf(receta, ings)
  {
    CostFoldIsCostOf(0, receta, ings);
    CostFold(0, receta, ings)
  }

  /** Removing a line lowers the preview by that line's cost (0 for an unknown ingredient). */
  lemma RemoveLineCost(receta: seq<RecipeItem>, index: int, ings: seq<Ingredient>)
    requires 0 <= index < |receta|
    ensures CalculatedCost(RemoveAt(receta, index), ings) == CalculatedCost(receta, ings) - LineCost(receta[index], ings)
  {
    assert receta == receta[..index] + ([receta[index]] + receta[index + 1..]);
    CostOfAppend(receta[..index], [receta[index]] + receta[index + 1..], ings);
    CostOfAppend([receta[index]], receta[index + 1..], ings);
    CostOfAppend(receta[..index], receta[index + 1..], ings);
    assert [receta[index]][..0] == [];
  }

  // ----- saving a dish ----------------------------------------------------------

  /** The names a dish may not share: every listed item except the one being edited. */
  function OtherItemNames(items: seq<MenuItem>, editing: Option<string>): (r: seq<string>)
    ensures forall n :: n in r <==> exists i :: 0 <= i < |items| && items[i].nombre == n && editing != Some(items[i].id)
  {
    if |items| == 0 then []
    else (if editing != Some(items[0].id) then [items[0].nombre] else []) + OtherItemNames(items[1..], editing)
  }

  /** A dish other than the one being edited has `name` up to case and outer spaces. */
  predicate ItemNameInUse(name: string, items: seq<MenuItem>, editing: Option<string>)
  {
    exists i :: 0 <= i < |items| && editing != Some(items[i].id) && Normalize(items[i].nombre) == Normalize(name)
  }

  /**
   * `handleSubmit`: blank names are refused, and so is a name that another
   * listed dish (not the one being edited) has up to case and outer spaces.
   */
  function SubmitError(name: string, items: seq<MenuItem>, editing: Option<string>): (r: Option<Error>)
    ensures r == Some(BlankName) <==> Trim(name) == ""
    ensures r == Some(DuplicateName) <==> Trim(name) != "" && ItemNameInUse(name, items, editing)
    ensures r.None? || r == Some(BlankName) || r == Some(DuplicateName)
  {
    var others := OtherItemNames(items, editing);
    TrimEmptyIffBlank(name);
    TakenAmongOthers(name, items, editing);
    NameError(name, others)
  }

  lemma TakenAmongOthers(name: string, items: seq<MenuItem>, editing: Option<string>)
    ensures Taken(name, OtherItemNames(items, editing)) <==> ItemNameInUse(name, items, editing)
  {
    var others := OtherItemNames(items, editing);
    if Taken(name, others) {
      var k :| 0 <= k < |others| && Normalize(others[k]) == Normalize(name);
      assert others[k] in others;
    }
    if exists i :: 0 <= i < |items| && editing != Some(items[i].id) && Normalize(items[i].nombre) == Normalize(name) {
      var i :| 0 <= i < |items| && editing != Some(items[i].id) && Normalize(items[i].nombre) == Normalize(name);
      assert items[i].nombre in others;
      var k :| 0 <= k < |others| && others[k] == items[i].nombre;
    }
  }

  /** Saving a dish under its own name again is refused only when some other dish has that name too. */
  lemma ResaveOwnName(items: seq<MenuItem>, k: int)
    requires 0 <= k < |items| && Trim(items[k].nombre) != ""
    requires forall i :: 0 <= i < |items| && items[i].id != items[k].id ==> Normalize(items[i].nombre) != Normalize(items[k].nombre)
    ensures SubmitError(items[k].nombre, items, Some(items[k].id)).None?
  {
  }

  // ----- the category list ------------------------------------------------------

  datatype Direction = Up | Down

  /** Two entries exchanged; everything else in place. */
  function Swap<T>(s: seq<T>, i: int, j: int): (r: seq<T>)
    requires 0 <= i < |s| && 0 <= j < |s|
    ensures |r| == |s| && r[i] == s[j] && r[j] == s[i]
    ensures forall k :: 0 <= k < |s| && k != i && k != j ==> r[k] == s[k]
    ensures multiset(r) == multiset(s)
  {
    s[i := s[j]][j := s[i]]
  }

  function Target(index: int, dir: Direction): int
  {
    if dir == Up then index - 1 else index + 1
  }

  /** The list after a move: unchanged at either end, otherwise the entry and its neighbour exchanged. */
  function Moved<T>(s: seq<T>, index: int, dir: Direction): (r: seq<T>)
    requires 0 <= index < |s|
    ensures multiset(r) == multiset(s)
    ensures !(0 <= Target(index, dir) < |s|) ==> r == s
    ensures 0 <= Target(index, dir) < |s| ==> r == Swap(s, index, Target(index, dir))
  {
    var t := Target(index, dir);
    if 0 <= t < |s| then Swap(s, index, t) else s
  }

  /** Moving an entry up and then back down restores the list. */
  lemma MoveUpThenDown<T>(s: seq<T>, index: int)
    requires 1 <= index < |s|
    ensures Moved(Moved(s, index, Up), index - 1, Down) == s
  {
  }

  /** `handleMove`: a copy of the list with the entry and its neighbour swapped in place. */
  method HandleMove(cats: seq<MenuCategory>, index: int, dir: Direction) returns (r: seq<MenuCategory>)
    requires 0 <= index < |cats|
    ensures r == Moved(cats, index, dir)
  {
    var a := new MenuCategory[|cats|](i requires 0 <= i < |cats| => cats[i]);
    var t := if dir == Up then index - 1 else index + 1;
    if t < 0 || t >= a.Length {
      return cats;
    }
    a[index], a[t] := a[t], a[index];
    r := a[..];
  }

  function CategoryNames(cats: seq<MenuCategory>): (r: seq<string>)
    ensures |r| == |cats| && forall i :: 0 <= i < |cats| ==> r[i] == cats[i].nombre
  {
    seq(|cats|, i requires 0 <= i < |cats| => cats[i].nombre)
  }

  /** An existing category has `name` up to case and outer spaces. */
  predicate CategoryNameInUse(name: string, cats: seq<MenuCategory>)
  {
    exists i :: 0 <= i < |cats| && Normalize(cats[i].nombre) == Normalize(name)
  }

  /**
   * `handleAddCategory`: a blank name does nothing (Err(BlankName) without a
   * message), a name an existing category has up to case and outer spaces is
   * refused, and otherwise the trimmed name is created.
   */
  function AddCategory(name: string, cats: seq<MenuCategory>): (r: Result<string>)
    ensures r == Err(BlankName) <==> Trim(name) == ""
    ensures r == Err(DuplicateName) <==> Trim(name) != "" && CategoryNameInUse(name, cats)
    ensures r.Ok? ==> r.value == Trim(name) && r.value != ""
  {
    var names := CategoryNames(cats);
    match NameError(name, names)
    case Some(e) => Err(e)
    case None => Ok(Trim(name))
  }
}
