/**
 * Producing a recipe, src/pages/api/recipes/produce.ts: check every raw
 * material the recipe uses against its stock, then deduct what the batch
 * needs, then add the batch to the ingredient named after the recipe.
 */
module Production {
  import opened Wrappers
  import opened JsValues

  /** One line of a recipe: the raw material it draws on, if any, and the amount per unit. */
  datatype RecipeLine = RecipeLine(rawMaterialId: Option<string>, quantity: real)

  datatype Recipe = Recipe(id: string, name: string, category: string, ingredients: seq<RecipeLine>)

  datatype RawMaterial = RawMaterial(name: string, currentStock: real)

  datatype Ingredient = Ingredient(name: string, description: string, supplier: string, stock: real, category: string)

  /** An entry of `stockVerification`. */
  datatype Usage = Usage(rawMaterialId: string, requiredQuantity: real, availableStock: real)

  /** The outcome of the verification pass: every usage, or the first line that fails. */
  datatype StockCheck =
    | Verified(usages: seq<Usage>)
    | MaterialMissing(id: string)
    | StockShort(name: string, available: real, required: real)

  /** What the verification pass records for the usages it accepted. */
  predicate Recorded(usages: seq<Usage>, materials: map<string, RawMaterial>) {
    forall k :: 0 <= k < |usages| ==>
      usages[k].rawMaterialId in materials
      && usages[k].availableStock == materials[usages[k].rawMaterialId].currentStock
      && usages[k].requiredQuantity <= usages[k].availableStock
  }

  /**
   * The raw material a line draws on: its id when that is truthy. A line
   * without an id, or with the empty id, draws on none.
   */
  function MaterialOf(line: RecipeLine): (id: Option<string>)
    ensures id.Some? <==> line.rawMaterialId.Some? && line.rawMaterialId.value != ""
    ensures id.Some? ==> id == line.rawMaterialId
  {
    if line.rawMaterialId.Some? && line.rawMaterialId.value != "" then line.rawMaterialId else None
  }

  /** The check of one line for a batch of `quantity`; a line without a raw material is skipped. */
  function CheckLine(line: RecipeLine, materials: map<string, RawMaterial>, quantity: real): (c: StockCheck)
    ensures c.Verified? ==> Recorded(c.usages, materials) && |c.usages| <= 1
  {
    match MaterialOf(line)
    case None => Verified([])
    case Some(id) =>
      if id !in materials then MaterialMissing(id)
      else if materials[id].currentStock < line.quantity * quantity then
        StockShort(materials[id].name, materials[id].currentStock, line.quantity * quantity)
      else Verified([Usage(id, line.quantity * quantity, materials[id].currentStock)])
  }

  /** A line whose id is the empty string is skipped like one without an id, whatever the stock holds. */
  lemma EmptyIdSkipped(line: RecipeLine, materials: map<string, RawMaterial>, quantity: real)
    requires line.rawMaterialId == Some("")
    ensures CheckLine(line, materials, quantity) == Verified([])
    ensures CheckLine(line, materials, quantity) == CheckLine(line.(rawMaterialId := None), materials, quantity)
  {
  }

  /** The verification pass over the lines in order; the first failure wins. */
  function CheckStock(lines: seq<RecipeLine>, materials: map<string, RawMaterial>, quantity: real): (c: StockCheck)
    ensures c.Verified? ==> Recorded(c.usages, materials)
    decreases |lines|
  {
    if lines == [] then Verified([])
    else
      match CheckStock(lines[..|lines| - 1], materials, quantity)
      case Verified(acc) =>
        (match CheckLine(lines[|lines| - 1], materials, quantity)
         case Verified(u) => Verified(acc + u)
         case failure => failure)
      case failure => failure
  }

  /** The pairs (material, amount) a batch draws, in line order. */
  function Required(lines: seq<RecipeLine>, quantity: real): seq<(string, real)>
    decreases |lines|
  {
    if lines == [] then []
    else
      var last := lines[|lines| - 1];
      Required(lines[..|lines| - 1], quantity)
        + (if MaterialOf(last).Some? then [(MaterialOf(last).value, last.quantity * quantity)] else [])
  }

  function Drawn(usages: seq<Usage>): seq<(string, real)> {
    seq(|usages|, k requires 0 <= k < |usages| => (usages[k].rawMaterialId, usages[k].requiredQuantity))
  }

  /** Every line with a raw material names a known one whose stock covers that line alone. */
  predicate EachLineCovered(lines: seq<RecipeLine>, materials: map<string, RawMaterial>, quantity: real) {
    forall i :: 0 <= i < |lines| && MaterialOf(lines[i]).Some? ==>
      MaterialOf(lines[i]).value in materials
      && materials[MaterialOf(lines[i]).value].currentStock >= lines[i].quantity * quantity
  }

  /** The pass succeeds exactly when every line is covered on its own. */
  lemma {:induction false} CheckStockIff(lines: seq<RecipeLine>, materials: map<string, RawMaterial>, quantity: real)
    ensures CheckStock(lines, materials, quantity).Verified? <==> EachLineCovered(lines, materials, quantity)
    decreases |lines|
  {
    if lines != [] {
      var init := lines[..|lines| - 1];
      var last := lines[|lines| - 1];
      CheckStockIff(init, materials, quantity);
      if EachLineCovered(lines, materials, quantity) {
        assert EachLineCovered(init, materials, quantity) by {
          forall i | 0 <= i < |init| && MaterialOf(init[i]).Some?
            ensures MaterialOf(init[i]).value in materials
                    && materials[MaterialOf(init[i]).value].currentStock >= init[i].quantity * quantity
          {
            assert init[i] == lines[i];
          }
        }
      }
      if CheckStock(lines, materials, quantity).Verified? {
        forall i | 0 <= i < |lines| && MaterialOf(lines[i]).Some?
          ensures MaterialOf(lines[i]).value in materials
                  && materials[MaterialOf(lines[i]).value].currentStock >= lines[i].quantity * quantity
        {
          if i < |init| {
            assert lines[i] == init[i];
          }
        }
      }
    }
  }

  /**
   * A successful pass records one usage per line with a raw material, in
   * order, each needing the line's amount times the batch quantity.
   */
  lemma {:induction false} CheckStockDraws(lines: seq<RecipeLine>, materials: map<string, RawMaterial>, quantity: real)
    requires CheckStock(lines, materials, quantity).Verified?
    ensures Drawn(CheckStock(lines, materials, quantity).usages) == Required(lines, quantity)
    decreases |lines|
  {
    if lines != [] {
      var init := lines[..|lines| - 1];
      var last := lines[|lines| - 1];
      CheckStockDraws(init, materials, quantity);
      var acc := CheckStock(init, materials, quantity).usages;
      var u := CheckLine(last, materials, quantity).usages;
      assert Drawn(acc + u) == Drawn(acc) + Drawn(u);
    }
  }

  /** A failure is reported for some line, and every earlier line passed. */
  lemma {:induction false} CheckStockFailure(lines: seq<RecipeLine>, materials: map<string, RawMaterial>, quantity: real)
    requires !CheckStock(lines, materials, quantity).Verified?
    ensures exists i :: 0 <= i < |lines| && CheckLine(lines[i], materials, quantity) == CheckStock(lines, materials, quantity)
                        && CheckStock(lines[..i], materials, quantity).Verified?
    decreases |lines|
  {
    var init := lines[..|lines| - 1];
    var i := |lines| - 1;
    if CheckStock(init, materials, quantity).Verified? {
      assert init == lines[..i];
    } else {
      CheckStockFailure(init, materials, quantity);
      var j :| 0 <= j < |init| && CheckLine(init[j], materials, quantity) == CheckStock(init, materials, quantity)
               && CheckStock(init[..j], materials, quantity).Verified?;
      assert lines[j] == init[j] && lines[..j] == init[..j];
    }
  }

  /** One more line: the pass so far, extended by that line's check. */
  lemma CheckStockStep(lines: seq<RecipeLine>, materials: map<string, RawMaterial>, quantity: real, i: nat)
    requires i < |lines|
    ensures CheckStock(lines[..i + 1], materials, quantity) ==
            match CheckStock(lines[..i], materials, quantity)
            case Verified(acc) =>
              (match CheckLine(lines[i], materials, quantity)
               case Verified(u) => Verified(acc + u)
               case failure => failure)
            case failure => failure
  {
    assert lines[..i + 1][..i] == lines[..i];
    assert lines[..i + 1][i] == lines[i];
  }

  /** Once a prefix fails, the whole pass fails the same way. */
  lemma {:induction false} FailureSticks(lines: seq<RecipeLine>, materials: map<string, RawMaterial>, quantity: real, i: nat)
    requires i <= |lines| && !CheckStock(lines[..i], materials, quantity).Verified?
    ensures CheckStock(lines, materials, quantity) == CheckStock(lines[..i], materials, quantity)
    decreases |lines| - i
  {
    if i == |lines| {
      assert lines[..i] == lines;
    } else {
      assert lines[..i + 1][..i] == lines[..i];
      FailureSticks(lines, materials, quantity, i + 1);
    }
  }

  // ---------------------------------------------------------------------------
  // Deduction
  // ---------------------------------------------------------------------------

  predicate Known(usages: seq<Usage>, materials: map<string, RawMaterial>) {
    forall k :: 0 <= k < |usages| ==> usages[k].rawMaterialId in materials
  }

  /** The `$inc` updates, one per usage, in order. */
  function Deduct(materials: map<string, RawMaterial>, usages: seq<Usage>): (after: map<string, RawMaterial>)
    requires Known(usages, materials)
    ensures after.Keys == materials.Keys
    decreases |usages|
  {
    if usages == [] then materials
    else
      var before := Deduct(materials, usages[..|usages| - 1]);
      var u := usages[|usages| - 1];
      before[u.rawMaterialId := before[u.rawMaterialId].(currentStock := before[u.rawMaterialId].currentStock - u.requiredQuantity)]
  }

  /** The total the usages draw from material `id`. */
  function Total(usages: seq<Usage>, id: string): real
    decreases |usages|
  {
    if usages == [] then 0.0
    else
      var u := usages[|usages| - 1];
      Total(usages[..|usages| - 1], id) + (if u.rawMaterialId == id then u.requiredQuantity else 0.0)
  }

  /** Each material loses exactly the total its usages draw; nothing else about it changes. */
  lemma {:induction false} DeductTotals(materials: map<string, RawMaterial>, usages: seq<Usage>, id: string)
    requires Known(usages, materials) && id in materials
    ensures Deduct(materials, usages)[id] == materials[id].(currentStock := materials[id].currentStock - Total(usages, id))
    decreases |usages|
  {
    if usages != [] {
      DeductTotals(materials, usages[..|usages| - 1], id);
    }
  }

  /** A material no usage names is drawn from not at all. */
  lemma {:induction false} TotalOfUnused(usages: seq<Usage>, id: string)
    requires forall k :: 0 <= k < |usages| ==> usages[k].rawMaterialId != id
    ensures Total(usages, id) == 0.0
    decreases |usages|
  {
    if usages != [] {
      TotalOfUnused(usages[..|usages| - 1], id);
    }
  }

  // ---------------------------------------------------------------------------
  // The output ingredient
  // ---------------------------------------------------------------------------

  /** `IngredientModel.findOne({ name })`: the first ingredient with that name. */
  function FindIngredient(ingredients: seq<Ingredient>, name: string): (k: Option<nat>)
    ensures k.Some? ==> k.value < |ingredients| && ingredients[k.value].name == name
    ensures k.Some? ==> forall j :: 0 <= j < k.value ==> ingredients[j].name != name
    ensures k.None? ==> forall j :: 0 <= j < |ingredients| ==> ingredients[j].name != name
    decreases |ingredients|
  {
    if ingredients == [] then None
    else if ingredients[0].name == name then Some(0)
    else
      match FindIngredient(ingredients[1..], name)
      case None => None
      case Some(k) => Some(k + 1)
  }

  /** The ingredient created when none is named after the recipe. */
  function NewOutput(recipe: Recipe, quantity: real): Ingredient {
    Ingredient(recipe.name, "Producido usando la receta: " + recipe.name, "Producción interna", quantity, recipe.category)
  }

  /** The ingredients after crediting a batch of `quantity` of `recipe`. */
  function Credit(ingredients: seq<Ingredient>, recipe: Recipe, quantity: real): seq<Ingredient> {
    match FindIngredient(ingredients, recipe.name)
    case Some(k) => ingredients[k := ingredients[k].(stock := ingredients[k].stock + quantity)]
    case None => ingredients + [NewOutput(recipe, quantity)]
  }

  /**
   * The first ingredient named after the recipe gains the batch and nothing
   * else changes; without one, a new ingredient holding the batch is added
   * at the end.
   */
  lemma CreditOutput(ingredients: seq<Ingredient>, recipe: Recipe, quantity: real)
    ensures var after := Credit(ingredients, recipe, quantity);
            (exists j :: 0 <= j < |ingredients| && ingredients[j].name == recipe.name) ==>
              |after| == |ingredients|
              && (exists k :: 0 <= k < |ingredients| && ingredients[k].name == recipe.name
                    && after[k] == ingredients[k].(stock := ingredients[k].stock + quantity)
                    && forall j :: 0 <= j < |ingredients| && j != k ==> after[j] == ingredients[j])
    ensures var after := Credit(ingredients, recipe, quantity);
            (forall j :: 0 <= j < |ingredients| ==> ingredients[j].name != recipe.name) ==>
              after == ingredients + [NewOutput(recipe, quantity)] && after[|ingredients|].stock == quantity
  {
    var found := FindIngredient(ingredients, recipe.name);
    if found.Some? {
      var k := found.value;
      assert Credit(ingredients, recipe, quantity)[k] == ingredients[k].(stock := ingredients[k].stock + quantity);
    }
  }

  // ---------------------------------------------------------------------------
  // The route
  // ---------------------------------------------------------------------------

  /** How the route ends. */
  datatype ProduceOutcome =
    | Refused(status: int, message: string)
    | Produced(recipe: Recipe, quantity: real, usages: seq<Usage>)

  const BadQuantity := "La cantidad debe ser mayor a 0"
  const RecipeNotFound := "Receta no encontrada"
  const NoIngredients := "La receta no tiene ingredientes definidos"

  /**
   * The decision for recipe `id` and the body's `quantity` (None when
   * absent); `show` renders a number the way a template literal does.
   */
  function ProduceDecision(recipes: map<string, Recipe>, id: string, quantity: Option<real>,
                   materials: map<string, RawMaterial>, show: real -> string): (o: ProduceOutcome)
    ensures o.Produced? ==> Known(o.usages, materials) && Recorded(o.usages, materials)
  {
    if quantity.None? || quantity.value <= 0.0 then Refused(400, BadQuantity)
    else if id !in recipes then Refused(404, RecipeNotFound)
    else if recipes[id].ingredients == [] then Refused(400, NoIngredients)
    else
      match CheckStock(recipes[id].ingredients, materials, quantity.value)
      case MaterialMissing(m) => Refused(404, "Materia prima no encontrada: " + m)
      case StockShort(name, available, required) =>
        Refused(400, "No hay suficiente stock de " + name + ". Disponible: " + show(available) + ", Requerido: " + show(required))
      case Verified(usages) => Produced(recipes[id], quantity.value, usages)
  }

  function MaterialsAfter(o: ProduceOutcome, materials: map<string, RawMaterial>): map<string, RawMaterial> {
    if o.Produced? && Known(o.usages, materials) then Deduct(materials, o.usages) else materials
  }

  function IngredientsAfter(o: ProduceOutcome, ingredients: seq<Ingredient>): seq<Ingredient> {
    if o.Produced? then Credit(ingredients, o.recipe, o.quantity) else ingredients
  }

  function UsedBody(usages: seq<Usage>): seq<JsVal> {
    seq(|usages|, k requires 0 <= k < |usages| =>
      Obj([("rawMaterialId", Str(usages[k].rawMaterialId)), ("quantityUsed", Num(usages[k].requiredQuantity))]))
  }

  function ProduceResponse(o: ProduceOutcome, show: real -> string): Response {
    match o
    case Refused(status, message) => Reply(status, false, message)
    case Produced(recipe, quantity, usages) =>
      Response(200, Obj([("success", Bool(true)),
                         ("message", Str("Se produjeron " + show(quantity) + " unidades de " + recipe.name + " exitosamente")),
                         ("production", Obj([("recipeId", Str(recipe.id)), ("recipeName", Str(recipe.name)),
                                             ("quantity", Num(quantity)), ("ingredientsUsed", Arr(UsedBody(usages)))]))]),
               None)
  }

  /** The stock the route reads and writes: raw materials by id, and the ingredients. */
  class Inventory {
    var materials: map<string, RawMaterial>
    var ingredients: seq<Ingredient>

    constructor (materials0: map<string, RawMaterial>, ingredients0: seq<Ingredient>)
      ensures materials == materials0 && ingredients == ingredients0
    {
      materials := materials0;
      ingredients := ingredients0;
    }

    /** Step 2: the `$inc` of every usage, in order. */
    method DeductStock(usages: seq<Usage>)
      requires Known(usages, materials)
      modifies this
      ensures materials == Deduct(old(materials), usages)
      ensures ingredients == old(ingredients)
    {
      var j := 0;
      while j < |usages|
        invariant 0 <= j <= |usages|
        invariant materials == Deduct(old(materials), usages[..j])
        invariant ingredients == old(ingredients)
      {
        assert usages[..j + 1][..j] == usages[..j];
        var u := usages[j];
        materials := materials[u.rawMaterialId := materials[u.rawMaterialId].(currentStock := materials[u.rawMaterialId].currentStock - u.requiredQuantity)];
        j := j + 1;
      }
      assert usages[..|usages|] == usages;
    }

    /** Step 3: add the batch to the ingredient named after the recipe, or create it. */
    method CreditOutput(recipe: Recipe, quantity: real)
      modifies this
      ensures ingredients == Credit(old(ingredients), recipe, quantity)
      ensures materials == old(materials)
    {
      var output := FindIngredient(ingredients, recipe.name);
      if output.Some? {
        var k := output.value;
        ingredients := ingredients[k := ingredients[k].(stock := ingredients[k].stock + quantity)];
      } else {
        ingredients := ingredients + [NewOutput(recipe, quantity)];
      }
    }

    /** `produceRecipeHandler`: verify, then deduct, then credit. */
    method Produce(recipes: map<string, Recipe>, id: string, quantity: Option<real>, show: real -> string)
      returns (r: Response)
      modifies this
      ensures r == ProduceResponse(ProduceDecision(recipes, id, quantity, old(materials), show), show)
      ensures materials == MaterialsAfter(ProduceDecision(recipes, id, quantity, old(materials), show), old(materials))
      ensures ingredients == IngredientsAfter(ProduceDecision(recipes, id, quantity, old(materials), show), old(ingredients))
    {
      if quantity.None? || quantity.value <= 0.0 {
        return Reply(400, false, BadQuantity);
      }
      if id !in recipes {
        return Reply(404, false, RecipeNotFound);
      }
      var recipe := recipes[id];
      if recipe.ingredients == [] {
        return Reply(400, false, NoIngredients);
      }
      var q := quantity.value;
      var check := VerifyStock(recipe.ingredients, materials, q);
      match check
      case MaterialMissing(m) =>
        return Reply(404, false, "Materia prima no encontrada: " + m);
      case StockShort(name, available, required) =>
        return Reply(400, false, "No hay suficiente stock de " + name + ". Disponible: " + show(available) + ", Requerido: " + show(required));
      case Verified(verification) =>
        DeductStock(verification);
        CreditOutput(recipe, q);
        r := ProduceResponse(Produced(recipe, q, verification), show);
    }
  }

  /**
   * Step 1: every line against the stock as it is before production,
   * stopping at the first missing material or short stock.
   */
  method VerifyStock(lines: seq<RecipeLine>, materials: map<string, RawMaterial>, quantity: real) returns (c: StockCheck)
    ensures c == CheckStock(lines, materials, quantity)
  {
    var verification: seq<Usage> := [];
    var i := 0;
    while i < |lines|
      invariant 0 <= i <= |lines|
      invariant CheckStock(lines[..i], materials, quantity) == Verified(verification)
    {
      CheckStockStep(lines, materials, quantity, i);
      var line := lines[i];
      if MaterialOf(line).Some? {
        var mid := MaterialOf(line).value;
        if mid !in materials {
          assert CheckStock(lines[..i + 1], materials, quantity) == MaterialMissing(mid);
          FailureSticks(lines, materials, quantity, i + 1);
          return MaterialMissing(mid);
        }
        var requiredQuantity := line.quantity * quantity;
        var rawMaterial := materials[mid];
        if rawMaterial.currentStock < requiredQuantity {
          assert CheckStock(lines[..i + 1], materials, quantity)
              == StockShort(rawMaterial.name, rawMaterial.currentStock, requiredQuantity);
          FailureSticks(lines, materials, quantity, i + 1);
          return StockShort(rawMaterial.name, rawMaterial.currentStock, requiredQuantity);
        }
        assert CheckLine(line, materials, quantity) == Verified([Usage(mid, requiredQuantity, rawMaterial.currentStock)]);
        verification := verification + [Usage(mid, requiredQuantity, rawMaterial.currentStock)];
      } else {
        assert CheckLine(line, materials, quantity) == Verified([]);
        assert verification + [] == verification;
      }
      i := i + 1;
    }
    assert lines[..|lines|] == lines;
    c := Verified(verification);
  }

  /** A refusal, whichever check makes it, changes no stock at all. */
  lemma RefusalChangesNothing(recipes: map<string, Recipe>, id: string, quantity: Option<real>,
                              materials: map<string, RawMaterial>, ingredients: seq<Ingredient>, show: real -> string)
    requires ProduceDecision(recipes, id, quantity, materials, show).Refused?
    ensures MaterialsAfter(ProduceDecision(recipes, id, quantity, materials, show), materials) == materials
    ensures IngredientsAfter(ProduceDecision(recipes, id, quantity, materials, show), ingredients) == ingredients
    ensures quantity.None? || quantity.value <= 0.0 ==> ProduceDecision(recipes, id, quantity, materials, show) == Refused(400, BadQuantity)
  {
  }

  /**
   * Production goes ahead exactly when the quantity is positive, the recipe
   * exists and has lines, and every line is covered on its own (equality
   * passes); each material then loses the sum of what its lines draw.
   */
  lemma ProductionIff(recipes: map<string, Recipe>, id: string, quantity: Option<real>,
                      materials: map<string, RawMaterial>, show: real -> string, m: string)
    requires m in materials
    ensures ProduceDecision(recipes, id, quantity, materials, show).Produced? <==>
            quantity.Some? && quantity.value > 0.0 && id in recipes && recipes[id].ingredients != []
            && EachLineCovered(recipes[id].ingredients, materials, quantity.value)
    ensures ProduceDecision(recipes, id, quantity, materials, show).Produced? ==>
            var o := ProduceDecision(recipes, id, quantity, materials, show);
            Drawn(o.usages) == Required(recipes[id].ingredients, quantity.value)
            && MaterialsAfter(o, materials)[m] == materials[m].(currentStock := materials[m].currentStock - Total(o.usages, m))
  {
    if quantity.Some? && quantity.value > 0.0 && id in recipes && recipes[id].ingredients != [] {
      CheckStockIff(recipes[id].ingredients, materials, quantity.value);
      var o := ProduceDecision(recipes, id, quantity, materials, show);
      if o.Produced? {
        CheckStockDraws(recipes[id].ingredients, materials, quantity.value);
        DeductTotals(materials, o.usages, m);
      }
    }
  }

  // ---------------------------------------------------------------------------
  // A material listed on two lines
  // ---------------------------------------------------------------------------

  /**
   * Each line is checked against the stock as it was before production, so
   * two lines drawing 6 each from a stock of 10 both pass and the stock ends
   * at -2: the check does not keep a material from going negative when the
   * recipe lists it twice.
   */
  lemma DuplicateMaterialOverdrawn()
    ensures var materials := map["harina" := RawMaterial("Harina", 10.0)];
            var lines := [RecipeLine(Some("harina"), 6.0), RecipeLine(Some("harina"), 6.0)];
            var c := CheckStock(lines, materials, 1.0);
            c.Verified? && Known(c.usages, materials) && Deduct(materials, c.usages)["harina"].currentStock == -2.0
  {
    var materials := map["harina" := RawMaterial("Harina", 10.0)];
    var line := RecipeLine(Some("harina"), 6.0);
    var lines := [line, line];
    var u := Usage("harina", 6.0, 10.0);
    assert lines[..1] == [line] && [line][..0] == [];
    assert CheckStock([line], materials, 1.0) == Verified([u]);
    assert CheckStock(lines, materials, 1.0) == Verified([u, u]);
    assert [u, u][..1] == [u] && [u][..0] == [];
    assert Deduct(materials, [u])["harina"].currentStock == 4.0;
  }
}
