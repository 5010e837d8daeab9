/**
 * Recipe creation, src/pages/api/recipes/index.ts: every submitted
 * ingredient is checked in order (its shape, then that its raw material
 * exists), then the trimmed name must be new, then the recipe is stored
 * with its text fields trimmed.
 */
module Recipes {
  import opened Wrappers
  import opened JsText
  import opened JsValues

  /** The validated body; `ingredients` is whatever was submitted (absent is `undefined`). */
  datatype RecipeInput = RecipeInput(
    name: string,
    description: string,
    instructions: string,
    preparationTime: real,
    servings: real,
    category: string,
    creator: Option<string>,
    ingredients: JsVal)

  /** A stored recipe; `active` is the schema default. */
  datatype StoredRecipe = StoredRecipe(
    id: string,
    name: string,
    description: string,
    instructions: string,
    preparationTime: real,
    servings: real,
    category: string,
    creator: Option<string>,
    ingredients: JsVal,
    active: bool)

  /** What `RawMaterialModel.findById(id)` does: finds a document, finds none, or throws (a failed cast). */
  datatype MaterialLookup = Found | Absent | Throws(error: Thrown)

  /** Why an ingredient stops the route. */
  datatype ItemFailure =
    | Malformed                // a falsy rawMaterialId, quantity or unit: 400
    | NotFound(id: JsVal)      // no raw material with that id: 404
    | Failed(error: Thrown)    // reading a property of null or undefined, or a throwing lookup

  /** The TypeError of reading `rawMaterialId` off a null or undefined element. */
  function ReadError(item: JsVal): Thrown
    requires IsNullish(item)
  {
    Error("TypeError", "Cannot read properties of " + (if item.Null? then "null" else "undefined") + " (reading 'rawMaterialId')",
          None, None, None)
  }

  /** The check of one ingredient: None when it passes. */
  function CheckItem(item: JsVal, find: JsVal -> MaterialLookup): (f: Option<ItemFailure>)
    ensures f.None? ==> !IsNullish(item) && find(PropertyRead(item, "rawMaterialId")) == Found
    ensures f.None? ==> Truthy(PropertyRead(item, "rawMaterialId")) && Truthy(PropertyRead(item, "quantity"))
                        && Truthy(PropertyRead(item, "unit"))
  {
    if IsNullish(item) then Some(Failed(ReadError(item)))
    else
      var id := PropertyRead(item, "rawMaterialId");
      if !Truthy(id) || !Truthy(PropertyRead(item, "quantity")) || !Truthy(PropertyRead(item, "unit")) then Some(Malformed)
      else match find(id)
        case Found => None
        case Absent => Some(NotFound(id))
        case Throws(e) => Some(Failed(e))
  }

  /** The first failing ingredient decides. */
  function FirstFailure(items: seq<JsVal>, find: JsVal -> MaterialLookup): Option<ItemFailure> {
    if items == [] then None
    else if CheckItem(items[0], find).Some? then CheckItem(items[0], find)
    else FirstFailure(items[1..], find)
  }

  /**
   * No failure means every ingredient passes; a failure is the failure of
   * some ingredient all of whose predecessors pass.
   */
  lemma {:induction false} FirstFailureIff(items: seq<JsVal>, find: JsVal -> MaterialLookup)
    ensures FirstFailure(items, find).None? <==> forall j :: 0 <= j < |items| ==> CheckItem(items[j], find).None?
    ensures FirstFailure(items, find).Some? ==>
            exists j :: 0 <= j < |items| && CheckItem(items[j], find) == FirstFailure(items, find)
                        && forall i :: 0 <= i < j ==> CheckItem(items[i], find).None?
  {
    if items != [] && CheckItem(items[0], find).None? {
      FirstFailureIff(items[1..], find);
      if FirstFailure(items, find).Some? {
        var j :| 0 <= j < |items[1..]| && CheckItem(items[1..][j], find) == FirstFailure(items[1..], find)
                 && forall i :: 0 <= i < j ==> CheckItem(items[1..][i], find).None?;
        assert CheckItem(items[j + 1], find) == FirstFailure(items, find);
        assert forall i :: 0 <= i < j + 1 ==> CheckItem(items[i], find).None? by {
          forall i | 0 <= i < j + 1
            ensures CheckItem(items[i], find).None?
          {
            if i > 0 {
              assert items[i] == items[1..][i - 1];
            }
          }
        }
      } else {
        forall j | 0 <= j < |items|
          ensures CheckItem(items[j], find).None?
        {
          if j > 0 {
            assert items[j] == items[1..][j - 1];
          }
        }
      }
    } else if items != [] {
      assert CheckItem(items[0], find) == FirstFailure(items, find);
    }
  }

  /** A quantity of 0 is falsy, so the ingredient is refused however the rest of it looks. */
  lemma ZeroQuantityIsMalformed(item: JsVal, find: JsVal -> MaterialLookup)
    requires item.Obj? && PropertyRead(item, "quantity") == Num(0.0)
    ensures CheckItem(item, find) == Some(Malformed)
  {
  }

  /** The `for … of` loop of the route, stopping at the first failing ingredient. */
  method CheckIngredients(items: seq<JsVal>, find: JsVal -> MaterialLookup) returns (f: Option<ItemFailure>)
    ensures f == FirstFailure(items, find)
  {
    var i := 0;
    while i < |items|
      invariant 0 <= i <= |items|
      invariant FirstFailure(items, find) == FirstFailure(items[i..], find)
    {
      assert items[i..][1..] == items[i + 1..];
      var check := CheckItem(items[i], find);
      if check.Some? {
        return check;
      }
      i := i + 1;
    }
    f := None;
  }

  /** `RecipeModel.findOne({ name })`. */
  predicate NameTaken(recipes: seq<StoredRecipe>, name: string) {
    exists j :: 0 <= j < |recipes| && recipes[j].name == name
  }

  /** The `findOne` scan. */
  method NameStored(recipes: seq<StoredRecipe>, name: string) returns (taken: bool)
    ensures taken == NameTaken(recipes, name)
  {
    var k := 0;
    while k < |recipes|
      invariant 0 <= k <= |recipes|
      invariant forall j :: 0 <= j < k ==> recipes[j].name != name
    {
      if recipes[k].name == name {
        return true;
      }
      k := k + 1;
    }
    taken := false;
  }

  /** The document the route saves under the new id. */
  function NewRecipe(input: RecipeInput, id: string): (r: StoredRecipe)
    ensures r.id == id && r.active
    ensures r.name == Trim(input.name) && r.description == Trim(input.description)
    ensures r.instructions == Trim(input.instructions) && r.category == Trim(input.category)
    ensures r.preparationTime == input.preparationTime && r.servings == input.servings
    ensures r.creator == input.creator && r.ingredients == input.ingredients
  {
    StoredRecipe(id, Trim(input.name), Trim(input.description), Trim(input.instructions), input.preparationTime,
                 input.servings, Trim(input.category), input.creator, input.ingredients, true)
  }

  const BadIngredient := "Cada ingrediente debe tener rawMaterialId, quantity y unit"
  const MaterialNotFound := "Materia prima no encontrada: "
  const DuplicateName := "Ya existe una receta con este nombre"
  const RecipeCreated := "Receta creada exitosamente"

  /** What the route decides. */
  datatype Creation =
    | Refused(status: int, message: string)
    | Crashed(error: Thrown)
    | Created(recipe: StoredRecipe)

  /**
   * `createRecipe`: ingredient checks only for an array, then the name check.
   * `show` renders the offending id into the 404 message (a template literal).
   */
  function CreateDecision(recipes: seq<StoredRecipe>, input: RecipeInput, find: JsVal -> MaterialLookup,
                          show: JsVal -> string, newId: string): Creation
  {
    var failure := if input.ingredients.Arr? then FirstFailure(input.ingredients.elems, find) else None;
    match failure
    case Some(Malformed) => Refused(400, BadIngredient)
    case Some(NotFound(id)) => Refused(404, MaterialNotFound + show(id))
    case Some(Failed(e)) => Crashed(e)
    case None =>
      if NameTaken(recipes, Trim(input.name)) then Refused(409, DuplicateName)
      else Created(NewRecipe(input, newId))
  }

  /** The recipe object of the 201 body. */
  function RecipeJson(r: StoredRecipe): JsVal {
    Obj([("id", Str(r.id)), ("name", Str(r.name)), ("description", Str(r.description)),
         ("instructions", Str(r.instructions)), ("preparationTime", Num(r.preparationTime)),
         ("servings", Num(r.servings)), ("category", Str(r.category)),
         ("creator", if r.creator.Some? then Str(r.creator.value) else Undefined),
         ("ingredients", r.ingredients), ("active", Bool(r.active))])
  }

  /** What awaiting the handler yields; a crash is left to the error-handling middleware. */
  function CreateOutcome(c: Creation): Outcome {
    match c
    case Refused(status, message) => Returned(Reply(status, false, message))
    case Crashed(e) => Threw(e)
    case Created(r) =>
      Returned(Response(201, Obj([("success", Bool(true)), ("message", Str(RecipeCreated)), ("recipe", RecipeJson(r))]), None))
  }

  /** The recipes collection. */
  class RecipeTable {
    var recipes: seq<StoredRecipe>

    constructor (initial: seq<StoredRecipe>)
      ensures recipes == initial
    {
      recipes := initial;
    }

    /** `POST /api/recipes`; `newId` is the id the database gives the new document. */
    method CreateRecipe(input: RecipeInput, find: JsVal -> MaterialLookup, show: JsVal -> string, newId: string)
      returns (o: Outcome)
      modifies this
      ensures o == CreateOutcome(CreateDecision(old(recipes), input, find, show, newId))
      ensures CreateDecision(old(recipes), input, find, show, newId).Created? ==>
              recipes == old(recipes) + [CreateDecision(old(recipes), input, find, show, newId).recipe]
      ensures !CreateDecision(old(recipes), input, find, show, newId).Created? ==> recipes == old(recipes)
    {
      if input.ingredients.Arr? {
        var failure := CheckIngredients(input.ingredients.elems, find);
        if failure.Some? {
          match failure.value
          case Malformed => return Returned(Reply(400, false, BadIngredient));
          case NotFound(id) => return Returned(Reply(404, false, MaterialNotFound + show(id)));
          case Failed(e) => return Threw(e);
        }
      }
      var taken := NameStored(recipes, Trim(input.name));
      if taken {
        return Returned(Reply(409, false, DuplicateName));
      }
      var saved := NewRecipe(input, newId);
      recipes := recipes + [saved];
      o := CreateOutcome(Created(saved));
    }
  }

  /** Ingredients that are not an array (absent included) are not looked at. */
  lemma NonArraySkipsIngredientChecks(recipes: seq<StoredRecipe>, input: RecipeInput, find: JsVal -> MaterialLookup,
                                      find': JsVal -> MaterialLookup, show: JsVal -> string, newId: string)
    requires !input.ingredients.Arr?
    ensures CreateDecision(recipes, input, find, show, newId) == CreateDecision(recipes, input, find', show, newId)
    ensures CreateDecision(recipes, input, find, show, newId).Refused? ==>
            CreateDecision(recipes, input, find, show, newId) == Refused(409, DuplicateName)
  {
  }

  /**
   * The outcome is decided by the first failing ingredient (400, 404 or a
   * crash) before the name is looked at: a 409 or a creation means every
   * ingredient passed, and 409 happens exactly when the trimmed name is
   * already stored.
   */
  lemma IngredientsBeforeName(recipes: seq<StoredRecipe>, input: RecipeInput, find: JsVal -> MaterialLookup,
                              show: JsVal -> string, newId: string)
    ensures var c := CreateDecision(recipes, input, find, show, newId);
            (c.Created? || c == Refused(409, DuplicateName)) ==>
              input.ingredients.Arr? ==> forall j :: 0 <= j < |input.ingredients.elems| ==>
                CheckItem(input.ingredients.elems[j], find).None?
    ensures var c := CreateDecision(recipes, input, find, show, newId);
            c.Created? <==> (!input.ingredients.Arr? || FirstFailure(input.ingredients.elems, find).None?)
                            && !NameTaken(recipes, Trim(input.name))
    ensures var c := CreateDecision(recipes, input, find, show, newId);
            c.Refused? && c.status == 404 ==>
              input.ingredients.Arr?
              && exists j :: 0 <= j < |input.ingredients.elems|
                             && !IsNullish(input.ingredients.elems[j])
                             && CheckItem(input.ingredients.elems[j], find) == Some(NotFound(PropertyRead(input.ingredients.elems[j], "rawMaterialId")))
                             && forall i :: 0 <= i < j ==> CheckItem(input.ingredients.elems[i], find).None?
  {
    if input.ingredients.Arr? {
      FirstFailureIff(input.ingredients.elems, find);
    }
  }

  /** A created recipe is the stored form of the input. */
  lemma CreatedRecipe(recipes: seq<StoredRecipe>, input: RecipeInput, find: JsVal -> MaterialLookup,
                      show: JsVal -> string, newId: string)
    requires CreateDecision(recipes, input, find, show, newId).Created?
    ensures CreateDecision(recipes, input, find, show, newId).recipe == NewRecipe(input, newId)
  {
    var failure := if input.ingredients.Arr? then FirstFailure(input.ingredients.elems, find) else None;
    assert failure.None?;
    assert !NameTaken(recipes, Trim(input.name));
  }

  /** Without an ingredient array, a name already stored is refused with 409. */
  lemma TakenNameRefused(recipes: seq<StoredRecipe>, input: RecipeInput, find: JsVal -> MaterialLookup,
                         show: JsVal -> string, newId: string)
    requires !input.ingredients.Arr? && NameTaken(recipes, Trim(input.name))
    ensures CreateDecision(recipes, input, find, show, newId) == Refused(409, DuplicateName)
  {
  }

  /** Once a recipe is stored, any name that trims to the same text is refused with 409. */
  lemma SecondRecipeIsDuplicate(recipes: seq<StoredRecipe>, input: RecipeInput, again: RecipeInput,
                                find: JsVal -> MaterialLookup, show: JsVal -> string, newId: string, otherId: string)
    requires CreateDecision(recipes, input, find, show, newId).Created?
    requires Trim(again.name) == Trim(input.name)
    requires !again.ingredients.Arr?
    ensures CreateDecision(recipes + [CreateDecision(recipes, input, find, show, newId).recipe], again, find, show, otherId)
            == Refused(409, DuplicateName)
  {
    CreatedRecipe(recipes, input, find, show, newId);
    var after := recipes + [NewRecipe(input, newId)];
    assert after[|recipes|].name == Trim(again.name);
    TakenNameRefused(after, again, find, show, otherId);
  }
}
