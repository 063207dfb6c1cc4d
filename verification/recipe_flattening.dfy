/** The step of scripts/fetch_recipes.js that turns the parsed recipe dump
    into the compact list written to recipes.flat.json. */
module RecipeFlattening {
  import opened Results
  import opened JsValue
  import opened Subsequences

  /** Alias lists, in the priority order the script tries them. */
  const OutputIdKeys: seq<string> := ["OutputObject", "OutputItem", "OutputItemId", "output"]
  const OutputAmountKeys: seq<string> := ["OutputAmount", "OutputQuantity", "OutputQty", "quantity"]
  const CategoryKeys: seq<string> := ["CraftingCategory", "Station", "station"]
  const IngredientsKeys: seq<string> := ["Ingredients", "ingredients", "EntryRequirements"]
  const ItemIdKeys: seq<string> := ["Object", "Item", "ItemId", "item"]
  const AmountKeys: seq<string> := ["Count", "Amount", "count", "amount"]

  /** One ingredient of a flattened recipe. Values are carried over as found:
      there is no numeric or string coercion. */
  datatype FlatIngredient = FlatIngredient(itemId: Value, amount: Value)

  /** One emitted recipe: the nested record the script pushes. */
  datatype FlatRecipe = FlatRecipe(
    outputItemId: Value,
    outputAmount: Value,
    craftingCategory: Value,
    ingredients: seq<FlatIngredient>)

  /** Why no flat list is produced. Both are TypeErrors that the script's
      catch swallows, so recipes.flat.json is simply not written. */
  datatype FlatError =
    | NullishAccess   // a property read on a null record or ingredient
    | NotIterable     // the parsed dump is neither an array nor a string

  function OutputIdOf(r: Value): Value { Lookup(r, OutputIdKeys, Str("")) }
  function OutputAmountOf(r: Value): Value { Lookup(r, OutputAmountKeys, Num(1)) }
  function CategoryOf(r: Value): Value { Lookup(r, CategoryKeys, Str("unknown")) }
  function IngredientsOf(r: Value): Value { Lookup(r, IngredientsKeys, Arr([])) }
  function ItemIdOf(ing: Value): Value { Lookup(ing, ItemIdKeys, Str("")) }
  function AmountOf(ing: Value): Value { Lookup(ing, AmountKeys, Num(1)) }

  /** A record survives the skip test: a truthy output id and an ingredient
      value that is a non-empty array. */
  predicate Kept(r: Value) {
    Truthy(OutputIdOf(r)) && IngredientsOf(r).Arr? && |IngredientsOf(r).items| > 0
  }

  /** An ingredient survives the filter: its item id is truthy. */
  predicate HasItemId(ing: Value) {
    Truthy(ItemIdOf(ing))
  }

  /** Processing this record throws: it is null itself, or it is kept and one
      of its ingredients is null. */
  ghost predicate Throws(r: Value) {
    || Nullish(r)
    || (Kept(r) && exists i :: 0 <= i < |IngredientsOf(r).items| && Nullish(IngredientsOf(r).items[i]))
  }

  /** `e` is what the script emits for record `r`: the three resolved output
      fields, and exactly the ingredients with a truthy item id, reduced to
      item id and amount, in their source order. */
  ghost predicate EntryOf(r: Value, e: FlatRecipe) {
    && Kept(r)
    && e.outputItemId == OutputIdOf(r)
    && e.outputAmount == OutputAmountOf(r)
    && e.craftingCategory == CategoryOf(r)
    && NamedIngredientsOf(IngredientsOf(r).items, e.ingredients)
  }

  /** `ings` is exactly the ingredients of `items` with a truthy item id,
      reduced to item id and amount, in their source order. */
  ghost predicate NamedIngredientsOf(items: seq<Value>, ings: seq<FlatIngredient>) {
    var idx := IndicesWhere(items, HasItemId);
    && |ings| == |idx|
    && forall k :: 0 <= k < |idx| ==> ings[k] == FlatIngredient(ItemIdOf(items[idx[k]]), AmountOf(items[idx[k]]))
  }

  /** The arrow function given to `map`: `{ItemId, Amount}` of one ingredient. */
  function MapIngredient(ing: Value): FlatIngredient {
    FlatIngredient(ItemIdOf(ing), AmountOf(ing))
  }

  /** The predicate given to `filter`. */
  predicate Named(x: FlatIngredient) {
    Truthy(x.itemId)
  }

  /** The arrow function given to `map`, including the TypeError it raises
      when the ingredient is null. */
  function ReadIngredient(ing: Value): Result<FlatIngredient, FlatError> {
    if Nullish(ing) then Failure(NullishAccess) else Success(MapIngredient(ing))
  }

  /** Filtering the mapped ingredients keeps those with a truthy item id. */
  lemma MappedThenFiltered(items: seq<Value>, mapped: seq<FlatIngredient>)
    requires |mapped| == |items|
    requires forall i :: 0 <= i < |items| ==> mapped[i] == MapIngredient(items[i])
    ensures NamedIngredientsOf(items, Filter(mapped, Named))
  {
    SamePositionsSelected(items, HasItemId, mapped, Named);
  }

  /** `map` over the ingredients throws exactly when one of them is null. */
  lemma ReadIngredientsFails(items: seq<Value>)
    ensures MapOrFail(items, ReadIngredient).Success? <==> forall i :: 0 <= i < |items| ==> !Nullish(items[i])
  {
  }

  /** One iteration of the loop body: throws, skips the record (`None`), or
      yields the entry to push. */
  function FlattenRecord(r: Value): (res: Result<Option<FlatRecipe>, FlatError>)
    ensures res.Failure? <==> Throws(r)
    ensures res.Failure? ==> res.error == NullishAccess
    ensures res == Success(None) <==> !Nullish(r) && !Kept(r)
    ensures res.Success? && res.value.Some? ==> EntryOf(r, res.value.value)
  {
    if Nullish(r) then Failure(NullishAccess)
    else if !Kept(r) then Success(None)
    else
      var items := IngredientsOf(r).items;
      ReadIngredientsFails(items);
      match MapOrFail(items, ReadIngredient)
      case Failure(e) => Failure(e)
      case Success(mapped) =>
        MappedThenFiltered(items, mapped);
        Success(Some(FlatRecipe(OutputIdOf(r), OutputAmountOf(r), CategoryOf(r), Filter(mapped, Named))))
  }

  /** The loop over the parsed records. It succeeds exactly when no record
      throws; then the k-th emitted entry is the entry of the k-th kept
      record, so entries are never reordered, duplicated or invented, and
      every kept record contributes one. */
  function Flatten(records: seq<Value>): (res: Result<seq<FlatRecipe>, FlatError>)
    ensures res.Success? <==> forall i :: 0 <= i < |records| ==> !Throws(records[i])
    ensures res.Failure? ==> res.error == NullishAccess
    ensures res.Success? ==> |res.value| == |IndicesWhere(records, Kept)| <= |records|
    ensures res.Success? ==> forall e :: e in res.value ==> Truthy(e.outputItemId)
    ensures res.Success? ==> forall k :: 0 <= k < |res.value| ==> EntryOf(records[IndicesWhere(records, Kept)[k]], res.value[k])
  {
    var res := CollectSome(records, FlattenRecord);
    if res.Success? then
      assert forall i :: 0 <= i < |records| ==> Kept(records[i]) == Emits(FlattenRecord)(records[i]);
      SamePositionsSelected(records, Kept, records, Emits(FlattenRecord));
      CollectSomeCollects(records, FlattenRecord);
      res
    else
      res
  }

  /** The characters a `for...of` loop visits in a string, each a one-character string. */
  function Chars(s: string): seq<Value> {
    seq(|s|, i requires 0 <= i < |s| => Str([s[i]]))
  }

  /** A value that is not an object, null or undefined has no properties, so
      it is skipped without throwing. */
  lemma NonObjectSkipped(v: Value)
    requires !v.Obj? && !Nullish(v)
    ensures !Kept(v) && !Throws(v)
  {
  }

  /** Iterating a string visits only one-character strings, which are never
      emitted and never throw. */
  lemma StringYieldsNothing(s: string)
    ensures Flatten(Chars(s)) == Success([])
  {
    var cs := Chars(s);
    forall i | 0 <= i < |cs|
      ensures !Kept(cs[i]) && !Throws(cs[i])
    {
      NonObjectSkipped(cs[i]);
    }
    NoneSelected(cs, Kept);
  }

  /** The whole flattening step on the parsed dump: `for...of` over an array
      visits its elements, over a string its characters (none of which has an
      output id, so nothing is emitted), and throws on anything else. */
  function BuildFlat(raw: Value): (res: Result<seq<FlatRecipe>, FlatError>)
    ensures raw.Str? ==> res == Success([])
    ensures !raw.Arr? && !raw.Str? ==> res == Failure(NotIterable)
    ensures raw.Arr? ==> (res.Success? <==> forall i :: 0 <= i < |raw.items| ==> !Throws(raw.items[i]))
    ensures raw.Arr? && res.Failure? ==> res.error == NullishAccess
    ensures raw.Arr? && res.Success? ==> |res.value| == |IndicesWhere(raw.items, Kept)| <= |raw.items|
    ensures raw.Arr? && res.Success? ==>
              forall k :: 0 <= k < |res.value| ==> EntryOf(raw.items[IndicesWhere(raw.items, Kept)[k]], res.value[k])
  {
    match raw
    case Arr(records) => Flatten(records)
    case Str(s) =>
      StringYieldsNothing(s);
      Flatten(Chars(s))
    case _ => Failure(NotIterable)
  }

  /** A record none of whose four output-id aliases is truthy is skipped. */
  lemma RecordWithoutOutputIdSkipped(r: Value)
    requires !Nullish(r)
    requires forall j :: 0 <= j < |OutputIdKeys| ==> !Truthy(Get(r, OutputIdKeys[j]))
    ensures FlattenRecord(r) == Success(None)
  {
  }

  /** `Ingredients: []` is truthy, so it ends the alias chain: the record is
      skipped even when a later alias holds a non-empty array. */
  lemma EmptyIngredientsBlockFallback(r: Value)
    requires r.Obj? && Get(r, "Ingredients") == Arr([])
    ensures FlattenRecord(r) == Success(None)
  {
    assert FirstTruthyKey(r, IngredientsKeys, 0);
  }

  /** The first output-id alias wins over the second. */
  lemma OutputObjectWinsOverOutputItem()
    ensures OutputIdOf(Obj(map["OutputObject" := Str("A"), "OutputItem" := Str("B")])) == Str("A")
  {
    var r := Obj(map["OutputObject" := Str("A"), "OutputItem" := Str("B")]);
    assert FirstTruthyKey(r, OutputIdKeys, 0);
  }

  /** An explicit output amount of 0 is falsy and is replaced by the default 1. */
  lemma ZeroOutputAmountBecomesOne()
    ensures OutputAmountOf(Obj(map["OutputAmount" := Num(0)])) == Num(1)
  {
  }

  /** The category falls through an empty `CraftingCategory` to `Station`,
      and is `"unknown"` when no alias is truthy. */
  lemma CategoryFallsThrough()
    ensures CategoryOf(Obj(map["CraftingCategory" := Str(""), "Station" := Str("forge")])) == Str("forge")
    ensures CategoryOf(Obj(map["station" := Null])) == Str("unknown")
  {
    var r := Obj(map["CraftingCategory" := Str(""), "Station" := Str("forge")]);
    assert FirstTruthyKey(r, CategoryKeys, 1);
    var q := Obj(map["station" := Null]);
    assert forall j :: 0 <= j < |CategoryKeys| ==> !Truthy(Get(q, CategoryKeys[j]));
  }

  /** Amounts are not coerced: a string amount is carried over unchanged. */
  lemma StringAmountPassesThrough()
    ensures MapIngredient(Obj(map["Item" := Str("T4_CLOTH"), "Amount" := Str("not-a-number")]))
         == FlatIngredient(Str("T4_CLOTH"), Str("not-a-number"))
  {
    var ing := Obj(map["Item" := Str("T4_CLOTH"), "Amount" := Str("not-a-number")]);
    assert FirstTruthyKey(ing, ItemIdKeys, 1);
    assert FirstTruthyKey(ing, AmountKeys, 1);
  }

  /** A record that passes the skip test but none of whose ingredients has
      an item id is still emitted, with an empty ingredient list. */
  lemma KeptRecordWithUnnamedIngredients(r: Value)
    requires Kept(r)
    requires forall i :: 0 <= i < |IngredientsOf(r).items| ==> !Nullish(IngredientsOf(r).items[i]) && !HasItemId(IngredientsOf(r).items[i])
    ensures FlattenRecord(r).Success? && FlattenRecord(r).value.Some?
    ensures FlattenRecord(r).value.value.ingredients == []
  {
    NoneSelected(IngredientsOf(r).items, HasItemId);
  }
}
