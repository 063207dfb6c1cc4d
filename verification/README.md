# albion-recipes: a Dafny model of `fetch_recipes.js`

`scripts/fetch_recipes.js` downloads the recipe dump of the game data
(`ao-bin-dumps`, `formatted/recipes.json`) from one of two mirrors. It then
builds `recipes.flat.json`, a compact list with one nested record per recipe.
This project models the two parts of the script that have behaviour worth
stating. Both are pure functions of their inputs.

- **Record flattening** (lines 66-85). Each parsed record becomes
  `{OutputItemId, OutputAmount, CraftingCategory, Ingredients}`. Every field
  is found by an ordered alias lookup written as a JavaScript `||` chain.
  A record is skipped when its output id is falsy, or when its ingredient
  value is not a non-empty array. Each ingredient is reduced to
  `{ItemId, Amount}`, and ingredients with a falsy `ItemId` are filtered out.
- **Candidate selection** (lines 45-60). The mirrors are tried in order. The
  first download that succeeds and is at least 2,000,000 bytes long is
  accepted. Otherwise the loop fails with the last error.

Modules:

- `JsValue` (`js_value.dfy`) holds the parsed JSON value tree (`Value`),
  JavaScript truthiness (`Truthy`), property read (`Get`), and `||`. The
  chain `a || b || c || d` is modelled as `OrChain`, a fold grouped to the
  left as JavaScript parses it. `Lookup` is the alias lookup built on it.
- `Subsequences` (`subsequences.dfy`) holds generic, order-preserving
  selection: `IndicesWhere`, `Filter`, `MapOrFail` (a `map` whose callback
  may throw) and `CollectSome` (a loop that pushes some results and stops at
  the first throw).
- `RecipeFlattening` (`recipe_flattening.dfy`) holds the alias lists, the
  per-record step `FlattenRecord`, the loop `Flatten`, and `BuildFlat` on
  the whole parsed dump.
- `CandidateSelection` (`candidate_selection.dfy`) holds the mirror list,
  the size threshold, the download loop `SelectSource`, and
  `SelectRecipesSource`, which runs that loop over the script's two mirrors.
- `Results` (`results.dfy`) holds `Option` and `Result`.

The script emits one nested record per recipe, not one row per ingredient.
It skips recipes without ingredients, writes no CSV, copies values without
coercion, and picks the first *truthy* alias. So `0`, `""` and `false` fall
through to the next alias, while `[]` stops the chain.

A property read on `null` throws a TypeError. The catch at line 89 swallows
it, and the flat file is then not written. The model returns
`Failure(NullishAccess)` for this case. A top-level value that `for...of`
cannot iterate gives `Failure(NotIterable)`. A string can be iterated: its
one-character elements have no output id, so nothing is emitted.

## Model

| member | source | states |
|---|---|---|
| JsValue.OrChain | scripts/fetch_recipes.js:69-72 | a chain of JavaScript or-operators evaluates to one of its operands, and the result is truthy exactly when some operand is |
| JsValue.OrChainYieldsFirstTruthy | scripts/fetch_recipes.js:69-72 | the left-grouped or-chain yields its first truthy operand, and yields its last operand when no earlier one is truthy |
| JsValue.Lookup | scripts/fetch_recipes.js:69-72 | an alias lookup returns the value of the first alias whose value is truthy, and returns the default when no alias is truthy |
| JsValue.LookupIsFirstTruthyAlias | scripts/fetch_recipes.js:69-72 | the or-chain over the alias reads, ending in the default, yields the value of the first truthy alias, and yields the default when every alias is falsy |
| Subsequences.IndicesWhere | scripts/fetch_recipes.js:83 | the selected positions are strictly increasing and in range, each satisfies the test, and every position that satisfies the test is selected |
| Subsequences.Filter | scripts/fetch_recipes.js:83 | `filter` keeps, in order, exactly the elements at the selected positions |
| Subsequences.MapOrFail | scripts/fetch_recipes.js:80-82 | `map` succeeds iff the callback succeeds on every element; the result then has the same length, and element i is the callback's value on element i; a failure carries the error of the first callback that throws |
| Subsequences.CollectSome | scripts/fetch_recipes.js:68-85 | the push loop succeeds iff no step throws, and a failure carries the error of the first step that throws |
| Subsequences.CollectSomeCollects | scripts/fetch_recipes.js:68-85 | on success the k-th pushed value is what the step yields on the k-th element whose step emits, and nothing else is pushed |
| Subsequences.SamePositionsSelected | scripts/fetch_recipes.js:80-83 | filtering after a map selects the positions whose source elements pass the composed test |
| RecipeFlattening.MappedThenFiltered | scripts/fetch_recipes.js:80-83 | after map then filter, the output ingredients are exactly the source ingredients with a truthy item id, reduced to `{ItemId, Amount}`, in source order |
| RecipeFlattening.ReadIngredientsFails | scripts/fetch_recipes.js:80-82 | mapping the ingredients throws exactly when one of them is null or undefined |
| RecipeFlattening.FlattenRecord | scripts/fetch_recipes.js:68-84 | one record throws iff it, or one ingredient of a kept record, is null; it is skipped iff its output id is falsy or its ingredient value is not a non-empty array; otherwise the emitted entry carries the three resolved fields and the named ingredients |
| RecipeFlattening.Flatten | scripts/fetch_recipes.js:66-85 | the loop succeeds iff no record throws; then the output is no longer than the input, every entry has a truthy output id, and the k-th entry is the entry of the k-th kept record (no reordering, no duplicates, no kept record lost) |
| RecipeFlattening.NonObjectSkipped | scripts/fetch_recipes.js:68-74 | a number, boolean, string or array record has no output id, so it is skipped without throwing |
| RecipeFlattening.StringYieldsNothing | scripts/fetch_recipes.js:68-74 | iterating the characters of a string emits nothing and does not throw |
| RecipeFlattening.BuildFlat | scripts/fetch_recipes.js:65-91 | an array dump succeeds iff no record throws, and then its k-th entry is the entry of the k-th kept record; a string dump gives the empty list; any other value throws `NotIterable` |
| RecipeFlattening.RecordWithoutOutputIdSkipped | scripts/fetch_recipes.js:69-74 | a non-null record whose four output-id aliases are all falsy is skipped |
| RecipeFlattening.EmptyIngredientsBlockFallback | scripts/fetch_recipes.js:72-74 | `Ingredients: []` ends the ingredient alias chain, so the record is skipped whatever `ingredients` holds |
| RecipeFlattening.OutputObjectWinsOverOutputItem | scripts/fetch_recipes.js:69 | with both `OutputObject: "A"` and `OutputItem: "B"` set, the output id is `"A"` |
| RecipeFlattening.ZeroOutputAmountBecomesOne | scripts/fetch_recipes.js:70 | an explicit `OutputAmount: 0` is falsy and is replaced by the default 1 |
| RecipeFlattening.CategoryFallsThrough | scripts/fetch_recipes.js:71 | an empty `CraftingCategory` falls through to `Station`; with no truthy alias the category is `"unknown"` |
| RecipeFlattening.StringAmountPassesThrough | scripts/fetch_recipes.js:81-82 | `{Item: "T4_CLOTH", Amount: "not-a-number"}` maps to item id `"T4_CLOTH"` with the string amount unchanged (no coercion) |
| RecipeFlattening.KeptRecordWithUnnamedIngredients | scripts/fetch_recipes.js:74-83 | a kept record none of whose ingredients has an item id is still emitted, with an empty ingredient list |
| CandidateSelection.SelectSource | scripts/fetch_recipes.js:45-60 | succeeds iff some candidate downloads with at least 2,000,000 bytes; then it picks the first such candidate, after exactly that many downloads; otherwise every candidate is tried and the error is that of the last attempt, or the fallback error when there were no candidates |
| CandidateSelection.SelectRecipesSource | scripts/fetch_recipes.js:10-13 | over the script's two mirrors, the accepted URL is the first mirror whose download is large enough, after exactly that many downloads; a failure carries the error of the second mirror's download and never the fallback error |

## Left out

- `download` (lines 15-39) is not modelled. This covers HTTPS requests, the
  `User-Agent` header, redirect following, piping to a file and deleting
  partial files. Each download is an abstract `Outcome`: an error, or a
  saved file of some size.
- Filesystem calls, `JSON.parse`, `JSON.stringify` and console logging are
  not modelled. The flattening step takes the parsed value tree as input,
  and its output is the list that would be written.
- The async wrapper (lines 41, 92) and the final `throw` (line 60) are not
  modelled. The throw becomes a `Failure` result of `SelectSource`.
- Only integers are modelled as JSON numbers. Floating-point values are
  left out. JSON parsing never yields NaN, so `0` is the only falsy number.
- `Get` does not model the prototype chain. None of the alias keys is a
  property of `Object`, `Array`, `String`, `Number` or `Boolean`
  prototypes, so a missing own key reads as `undefined`.
- `FlatError` does not model the TypeError's message or the record where
  it arose. The script only logs the message.
- `BuildFlat` models `for...of` over a string as one element per Dafny
  `char`, that is, per Unicode scalar value. JavaScript iterates by code
  point, which differs only for lone surrogates. Every element is skipped
  either way.
