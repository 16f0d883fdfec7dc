# Product-variation editor of the "Add Product" form

A Dafny model of the product-creation form of a small e-commerce admin panel
(React). The core is the variation editor: a product may have up to two
variation groups (Color, Size, a custom name), each with an ordered list of
option labels, and a variation table with one row per option holding price,
stock, SKU and an image slot. The model covers:

- the editor state (`hasVariations`, the group list, the table) as the class
  `Editor.VariationEditor`, with one method per event handler of the form;
- the table synthesiser (the body of the table-sync effect) as the pure
  function `Variations.Synthesize`, with the rule that the effect only reruns
  when `hasVariations` or the group list changed (`Variations.SyncEffect`);
- the submission record built by the submit handler (`Editor.BuildPayload`);
- the "Filing Suggestions" panel: ten completeness checks and the score
  (`Filing`);
- the live preview's choice of price, stock, category name and description
  excerpt (`Preview`);
- the JavaScript built-ins those rely on: `String.prototype.trim` with the
  ECMAScript whitespace set, `parseInt` and `String(n)` (`Text`).

`src/App.js` and `src/AddProductForm.js` hold the same variation logic;
`src/AddProductForm.js` adds removal of options and groups and the submit
handler. One model serves both.

What is proved, in outline:

- the table always has exactly one row per option of the single group, in
  option order, keyed by the option text, and is empty when variations are
  off or there are zero or two groups (the class invariant `Valid`, kept by
  every handler);
- row values are carried over by option text from the first earlier row with
  that id; resynchronising an already synchronised table changes nothing;
  with distinct options a table edit survives later resyncs, and removing an
  option then resyncing drops exactly that option's row and keeps every
  other row's values in order;
- two options with the same text collide: an edit made only to the second
  row is overwritten by the next resync (`DuplicateOptionEditIsLost`);
- the group list never exceeds two groups; each handler changes only the
  targeted group or row;
- the filing score is ten points per met check, lies in 0..100, never
  exceeds 80 and never drops when more checks are met;
- the preview never shows an empty title, price or stock, and the category
  chosen in the dropdown is named in the preview.

The panel's tip says that adding two tiers generates a table of all
combinations (src/FilingSuggestions.js:138); the code builds no combination
rows and empties the table when there are two groups (src/App.js:112-116,
src/AddProductForm.js:54-56), and the model follows the code. The submitted
record has no `status` field. For an option text that occurs twice among the
earlier rows, the synthesiser keeps the first of them, as `find` does.

## Model

| member | source | states |
|---|---|---|
| `Variations.EmptyGroup` | src/App.js:162-171 | a new group has the given id, no name, no options, no pending input, no size format, custom input hidden |
| `Variations.NameChangePatch` | src/App.js:195-208 | choosing "custom" clears the name and shows the custom input; any other choice becomes the name and hides it; the size format is always reset; options and pending input are kept |
| `Variations.SizeFormatPatch` | src/App.js:213-216 | merging it changes only the size format |
| `Variations.CustomNamePatch` | src/App.js:221-225 | merging it changes only the name |
| `Variations.OptionInputPatch` | src/App.js:230-234 | merging it changes only the pending option text |
| `Variations.AddOptionPatch` | src/App.js:239-254 | there is something to merge iff the key is Enter and the input holds a non-whitespace character; then the trimmed input (even if already present) is appended and the input cleared; the appended option is non-empty and has no surrounding whitespace |
| `Variations.RemoveAt` | src/AddProductForm.js:183-189 | `splice(i, 1)`: elements before `i` stay, later ones shift down by one, an index past the end changes nothing |
| `Variations.RemoveOption` | src/AddProductForm.js:172-181 | only the targeted group changes, and only by losing the option at the index; a missing group or out-of-range option index is a no-op |
| `Variations.SetRowField` | src/AddProductForm.js:191-198 | exactly one field of one row gets the new value; table length, all other rows and the row's other fields, id, option name and image are unchanged |
| `Search.FirstIndex` | src/ProductPreview.js:22 | the position of the first element with the key, or none exactly when no element has it; no earlier element has the key |
| `Variations.FindIndex` | src/App.js:99 | the position of the first row whose id is the option, or none exactly when no row has it |
| `Variations.FindRow` | src/AddProductForm.js:43 | `find` yields a row with that id, and nothing exactly when no row has it |
| `Variations.FindRowFirst` | src/App.js:97-99 | when row `k` is the first with its id, the lookup returns that row |
| `Variations.RowsFor` | src/App.js:96-109 | one row per option in option order with id and option name equal to the option; price, stock, SKU and image copied from the first earlier row with that id, else empty strings and no image |
| `Variations.Synthesize` | src/App.js:83-117 | the table follows the single group's options; it is empty when variations are off or there are zero or two groups |
| `Variations.SyncEffect` | src/App.js:118-120 | the table is rebuilt when `hasVariations` or the group list changed, and left as it is otherwise |
| `Variations.SynthesizeIdempotent` | src/AddProductForm.js:34-57 | running the synthesiser on its own output gives the same table |
| `Variations.ResyncKeepsTable` | src/AddProductForm.js:42-53 | with distinct options, resyncing a table whose rows follow those options returns that table, edited values included |
| `Variations.EditSurvivesResync` | src/App.js:259-269 | with distinct options, a table-cell edit survives the next resync |
| `Variations.RemoveOptionResync` | src/AddProductForm.js:43-51 | with distinct options, removing option `i` and resyncing yields the old table without row `i`, and no row keyed by the removed option |
| `Variations.PreservationLaw` | src/App.js:99-107 | an option's row carries price, stock, SKU and image of the first earlier row with that id, whatever other options were added or removed |
| `Variations.DuplicateOptionEditIsLost` | src/App.js:98-102 | with the option "Red" twice, the second row shows the first row's price after a resync, losing its own |
| `Editor.BuildPayload` | src/AddProductForm.js:218-235 | basic fields copied as typed; groups and table present exactly when variations are on, `null` otherwise |
| `Editor.VariationEditor.constructor` | src/AddProductForm.js:19-21 | starts with variations off, no groups and an empty table |
| `Editor.VariationEditor.SyncTable` | src/AddProductForm.js:34-57 | the sync effect restores the table invariant after a group edit |
| `Editor.VariationEditor.ToggleVariations` | src/AddProductForm.js:107-124 | turning on gives exactly one empty group, turning off no groups; the table is then empty |
| `Editor.VariationEditor.UpdateVariationGroup` | src/AddProductForm.js:126-132 | merges the patch into the group at the index only; the other groups are unchanged |
| `Editor.VariationEditor.HandleGroupNameChange` | src/AddProductForm.js:134-143 | only the targeted group changes, by merging `NameChangePatch`: size format reset, id, options and pending option text kept, name and custom flag per the "custom" rule |
| `Editor.VariationEditor.HandleSizeFormatChange` | src/AddProductForm.js:145-148 | only the targeted group's size format changes |
| `Editor.VariationEditor.HandleCustomGroupNameChange` | src/AddProductForm.js:150-153 | only the targeted group's name changes |
| `Editor.VariationEditor.HandleCurrentOptionChange` | src/AddProductForm.js:155-158 | only the targeted group's pending option text changes |
| `Editor.VariationEditor.HandleAddOption` | src/AddProductForm.js:160-170 | on Enter with non-blank input the trimmed text is appended and the input cleared; otherwise groups and table are unchanged |
| `Editor.VariationEditor.HandleRemoveOption` | src/AddProductForm.js:172-181 | the group list becomes `RemoveOption` of the old one and the table is resynchronised |
| `Editor.VariationEditor.HandleRemoveGroup` | src/AddProductForm.js:183-189 | the group at the index is removed and later groups shift down; out of range is a no-op |
| `Editor.VariationEditor.HandleTableInputChange` | src/AddProductForm.js:191-198 | one field of one row changes; the groups are untouched and the table is not resynchronised |
| `Editor.VariationEditor.AddVariationGroup` | src/AddProductForm.js:200-214 | appends one empty group only while fewer than two exist; otherwise nothing changes |
| `Editor.VariationEditor.Submit` | src/AddProductForm.js:216-235 | the payload of the current state; it carries at most two groups, and an empty table unless there is exactly one |
| `Session.PriceRedBlue` | src/AddProductForm.js:191-198 | after adding "Red" and "Blue" and typing prices, the two rows hold those prices in option order |
| `Session.AddSecondGroup` | src/App.js:112-116 | with one group in place, adding a second group (and an option to it) leaves the table empty |
| `Session.EditingSession` | src/App.js:112-116 | in a concrete session, removing "Red" keeps the priced "Blue" row, and adding a second group empties the table |
| `Filing.Suggestions` | src/FilingSuggestions.js:41-105 | exactly ten checks in display order, each with its fixed id and text and met exactly when its condition holds (`Met`); the images and video checks never are |
| `Filing.CompletedCount` | src/FilingSuggestions.js:108 | at most the number of checks; all met iff the count is the total; none met iff it is zero |
| `Filing.Score` | src/FilingSuggestions.js:109-110 | the rounded percentage lies in 0..100 |
| `Filing.FilingScore` | src/FilingSuggestions.js:107-110 | the panel's score lies in 0..100 |
| `Filing.ScoreIsTenPerItem` | src/FilingSuggestions.js:108-110 | with ten checks the score is ten times the number met |
| `Filing.ScoreAtMostEighty` | src/FilingSuggestions.js:95-104 | the score never exceeds 80 |
| `Filing.CountMonotone` | src/FilingSuggestions.js:108 | meeting more checks position by position never lowers the count |
| `Filing.ScoreMonotone` | src/FilingSuggestions.js:108-110 | meeting more checks never lowers the score |
| `Filing.SalesFieldMeaning` | src/FilingSuggestions.js:58-81 | price, SKU and stock checks: with variations on, a non-empty table whose every row's field holds a non-whitespace character; otherwise the base field does |
| `Filing.FreshTableLeavesPriceUnset` | src/FilingSuggestions.js:61-63 | a freshly synthesised table with options leaves the price check unmet while variations are on |
| `Preview.OrElse` | src/ProductPreview.js:35 | JavaScript's logical or on strings: the fallback replaces only the empty string |
| `Preview.FindCategory` | src/ProductPreview.js:22 | the first category with the id, or none exactly when no category has it |
| `Preview.GetCategoryName` | src/ProductPreview.js:21-24 | the name of the first category whose id equals `parseInt` of the text; "Unknown" when the text does not parse or matches no category |
| `Preview.SelectedCategoryShown` | src/AddProductForm.js:302-306 | picking a category in the dropdown (value = its id as text) makes the preview show its name |
| `Preview.SelectDisplay` | src/ProductPreview.js:26-39 | with variations on and rows present, the first row's price and stock ("N/A" when empty, its own value otherwise) and a note naming its option; otherwise the base price and stock and no note |
| `Preview.DescriptionExcerpt` | src/ProductPreview.js:84-89 | hidden when empty; the whole text up to 150 characters; otherwise its first 150 characters followed by "..." |
| `Preview.RenderPreview` | src/ProductPreview.js:53-81 | title, price and stock are never empty: the displayed value, else "[Product Title]", "0.00" and "0"; the variation note is the one `SelectDisplay` chose; the category line (the looked-up name) and the brand line appear only when set; the description is its excerpt |
| `Preview.PreviewShowsFirstOption` | src/ProductPreview.js:33-38 | with one group, the preview names the first option and shows "N/A" when nothing was carried over for it |
| `Text.Trim` | src/App.js:241 | the trimmed text neither starts nor ends with whitespace |
| `Text.TrimIsCore` | src/AddProductForm.js:162 | the trimmed text is the slice of the input left once whitespace runs are cut from both ends |
| `Text.TrimEmptyIff` | src/FilingSuggestions.js:86 | a text trims to `''` exactly when it is all whitespace |
| `Text.TrimIdempotent` | src/App.js:250 | an option stored trimmed is unchanged by trimming again |
| `Text.ParseInt` | src/ProductPreview.js:22 | `parseInt` with the radix omitted |
| `Text.ParseIntOfIntToString` | src/AddProductForm.js:303 | an integer id rendered as text parses back to the same integer |

## Left out

- Category fetch: the network request, its Basic-auth header, JSON parsing and the loading and error screens (src/App.js:39-80, src/App.js:125-145) are I/O; categories enter the model as a parameter.
- React effect scheduling: the effect is an explicit `SyncTable` call at the end of each group-editing handler. Its dependency comparison on `JSON.stringify(variations)` is modelled as equality of the group values, which it matches for these records.
- `Date.now()` group ids are a clock read; the handlers take the new id as a parameter.
- DOM-only code: IntersectionObserver, `scrollIntoView`, the section tabs and `activeSection`.
- `console.log`, `alert` and `preventDefault` in the handlers; only the submitted record is modelled.
- JSX rendering, the plain setters of the static fields (name, brand, price, weight, dimensions and so on) and the uncontrolled custom size-format input; the static fields enter as the records `BasicFields` and `FormState`.
- Floating point: `Math.round(completed / total * 100)` is computed exactly on rationals (half-way rounds up); JavaScript's binary rounding errors are not modelled.
- `parseInt` and `String(n)`: values beyond 2^53 lose precision in JavaScript and `String(n)` switches to exponent notation from 1e21; the model uses unbounded integers.
- String lengths: JavaScript counts UTF-16 code units, the model counts Unicode scalar values, so the 150-character excerpt and the 10- and 50-character checks differ for characters outside the Basic Multilingual Plane.
- Editor.VariationEditor.UpdateVariationGroup: an out-of-range index is excluded by a precondition; in JavaScript it would grow the array, which the form never does.
- Editor.VariationEditor.HandleTableInputChange: an out-of-range row index is excluded by a precondition, and the field is one of price, stock and SKU, the only ones the table's inputs pass.
- Editor.VariationEditor.HandleAddOption: an out-of-range group index is excluded by a precondition; in JavaScript it throws.
- Negative indices to `splice` (which count from the end in JavaScript) are not modelled; indices are natural numbers, as the form only passes positions it rendered.
- Image upload: the table's image slot is never filled by the form; it is modelled as an optional opaque handle that the synthesiser carries over.
- Combination rows for two groups: the code builds none, so the model builds none.
- The `App.js` copy lacks the remove handlers and the submit handler; its other handlers and effect are the same as in `AddProductForm.js` and share this model.
- Editor.VariationEditor methods require the class invariant `Valid()`, which the constructor establishes and every handler keeps.
