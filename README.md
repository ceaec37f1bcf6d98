# Billing app store and screen logic, modelled in Dafny

This project models the logic of a point-of-sale mobile app. Users keep a
catalogue of items, pick items and quantities to build a bill, save bills, and
report sales over a date range.

The model covers three parts:

- **The local store** (`store.dfy`). It has two storage keys, `items` and `bills`. Every operation reads the whole list, transforms it and writes it back. The store is a class `Database` with two fields. Each field is a `Slot`: nothing stored, a stored list, or stored text that cannot be read or parsed. The list transformations are pure functions.
- **The home screen's handlers**:
  - `selection.dfy` models the bill selection. The source keeps it as an object keyed by item id whose keys keep insertion order. The model uses a list of entries with distinct keys. It also holds the total, the bill lines and the manage tab's delete flags.
  - `quantity.dfy` models the quantity editor. Its state is the text of the quantity field.
  - `itemedit.dfy` models the item editor's validation, including `trim`.
  - `home.dfy` holds a class `HomeScreen` with the handler state.
- **The sales screen** (`sales.dfy`). It covers the range check, the filter, the total, the newest-first sort and the date picker state.

`seqs.dfy` defines an order-preserving `Filter` and its lemmas. It models JavaScript's `filter` and deleting keys from an object. `wrappers.dfy` defines `Option` and `Result`. A screen that shows an alert and returns becomes an `Err` or `None` result.

Prices and totals are integers in minor currency units. Dates are integer timestamps.

In these places the model keeps the code's own behaviour:
- The report compares raw timestamps with both ends included. It does not truncate them to days.
- Updating or saving with an id that no item has is a silent no-op, not a not-found error.
- The store does not validate names or prices. Only the item editor does.
- A bill has both a `billId` field, which deletion matches on, and an `id` field, which the sales list shows. Bills built by the bill screen have neither, so `deleteBill` never removes them.
- `saveBill` on stored text that cannot be parsed writes nothing and reports nothing, because its error is swallowed.

## Model

| member | source | states |
|---|---|---|
| `Store.Database.GetItems` | src/utils/database.js:41-49 | returns the stored item list, or the empty list when nothing is stored or the read fails |
| `Store.Database.GetBills` | src/utils/database.js:51-59 | returns the stored bill list, or the empty list when nothing is stored or the read fails |
| `Store.SaveItems` | src/utils/database.js:8-20 | with a truthy id: same length, entries with that id become the item, all others unchanged; without one: exactly one entry appended at the end carrying the fresh id, earlier entries unchanged and in order |
| `Store.Database.SaveItem` | src/utils/database.js:3-28 | the list written is the list returned, equal to the save transformation of what a tolerant read gives; bills untouched |
| `Store.ReplaceById` | src/utils/database.js:72-83 | same length; every entry with the item's id is replaced by the item in its position, every other entry unchanged |
| `Store.ReplaceAbsent` | src/utils/database.js:75-77 | replacing by an id no entry has leaves the list unchanged |
| `Store.ReplaceKeepsIds` | src/utils/database.js:75-77 | replacement keeps ids distinct and, for an item with a truthy id, keeps every id truthy |
| `Store.SaveAbsentIdIsNoOp` | src/utils/database.js:8-12 | saving an item whose truthy id is not in the list is a silent no-op |
| `Store.SaveKeepsIds` | src/utils/database.js:8-20 | if stored ids are truthy and distinct and the generated id is truthy and unused, saving keeps them truthy and distinct |
| `Store.Database.UpdateItem` | src/utils/database.js:72-83 | writes the list with the entries of the item's id replaced; bills untouched |
| `Store.RemoveByIdSpec` | src/utils/database.js:88 | after deleting an id no entry carries it, every entry with another id survives, and deletion distributes over concatenation (relative order kept) |
| `Store.RemoveByIdNoOpAndIdempotent` | src/utils/database.js:88 | deleting an absent id changes nothing; deleting twice equals deleting once |
| `Store.RemovePresentDropsOne` | src/utils/database.js:88 | with distinct ids, deleting a present id shortens the list by exactly one |
| `Store.RemoveIdsStep` | src/screens/HomeScreen.js:463-465 | deleting one more id after a set of ids equals deleting the enlarged set; a single delete is a delete of a one-element set |
| `Store.Database.DeleteItem` | src/utils/database.js:85-94 | writes the items whose id differs from the argument; bills untouched |
| `Store.Database.SaveBill` | src/utils/database.js:30-39 | missing store: the bill becomes the only one; stored list: the bill is appended last; unparseable text: nothing is written; items untouched |
| `Store.RemoveBillsSpec` | src/utils/database.js:64 | no survivor carries the `billId`; bills without a `billId` always survive; an absent `billId` changes nothing |
| `Store.Database.DeleteBill` | src/utils/database.js:61-70 | writes the bills whose `billId` differs; items untouched |
| `Selection.Lookup` | src/screens/HomeScreen.js:355 | the entry found is in the selection under that key; none is found exactly when no entry has the key |
| `Selection.Put` | src/screens/HomeScreen.js:372-378 | the length is unchanged when the key is present and grows by one when it is new |
| `Selection.PutNewAppends` | src/screens/HomeScreen.js:372-378 | a new key is appended at the end |
| `Selection.PutInPlace` | src/screens/HomeScreen.js:372-378 | putting a present key replaces its entry where it stands; every other entry keeps its place, so line order is kept |
| `Selection.LookupPut` | src/screens/HomeScreen.js:371-378 | after a put the key holds the new entry, every other key its old entry, and keys stay distinct |
| `Selection.LookupDelete` | src/screens/HomeScreen.js:356 | after deleting a key it is gone and every other key keeps its entry |
| `Selection.DeleteKeepsUnique` | src/screens/HomeScreen.js:354-356 | deleting a key keeps the remaining keys distinct |
| `Selection.TogglePress` | src/screens/HomeScreen.js:351-362 | a press removes a selected item, adds an unselected one with quantity 1, changes no other key, and keeps keys distinct |
| `Selection.ToggleTwice` | src/screens/HomeScreen.js:355-359 | pressing an unselected item twice restores the selection exactly, order included |
| `Selection.TogglePressTotal` | src/screens/HomeScreen.js:531-535 | pressing an unselected item raises the running total by its price |
| `Selection.TotalConcat` | src/screens/HomeScreen.js:531-535 | the total of two concatenated selections is the sum of their totals |
| `Selection.TotalNonNegative` | src/screens/HomeScreen.js:531-535 | with non-negative prices and quantities the total is non-negative |
| `Selection.Lines` | src/screens/HomeScreen.js:424-429 | one line per entry, in selection order, with the entry's id, name, price and quantity |
| `Selection.GenerateBill` | src/screens/HomeScreen.js:415-430 | no bill exactly when the selection is empty; otherwise one line per entry in order, adding up to the selection total |
| `Selection.LinesTotalMatches` | src/screens/BillScreen.js:16-18 | the bill screen's total over the lines equals the home screen's total over the selection |
| `Selection.FlipFlag` | src/screens/HomeScreen.js:437-442 | the item's flag becomes the negation of its old value (absent counting as false); every other flag unchanged |
| `Selection.Flagged` | src/screens/HomeScreen.js:445-447 | exactly the keys whose flag is true |
| `Selection.FlipFlagged` | src/screens/HomeScreen.js:437-447 | a flip adds the key to or removes it from the ids to delete; two flips restore that set |
| `Home.HomeScreen.constructor` | src/screens/HomeScreen.js:322-328 | the screen starts with an empty catalogue, selection and flags, and no quantity editor open |
| `Home.HomeScreen.LoadItems` | src/screens/HomeScreen.js:338-349 | the catalogue becomes what a tolerant read of the store gives; nothing else changes |
| `Home.HomeScreen.PressItem` | src/screens/HomeScreen.js:351-362 | the selection is toggled for the item and every other key keeps its entry; distinct keys preserved |
| `Home.HomeScreen.LongPressItem` | src/screens/HomeScreen.js:364-367 | the quantity editor opens on the item; nothing else changes |
| `Home.HomeScreen.SaveQuantity` | src/screens/HomeScreen.js:369-383 | with an item under edit its key maps to that item with the new quantity and other keys are unchanged; without one nothing changes; the editor closes |
| `Home.HomeScreen.GenerateBillLines` | src/screens/HomeScreen.js:415-435 | refuses an empty selection; otherwise the lines of the selection, whose total is the selection total |
| `Home.HomeScreen.SelectManageItem` | src/screens/HomeScreen.js:437-442 | flips the item's delete flag only |
| `Home.HomeScreen.SaveEditedItem` | src/screens/HomeScreen.js:389-402 | an invalid edit changes nothing and reports why; a valid one is saved through the store and the catalogue reloads to the saved list |
| `Home.HomeScreen.DeleteSelected` | src/screens/HomeScreen.js:444-477 | refuses when no flag is set; cancelled changes nothing; confirmed deletes exactly the flagged ids, in any order, clears the flags and reloads |
| `Quantity.Show` | src/screens/HomeScreen.js:205-208 | `String(n)` is a non-empty digit string without a leading zero that parses back to `n` |
| `Quantity.Incremented` | src/screens/HomeScreen.js:211-216 | below 100 the value goes up by one; at 100 or above the text is unchanged |
| `Quantity.Decremented` | src/screens/HomeScreen.js:218-223 | above 1 the value goes down by one; at 1 or below the text is unchanged |
| `Quantity.Saved` | src/screens/HomeScreen.js:225-235 | a quantity is handed on exactly when the value is in 1..100, and it is that value |
| `Quantity.ButtonsStayInRange` | src/screens/HomeScreen.js:211-223 | from a value in 1..100, any run of plus and minus presses stays in 1..100 |
| `Quantity.EditorStaysBounded` | src/screens/HomeScreen.js:274-280 | the buttons and the text filter keep the field a digit string worth at most 100 |
| `Quantity.QuantityEditor.constructor` | src/screens/HomeScreen.js:204-205 | on mounting, the field holds the numeral of the current quantity, which is remembered as the last one seen |
| `Quantity.QuantityEditor.Rerender` | src/screens/HomeScreen.js:207-209 | the field is reset to the numeral of the passed quantity only when it differs from the last one seen; otherwise typed text is kept |
| `Quantity.QuantityEditor.Increment` | src/screens/HomeScreen.js:211-216 | the field becomes the incremented text and stays bounded |
| `Quantity.QuantityEditor.Decrement` | src/screens/HomeScreen.js:218-223 | the field becomes the decremented text and stays bounded |
| `Quantity.QuantityEditor.ChangeText` | src/screens/HomeScreen.js:274-280 | typed text replaces the field only when it is all digits and worth at most 100 |
| `Quantity.QuantityEditor.Save` | src/screens/HomeScreen.js:225-235 | hands on the field's value exactly when it is in 1..100 |
| `ItemEdit.TrimStart` | src/screens/HomeScreen.js:107 | a suffix of the input, only white space cut, not starting with white space |
| `ItemEdit.TrimEnd` | src/screens/HomeScreen.js:107 | a prefix of the input, only white space cut, not ending with white space |
| `ItemEdit.TrimSpec` | src/screens/HomeScreen.js:107 | the trimmed name is a contiguous slice with only white space outside it and none at either end |
| `ItemEdit.TrimEmpty` | src/screens/HomeScreen.js:107 | the trimmed name is empty exactly when the name is all white space |
| `ItemEdit.TrimIdempotent` | src/screens/HomeScreen.js:122 | trimming the saved name again changes nothing |
| `ItemEdit.ValidateEdit` | src/screens/HomeScreen.js:106-124 | an all-white-space name is refused, then a missing or non-positive price; otherwise the item carries the edited id, the positive price and the trimmed, non-empty name |
| `Sales.BuildReport` | src/screens/SalesScreen.js:60-84 | a reversed range gives no report; a range with no bill in it gives no data; otherwise the report's bills are the in-range filter of the loaded sales (each in-range bill, in order, as often as it occurs), with the range and the sum of their totals |
| `Sales.InRangeOrder` | src/screens/SalesScreen.js:69-72 | the in-range filter of a concatenation is the concatenation of the filters, so bills keep their relative order |
| `Sales.InRangeMultiplicity` | src/screens/SalesScreen.js:69-72 | an in-range bill occurs in the result as often as in the input, an out-of-range bill not at all |
| `Sales.SalesTotalConcat` | src/screens/SalesScreen.js:83 | the total of two concatenated bill lists is the sum of their totals |
| `Sales.RangeTotalStep` | src/screens/SalesScreen.js:69-83 | the report total counts the first bill when it is in range, then the rest |
| `Sales.SplitRangeTotal` | src/screens/SalesScreen.js:69-83 | the total over a range is the sum of the totals over the two halves when the range is split after any day |
| `Sales.ReportExample` | src/screens/SalesScreen.js:64-84 | bills on days 1, 3 and 5 with totals 10, 20 and 30, reported over days 2 to 4, give the middle bill alone and total 20 |
| `Sales.Insert` | src/screens/SalesScreen.js:36 | inserting into a newest-first list keeps it newest first and adds exactly that bill |
| `Sales.SortByDateDesc` | src/screens/SalesScreen.js:36 | the result is newest first and a permutation of the input |
| `Sales.SalesScreen.constructor` | src/screens/SalesScreen.js:19-26 | no sales loaded, both ends of the range at the current time, no side being picked |
| `Sales.SalesScreen.LoadSales` | src/screens/SalesScreen.js:32-43 | the sales are the stored bills, permuted to newest first; the range is unchanged |
| `Sales.SalesScreen.ShowDatePicker` | src/screens/SalesScreen.js:45-48 | records which side is being picked; nothing else changes |
| `Sales.SalesScreen.DateChange` | src/screens/SalesScreen.js:50-58 | a picked date replaces the start when the start is being picked and the end otherwise; a cancelled pick changes nothing |
| `Sales.SalesScreen.GenerateReport` | src/screens/SalesScreen.js:60-92 | the report, or the reason for none, for the loaded sales and the current range |

## Left out

- Storage I/O and JSON are modelled as in-memory `Slot` values. A read that fails is the `Unreadable` slot. Writes never fail, so the errors that `saveItem`, `updateItem`, `deleteItem` and `deleteBill` rethrow on a failed write are not modelled.
- `async`/`await` interleavings, and the lost update between overlapping read-modify-write calls, are not modelled. Every operation is one atomic step.
- `Date.now()` id generation is replaced by a `freshId` parameter. Uniqueness is a hypothesis of `SaveKeepsIds`, not a guarantee.
- Floating-point prices, `toFixed` display rounding and `Number(...)` coercions are left out. Prices are integers in minor units. The price field's `parseFloat` result is a parameter, with none standing for NaN.
- Object keys are `Option<Id>` values. JavaScript's conversion of an absent id to the key `"undefined"` is not modelled. Neither is the numeric ordering of array-index-like keys: generated ids exceed the array-index range, so keys keep insertion order.
- `handleDeleteSelected` deletes flagged ids in `Object.keys` order. The model deletes them in an arbitrary order and proves the result does not depend on it.
- The confirmation dialog of the bulk delete is a `confirmed` parameter. Alerts, loading flags, modal visibility, `setEditModalItem(null)`, the iOS picker visibility, rendering and navigation are left out.
- The quantity editor is not connected to `Home.HomeScreen`. The quantity the home screen passes it (HomeScreen.js:649-653: the selected quantity, or 1) is the parameter of `Rerender`. Its bound of 100 is a precondition there, because the home screen only stores quantities the editor accepted, or 1.
- The quantity field's native `maxLength={3}` is left out. `parseInt` is modelled on digit strings only, since the field never holds anything else.
- `ItemEdit.IsSpace` covers ASCII white space, U+00A0, U+FEFF, U+2028 and U+2029. The other Unicode space separators that `trim` also removes are left out.
- Sales.SortByDateDesc: does not state that equal dates keep their order (JavaScript's sort is stable), although `Insert` places a bill after those of equal date.
- Sales.SalesScreen.LoadSales: inherits the same gap, so the order of bills that share a date, which then reaches the report's bill list, is not stated.
- `Sales.SalesScreen.LoadSales` sorts a copy of the loaded list, where the source sorts the freshly read array in place. Nothing else refers to that array, so no aliasing is lost.
- Dates stored by the bill screen are locale strings that `new Date(...)` may not parse. The model treats every date as a timestamp.
- The PDF generator, the bill screen's printing, the unrouted billing, add-item and item-form screens, and the navigator are not part of this model.
