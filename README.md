# Shopping list: a Dafny model of the item store

This project models the shopping-list component in `App.tsx`. The component
keeps an ordered list of items. Each item has an id, a name, a price, a creation
time and a last-update time. Users add items from two input fields, delete them
by id, and edit one item at a time through an edit session with a draft name and
a draft price. A search box shows the subsequence of items whose lower-cased name
contains the lower-cased search term. The running total is the sum of every
item's price, whatever the search term.

Layout:

- `sequences.dfy` (module `Sequences`): `Filter`, the order-preserving
  selection that JavaScript's `filter` performs. `FilterSelects` pins it down
  completely: the result is the elements at the positions that satisfy the
  predicate, in increasing order of position.
- `items.dfy` (module `Items`): the `Item` record and the pure list
  operations:
  - `SumPrices` is the `reduce` total, folded from the left starting at 0.
  - `WithoutId` and `WithId` are the two sides of a delete.
  - `Edited` is the `map` that a save applies.
- `search.dfy` (module `SearchFilter`): ASCII lower-casing, substring
  containment as the existence of a start index, and `Search`, the filtered
  view.
- `app.dfy` (module `App`): the component as the class `ShoppingList`. Its
  fields are the component's state fields. It has one method per handler
  (`addItem`, `deleteItem`, `startEdit`, `saveEdit`) and one per input field's
  `onChange`. `Total()` and `FilteredItems()` are the two derived values.
  `Total()` reads only the `items` field, so the search term cannot affect it.
  `Valid()` states the invariant of the edit session: an idle session
  (`editItemId == None`) has both drafts empty.
  `Scenario` plays through a sample sequence of operations as a client of the
  class. It adds Milk at 4.50 and Bread at 2.25 (total 6.75), reprices Milk to
  5.00 (total 7.25) and deletes Bread.

Values that the component gets from the browser are parameters of the methods:
- the fresh id (`Date.now().toString()`);
- the two timestamps of an add (`toLocaleString()`, read separately for
  `createdAt` and `updatedAt`);
- the timestamps of a save, one per list position (`stamps`), because the
  `map` callback reads the clock afresh for each item it revises;
- `parseFloat` (`parse: string -> real`);
- the number-to-string conversion (`show: real -> string`).

Ids are not assumed to be unique, because two adds in the same millisecond
would share one. Delete and save act on every item that carries the id.

Behaviours of the code a reader might not expect:
- `addItem` only checks that both input strings are non-empty. It does not
  reject a negative or unparsable price.
- Nothing keeps ids unique.
- `saveEdit` on an id that no item carries leaves the list unchanged but still
  closes the session (`EditAbsent`).
- `saveEdit` does nothing while the session's id is the empty string, because
  `""` is falsy.
- Loading does not fall back to an empty list when the stored data is
  malformed.
- `startEdit` does not check for an open session. Starting an edit while
  another is open switches to the new item and discards the old drafts
  (`StartEdit` has no requirement on the session).

## Model

| member | source | states |
|---|---|---|
| `Sequences.Filter` | App.tsx:48 | The result is no longer than the input. Each kept element comes from the input and satisfies the predicate, and every input element that satisfies it is kept. |
| `Sequences.FilterSelects` | App.tsx:72-74 | The result is the input's elements at strictly increasing positions, and a position is among them exactly when its element satisfies the predicate. This is an order-preserving subsequence, and it determines the result uniquely. |
| `Sequences.FilterKeepsAll` | App.tsx:48 | When every element satisfies the predicate, filtering returns the input unchanged. |
| `Sequences.FilterAgree` | App.tsx:72-74 | Two predicates that agree on every element select the same result. |
| `Items.SumPrices` | App.tsx:70 | When every price is non-negative, the total is non-negative. |
| `Items.SumAppend` | App.tsx:70 | The total of a concatenation is the sum of the two totals. Appending an item adds its price. |
| `Items.SumUniform` | App.tsx:70 | A list whose items all cost `price` totals `price` once per item. |
| `Items.WithoutId` | App.tsx:47-49 | After a delete, no remaining item carries the id. Every remaining item was in the list, and every item with a different id remains. |
| `Items.WithId` | App.tsx:48 | The items a delete drops: exactly the list's items that carry the id. |
| `Items.RemovalSelects` | App.tsx:48 | Delete keeps exactly the positions whose id differs, in their original relative order. |
| `Items.RemovalAbsent` | App.tsx:48 | Deleting an id that no item carries leaves the list unchanged. |
| `Items.RemovalIdempotent` | App.tsx:48 | Deleting the same id twice gives the same list as deleting it once. |
| `Items.RemovalPartition` | App.tsx:48 | The kept and the dropped items together make up the whole length and the whole total of the list. |
| `Items.RemovalOfUnique` | App.tsx:48 | When exactly one item carries the id, the delete shortens the list by exactly one. |
| `Items.Edited` | App.tsx:59-63 | Save keeps the length, and each position keeps its id and `createdAt`. Each item that carries the id gets the draft name, the parsed price and, as `updatedAt`, the clock reading taken at its own position. Every other item is identical to before. |
| `Items.EditAbsent` | App.tsx:59-63 | Saving under an id that no item carries leaves the list unchanged. |
| `Items.EditKeepsOthers` | App.tsx:59-63 | Once the edited id is removed, the edited list and the original list are the same: the edit touches no other item. |
| `Items.EditedPrices` | App.tsx:61 | Every item that the edit touched has the new price, and together they total that price once per item. |
| `Items.EditedCount` | App.tsx:59-63 | The edit touches as many items as carried the id before. |
| `Items.EditedItemsTotal` | App.tsx:59-63 | The edited items total the new price once for each item that carried the id. |
| `Items.EditTotal` | App.tsx:59-70 | After a save, the total equals the untouched items' total plus the new price added once for each edited item. |
| `SearchFilter.LowerStr` | App.tsx:73 | Lower-casing keeps the length and leaves no letter 'A'..'Z'. Each upper-case letter becomes the letter 32 code points above it, and every other character stays as it was. |
| `SearchFilter.Contains` | App.tsx:73 | If the needle occurs in the text, it is no longer than the text. A prefix of the text occurs in it, and the empty needle occurs in every text. |
| `SearchFilter.LowerStrIdempotent` | App.tsx:73 | Lower-casing an already lower-cased string changes nothing. |
| `SearchFilter.Search` | App.tsx:72-74 | The view is no longer than the list. It holds only list items whose lower-cased name contains the lower-cased term, and every such item is in it. |
| `SearchFilter.SearchSelects` | App.tsx:72-74 | The view is an order-preserving subsequence of the list, made of exactly the matching positions. |
| `SearchFilter.SearchEmptyTerm` | App.tsx:72-74 | The empty search term shows the whole list. |
| `SearchFilter.SearchIgnoresCase` | App.tsx:73 | Two terms that differ only in letter case show the same items. |
| `SearchFilter.SearchExample` | App.tsx:72-74 | Searching "Mi" over Milk and Bread shows Milk only. |
| `App.ShoppingList.constructor` | App.tsx:12-19 | The initial state has an empty list, empty inputs and an empty search term, and no edit session. |
| `App.ShoppingList.Total` | App.tsx:70 | The sum of every item's price: 0 for the empty list, and non-negative when every price is. It reads only `items`, so the search term and the inputs cannot change it. |
| `App.ShoppingList.FilteredItems` | App.tsx:72-74 | The view is no longer than the list. It holds only list items that match the current term, and it is the whole list when the term is empty. Reading it changes nothing. |
| `App.ShoppingList.SetNewItem` | App.tsx:94 | Typing sets the name input and nothing else. |
| `App.ShoppingList.SetNewPrice` | App.tsx:101 | Typing sets the price input and nothing else. |
| `App.ShoppingList.SetSearchTerm` | App.tsx:117 | Typing sets the search term. The list and the total stay as they were, and the view becomes the search of the list by the new term. |
| `App.ShoppingList.SetEditItemName` | App.tsx:145 | While editing, typing sets the draft name. |
| `App.ShoppingList.SetEditItemPrice` | App.tsx:151 | While editing, typing sets the draft price. |
| `App.ShoppingList.AddItem` | App.tsx:32-45 | With both inputs non-empty, exactly one item is appended at the end, with the given id, the input name, the parsed input price and the given timestamps, and both inputs are cleared. Otherwise nothing changes. |
| `App.ShoppingList.DeleteItem` | App.tsx:47-49 | The list becomes the items with a different id, in order, and no item then carries the id. If no item carried it, the list is unchanged. The total drops by the prices of the removed items. |
| `App.ShoppingList.StartEdit` | App.tsx:51-55 | The session edits the item's id, the draft name is the item's name and the draft price is the item's price as a string. The list is untouched. |
| `App.ShoppingList.SaveEdit` | App.tsx:57-68 | With an open session on a non-empty id and both drafts non-empty, the list becomes the edit of every item with that id, each stamped with its own clock reading, and the session is idle with empty drafts. Otherwise the list, the session and the drafts are unchanged. A save from an idle session leaves both drafts empty. |
| `App.Scenario` | App.tsx:32-70 | Add Milk 4.50 and Bread 2.25 (total 6.75), save Milk at 5.00 (total 7.25), delete Bread: one item remains, Milk at 5.00 with its original id. |

## Left out

- Persistence (`App.tsx:21-30`). Reading and writing `localStorage` through `JSON.parse` and `JSON.stringify` is browser I/O, so the serialisation round trip is not modelled. The model starts from the empty list that the state holds before the load effect runs.
- The dark-mode toggle (`App.tsx:16`, `App.tsx:82`), and all JSX rendering and styling (`App.tsx:76-194`). These are presentation only.
- The clock (`Date.now()`, `toLocaleString()`), `parseFloat` and `Number.prototype.toString`. They are parameters, so no claim is made about id uniqueness, timestamp order or how prices are parsed. `NaN` is not modelled, and neither is the two-decimal display (`toFixed(2)`).
- `Items.SumPrices`: prices are exact reals. The IEEE double rounding of the JavaScript sum is not modelled.
- `SearchFilter.LowerStr`: only ASCII 'A'..'Z' are lower-cased. JavaScript's `toLowerCase` also maps other Unicode letters.
- React's state scheduling. Each handler is one atomic transition over the state as it was when the handler ran.
