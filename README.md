# Arc Easel board repository in Dafny

Arc Easel is a browser extension. It saves web pages as *items* on freeform
*boards* and keeps everything in one `easelData` document in the browser's
local storage. This project models the part of it that keeps the data:

- the board page's `ArcEasel` object (`easel.js`), with its item and board
  maps, the active board, the active board's drawings and the pointer's
  click-versus-drag state;
- the toolbar popup (`popup.js`), which reads and writes the stored document
  directly.

Modules:

- `EaselTypes` (types.dfy) holds items, boards, drawing points and the stored
  document. Every top-level key of the document may be missing, as it may in
  the extension.
- `Text` (text.dfy) holds lower-casing, substring search and the "first N
  characters then `...`" shortening.
- `Repository` (repository.dfy) holds the repository as values. It covers
  which items sit on a board, what a cascade delete keeps, what the board
  view shows for a search, and how a save merges the in-memory state into
  the stored document.
- `Easel` (easel.dfy) holds the class `ArcEasel`. Its methods change its
  fields in place. Each method that persists takes the stored document and
  returns the document it writes.
- `Popup` (popup.dfy) holds the popup's operations. They work on the stored
  document as a value passed in and out.

Storage is a value: `Store = Option<Doc>`, where `None` means nothing is
stored yet. A `prompt` or `confirm` answer is an input. Generated ids, random
positions, random colour picks and the clock are parameters. When the
extension would throw a `TypeError`, the model changes nothing and returns a
flag or an empty result saying so. The cases are:

- the popup writes into a missing `items` or `boards` map (`saveItem`,
  `saveBoard`);
- the popup counts or lists a missing map (`loadStats`, `loadRecentItems`),
  which returns nothing;
- `deleteBoard` looks up the name of a board that does not exist;
- the mouse is released after the dragged item was deleted
  (`HandleCanvasMouseUp` reports the drag as not completed).

Details of the code that the model keeps:

- a new item's coordinates are `Math.random() * 400 + 50` and
  `Math.random() * 300 + 50`, so they lie in [50, 450) × [50, 350);
- `deleteBoard('default')` returns at once, with no message;
- `saveData` reads the stored `drawings` map and replaces only the current
  board's entry, while `loadData` reads only the entry of the board active at
  load time (see Findings).

## Model

| member | source | states |
|---|---|---|
| `EaselTypes.TitleOrUntitled` | easel.js:313 | A missing or empty title becomes "Untitled"; any other title is kept; the result is never empty |
| `EaselTypes.DefaultBoard` | easel.js:43-49 | The board added when none is stored has id `default` and name "Default Board" |
| `Text.Lower` | easel.js:121-122 | Lower-casing keeps the length and maps each character on its own |
| `Text.LowerIdempotent` | easel.js:120-122 | Lower-casing a lower-cased string changes nothing |
| `Text.IncludesIffOccurs` | easel.js:121-122 | The substring search `Text.Includes` holds exactly when some window of the text equals the query (both directions) |
| `Text.IncludesEmpty` | easel.js:120-122 | The empty query is contained in every string |
| `Text.Ellipsize` | easel.js:197 | A string of at most `limit` characters is kept; a longer one becomes its first `limit` characters followed by "...", never more than `limit + 3` long |
| `Easel.TruncateUrl` | easel.js:191-198 | When the URL parser rejects the url, a url of at most 35 characters is shown as is and a longer one as its first 35 characters plus "..."; the label is at most 38 long |
| `Repository.CountOnBoard` | easel.js:426-428 | The item count of a board never exceeds the number of items |
| `Repository.SubsetCard` | easel.js:426-428 | A set of ids taken from the item map is no larger than the map's key set |
| `Repository.WithoutBoard` | easel.js:435-439 | The cascade keeps exactly the items not on the board, each unchanged |
| `Repository.WithoutBoardCounts` | easel.js:435-439 | After the cascade the item count drops by the board's count, the board has no items, and every other board keeps its count |
| `Repository.CascadeKeepsReferences` | easel.js:435-441 | If every item named an existing board before, it still does after the board and its items are deleted |
| `Repository.Visible` | easel.js:118-122 | Only items of the current board that pass the filter `Repository.Matches` are shown, each as stored |
| `Repository.VisibleIff` | easel.js:118-122 | An item is shown exactly when it is on the board and the query is empty or occurs, ignoring case, in its title or url |
| `Repository.VisibleNarrows` | easel.js:118-122 | An empty query shows the whole board; any query shows a subset of that |
| `Repository.VisibleIgnoresQueryCase` | easel.js:120-122 | Lower-casing the query does not change what is shown |
| `Repository.Flush` | easel.js:59-67 | A save replaces `boards` and `items`, and only the current board's entry of `drawings`; other boards' drawings are kept from the stored document |
| `Repository.FlushThenLoad` | easel.js:38-40 | Reading back a saved document gives the saved items, boards and current drawings, and every other board's drawings as before |
| `Repository.FlushIdempotent` | easel.js:57-73 | Saving the same state twice writes the same document as saving once |
| `Repository.FlushOfReloadedPaths` | easel.js:57-73 | Saving the drawings stored for the current board leaves every board's stored drawings unchanged |
| `Easel.ArcEasel.constructor` | easel.js:3-20 | A new easel is on board `default`, with no items, no boards, no drawings and no item pressed |
| `Easel.ArcEasel.SaveData` | easel.js:57-73 | Writes the document `Flush` describes; the items and boards read back are the in-memory ones, and other boards' drawings are untouched |
| `Easel.ArcEasel.LoadData` | easel.js:33-55 | Items, boards and the current board's drawings come from the document (empty when missing); afterwards a `default` board exists; an existing one is kept, and a missing one is added and saved |
| `Easel.ArcEasel.DeleteItem` | easel.js:289-295 | Once confirmed, exactly key `itemId` is removed and the state is saved; unconfirmed, nothing changes |
| `Easel.ArcEasel.AddItem` | easel.js:310-326 | The items map becomes `old(items)[id := item]`, adding one key when the id is new. The item is on the current board with the given url and favicon, its title or "Untitled", `createdAt` now, and position (dx + 50, dy + 50) in [50, 450) × [50, 350). The state is saved |
| `Easel.ArcEasel.ShowAddItemDialog` | easel.js:297-308 | A cancelled or empty url adds nothing and writes nothing. Otherwise exactly one item is set under the id: on the current board, with the url, its title or "Untitled", no favicon, `createdAt` now, and position in [50, 450) × [50, 350). The state is saved |
| `Easel.ArcEasel.SwitchBoard` | easel.js:350-354 | Only the active board changes; the drawings in memory stay as they were |
| `Easel.ArcEasel.SwitchBoardReloadingDrawings` | easel.js:350-351 | The new board's stored drawings are loaded, so a later save leaves every board's stored drawings unchanged |
| `Easel.ArcEasel.CreateBoard` | easel.js:369-384 | A cancelled or empty name changes nothing; otherwise exactly the new board is added with a palette colour, and the state is saved |
| `Easel.ArcEasel.DeleteItemsOnBoard` | easel.js:435-439 | Deleting key by key leaves exactly the items of other boards |
| `Easel.ArcEasel.DeleteBoard` | easel.js:430-453 | The `default` board, an unknown board or an unconfirmed deletion change nothing. `threw` is set exactly for an unknown board, whose name lookup throws. Otherwise exactly the board's items and the board go, and the active board becomes `default` iff it was the one deleted. The state is saved, `default` survives, and referential integrity is kept |
| `Easel.ArcEasel.ClearBoard` | easel.js:465-476 | Once confirmed, exactly the current board's items are removed; boards are untouched |
| `Easel.ArcEasel.HandleSearch` | easel.js:460-463 | The search query becomes the typed text |
| `Easel.ArcEasel.Shown` | easel.js:118-122 | The board view shows exactly the items of the active board that match the current search query, each as stored |
| `Easel.ArcEasel.HandleItemMouseDown` | easel.js:201-219 | A press on an action button changes no pointer field. Otherwise the item is pressed, not dragging, and the press time, press position, grab offset and element position are recorded |
| `Easel.ArcEasel.HandleCanvasMouseMove` | easel.js:221-248 | A press becomes a drag only once the pointer is more than 5 px from the press, then stays one. While dragging, the element sits at the clamped, non-negative pointer position. Items and storage are untouched |
| `Easel.ArcEasel.HandleCanvasMouseUp` | easel.js:250-273 | Only a drag writes the displayed position into the item and saves. The pointer state is always cleared, except when the dragged item was deleted meanwhile: then the lookup throws and nothing changes |
| `Easel.StaleDrawingsAfterSwitch` | easel.js:350-354 | With one stroke stored for `default`, loading, switching to "r" and saving gives board "r" that stroke |
| `Easel.NoStaleDrawingsAfterReloadingSwitch` | easel.js:350-354 | The same steps with the corrected switch leave board "r" without strokes |
| `Popup.WithDefault` | popup.js:150-158 | Afterwards a `default` board exists, an existing one is not overwritten, and no other board changes |
| `Popup.LoadStats` | popup.js:13-26 | With `Popup.DocOr` supplying the empty document when nothing is stored, the stats are the number of item keys and of board keys (0 and 0 when nothing is stored); nothing when a map is missing |
| `Popup.SaveItem` | popup.js:144-161 | Stores the item under its id, keeping every other item, and makes sure `default` exists without overwriting it. A new id raises the item count by one. A document lacking a map is left as it is |
| `Popup.SaveBoard` | popup.js:163-169 | Stores the board under its id, keeping other boards and all items; a new id raises the board count by one |
| `Popup.CreateBoard` | popup.js:123-142 | A cancelled or empty name changes nothing; otherwise exactly the new board is stored with a palette colour |
| `Popup.GridPositionColumns` | popup.js:106 | In `Popup.GridPosition`, a tab's x is one of 50, 250, 450, 650, and its y is 50 plus a multiple of 150 |
| `Popup.GridPositionInjective` | popup.js:106 | Distinct tab indices get distinct positions |
| `Popup.InsertedKeys` | popup.js:110-112 | Saving the items one by one adds exactly their ids to the keys |
| `Popup.InsertedKeepsOthers` | popup.js:110-112 | A key no saved item uses keeps its item |
| `Popup.InsertedStoresEach` | popup.js:110-112 | With distinct ids every saved item is stored under its id |
| `Popup.BuildTabItems` | popup.js:97-108 | One item per tab, in order, each built by `Popup.TabItem`. Each has its generated id, board `default`, the tab's url and favicon, its title or "Untitled", and grid position `i` |
| `Popup.SavedAllStep` | popup.js:110-112 | After one more successful `saveItem`, the document is that of saving one more item of the list, in order |
| `Popup.SaveItems` | popup.js:110-112 | Either every item is saved in order, with `default` ensured, or, when the first write throws, nothing is |
| `Popup.AddAllTabs` | popup.js:92-121 | The items built are those of `BuildTabItems`, and they are all saved or none are |
| `Popup.AddCurrentTab` | popup.js:66-90 | With no active tab, or a document lacking a map, nothing is written. Otherwise the document written is the stored one with the tab's item set under the id and `default` ensured among the boards. The item has the tab's url and favicon, its title or "Untitled", `createdAt` now, board `default` and position in [0, 300) × [0, 200). Other items and boards are kept, and so are the drawings |
| `Popup.NoneNewerThanPermutation` | popup.js:34 | Being no newer than a time depends only on which items there are, not their order |
| `Popup.InsertByAge` | popup.js:34 | Inserting into a newest-first list keeps it newest first and adds exactly that item |
| `Popup.InsertByAgeAtTime` | popup.js:34 | An inserted item goes ahead of every item with the same `createdAt`, and their order is kept |
| `Popup.SortNewestFirst` | popup.js:34 | The sort yields a newest-first permutation of its input |
| `Popup.SortStable` | popup.js:34 | The sort is stable: for each `createdAt`, the items stamped with it keep their input order |
| `Popup.AtTimePrefix` | popup.js:35 | For each timestamp, the first `n` items of a list hold a prefix of the items stamped with it |
| `Popup.PrefixNewestFirst` | popup.js:35 | The first items of a newest-first list are newest first |
| `Popup.SplitMultiset` | popup.js:35 | Taking the first items of a list leaves exactly the rest |
| `Popup.RestNoNewer` | popup.js:34-35 | In a newest-first list nothing after the first `n` items is newer than the `n`-th |
| `Popup.RecentItems` | popup.js:33-35 | At most three items are shown, all taken from the input and newest first. None left out is newer than the last one shown. For each timestamp, the items shown with it are the first ones stamped with it, in input order |
| `Popup.ValuesInOrder` | popup.js:33 | The values are listed one per key, in key order |
| `Popup.KeyOrderLength` | popup.js:33 | A duplicate-free listing of the keys is as long as the map |
| `Popup.ValuesCoverMap` | popup.js:33 | Every stored item is among the listed values and every listed value is a stored item |
| `Popup.RecentOfStored` | popup.js:33-35 | For a stored items map, the recent list has min(3, items) entries, each a stored item, and no stored item left out is newer than the last one shown |
| `Popup.LoadRecentItems` | popup.js:28-35 | The recent list has min(3, items) entries, newest first. It is a sub-multiset of the stored items, so no item is listed more often than it is stored. No stored item left out is newer than the last one shown. Among items with the same `createdAt`, the ones listed are the first in key order, and in that order. Nothing is returned when `items` is missing |
| `Popup.DisplayTitle` | popup.js:47 | A title of at most 25 characters is shown as is; a longer one as its first 25 characters plus "..." |

## Findings

| source | as written | input that shows it | evidently intended | confidence | as-written member | corrected member |
|---|---|---|---|---|---|---|
| easel.js:350-354 | `switchBoard` changes only `currentBoard`. `drawingPaths` keep the strokes loaded for the board active at start, and the next `saveData` (easel.js:67) writes them under the new board's key | stored drawings `{default: [stroke]}` and none for board "r"; load, switch to "r", save: board "r" now has `default`'s stroke | switching loads the new board's stored drawings, so each save rewrites only the current board's own drawings | medium, not executed (the drawing handlers that would change `drawingPaths` are not defined in easel.js) | `Easel.ArcEasel.SwitchBoard`, shown by `Easel.StaleDrawingsAfterSwitch` | `Easel.ArcEasel.SwitchBoardReloadingDrawings`, with `Easel.NoStaleDrawingsAfterReloadingSwitch` and `Repository.FlushOfReloadedPaths` |

## Left out

- DOM rendering is not modelled because it is UI only. This covers `createItemElement`, `renderBoards`, `updateBoardSelector`, `toggleSidebar`, `showNotification`, `getDefaultFavicon` and `handleCanvasMouseDown` (CSS class toggles only).
- The item click handler (easel.js:171-178) is not modelled. It only suppresses a browser default. `dragStartTime` is recorded but not used elsewhere.
- `chrome.storage` and `async`/`await` are modelled as a document value passed in and out. The save at easel.js:261, which is not awaited, is modelled as completed.
- `init` and its call order are not modelled. They are event wiring.
- `prompt` and `confirm` answers are inputs.
- `generateId`, `getRandomColor` and `Math.random` are parameters. Ids are not assumed unique: a colliding id overwrites, as in the source.
- `fetchFavicon` and `openItem` are not modelled. They need a network image load and `window.open`.
- The `new URL(...)` parse in `truncateUrl` is not modelled. Its host-plus-path result is the parameter `parsed`.
- Pixel positions are integers. The square root is replaced by comparing squared distance with 25. `parseInt` of the style is the stored integer position.
- The drawing tools are not modelled: `setupDrawingCanvas`, `handleDrawingStart/Move/End`, `setTool` and `clearDrawings` are called in easel.js but not defined there. Strokes are stored and reloaded verbatim.
- `handleKeyboard` is not modelled. Its shortcuts only call `showAddItemDialog` and `deleteItem`, which are modelled.
- background.js and content.js are not modelled. They are extension event glue, and their page-adding functions are single map inserts like `saveItem`.
- Map order is not modelled. Object key order is insertion order, but Dafny maps are unordered. `Repository.Visible` returns a map, and `Popup.LoadRecentItems` takes the key order as a parameter.
- Special object keys (`__proto__`, `constructor`, …) are not modelled. Every string is an ordinary key.
- Timestamps are integers (milliseconds), not ISO strings. One `now` is used per operation.
- Text.Lower: lower-cases ASCII letters only, not the full Unicode case mapping of `toLowerCase`. Lengths count characters, not UTF-16 code units.
- Popup.AddAllTabs: gives every item the same `createdAt`, though the source reads the clock once per tab.
