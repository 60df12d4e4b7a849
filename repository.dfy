/** The board/item repository as values: which items sit on a board, what a
    cascade delete keeps, what the board view shows for a search query, and
    how the in-memory state is merged into the stored document on save. */
module Repository {
  import opened EaselTypes
  import opened Text

  /** Ids of the items whose `boardId` is `b`. */
  function OnBoard(items: map<string, Item>, b: string): set<string>
  {
    set id | id in items && items[id].boardId == b
  }

  /** `getBoardItemCount`: how many items sit on board `b`. */
  function CountOnBoard(items: map<string, Item>, b: string): (n: nat)
    ensures n <= |items|
  {
    assert OnBoard(items, b) <= items.Keys;
    SubsetCard(OnBoard(items, b), items.Keys);
    |OnBoard(items, b)|
  }

  /** A subset is no larger than its superset. */
  lemma {:induction false} SubsetCard<T>(a: set<T>, b: set<T>)
    requires a <= b
    ensures |a| <= |b|
    decreases b
  {
    if a != {} {
      var x :| x in a;
      SubsetCard(a - {x}, b - {x});
    }
  }

  /** The items left after every item on board `b` is deleted. */
  function WithoutBoard(items: map<string, Item>, b: string): (kept: map<string, Item>)
    ensures kept.Keys == items.Keys - OnBoard(items, b)
    ensures forall id :: id in kept ==> kept[id] == items[id] && kept[id].boardId != b
  {
    map id | id in items && items[id].boardId != b :: items[id]
  }

  /** The cascade removes exactly the items of `b`: their number drops by the
      count of `b`, no item of `b` survives, and every other board keeps its
      count. */
  lemma WithoutBoardCounts(items: map<string, Item>, b: string)
    ensures |WithoutBoard(items, b)| == |items| - CountOnBoard(items, b)
    ensures CountOnBoard(WithoutBoard(items, b), b) == 0
    ensures forall c :: c != b ==> CountOnBoard(WithoutBoard(items, b), c) == CountOnBoard(items, c)
  {
    var kept := WithoutBoard(items, b);
    assert kept.Keys + OnBoard(items, b) == items.Keys;
    assert kept.Keys !! OnBoard(items, b);
    assert |kept.Keys + OnBoard(items, b)| == |kept.Keys| + |OnBoard(items, b)|;
    assert OnBoard(kept, b) == {};
    forall c | c != b
      ensures CountOnBoard(kept, c) == CountOnBoard(items, c)
    {
      assert OnBoard(kept, c) == OnBoard(items, c);
    }
  }

  /** Every item names a board that exists (the repository's referential
      integrity, kept by the cascade). */
  ghost predicate ItemsReferenceBoards(items: map<string, Item>, boards: map<string, Board>)
  {
    forall id :: id in items ==> items[id].boardId in boards
  }

  /** Deleting board `b` together with its items keeps referential integrity. */
  lemma CascadeKeepsReferences(items: map<string, Item>, boards: map<string, Board>, b: string)
    requires ItemsReferenceBoards(items, boards)
    ensures ItemsReferenceBoards(WithoutBoard(items, b), boards - {b})
  {
  }

  /** The search filter of `renderBoard`: an empty query matches everything,
      otherwise the lower-cased title or url must contain the lower-cased
      query. */
  predicate Matches(item: Item, query: string)
  {
    query == "" || Includes(Lower(item.title), Lower(query)) || Includes(Lower(item.url), Lower(query))
  }

  /** The items `renderBoard` shows: those on `board` that match `query`. */
  function Visible(items: map<string, Item>, board: string, query: string): (shown: map<string, Item>)
    ensures shown.Keys <= OnBoard(items, board)
    ensures forall id :: id in shown ==> shown[id] == items[id]
  {
    map id | id in items && items[id].boardId == board && Matches(items[id], query) :: items[id]
  }

  /** An item is shown exactly when it is on the board and the query is empty
      or occurs, ignoring case, in its title or url. */
  lemma VisibleIff(items: map<string, Item>, board: string, query: string, id: string)
    ensures id in Visible(items, board, query) <==>
      id in items && items[id].boardId == board &&
      (query == "" || Occurs(Lower(query), Lower(items[id].title)) || Occurs(Lower(query), Lower(items[id].url)))
  {
    if id in items {
      IncludesIffOccurs(Lower(items[id].title), Lower(query));
      IncludesIffOccurs(Lower(items[id].url), Lower(query));
    }
  }

  /** With an empty query the whole board is shown; any query shows a part of
      that. */
  lemma VisibleNarrows(items: map<string, Item>, board: string, query: string)
    ensures Visible(items, board, "").Keys == OnBoard(items, board)
    ensures Visible(items, board, query).Keys <= Visible(items, board, "").Keys
  {
  }

  /** The filter ignores the case of the query. */
  lemma VisibleIgnoresQueryCase(items: map<string, Item>, board: string, query: string)
    ensures Visible(items, board, Lower(query)) == Visible(items, board, query)
  {
    LowerIdempotent(query);
    assert (Lower(query) == "") == (query == "");
    forall id | id in items
      ensures Matches(items[id], Lower(query)) == Matches(items[id], query)
    {
    }
  }

  /* ---- The stored document as the board page reads it ---- */

  /** `easelData.items || {}`. */
  function StoredItems(stored: Store): map<string, Item>
  {
    if stored.Some? && stored.value.items.Some? then stored.value.items.value else map[]
  }

  /** `easelData.boards || {}`. */
  function StoredBoards(stored: Store): map<string, Board>
  {
    if stored.Some? && stored.value.boards.Some? then stored.value.boards.value else map[]
  }

  /** `easelData.drawings`, or nothing when the key is missing. */
  function StoredDrawings(stored: Store): map<string, seq<DrawingPath>>
  {
    if stored.Some? && stored.value.drawings.Some? then stored.value.drawings.value else map[]
  }

  /** `easelData.drawings?.[board] || []`. */
  function StoredPaths(stored: Store, board: string): seq<DrawingPath>
  {
    if board in StoredDrawings(stored) then StoredDrawings(stored)[board] else []
  }

  /** The document `saveData` writes: `boards` and `items` replaced by the
      in-memory maps, and only the current board's entry of `drawings`
      replaced; the other boards' drawings are kept from the stored document. */
  function Flush(stored: Store, boards: map<string, Board>, items: map<string, Item>,
                 current: string, paths: seq<DrawingPath>): (saved: Doc)
    ensures saved.boards == Some(boards) && saved.items == Some(items)
    ensures saved.drawings.Some?
    ensures saved.drawings.value.Keys == StoredDrawings(stored).Keys + {current}
    ensures saved.drawings.value[current] == paths
    ensures forall b :: b in StoredDrawings(stored) && b != current ==>
      saved.drawings.value[b] == StoredDrawings(stored)[b]
  {
    Doc(Some(boards), Some(items), Some(StoredDrawings(stored)[current := paths]))
  }

  /** Loading what was just saved gives back the in-memory state, and every
      other board's drawings read as before. */
  lemma FlushThenLoad(stored: Store, boards: map<string, Board>, items: map<string, Item>,
                      current: string, paths: seq<DrawingPath>)
    ensures var s := Some(Flush(stored, boards, items, current, paths));
      StoredItems(s) == items && StoredBoards(s) == boards && StoredPaths(s, current) == paths &&
      forall b :: b != current ==> StoredPaths(s, b) == StoredPaths(stored, b)
  {
  }

  /** Saving the same state twice writes the same document as saving once. */
  lemma FlushIdempotent(stored: Store, boards: map<string, Board>, items: map<string, Item>,
                        current: string, paths: seq<DrawingPath>)
    ensures var once := Flush(stored, boards, items, current, paths);
      Flush(Some(once), boards, items, current, paths) == once
  {
    var once := Flush(stored, boards, items, current, paths);
    assert StoredDrawings(Some(once))[current := paths] == StoredDrawings(Some(once));
  }

  /** When the in-memory paths are the ones stored for the current board, a
      save leaves every board's drawings as they were. */
  lemma FlushOfReloadedPaths(stored: Store, boards: map<string, Board>, items: map<string, Item>,
                             current: string)
    ensures forall b :: StoredPaths(Some(Flush(stored, boards, items, current, StoredPaths(stored, current))), b)
                        == StoredPaths(stored, b)
  {
  }
}
