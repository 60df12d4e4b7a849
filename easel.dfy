/** The board page: the `ArcEasel` object holding the item and board maps,
    the active board, the active board's drawings and the click-versus-drag
    state of the pointer. Storage is the `easelData` value passed in and
    returned; prompts and confirmations are inputs. */
module Easel {
  import opened EaselTypes
  import opened Text
  import opened Repository

  /** Pointer travel, in pixels, after which a press becomes a drag. */
  const DragThreshold: int := 5

  /** Colours a new board may get. */
  const EaselPalette: seq<string> :=
    ["#667eea", "#764ba2", "#f093fb", "#f5576c", "#4facfe", "#00f2fe", "#a8edea", "#fed6e3"]

  /** What the user typed in the add-item dialog, or a tab's metadata. */
  datatype ItemData = ItemData(url: string, title: Option<string>, favicon: Option<string>)

  function Max0(v: int): (r: int)
    ensures r >= 0 && r >= v && (r == v || r == 0)
  {
    if v > 0 then v else 0
  }

  /** Squared distance; compared against the squared threshold instead of
      taking a square root. */
  function Dist2(a: Position, b: Position): nat
  {
    (a.x - b.x) * (a.x - b.x) + (a.y - b.y) * (a.y - b.y)
  }

  /** `truncateUrl`: `parsed` is host plus path when the URL parser accepts
      `url`, and nothing when it throws (then the raw url is shortened). */
  function TruncateUrl(url: string, parsed: Option<string>): (shown: string)
    ensures |shown| <= 38
    ensures parsed.None? && |url| <= 35 ==> shown == url
    ensures parsed.None? && |url| > 35 ==> shown == url[..35] + "..."
  {
    Ellipsize(if parsed.Some? then parsed.value else url, 35)
  }

  class ArcEasel {
    var currentBoard: string
    var items: map<string, Item>
    var boards: map<string, Board>
    var searchQuery: string
    /** The current board's strokes, merged into `drawings` on save. */
    var drawingPaths: seq<DrawingPath>

    var isDragging: bool
    var selectedItem: Option<Item>
    var dragStartTime: int
    var dragStartPos: Position
    var dragOffset: Position
    /** Left/top of the pressed item's element, as displayed. */
    var itemElement: Option<Position>

    /** The items `renderBoard` shows for the current board and query. */
    function Shown(): (shown: map<string, Item>)
      reads this
      ensures forall id :: id in shown <==>
        (id in items && items[id].boardId == currentBoard && Matches(items[id], searchQuery))
      ensures forall id :: id in shown ==> shown[id] == items[id]
    {
      Visible(items, currentBoard, searchQuery)
    }

    /** The pointer state is consistent: nothing is dragged or displayed as
        moving unless an item is pressed. */
    ghost predicate DragValid()
      reads this
    {
      && (selectedItem.None? ==> !isDragging && itemElement.None?)
      && (selectedItem.Some? ==> itemElement.Some?)
    }

    constructor ()
      ensures currentBoard == DefaultBoardId && items == map[] && boards == map[]
      ensures searchQuery == "" && drawingPaths == []
      ensures !isDragging && selectedItem.None? && itemElement.None?
      ensures dragStartPos == Position(0, 0) && dragOffset == Position(0, 0)
      ensures DragValid()
    {
      currentBoard := DefaultBoardId;
      items := map[];
      boards := map[];
      searchQuery := "";
      drawingPaths := [];
      isDragging := false;
      selectedItem := None;
      dragStartTime := 0;
      dragStartPos := Position(0, 0);
      dragOffset := Position(0, 0);
      itemElement := None;
    }

    /** `saveData`: the stored document with `boards`, `items` and the current
        board's drawings replaced. */
    method SaveData(stored: Store) returns (saved: Doc)
      ensures saved == Flush(stored, boards, items, currentBoard, drawingPaths)
      ensures StoredItems(Some(saved)) == items && StoredBoards(Some(saved)) == boards
      ensures forall b :: b != currentBoard ==> StoredPaths(Some(saved), b) == StoredPaths(stored, b)
    {
      var easelData := if stored.Some? then stored.value else Doc(None, None, Some(map[]));
      easelData := easelData.(boards := Some(boards), items := Some(items));
      if easelData.drawings.None? {
        easelData := easelData.(drawings := Some(map[]));
      }
      easelData := easelData.(drawings := Some(easelData.drawings.value[currentBoard := drawingPaths]));
      saved := easelData;
      FlushThenLoad(stored, boards, items, currentBoard, drawingPaths);
    }

    /** `loadData`: takes the maps and the current board's drawings from the
        document and makes sure a `default` board exists, saving if it had to
        add one. */
    method LoadData(stored: Store, now: int) returns (stored': Store)
      modifies this`items, this`boards, this`drawingPaths
      ensures items == StoredItems(stored)
      ensures drawingPaths == StoredPaths(stored, currentBoard)
      ensures DefaultBoardId in boards
      ensures DefaultBoardId in StoredBoards(stored) ==> boards == StoredBoards(stored) && stored' == stored
      ensures DefaultBoardId !in StoredBoards(stored) ==>
        boards == StoredBoards(stored)[DefaultBoardId := DefaultBoard(now)] &&
        stored' == Some(Flush(stored, boards, items, currentBoard, drawingPaths))
    {
      items := StoredItems(stored);
      boards := StoredBoards(stored);
      drawingPaths := StoredPaths(stored, currentBoard);
      stored' := stored;
      if DefaultBoardId !in boards {
        boards := boards[DefaultBoardId := DefaultBoard(now)];
        var saved := SaveData(stored);
        stored' := Some(saved);
      }
    }

    /** `deleteItem`: once confirmed, removes key `itemId` and nothing else. */
    method DeleteItem(itemId: string, confirmed: bool, stored: Store) returns (stored': Store)
      modifies this`items
      ensures items == if confirmed then old(items) - {itemId} else old(items)
      ensures stored' == if confirmed then Some(Flush(stored, boards, items, currentBoard, drawingPaths)) else stored
    {
      stored' := stored;
      if confirmed {
        items := items - {itemId};
        var saved := SaveData(stored);
        stored' := Some(saved);
      }
    }

    /** `addItem`: files a new item under `id` on the current board at a
        random spot; `dx` and `dy` are the random offsets. */
    method AddItem(data: ItemData, id: string, now: int, dx: int, dy: int, stored: Store)
      returns (item: Item, stored': Store)
      requires 0 <= dx < 400 && 0 <= dy < 300
      modifies this`items
      ensures items == old(items)[id := item]
      ensures id !in old(items) ==> items.Keys == old(items).Keys + {id} && |items| == |old(items)| + 1
      ensures item.id == id && item.boardId == currentBoard
      ensures item.title == TitleOrUntitled(data.title) && item.url == data.url
      ensures item.favicon == data.favicon && item.createdAt == now
      ensures item.position == Position(dx + 50, dy + 50)
      ensures 50 <= item.position.x < 450 && 50 <= item.position.y < 350
      ensures stored' == Some(Flush(stored, boards, items, currentBoard, drawingPaths))
    {
      item := Item(id, TitleOrUntitled(data.title), data.url, data.favicon, now, currentBoard,
                   Position(dx + 50, dy + 50));
      items := items[id := item];
      var saved := SaveData(stored);
      stored' := Some(saved);
    }

    /** `showAddItemDialog`: a cancelled or empty url adds nothing. */
    method ShowAddItemDialog(url: Option<string>, title: Option<string>, id: string, now: int,
                             dx: int, dy: int, stored: Store)
      returns (stored': Store)
      requires 0 <= dx < 400 && 0 <= dy < 300
      modifies this`items
      ensures !Given(url) ==> items == old(items) && stored' == stored
      ensures Given(url) ==>
        && items == old(items)[id := Item(id, TitleOrUntitled(title), url.value, None, now, currentBoard,
                                          Position(dx + 50, dy + 50))]
        && stored' == Some(Flush(stored, boards, items, currentBoard, drawingPaths))
      ensures Given(url) ==> 50 <= items[id].position.x < 450 && 50 <= items[id].position.y < 350
    {
      stored' := stored;
      if Given(url) {
        var item;
        item, stored' := AddItem(ItemData(url.value, Some(TitleOrUntitled(title)), None), id, now, dx, dy, stored);
      }
    }

    /** `switchBoard`, as written: only the current board changes; the
        drawings in memory stay those of the previous board. */
    method SwitchBoard(boardId: string)
      modifies this`currentBoard
      ensures currentBoard == boardId
    {
      currentBoard := boardId;
    }

    /** `switchBoard` as evidently intended: the new board's stored drawings
        become the ones in memory, so a later save leaves every board's
        drawings as stored. */
    method SwitchBoardReloadingDrawings(boardId: string, stored: Store)
      modifies this`currentBoard, this`drawingPaths
      ensures currentBoard == boardId
      ensures drawingPaths == StoredPaths(stored, boardId)
      ensures forall b :: StoredPaths(Some(Flush(stored, boards, items, currentBoard, drawingPaths)), b)
                          == StoredPaths(stored, b)
    {
      currentBoard := boardId;
      drawingPaths := StoredPaths(stored, boardId);
      FlushOfReloadedPaths(stored, boards, items, boardId);
    }

    /** `createBoard`: a cancelled or empty name changes nothing; otherwise
        the board is added under `id` with the palette colour `colorPick`. */
    method CreateBoard(name: Option<string>, id: string, now: int, colorPick: nat, stored: Store)
      returns (stored': Store)
      requires colorPick < |EaselPalette|
      modifies this`boards
      ensures !Given(name) ==> boards == old(boards) && stored' == stored
      ensures Given(name) ==>
        boards == old(boards)[id := Board(id, name.value, now, EaselPalette[colorPick])] &&
        stored' == Some(Flush(stored, boards, items, currentBoard, drawingPaths))
    {
      stored' := stored;
      if Given(name) {
        boards := boards[id := Board(id, name.value, now, EaselPalette[colorPick])];
        var saved := SaveData(stored);
        stored' := Some(saved);
      }
    }

    /** Deletes every item on board `b`, key by key. */
    method DeleteItemsOnBoard(b: string)
      modifies this`items
      ensures items == WithoutBoard(old(items), b)
    {
      var pending := items.Keys;
      while pending != {}
        invariant pending <= old(items).Keys
        invariant items == map id | id in old(items) && (id in pending || old(items)[id].boardId != b) :: old(items)[id]
        decreases pending
      {
        var id :| id in pending;
        if items[id].boardId == b {
          items := items - {id};
        }
        pending := pending - {id};
      }
    }

    /** `deleteBoard`: the `default` board is protected; an unknown id makes
        the name lookup throw before anything changes; otherwise, once
        confirmed, the board and exactly its items go, and the active board
        falls back to `default` if it was the one deleted. `threw` reports the
        failed lookup of an unknown id. */
    method DeleteBoard(boardId: string, confirmed: bool, stored: Store) returns (threw: bool, stored': Store)
      modifies this`items, this`boards, this`currentBoard
      ensures threw <==> boardId != DefaultBoardId && boardId !in old(boards)
      ensures boardId == DefaultBoardId || boardId !in old(boards) || !confirmed ==>
        items == old(items) && boards == old(boards) && currentBoard == old(currentBoard) && stored' == stored
      ensures boardId != DefaultBoardId && boardId in old(boards) && confirmed ==>
        && items == WithoutBoard(old(items), boardId)
        && boards == old(boards) - {boardId}
        && currentBoard == (if old(currentBoard) == boardId then DefaultBoardId else old(currentBoard))
        && stored' == Some(Flush(stored, boards, items, currentBoard, drawingPaths))
      ensures DefaultBoardId in old(boards) ==> DefaultBoardId in boards
      ensures ItemsReferenceBoards(old(items), old(boards)) ==> ItemsReferenceBoards(items, boards)
    {
      threw, stored' := false, stored;
      if boardId == DefaultBoardId {
        return;
      }
      if boardId !in boards {
        threw := true;
        return;
      }
      if confirmed {
        if ItemsReferenceBoards(items, boards) {
          CascadeKeepsReferences(items, boards, boardId);
        }
        DeleteItemsOnBoard(boardId);
        boards := boards - {boardId};
        if currentBoard == boardId {
          currentBoard := DefaultBoardId;
        }
        var saved := SaveData(stored);
        stored' := Some(saved);
      }
    }

    /** `clearBoard`: once confirmed, removes exactly the current board's
        items; boards are untouched. */
    method ClearBoard(confirmed: bool, stored: Store) returns (stored': Store)
      modifies this`items
      ensures items == if confirmed then WithoutBoard(old(items), currentBoard) else old(items)
      ensures stored' == if confirmed then Some(Flush(stored, boards, items, currentBoard, drawingPaths)) else stored
    {
      stored' := stored;
      if confirmed {
        DeleteItemsOnBoard(currentBoard);
        var saved := SaveData(stored);
        stored' := Some(saved);
      }
    }

    /** `handleSearch`: the query the board view filters by. */
    method HandleSearch(query: string)
      modifies this`searchQuery
      ensures searchQuery == query
    {
      searchQuery := query;
    }

    /* ---- Click versus drag ---- */

    /** `handleItemMouseDown`: a press on an action button is ignored;
        otherwise the item is pressed but not yet dragged. `targetLeft` and
        `targetTop` are the corner of the element under the pointer. */
    method HandleItemMouseDown(item: Item, onActionButton: bool, clientX: int, clientY: int,
                               targetLeft: int, targetTop: int, now: int)
      requires DragValid()
      modifies this`isDragging, this`dragStartTime, this`dragStartPos, this`selectedItem,
               this`dragOffset, this`itemElement
      ensures DragValid()
      ensures onActionButton ==>
        isDragging == old(isDragging) && selectedItem == old(selectedItem) &&
        itemElement == old(itemElement) && dragStartPos == old(dragStartPos) &&
        dragStartTime == old(dragStartTime) && dragOffset == old(dragOffset)
      ensures !onActionButton ==>
        && !isDragging
        && dragStartTime == now
        && dragStartPos == Position(clientX, clientY)
        && selectedItem == Some(item)
        && dragOffset == Position(clientX - targetLeft, clientY - targetTop)
        && itemElement == Some(item.position)
    {
      if onActionButton {
        return;
      }
      isDragging := false;
      dragStartTime := now;
      dragStartPos := Position(clientX, clientY);
      selectedItem := Some(item);
      dragOffset := Position(clientX - targetLeft, clientY - targetTop);
      itemElement := Some(item.position);
    }

    /** `handleCanvasMouseMove`: a press turns into a drag once the pointer is
        more than `DragThreshold` pixels from where it went down, and stays a
        drag; while dragging, the element follows the pointer, kept at
        non-negative coordinates. Items and storage are not touched. */
    method HandleCanvasMouseMove(clientX: int, clientY: int, canvasLeft: int, canvasTop: int,
                                 scrollLeft: int, scrollTop: int)
      requires DragValid()
      modifies this`isDragging, this`itemElement
      ensures DragValid()
      ensures selectedItem.None? ==> !isDragging && itemElement == old(itemElement)
      ensures selectedItem.Some? ==>
        isDragging == (old(isDragging) || Dist2(Position(clientX, clientY), dragStartPos) > DragThreshold * DragThreshold)
      ensures !isDragging ==> itemElement == old(itemElement)
      ensures isDragging ==> itemElement == Some(Position(
        Max0(clientX - canvasLeft - dragOffset.x + scrollLeft),
        Max0(clientY - canvasTop - dragOffset.y + scrollTop)))
      ensures isDragging ==> itemElement.value.x >= 0 && itemElement.value.y >= 0
    {
      if selectedItem.None? {
        return;
      }
      if Dist2(Position(clientX, clientY), dragStartPos) > DragThreshold * DragThreshold && !isDragging {
        isDragging := true;
      }
      if !isDragging {
        return;
      }
      var x := clientX - canvasLeft - dragOffset.x + scrollLeft;
      var y := clientY - canvasTop - dragOffset.y + scrollTop;
      if itemElement.Some? {
        itemElement := Some(Position(Max0(x), Max0(y)));
      }
    }

    /** `handleCanvasMouseUp`: after a drag the displayed position is written
        to the item and saved; after a plain click no position changes. The
        pointer state is then cleared. If the dragged item was deleted
        meanwhile, the item lookup throws and nothing changes (`completed` is
        false). */
    method HandleCanvasMouseUp(stored: Store) returns (wasDragging: bool, completed: bool, stored': Store)
      requires DragValid()
      modifies this`items, this`isDragging, this`selectedItem, this`itemElement
      ensures DragValid()
      ensures wasDragging == (old(selectedItem).Some? && old(isDragging))
      ensures completed <==> !(wasDragging && old(selectedItem).value.id !in old(items))
      ensures !completed ==>
        items == old(items) && isDragging == old(isDragging) && selectedItem == old(selectedItem) &&
        itemElement == old(itemElement) && stored' == stored
      ensures completed ==> !isDragging && selectedItem.None? && itemElement.None?
      ensures completed && wasDragging ==>
        var id := old(selectedItem).value.id;
        items == old(items)[id := old(items)[id].(position := old(itemElement).value)] &&
        stored' == Some(Flush(stored, boards, items, currentBoard, drawingPaths))
      ensures !wasDragging ==> items == old(items) && stored' == stored
    {
      stored' := stored;
      wasDragging := false;
      completed := true;
      if selectedItem.None? {
        return;
      }
      wasDragging := isDragging;
      if isDragging && itemElement.Some? {
        var id := selectedItem.value.id;
        if id !in items {
          completed := false;
          return;
        }
        items := items[id := items[id].(position := itemElement.value)];
        var saved := SaveData(stored);
        stored' := Some(saved);
      }
      isDragging := false;
      selectedItem := None;
      itemElement := None;
    }
  }

  /** The stale-drawings defect of `switchBoard`, on a concrete document: a
      single stroke stored for `default`, none for board "r". After loading,
      switching to "r" and saving, board "r" has `default`'s stroke. */
  method StaleDrawingsAfterSwitch() returns (saved: Doc)
    ensures StoredPaths(Some(saved), "r") == StoredPaths(Some(saved), DefaultBoardId) != []
  {
    var stroke := [DrawingPoint(10, 10, "pen", "#3b82f6"), DrawingPoint(20, 20, "pen", "#3b82f6")];
    var stored := Some(Doc(Some(map[DefaultBoardId := DefaultBoard(0)]), Some(map[]),
                           Some(map[DefaultBoardId := [stroke]])));
    var easel := new ArcEasel();
    var _ := easel.LoadData(stored, 0);
    easel.SwitchBoard("r");
    saved := easel.SaveData(stored);
  }

  /** The same steps with the corrected switch leave board "r" without
      strokes, as stored. */
  method NoStaleDrawingsAfterReloadingSwitch() returns (saved: Doc)
    ensures StoredPaths(Some(saved), "r") == [] && StoredPaths(Some(saved), DefaultBoardId) != []
  {
    var stroke := [DrawingPoint(10, 10, "pen", "#3b82f6"), DrawingPoint(20, 20, "pen", "#3b82f6")];
    var stored := Some(Doc(Some(map[DefaultBoardId := DefaultBoard(0)]), Some(map[]),
                           Some(map[DefaultBoardId := [stroke]])));
    var easel := new ArcEasel();
    var _ := easel.LoadData(stored, 0);
    easel.SwitchBoardReloadingDrawings("r", stored);
    saved := easel.SaveData(stored);
  }
}
