/** Values shared by the board page and the popup: items, boards and the
    single `easelData` document kept in the browser's local storage. */
module EaselTypes {

  datatype Option<+T> = None | Some(value: T)

  /** Pixel coordinates on the board canvas (integers; see README). */
  datatype Position = Position(x: int, y: int)

  /** A saved web page placed on one board. `createdAt` is a timestamp in
      milliseconds; `favicon` is absent when none was found. */
  datatype Item = Item(
    id: string,
    title: string,
    url: string,
    favicon: Option<string>,
    createdAt: int,
    boardId: string,
    position: Position)

  datatype Board = Board(id: string, name: string, createdAt: int, color: string)

  /** One point of a freehand stroke; strokes are stored and reloaded verbatim. */
  datatype DrawingPoint = DrawingPoint(x: int, y: int, tool: string, color: string)
  type DrawingPath = seq<DrawingPoint>

  /** The stored `easelData` object. Each top-level key may be missing: older
      documents and the popup's fallback document lack `drawings`, and the
      board page's fallback lacks `boards` and `items`. */
  datatype Doc = Doc(
    boards: Option<map<string, Board>>,
    items: Option<map<string, Item>>,
    drawings: Option<map<string, seq<DrawingPath>>>)

  /** What `chrome.storage.local.get(['easelData'])` yields: nothing on a fresh
      profile, or the document. */
  type Store = Option<Doc>

  const DefaultBoardId: string := "default"
  const Untitled: string := "Untitled"

  /** The board both pages create when the document has no `default` board. */
  function DefaultBoard(now: int): (b: Board)
    ensures b.id == DefaultBoardId && b.name == "Default Board"
  {
    Board(DefaultBoardId, "Default Board", now, "#667eea")
  }

  /** `title || 'Untitled'`: a missing or empty title becomes "Untitled". */
  function TitleOrUntitled(title: Option<string>): (t: string)
    ensures t != ""
    ensures title.Some? && title.value != "" ==> t == title.value
    ensures title.None? || title.value == "" ==> t == Untitled
  {
    if title.Some? && title.value != "" then title.value else Untitled
  }

  /** `name` from a prompt is usable exactly when it is present and non-empty. */
  predicate Given(name: Option<string>)
  {
    name.Some? && name.value != ""
  }
}
