/** The toolbar popup: it reads and writes the stored `easelData` document
    directly, adding tabs as items on the `default` board, creating boards,
    counting both and listing the newest items. */
module Popup {
  import opened EaselTypes
  import opened Text

  /** Colours a board created from the popup may get. */
  const PopupPalette: seq<string> := ["#667eea", "#764ba2", "#f093fb", "#f5576c", "#4facfe", "#00f2fe"]

  /** How many items the recent list shows, and how long a shown title may be. */
  const RecentCount: nat := 3
  const TitleLimit: nat := 25

  /** Tabs added together are laid out on a grid of this many columns. */
  const GridColumns: nat := 4

  /** The metadata the browser reports for a tab. */
  datatype Tab = Tab(title: Option<string>, url: string, favIconUrl: Option<string>)

  datatype Stats = Stats(totalItems: nat, totalBoards: nat)

  /** `data.easelData || { boards: {}, items: {} }`. */
  function DocOr(stored: Store): Doc
  {
    if stored.Some? then stored.value else Doc(Some(map[]), Some(map[]), None)
  }

  /** The popup can write the document: writing into a missing `items` or
      `boards` map throws instead. */
  predicate Writable(stored: Store)
  {
    DocOr(stored).items.Some? && DocOr(stored).boards.Some?
  }

  /** `boards` with a `default` board added when it has none; an existing one
      is kept as it is. */
  function WithDefault(boards: map<string, Board>, now: int): (r: map<string, Board>)
    ensures DefaultBoardId in r
    ensures DefaultBoardId in boards ==> r == boards
    ensures r.Keys == boards.Keys + {DefaultBoardId}
    ensures forall id :: id in boards ==> r[id] == boards[id]
  {
    if DefaultBoardId in boards then boards else boards[DefaultBoardId := DefaultBoard(now)]
  }

  /** `loadStats`: the number of items and of boards, or nothing when a map
      is missing and counting its keys throws. */
  function LoadStats(stored: Store): (r: Option<Stats>)
    ensures r.Some? <==> Writable(stored)
    ensures stored.None? ==> r == Some(Stats(0, 0))
    ensures r.Some? ==> r.value == Stats(|DocOr(stored).items.value|, |DocOr(stored).boards.value|)
  {
    var d := DocOr(stored);
    if d.items.Some? && d.boards.Some? then Some(Stats(|d.items.value|, |d.boards.value|)) else None
  }

  /** `saveItem`: stores `item` under its id, keeping every other item, and
      makes sure a `default` board exists. `ok` is false when the document
      lacks a map and the write throws; then nothing is stored. */
  method SaveItem(stored: Store, item: Item, now: int) returns (ok: bool, stored': Store)
    ensures ok <==> Writable(stored)
    ensures !ok ==> stored' == stored
    ensures ok ==> stored' == Some(DocOr(stored).(
      items := Some(DocOr(stored).items.value[item.id := item]),
      boards := Some(WithDefault(DocOr(stored).boards.value, now))))
    ensures ok ==> Writable(stored') && DefaultBoardId in DocOr(stored').boards.value
    ensures ok && item.id !in DocOr(stored).items.value ==>
      LoadStats(stored').value.totalItems == LoadStats(stored).value.totalItems + 1
  {
    var easelData := DocOr(stored);
    if easelData.items.None? {
      return false, stored;
    }
    easelData := easelData.(items := Some(easelData.items.value[item.id := item]));
    if easelData.boards.None? {
      return false, stored;
    }
    if DefaultBoardId !in easelData.boards.value {
      easelData := easelData.(boards := Some(easelData.boards.value[DefaultBoardId := DefaultBoard(now)]));
    }
    ok, stored' := true, Some(easelData);
  }

  /** `saveBoard`: stores `board` under its id; other boards and all items
      are kept. */
  method SaveBoard(stored: Store, board: Board) returns (ok: bool, stored': Store)
    ensures ok <==> DocOr(stored).boards.Some?
    ensures !ok ==> stored' == stored
    ensures ok ==> stored' == Some(DocOr(stored).(boards := Some(DocOr(stored).boards.value[board.id := board])))
    ensures ok && Writable(stored) && board.id !in DocOr(stored).boards.value ==>
      LoadStats(stored') == Some(Stats(LoadStats(stored).value.totalItems, LoadStats(stored).value.totalBoards + 1))
  {
    var easelData := DocOr(stored);
    if easelData.boards.None? {
      return false, stored;
    }
    easelData := easelData.(boards := Some(easelData.boards.value[board.id := board]));
    ok, stored' := true, Some(easelData);
  }

  /** `createBoard`: a cancelled or empty name changes nothing; otherwise the
      board is saved under `id` with the palette colour `colorPick`. */
  method CreateBoard(name: Option<string>, id: string, now: int, colorPick: nat, stored: Store)
    returns (created: bool, stored': Store)
    requires colorPick < |PopupPalette|
    ensures created <==> Given(name) && DocOr(stored).boards.Some?
    ensures !created ==> stored' == stored
    ensures created ==>
      stored' == Some(DocOr(stored).(boards := Some(DocOr(stored).boards.value[id := Board(id, name.value, now, PopupPalette[colorPick])])))
  {
    if !Given(name) {
      return false, stored;
    }
    created, stored' := SaveBoard(stored, Board(id, name.value, now, PopupPalette[colorPick]));
  }

  /* ---- Adding tabs ---- */

  /** Where the `i`-th of several tabs added together is placed. */
  function GridPosition(i: nat): Position
  {
    Position((i % GridColumns) * 200 + 50, (i / GridColumns) * 150 + 50)
  }

  /** Grid positions lie in one of four columns and on rows 150 px apart. */
  lemma GridPositionColumns(i: nat)
    ensures GridPosition(i).x in {50, 250, 450, 650}
    ensures GridPosition(i).y >= 50 && (GridPosition(i).y - 50) % 150 == 0
  {
  }

  /** No two tabs added together are placed at the same spot. */
  lemma GridPositionInjective(i: nat, j: nat)
    requires i != j
    ensures GridPosition(i) != GridPosition(j)
  {
  }

  /** The item `addAllTabs` builds for the `i`-th tab. */
  function TabItem(tab: Tab, id: string, now: int, i: nat): Item
  {
    Item(id, TitleOrUntitled(tab.title), tab.url, tab.favIconUrl, now, DefaultBoardId, GridPosition(i))
  }

  /** `items` after storing each of `s` under its id, first to last. */
  function Inserted(items: map<string, Item>, s: seq<Item>): map<string, Item>
  {
    if s == [] then items else Inserted(items, s[..|s| - 1])[s[|s| - 1].id := s[|s| - 1]]
  }

  /** The ids of the items in `s`. */
  function IdsOf(s: seq<Item>): set<string>
  {
    set x | x in s :: x.id
  }

  /** The inserts add exactly the ids of `s` to the keys. */
  lemma {:induction false} InsertedKeys(items: map<string, Item>, s: seq<Item>)
    ensures Inserted(items, s).Keys == items.Keys + IdsOf(s)
  {
    if s != [] {
      var init := s[..|s| - 1];
      InsertedKeys(items, init);
      assert s == init + [s[|s| - 1]];
      assert IdsOf(s) == IdsOf(init) + {s[|s| - 1].id};
    }
  }

  /** A key that no item of `s` uses keeps its item. */
  lemma {:induction false} InsertedKeepsOthers(items: map<string, Item>, s: seq<Item>, id: string)
    requires id in items && id !in IdsOf(s)
    ensures id in Inserted(items, s) && Inserted(items, s)[id] == items[id]
  {
    if s != [] {
      var init := s[..|s| - 1];
      assert s == init + [s[|s| - 1]];
      assert IdsOf(init) <= IdsOf(s);
      InsertedKeepsOthers(items, init, id);
    }
  }

  /** Distinct ids: each item of `s` ends up stored under its id. */
  lemma {:induction false} InsertedStoresEach(items: map<string, Item>, s: seq<Item>, j: nat)
    requires forall a, b :: 0 <= a < b < |s| ==> s[a].id != s[b].id
    requires j < |s|
    ensures s[j].id in Inserted(items, s) && Inserted(items, s)[s[j].id] == s[j]
  {
    var last := |s| - 1;
    if j < last {
      InsertedStoresEach(items, s[..last], j);
    }
  }

  /** The items `addAllTabs` builds: one per tab, in tab order. */
  method BuildTabItems(tabs: seq<Tab>, ids: seq<string>, now: int) returns (built: seq<Item>)
    requires |ids| == |tabs|
    ensures |built| == |tabs|
    ensures forall i :: 0 <= i < |tabs| ==> built[i] == TabItem(tabs[i], ids[i], now, i)
    ensures forall i :: 0 <= i < |tabs| ==>
      && built[i].id == ids[i]
      && built[i].boardId == DefaultBoardId
      && built[i].title == TitleOrUntitled(tabs[i].title)
      && built[i].url == tabs[i].url
      && built[i].favicon == tabs[i].favIconUrl
      && built[i].position == GridPosition(i)
  {
    built := [];
    var i := 0;
    while i < |tabs|
      invariant 0 <= i <= |tabs|
      invariant |built| == i
      invariant forall j :: 0 <= j < i ==> built[j] == TabItem(tabs[j], ids[j], now, j)
    {
      built := built + [TabItem(tabs[i], ids[i], now, i)];
      i := i + 1;
    }
  }

  /** The document after `saveItem` succeeded for each of `s`, in order. */
  ghost predicate SavedAll(stored: Store, s: seq<Item>, now: int, stored': Store)
  {
    && Writable(stored)
    && stored' == Some(DocOr(stored).(
         items := Some(Inserted(DocOr(stored).items.value, s)),
         boards := Some(WithDefault(DocOr(stored).boards.value, now))))
  }

  /** One more successful `saveItem` extends the saved prefix by one item. */
  lemma SavedAllStep(stored: Store, s: seq<Item>, k: nat, now: int, before: Store, after: Store)
    requires k < |s| && SavedAll(stored, s[..k], now, before)
    requires after == Some(DocOr(before).(
      items := Some(DocOr(before).items.value[s[k].id := s[k]]),
      boards := Some(WithDefault(DocOr(before).boards.value, now))))
    ensures SavedAll(stored, s[..k + 1], now, after)
  {
    assert s[..k + 1][..k] == s[..k];
  }

  /** Saves the items one by one, stopping at the first write that throws.
      Only the first write can throw, so either every item is saved or
      nothing is. */
  method SaveItems(s: seq<Item>, now: int, stored: Store) returns (allSaved: bool, stored': Store)
    ensures allSaved <==> |s| == 0 || Writable(stored)
    ensures !allSaved || |s| == 0 ==> stored' == stored
    ensures allSaved && |s| > 0 ==> SavedAll(stored, s, now, stored')
  {
    stored' := stored;
    allSaved := true;
    var k := 0;
    while k < |s| && allSaved
      invariant 0 <= k <= |s|
      invariant allSaved && k == 0 ==> stored' == stored
      invariant allSaved && k > 0 ==> Writable(stored) && SavedAll(stored, s[..k], now, stored')
      invariant !allSaved ==> k == 0 < |s| && stored' == stored && !Writable(stored)
      decreases |s| - k, allSaved
    {
      var ok, next := SaveItem(stored', s[k], now);
      if ok {
        if k > 0 {
          SavedAllStep(stored, s, k, now, stored', next);
        }
        stored' := next;
        k := k + 1;
      } else {
        allSaved := false;
      }
    }
    assert s[..|s|] == s;
  }

  /** `addAllTabs`: builds one item per tab, on the `default` board at grid
      position `i`, then saves them; `ids` are the generated ids. */
  method AddAllTabs(tabs: seq<Tab>, ids: seq<string>, now: int, stored: Store)
    returns (built: seq<Item>, allSaved: bool, stored': Store)
    requires |ids| == |tabs|
    ensures |built| == |tabs|
    ensures forall i :: 0 <= i < |tabs| ==> built[i] == TabItem(tabs[i], ids[i], now, i)
    ensures allSaved <==> |tabs| == 0 || Writable(stored)
    ensures !allSaved || |tabs| == 0 ==> stored' == stored
    ensures allSaved && |tabs| > 0 ==> SavedAll(stored, built, now, stored')
  {
    built := BuildTabItems(tabs, ids, now);
    allSaved, stored' := SaveItems(built, now, stored);
  }

  /** `addCurrentTab`: the active tab, if any, becomes an item on the
      `default` board at a random spot (`dx`, `dy`) and is saved. */
  method AddCurrentTab(tab: Option<Tab>, id: string, now: int, dx: int, dy: int, stored: Store)
    returns (saved: bool, stored': Store)
    requires 0 <= dx < 300 && 0 <= dy < 200
    ensures saved <==> tab.Some? && Writable(stored)
    ensures !saved ==> stored' == stored
    ensures saved ==> Writable(stored')
    ensures saved ==> stored' == Some(DocOr(stored).(
      items := Some(DocOr(stored).items.value[id := Item(id, TitleOrUntitled(tab.value.title), tab.value.url,
                                                         tab.value.favIconUrl, now, DefaultBoardId, Position(dx, dy))]),
      boards := Some(WithDefault(DocOr(stored).boards.value, now))))
    ensures saved ==> DefaultBoardId in DocOr(stored').boards.value
  {
    if tab.None? {
      return false, stored;
    }
    var item := Item(id, TitleOrUntitled(tab.value.title), tab.value.url, tab.value.favIconUrl, now,
                     DefaultBoardId, Position(dx, dy));
    saved, stored' := SaveItem(stored, item, now);
  }

  /* ---- The recent list ---- */

  /** Newest first by `createdAt`. */
  ghost predicate NewestFirst(s: seq<Item>)
  {
    forall i, j :: 0 <= i < j < |s| ==> s[i].createdAt >= s[j].createdAt
  }

  /** No item of `s` is newer than `t`. */
  ghost predicate NoneNewerThan(s: seq<Item>, t: int)
  {
    forall i :: 0 <= i < |s| ==> s[i].createdAt <= t
  }

  /** Being no newer than `t` depends only on which items there are. */
  lemma NoneNewerThanPermutation(a: seq<Item>, b: seq<Item>, t: int)
    requires multiset(a) == multiset(b) && NoneNewerThan(a, t)
    ensures NoneNewerThan(b, t)
  {
    forall i | 0 <= i < |b|
      ensures b[i].createdAt <= t
    {
      assert b[i] in multiset(a);
      var j :| 0 <= j < |a| && a[j] == b[i];
    }
  }

  /** Inserts `x` before the first item that is not newer, so equal
      timestamps keep their order. */
  function InsertByAge(x: Item, s: seq<Item>): (r: seq<Item>)
    requires NewestFirst(s)
    ensures NewestFirst(r)
    ensures multiset(r) == multiset(s) + multiset{x}
  {
    if s == [] || x.createdAt >= s[0].createdAt then [x] + s
    else
      var rest := InsertByAge(x, s[1..]);
      assert s == [s[0]] + s[1..];
      assert NoneNewerThan(s[1..] + [x], s[0].createdAt);
      NoneNewerThanPermutation(s[1..] + [x], rest, s[0].createdAt);
      [s[0]] + rest
  }

  /** The items of `s` stamped `t`, in their order in `s`. */
  function AtTime(s: seq<Item>, t: int): seq<Item>
  {
    if s == [] then [] else (if s[0].createdAt == t then [s[0]] else []) + AtTime(s[1..], t)
  }

  /** Inserting `x` puts it ahead of every item stamped the same. */
  lemma {:induction false} InsertByAgeAtTime(x: Item, s: seq<Item>, t: int)
    requires NewestFirst(s)
    ensures AtTime(InsertByAge(x, s), t) == (if x.createdAt == t then [x] else []) + AtTime(s, t)
  {
    var r := InsertByAge(x, s);
    if s == [] || x.createdAt >= s[0].createdAt {
      assert r[1..] == s;
    } else {
      var rest := InsertByAge(x, s[1..]);
      InsertByAgeAtTime(x, s[1..], t);
      assert r[1..] == rest;
    }
  }

  /** The stable sort by `createdAt`, newest first. */
  function SortNewestFirst(s: seq<Item>): (r: seq<Item>)
    ensures NewestFirst(r)
    ensures multiset(r) == multiset(s)
  {
    if s == [] then []
    else
      assert s == [s[0]] + s[1..];
      InsertByAge(s[0], SortNewestFirst(s[1..]))
  }

  /** The sort is stable: the items sharing a timestamp keep their order. */
  lemma {:induction false} SortStable(s: seq<Item>, t: int)
    ensures AtTime(SortNewestFirst(s), t) == AtTime(s, t)
  {
    if s != [] {
      SortStable(s[1..], t);
      InsertByAgeAtTime(s[0], SortNewestFirst(s[1..]), t);
    }
  }

  /** Taking the first `n` items keeps, for each timestamp, a prefix of the
      items stamped with it. */
  lemma {:induction false} AtTimePrefix(s: seq<Item>, n: nat, t: int)
    requires n <= |s|
    ensures AtTime(s[..n], t) <= AtTime(s, t)
  {
    if n > 0 {
      AtTimePrefix(s[1..], n - 1, t);
      assert s[..n][1..] == s[1..][..n - 1];
    }
  }

  /** The first `n` items of a newest-first sequence are newest first. */
  lemma PrefixNewestFirst(sorted: seq<Item>, n: nat)
    requires NewestFirst(sorted) && n <= |sorted|
    ensures NewestFirst(sorted[..n])
  {
  }

  /** Splitting a sequence after `n` items: the first part is contained in
      it, and what remains once the first part is taken out is the rest. */
  lemma SplitMultiset(sorted: seq<Item>, n: nat)
    requires n <= |sorted|
    ensures multiset(sorted[..n]) <= multiset(sorted)
    ensures multiset(sorted) - multiset(sorted[..n]) == multiset(sorted[n..])
  {
    assert sorted == sorted[..n] + sorted[n..];
  }

  /** In a newest-first sequence nothing after the first `n` items is newer
      than the `n`-th. */
  lemma RestNoNewer(sorted: seq<Item>, n: nat)
    requires NewestFirst(sorted) && 0 < n <= |sorted|
    ensures forall x :: x in multiset(sorted[n..]) ==> x.createdAt <= sorted[n - 1].createdAt
  {
    forall x | x in multiset(sorted[n..])
      ensures x.createdAt <= sorted[n - 1].createdAt
    {
      var m :| 0 <= m < |sorted[n..]| && sorted[n..][m] == x;
      assert sorted[n + m] == x;
    }
  }

  /** `loadRecentItems`' selection from the values of the item map: at most
      three items of `values`, newest first, and none of those left out is
      newer than the last one shown. */
  function RecentItems(values: seq<Item>): (r: seq<Item>)
    ensures |r| == if |values| < RecentCount then |values| else RecentCount
    ensures multiset(r) <= multiset(values)
    ensures NewestFirst(r)
    ensures forall x :: x in multiset(values) - multiset(r) ==>
      |r| == RecentCount && x.createdAt <= r[RecentCount - 1].createdAt
    ensures forall t :: AtTime(r, t) <= AtTime(values, t)
  {
    var sorted := SortNewestFirst(values);
    var n := if |sorted| < RecentCount then |sorted| else RecentCount;
    assert |sorted| == |multiset(sorted)| == |multiset(values)| == |values|;
    PrefixNewestFirst(sorted, n);
    SplitMultiset(sorted, n);
    forall t
      ensures AtTime(sorted[..n], t) <= AtTime(values, t)
    {
      AtTimePrefix(sorted, n, t);
      SortStable(values, t);
    }
    if n == RecentCount then
      RestNoNewer(sorted, n);
      sorted[..n]
    else
      sorted[..n]
  }

  /** The values of `items` in the order `keys` lists them. */
  function ValuesInOrder(items: map<string, Item>, keys: seq<string>): (vs: seq<Item>)
    requires forall k :: k in keys ==> k in items
    ensures |vs| == |keys|
    ensures forall i :: 0 <= i < |keys| ==> vs[i] == items[keys[i]]
  {
    if keys == [] then [] else [items[keys[0]]] + ValuesInOrder(items, keys[1..])
  }

  /** `keys` lists each key of `items` exactly once, as enumerating an object
      does. */
  ghost predicate KeyOrder(items: map<string, Item>, keys: seq<string>)
  {
    && (forall k :: k in keys <==> k in items)
    && (forall i, j :: 0 <= i < j < |keys| ==> keys[i] != keys[j])
  }

  /** A duplicate-free listing of the keys is as long as the map. */
  lemma {:induction false} KeyOrderLength(items: map<string, Item>, keys: seq<string>)
    requires KeyOrder(items, keys)
    ensures |keys| == |items|
    decreases |keys|
  {
    if keys == [] {
      assert items.Keys == {};
    } else {
      var rest := items - {keys[0]};
      forall k | k in keys[1..]
        ensures k != keys[0]
      {
        var i :| 0 <= i < |keys[1..]| && keys[1..][i] == k;
        assert keys[i + 1] == k;
      }
      forall k | k in rest
        ensures k in keys[1..]
      {
        var i :| 0 <= i < |keys| && keys[i] == k;
        assert keys[1..][i - 1] == k;
      }
      KeyOrderLength(rest, keys[1..]);
    }
  }

  /** Every item of the map appears among its values listed in key order. */
  lemma ValuesCoverMap(items: map<string, Item>, keys: seq<string>)
    requires KeyOrder(items, keys)
    ensures forall k :: k in items ==> items[k] in multiset(ValuesInOrder(items, keys))
    ensures forall x :: x in multiset(ValuesInOrder(items, keys)) ==> x in items.Values
  {
    var values := ValuesInOrder(items, keys);
    forall k | k in items
      ensures items[k] in multiset(values)
    {
      var i :| 0 <= i < |keys| && keys[i] == k;
      assert values[i] == items[k];
    }
    forall x | x in multiset(values)
      ensures x in items.Values
    {
      var i :| 0 <= i < |values| && values[i] == x;
      assert items[keys[i]] == x;
    }
  }

  /** The recent list of a stored items map, in terms of the map: as many
      entries as the map allows up to three, each a stored item, and no stored
      item left out is newer than the last one shown. */
  lemma RecentOfStored(items: map<string, Item>, keys: seq<string>)
    requires KeyOrder(items, keys)
    ensures var recent := RecentItems(ValuesInOrder(items, keys));
      && |recent| == (if |items| < RecentCount then |items| else RecentCount)
      && (forall x :: x in recent ==> x in items.Values)
      && (forall k :: k in items && items[k] !in recent ==>
            |recent| == RecentCount && items[k].createdAt <= recent[RecentCount - 1].createdAt)
  {
    var values := ValuesInOrder(items, keys);
    var recent := RecentItems(values);
    KeyOrderLength(items, keys);
    ValuesCoverMap(items, keys);
    assert forall x :: x in recent ==> x in multiset(values) by {
      forall x | x in recent
        ensures x in multiset(values)
      {
        assert x in multiset(recent);
      }
    }
    assert forall k :: k in items && items[k] !in recent ==> items[k] in multiset(values) - multiset(recent);
  }

  /** `loadRecentItems`: the newest items of the stored document, listed in
      `keys` order before sorting; nothing when the `items` map is missing. */
  function LoadRecentItems(stored: Store, keys: seq<string>): (r: Option<seq<Item>>)
    requires DocOr(stored).items.Some? ==> KeyOrder(DocOr(stored).items.value, keys)
    ensures r.Some? <==> DocOr(stored).items.Some?
    ensures r.Some? ==>
      var items := DocOr(stored).items.value;
      && |r.value| == (if |items| < RecentCount then |items| else RecentCount)
      && NewestFirst(r.value)
      && multiset(r.value) <= multiset(ValuesInOrder(items, keys))
      && (forall t :: AtTime(r.value, t) <= AtTime(ValuesInOrder(items, keys), t))
      && (forall x :: x in r.value ==> x in items.Values)
      && (forall k :: k in items && items[k] !in r.value ==>
            |r.value| == RecentCount && items[k].createdAt <= r.value[RecentCount - 1].createdAt)
  {
    var d := DocOr(stored);
    if d.items.None? then None
    else
      RecentOfStored(d.items.value, keys);
      Some(RecentItems(ValuesInOrder(d.items.value, keys)))
  }

  /** The title shown in the recent list. */
  function DisplayTitle(title: string): (shown: string)
    ensures |title| <= TitleLimit ==> shown == title
    ensures |title| > TitleLimit ==> |shown| == TitleLimit + 3 && shown[..TitleLimit] == title[..TitleLimit] && shown[TitleLimit..] == "..."
  {
    Ellipsize(title, TitleLimit)
  }
}
