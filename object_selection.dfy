/** The object selection window's filtering and list logic: the filter flag word, the
    filter predicates over repository items, the per-type match counts, the visible list
    (filter, sort, reverse) and the handlers that edit the flags, the sort column and the
    page. Drawing, tooltips, sounds, intents and configuration saving are not modelled. */
module ObjectSelection {
  import opened GameActions

  // ---------------------------------------------------------------------------
  // Constants

  /** The filter flag bits: source games (bits 0-7), ride categories (bits 8-13) and the
      selection filters (bits 14-15). */
  const FILTER_RCT1: bv32 := 0x0001
  const FILTER_AA: bv32 := 0x0002
  const FILTER_LL: bv32 := 0x0004
  const FILTER_RCT2: bv32 := 0x0008
  const FILTER_WW: bv32 := 0x0010
  const FILTER_TT: bv32 := 0x0020
  const FILTER_OO: bv32 := 0x0040
  const FILTER_CUSTOM: bv32 := 0x0080
  const FILTER_RIDES: bv32 := 0x3F00
  const FILTER_SELECTED: bv32 := 0x4000
  const FILTER_NONSELECTED: bv32 := 0x8000
  const FILTER_ALL: bv32 := 0xFFFF

  const NUM_SOURCE_GAME_ITEMS: int := 8

  /** Widget indices of the window. */
  const WIDX_INSTALL_TRACK: int := 7
  const WIDX_FILTER_DROPDOWN: int := 8
  const WIDX_FILTER_CLEAR_BUTTON: int := 10
  const WIDX_FILTER_RIDE_TAB_ALL: int := 12
  const WIDX_FILTER_RIDE_TAB_TRANSPORT: int := 13
  const WIDX_FILTER_RIDE_TAB_STALL: int := 18
  const WIDX_LIST_SORT_TYPE: int := 19
  const WIDX_LIST_SORT_RIDE: int := 20
  const WIDX_TAB_1: int := 21

  /** Dropdown entries of the filter dropdown. */
  const DDIX_FILTER_SELECTED: int := 9
  const DDIX_FILTER_NONSELECTED: int := 10

  /** The number of object pages (tabs). */
  const PAGE_COUNT: int := 10

  const RIDE_SORT_TYPE: int := 0
  const RIDE_SORT_RIDE: int := 1

  /** ObjectType ordinals used here, and the size of the count table. */
  const OBJECT_TYPE_RIDE: int := 0
  const OBJECT_TYPE_SCENARIO_TEXT: int := 10
  const OBJECT_TYPE_COUNT: int := 18

  const RIDE_TYPE_NULL: int := 255

  /** Row height of the scroll list; defined in a header that is not part of this model. */
  const SCROLLABLE_ROW_HEIGHT: int := 12

  /** uint16 wrap-around of the count table. */
  const UINT16_RANGE: int := 0x1_0000

  // ---------------------------------------------------------------------------
  // Data

  newtype byte = b: int | 0 <= b < 256

  newtype ObjectTypeId = t: int | 0 <= t < 18

  /** A ride type descriptor's category (transport, gentle, coaster, thrill, water, stall). */
  newtype RideCategory = c: int | 0 <= c < 6

  /** The game an object comes from (ObjectSourceGame); `OtherSource` covers every source
      outside the seven named games. */
  datatype SourceGame =
    | RCT1 | AddedAttractions | LoopyLandscapes | RCT2 | WackyWorlds | TimeTwister | OpenRCT2Official
    | OtherSource(id: int)

  /** What the window needs of an object selection flag byte. */
  datatype SelectionFlags = SelectionFlags(selected: bool, flag6: bool)

  /** A repository item: its type, name, file path, the localised name of its first ride
      type, its source games and its ride types (RIDE_TYPE_NULL for an empty slot). */
  datatype ObjectItem = ObjectItem(
    objectType: ObjectTypeId, name: seq<byte>, path: seq<byte>, rideTypeName: seq<byte>,
    sources: seq<SourceGame>, rideTypes: seq<int>)

  /** The object repository with the session's selection flags, one per item, and the
      category of each ride type descriptor. */
  datatype Repository = Repository(items: seq<ObjectItem>, selection: seq<SelectionFlags>, category: int -> RideCategory)

  predicate WellFormed(repo: Repository)
  {
    |repo.selection| == |repo.items|
  }

  /** A row of the visible list: the repository position and the item. */
  datatype ListItem = ListItem(index: nat, item: ObjectItem)

  /** The filter state: the flag word and the search text (without its terminator). */
  datatype Filters = Filters(flags: bv32, text: seq<byte>)

  predicate Has(flags: bv32, bit: bv32)
  {
    flags & bit != 0
  }

  /** The filter bit of a ride category (bit 8 + category). */
  function CategoryBit(c: RideCategory): bv32
  {
    if c == 0 then 0x0100
    else if c == 1 then 0x0200
    else if c == 2 then 0x0400
    else if c == 3 then 0x0800
    else if c == 4 then 0x1000
    else 0x2000
  }

  // ---------------------------------------------------------------------------
  // Filter predicates

  /** FilterSelected: with both or neither selection filter on every object passes;
      otherwise only selected objects pass SELECTED and only unselected ones pass
      NONSELECTED. */
  predicate FilterSelected(flags: bv32, sel: SelectionFlags)
    ensures Has(flags, FILTER_SELECTED) == Has(flags, FILTER_NONSELECTED) ==> FilterSelected(flags, sel)
    ensures Has(flags, FILTER_SELECTED) != Has(flags, FILTER_NONSELECTED) ==>
      (FilterSelected(flags, sel) <==> sel.selected == Has(flags, FILTER_SELECTED))
  {
    if Has(flags, FILTER_SELECTED) == Has(flags, FILTER_NONSELECTED) then true
    else if Has(flags, FILTER_SELECTED) && sel.selected then true
    else Has(flags, FILTER_NONSELECTED) && !sel.selected
  }

  /** The filter bit that enables a source game; every other source answers to CUSTOM. */
  function SourceBit(s: SourceGame): bv32
  {
    match s
    case RCT1 => FILTER_RCT1
    case AddedAttractions => FILTER_AA
    case LoopyLandscapes => FILTER_LL
    case RCT2 => FILTER_RCT2
    case WackyWorlds => FILTER_WW
    case TimeTwister => FILTER_TT
    case OpenRCT2Official => FILTER_OO
    case OtherSource(_) => FILTER_CUSTOM
  }

  /** SourcesMatch: a source passes when the filter bit for its game is on, CUSTOM
      standing for every source outside the seven named games. */
  predicate SourcesMatch(flags: bv32, s: SourceGame)
    ensures SourcesMatch(flags, s) <==> Has(flags, SourceBit(s))
  {
    (Has(flags, FILTER_RCT1) && s == RCT1)
    || (Has(flags, FILTER_AA) && s == AddedAttractions)
    || (Has(flags, FILTER_LL) && s == LoopyLandscapes)
    || (Has(flags, FILTER_RCT2) && s == RCT2)
    || (Has(flags, FILTER_WW) && s == WackyWorlds)
    || (Has(flags, FILTER_TT) && s == TimeTwister)
    || (Has(flags, FILTER_OO) && s == OpenRCT2Official)
    || (Has(flags, FILTER_CUSTOM) && s.OtherSource?)
  }

  /** What FilterSource decides for an item. */
  predicate SourcePasses(flags: bv32, item: ObjectItem)
  {
    flags & FILTER_ALL == FILTER_ALL || exists k :: 0 <= k < |item.sources| && SourcesMatch(flags, item.sources[k])
  }

  /** FilterSource: every item passes when all filter bits are on; otherwise an item
      passes when one of its sources matches. */
  method FilterSource(flags: bv32, item: ObjectItem) returns (r: bool)
    ensures r <==> flags & FILTER_ALL == FILTER_ALL
                   || exists k :: 0 <= k < |item.sources| && Has(flags, SourceBit(item.sources[k]))
    ensures r == SourcePasses(flags, item)
  {
    if flags & FILTER_ALL == FILTER_ALL {
      return true;
    }
    var k := 0;
    while k < |item.sources|
      invariant 0 <= k <= |item.sources|
      invariant forall j :: 0 <= j < k ==> !SourcesMatch(flags, item.sources[j])
    {
      if SourcesMatch(flags, item.sources[k]) {
        return true;
      }
      k := k + 1;
    }
    return false;
  }

  /** ASCII upper-casing of one byte. */
  function Upper(b: byte): (r: byte)
    ensures 97 <= b <= 122 ==> r == b - 32
    ensures !(97 <= b <= 122) ==> r == b
  {
    if 97 <= b <= 122 then b - 32 else b
  }

  function ToUpper(s: seq<byte>): (r: seq<byte>)
    ensures |r| == |s| && forall i :: 0 <= i < |s| ==> r[i] == Upper(s[i])
  {
    seq(|s|, i requires 0 <= i < |s| => Upper(s[i]))
  }

  /** std::string::find succeeding: needle occurs in hay. */
  predicate Contains(hay: seq<byte>, needle: seq<byte>)
  {
    exists k :: 0 <= k <= |hay| - |needle| && OccursAt(hay, needle, k)
  }

  predicate OccursAt(hay: seq<byte>, needle: seq<byte>, k: int)
  {
    0 <= k <= |hay| - |needle| && hay[k..k + |needle|] == needle
  }

  /** FilterString: an empty search passes everything and an unnamed object fails any
      other search; otherwise the upper-cased search must occur in the upper-cased name,
      path or, for a ride, ride type name. */
  predicate FilterString(text: seq<byte>, item: ObjectItem): (ok: bool)
    ensures |text| == 0 ==> ok
    ensures |text| > 0 && |item.name| == 0 ==> !ok
    ensures ok && |text| > 0 ==> |text| <= |item.name| || |text| <= |item.rideTypeName| || |text| <= |item.path|
  {
    if |text| == 0 then true
    else if |item.name| == 0 then false
    else
      var f := ToUpper(text);
      Contains(ToUpper(item.name), f)
      || (item.objectType as int == OBJECT_TYPE_RIDE && Contains(ToUpper(item.rideTypeName), f))
      || Contains(ToUpper(item.path), f)
  }

  /** Upper-casing a slice is the slice of the upper-cased sequence. */
  lemma {:induction false} ToUpperSlice(s: seq<byte>, k: int, n: int)
    requires 0 <= k <= k + n <= |s|
    ensures ToUpper(s)[k..k + n] == ToUpper(s[k..k + n])
  {
  }

  lemma {:induction false} ContainsUpper(hay: seq<byte>, needle: seq<byte>)
    requires Contains(hay, needle)
    ensures Contains(ToUpper(hay), ToUpper(needle))
  {
    var k :| 0 <= k <= |hay| - |needle| && OccursAt(hay, needle, k);
    ToUpperSlice(hay, k, |needle|);
    assert OccursAt(ToUpper(hay), ToUpper(needle), k);
  }

  /** The search is case-insensitive: two searches that differ only in ASCII case select
      the same objects, and a search text occurring in a named object's name, in any
      case, selects it. */
  lemma {:induction false} FilterStringIgnoresCase(text: seq<byte>, other: seq<byte>, item: ObjectItem)
    requires ToUpper(text) == ToUpper(other)
    ensures FilterString(text, item) == FilterString(other, item)
    ensures |item.name| > 0 && Contains(item.name, text) ==> FilterString(text, item)
  {
    assert |text| == |ToUpper(text)| == |other|;
    if |item.name| > 0 && Contains(item.name, text) {
      ContainsUpper(item.name, text);
    }
  }

  /** The first ride type that is not RIDE_TYPE_NULL, or 0 when there is none. */
  function FirstRideType(types: seq<int>): (r: int)
    ensures r == 0 || r in types
    ensures forall i :: (0 <= i < |types| && (forall j :: 0 <= j < i ==> types[j] == RIDE_TYPE_NULL)
      && types[i] != RIDE_TYPE_NULL) ==> r == types[i]
    ensures (forall i :: 0 <= i < |types| ==> types[i] == RIDE_TYPE_NULL) ==> r == 0
  {
    if |types| == 0 then 0
    else if types[0] != RIDE_TYPE_NULL then types[0]
    else FirstRideType(types[1..])
  }

  /** What FilterChunks decides: non-rides pass; a ride passes when the category bit of its
      first ride type is on. */
  predicate ChunkPasses(flags: bv32, category: int -> RideCategory, item: ObjectItem)
  {
    item.objectType as int != OBJECT_TYPE_RIDE
    || Has(flags, CategoryBit(category(FirstRideType(item.rideTypes))))
  }

  /** FilterChunks, with its search for the first non-null ride type. */
  method FilterChunks(flags: bv32, category: int -> RideCategory, item: ObjectItem) returns (r: bool)
    ensures r == ChunkPasses(flags, category, item)
    ensures item.objectType as int != OBJECT_TYPE_RIDE ==> r
  {
    if item.objectType as int == OBJECT_TYPE_RIDE {
      var rideType := 0;
      var i := 0;
      while i < |item.rideTypes|
        invariant 0 <= i <= |item.rideTypes|
        invariant forall j :: 0 <= j < i ==> item.rideTypes[j] == RIDE_TYPE_NULL
        invariant FirstRideType(item.rideTypes) == FirstRideType(item.rideTypes[i..])
      {
        if item.rideTypes[i] != RIDE_TYPE_NULL {
          rideType := item.rideTypes[i];
          break;
        }
        assert item.rideTypes[i..][1..] == item.rideTypes[i + 1..];
        i := i + 1;
      }
      assert rideType == FirstRideType(item.rideTypes);
      return Has(flags, CategoryBit(category(rideType)));
    }
    return true;
  }

  /** All four filters of an item (the checks VisibleListRefresh and FilterUpdateCounts
      share). */
  predicate Passes(repo: Repository, f: Filters, i: nat)
    requires WellFormed(repo) && i < |repo.items|
  {
    SourcePasses(f.flags, repo.items[i]) && FilterString(f.text, repo.items[i])
    && ChunkPasses(f.flags, repo.category, repo.items[i]) && FilterSelected(f.flags, repo.selection[i])
  }

  /** The four filters, evaluated as the source does. */
  method PassesFilters(repo: Repository, f: Filters, i: nat) returns (r: bool)
    requires WellFormed(repo) && i < |repo.items|
    ensures r == Passes(repo, f, i)
  {
    var item := repo.items[i];
    r := FilterSource(f.flags, item);
    if r {
      r := FilterString(f.text, item);
    }
    if r {
      r := FilterChunks(f.flags, repo.category, item);
    }
    if r {
      r := FilterSelected(f.flags, repo.selection[i]);
    }
  }

  // ---------------------------------------------------------------------------
  // Tabs, rows and flag editing

  /** GetSelectedObjectType: tabs before ScenarioText map to their own type, later ones
      skip it. */
  function GetSelectedObjectType(tab: int): (t: int)
    ensures t != OBJECT_TYPE_SCENARIO_TEXT
    ensures 0 <= tab < OBJECT_TYPE_SCENARIO_TEXT ==> t == tab
    ensures tab >= OBJECT_TYPE_SCENARIO_TEXT ==> t == tab + 1
  {
    if tab >= OBJECT_TYPE_SCENARIO_TEXT then tab + 1 else tab
  }

  /** Different tabs show different object types. */
  lemma {:induction false} SelectedObjectTypeInjective(a: int, b: int)
    requires GetSelectedObjectType(a) == GetSelectedObjectType(b)
    ensures a == b
  {
  }

  /** GetObjectFromObjectSelection: the row under scroll position y (divided as C
      does, toward zero), or -1 when that is no row of the list. */
  function GetObjectFromObjectSelection(y: int, listSize: nat): (r: int)
    ensures r == -1 || 0 <= r < listSize
    ensures r >= 0 && y >= 0 ==> r * SCROLLABLE_ROW_HEIGHT <= y < (r + 1) * SCROLLABLE_ROW_HEIGHT
    ensures -SCROLLABLE_ROW_HEIGHT < y < 0 ==> r == (if listSize > 0 then 0 else -1)
    ensures 0 <= y < listSize * SCROLLABLE_ROW_HEIGHT ==> r == y / SCROLLABLE_ROW_HEIGHT
    ensures y <= -SCROLLABLE_ROW_HEIGHT || y >= listSize * SCROLLABLE_ROW_HEIGHT ==> r == -1
  {
    var index := TruncDiv(y, SCROLLABLE_ROW_HEIGHT);
    if index < 0 || index >= listSize then -1 else index
  }

  /** The ALL ride tab: every ride category bit on, nothing else changed. */
  function AllRidesFlags(flags: bv32): (r: bv32)
    ensures forall c: RideCategory :: Has(r, CategoryBit(c))
    ensures r & !FILTER_RIDES == flags & !FILTER_RIDES
  {
    flags | FILTER_RIDES
  }

  /** A specific ride tab (TRANSPORT .. STALL): exactly that tab's category bit on among
      the ride bits, nothing else changed. */
  function OneRideFlags(flags: bv32, widgetIndex: int): (r: bv32)
    requires WIDX_FILTER_RIDE_TAB_TRANSPORT <= widgetIndex <= WIDX_FILTER_RIDE_TAB_STALL
    ensures Has(r, CategoryBit((widgetIndex - WIDX_FILTER_RIDE_TAB_TRANSPORT) as RideCategory))
    ensures r & !FILTER_RIDES == flags & !FILTER_RIDES
  {
    (flags & !FILTER_RIDES) | CategoryBit((widgetIndex - WIDX_FILTER_RIDE_TAB_TRANSPORT) as RideCategory)
  }

  /** After a specific ride tab only that tab's category passes the ride filter. */
  lemma {:induction false} OneRideFlagsExclusive(flags: bv32, widgetIndex: int, c: RideCategory)
    requires WIDX_FILTER_RIDE_TAB_TRANSPORT <= widgetIndex <= WIDX_FILTER_RIDE_TAB_STALL
    ensures Has(OneRideFlags(flags, widgetIndex), CategoryBit(c)) <==> c as int == widgetIndex - WIDX_FILTER_RIDE_TAB_TRANSPORT
  {
  }

  /** The filter dropdown: SELECTED and NONSELECTED toggle and clear each other; any
      other entry toggles its own bit. */
  function DropdownFlags(flags: bv32, dropdownIndex: int): (r: bv32)
    requires 0 <= dropdownIndex <= DDIX_FILTER_NONSELECTED
    ensures dropdownIndex >= DDIX_FILTER_SELECTED ==> !(Has(r, FILTER_SELECTED) && Has(r, FILTER_NONSELECTED))
  {
    if dropdownIndex == DDIX_FILTER_SELECTED then SelectedOnlyFlags(flags)
    else if dropdownIndex == DDIX_FILTER_NONSELECTED then NonSelectedOnlyFlags(flags)
    else ToggleEntry(flags, dropdownIndex)
  }

  /** The "selected only" entry: SELECTED flips, NONSELECTED goes off, the source and
      ride bits stay. */
  function SelectedOnlyFlags(flags: bv32): (r: bv32)
    ensures Has(r, FILTER_SELECTED) == !Has(flags, FILTER_SELECTED) && !Has(r, FILTER_NONSELECTED)
    ensures r & 0x3FFF == flags & 0x3FFF
  {
    (flags ^ FILTER_SELECTED) & !FILTER_NONSELECTED
  }

  /** The "non-selected only" entry: NONSELECTED flips, SELECTED goes off, the source and
      ride bits stay. */
  function NonSelectedOnlyFlags(flags: bv32): (r: bv32)
    ensures Has(r, FILTER_NONSELECTED) == !Has(flags, FILTER_NONSELECTED) && !Has(r, FILTER_SELECTED)
    ensures r & 0x3FFF == flags & 0x3FFF
  {
    (flags ^ FILTER_NONSELECTED) & !FILTER_SELECTED
  }

  /** Any other entry: its own bit flips, no other bit changes. */
  function ToggleEntry(flags: bv32, dropdownIndex: int): (r: bv32)
    requires 0 <= dropdownIndex < DDIX_FILTER_SELECTED
    ensures Has(r, EntryBit(dropdownIndex)) != Has(flags, EntryBit(dropdownIndex))
    ensures r & !EntryBit(dropdownIndex) == flags & !EntryBit(dropdownIndex)
  {
    var bit := EntryBit(dropdownIndex);
    XorSingleBit(flags, bit);
    flags ^ bit
  }

  /** Toggling one bit flips it and leaves every other bit alone. */
  lemma XorSingleBit(flags: bv32, bit: bv32)
    requires bit != 0 && bit & (bit - 1) == 0
    ensures Has(flags ^ bit, bit) <==> !Has(flags, bit)
    ensures (flags ^ bit) & !bit == flags & !bit
    ensures (flags ^ bit) ^ bit == flags
  {
  }

  /** The flag bit (1 << index) of each dropdown entry before the selection entries. */
  const ENTRY_BITS: seq<bv32> := [0x0001, 0x0002, 0x0004, 0x0008, 0x0010, 0x0020, 0x0040, 0x0080, 0x0100]

  function EntryBit(dropdownIndex: int): (r: bv32)
    requires 0 <= dropdownIndex < DDIX_FILTER_SELECTED
    ensures r != 0 && r & (r - 1) == 0
  {
    ENTRY_BITS[dropdownIndex]
  }

  /** Choosing a source entry twice restores the flags. */
  lemma {:induction false} DropdownToggleTwice(flags: bv32, dropdownIndex: int)
    requires 0 <= dropdownIndex < DDIX_FILTER_SELECTED
    ensures DropdownFlags(DropdownFlags(flags, dropdownIndex), dropdownIndex) == flags
  {
    XorSingleBit(flags, EntryBit(dropdownIndex));
  }

  /** Turning "selected only" on from the dropdown makes the list show exactly the
      selected objects; turning "non-selected only" on shows exactly the others. */
  lemma {:induction false} SelectionDropdownFilters(flags: bv32, sel: SelectionFlags)
    ensures Has(DropdownFlags(flags, DDIX_FILTER_SELECTED), FILTER_SELECTED) ==>
      (FilterSelected(DropdownFlags(flags, DDIX_FILTER_SELECTED), sel) <==> sel.selected)
    ensures Has(DropdownFlags(flags, DDIX_FILTER_NONSELECTED), FILTER_NONSELECTED) ==>
      (FilterSelected(DropdownFlags(flags, DDIX_FILTER_NONSELECTED), sel) <==> !sel.selected)
  {
    var s := DropdownFlags(flags, DDIX_FILTER_SELECTED);
    var n := DropdownFlags(flags, DDIX_FILTER_NONSELECTED);
    assert !(Has(s, FILTER_SELECTED) && Has(s, FILTER_NONSELECTED));
    assert !(Has(n, FILTER_SELECTED) && Has(n, FILTER_NONSELECTED));
  }

  /** A sort header click: the active column flips direction, the other column becomes
      active ascending. */
  function SortClick(sortType: int, descending: bool, column: int): (r: (int, bool))
    ensures r.0 == column
    ensures r.1 <==> sortType == column && !descending
  {
    if sortType == column then (sortType, !descending) else (column, false)
  }

  /** Two clicks on the same header restore the direction. */
  lemma {:induction false} SortClickTwice(sortType: int, descending: bool, column: int)
    ensures var once := SortClick(sortType, descending, column);
      SortClick(once.0, once.1, column) == (column, if sortType == column then descending else true)
  {
  }

  // ---------------------------------------------------------------------------
  // Ordering of the visible list

  /** The sign of strcmp: byte-wise comparison, a proper prefix first. */
  function Compare(a: seq<byte>, b: seq<byte>): (r: int)
    ensures -1 <= r <= 1
  {
    if |a| == 0 && |b| == 0 then 0
    else if |a| == 0 then -1
    else if |b| == 0 then 1
    else if a[0] < b[0] then -1
    else if a[0] > b[0] then 1
    else Compare(a[1..], b[1..])
  }

  lemma {:induction false} CompareAntisymmetric(a: seq<byte>, b: seq<byte>)
    ensures Compare(a, b) == -Compare(b, a)
    ensures Compare(a, b) == 0 <==> a == b
    decreases |a|
  {
    if |a| > 0 && |b| > 0 && a[0] == b[0] {
      CompareAntisymmetric(a[1..], b[1..]);
      if a[1..] == b[1..] {
        assert a == [a[0]] + a[1..] && b == [b[0]] + b[1..];
      }
    }
  }

  lemma {:induction false} CompareTransitive(a: seq<byte>, b: seq<byte>, c: seq<byte>)
    requires Compare(a, b) <= 0 && Compare(b, c) <= 0
    ensures Compare(a, c) <= 0
    decreases |a|
  {
    if |a| > 0 && |b| > 0 && |c| > 0 && a[0] == b[0] == c[0] {
      CompareTransitive(a[1..], b[1..], c[1..]);
    }
  }

  /** VisibleListSortRideName. */
  predicate LessByName(a: ListItem, b: ListItem): (r: bool)
    ensures r ==> a.item.name != b.item.name && Compare(b.item.name, a.item.name) > 0
  {
    CompareAntisymmetric(a.item.name, b.item.name);
    Compare(a.item.name, b.item.name) < 0
  }

  /** VisibleListSortRideType: by ride type name, then by name. */
  predicate LessByType(a: ListItem, b: ListItem): (r: bool)
    ensures r ==> (a.item.rideTypeName, a.item.name) != (b.item.rideTypeName, b.item.name)
    ensures r ==> Compare(b.item.rideTypeName, a.item.rideTypeName) >= 0
    ensures a.item.rideTypeName == b.item.rideTypeName ==> (r <==> LessByName(a, b))
  {
    CompareAntisymmetric(a.item.rideTypeName, b.item.rideTypeName);
    var c := Compare(a.item.rideTypeName, b.item.rideTypeName);
    if c != 0 then c < 0 else LessByName(a, b)
  }

  predicate Less(sortType: int, a: ListItem, b: ListItem)
  {
    if sortType == RIDE_SORT_TYPE then LessByType(a, b) else LessByName(a, b)
  }

  /** strcmp order facts for three strings: transitive, and strict when either step is. */
  lemma {:induction false} CompareOrder(a: seq<byte>, b: seq<byte>, c: seq<byte>)
    ensures Compare(a, a) == 0
    ensures Compare(a, b) <= 0 && Compare(b, c) <= 0 ==> Compare(a, c) <= 0
    ensures Compare(a, b) < 0 && Compare(b, c) <= 0 ==> Compare(a, c) < 0
    ensures Compare(a, b) <= 0 && Compare(b, c) < 0 ==> Compare(a, c) < 0
  {
    CompareAntisymmetric(a, a);
    CompareAntisymmetric(a, b);
    CompareAntisymmetric(b, c);
    CompareAntisymmetric(a, c);
    if Compare(a, b) <= 0 && Compare(b, c) <= 0 {
      CompareTransitive(a, b, c);
    }
  }

  /** Both comparators are strict weak orders. */
  lemma {:induction false} LessIsStrictWeakOrder(sortType: int, a: ListItem, b: ListItem, c: ListItem)
    ensures !Less(sortType, a, a)
    ensures Less(sortType, a, b) ==> !Less(sortType, b, a)
    ensures !Less(sortType, b, a) && !Less(sortType, c, b) ==> !Less(sortType, c, a)
    ensures !Less(sortType, b, a) && Less(sortType, b, c) ==> Less(sortType, a, c)
  {
    CompareOrder(a.item.name, b.item.name, c.item.name);
    CompareAntisymmetric(a.item.name, b.item.name);
    CompareAntisymmetric(b.item.name, c.item.name);
    CompareAntisymmetric(a.item.name, c.item.name);
    if sortType == RIDE_SORT_TYPE {
      CompareOrder(a.item.rideTypeName, b.item.rideTypeName, c.item.rideTypeName);
      CompareAntisymmetric(a.item.rideTypeName, b.item.rideTypeName);
      CompareAntisymmetric(b.item.rideTypeName, c.item.rideTypeName);
      CompareAntisymmetric(a.item.rideTypeName, c.item.rideTypeName);
    }
  }

  /** No item is ordered before an item that precedes it. */
  predicate Sorted(sortType: int, s: seq<ListItem>)
  {
    forall i, j :: 0 <= i < j < |s| ==> !Less(sortType, s[j], s[i])
  }

  function Insert(sortType: int, x: ListItem, s: seq<ListItem>): (r: seq<ListItem>)
    ensures |r| == |s| + 1
  {
    if |s| == 0 then [x]
    else if Less(sortType, x, s[0]) then [x] + s
    else [s[0]] + Insert(sortType, x, s[1..])
  }

  /** The order std::sort gives the list (one of them where items compare equal). */
  function Sort(sortType: int, s: seq<ListItem>): (r: seq<ListItem>)
    ensures |r| == |s|
  {
    if |s| == 0 then [] else Insert(sortType, s[0], Sort(sortType, s[1..]))
  }

  lemma {:induction false} InsertPermutes(sortType: int, x: ListItem, s: seq<ListItem>)
    ensures multiset(Insert(sortType, x, s)) == multiset(s) + multiset{x}
  {
    if |s| > 0 && !Less(sortType, x, s[0]) {
      InsertPermutes(sortType, x, s[1..]);
      assert s == [s[0]] + s[1..];
    }
  }

  lemma {:induction false} InsertSorted(sortType: int, x: ListItem, s: seq<ListItem>)
    requires Sorted(sortType, s)
    ensures Sorted(sortType, Insert(sortType, x, s))
  {
    if |s| == 0 {
    } else if Less(sortType, x, s[0]) {
      var r := [x] + s;
      forall i, j | 0 <= i < j < |r|
        ensures !Less(sortType, r[j], r[i])
      {
        if i == 0 {
          LessIsStrictWeakOrder(sortType, s[0], r[j], x);
          LessIsStrictWeakOrder(sortType, x, s[0], s[0]);
          if j > 1 {
            LessIsStrictWeakOrder(sortType, x, s[0], r[j]);
          }
        }
      }
    } else {
      var rest := Insert(sortType, x, s[1..]);
      InsertSorted(sortType, x, s[1..]);
      InsertPermutes(sortType, x, s[1..]);
      var r := [s[0]] + rest;
      forall j | 0 < j < |r|
        ensures !Less(sortType, r[j], s[0])
      {
        assert r[j] in multiset(rest);
        if r[j] != x {
          assert r[j] in multiset(s[1..]);
          var k :| 0 <= k < |s[1..]| && s[1..][k] == r[j];
          assert s[k + 1] == r[j];
        }
      }
    }
  }

  lemma {:induction false} SortPermutesAndSorts(sortType: int, s: seq<ListItem>)
    ensures multiset(Sort(sortType, s)) == multiset(s)
    ensures Sorted(sortType, Sort(sortType, s))
  {
    if |s| > 0 {
      SortPermutesAndSorts(sortType, s[1..]);
      InsertPermutes(sortType, s[0], Sort(sortType, s[1..]));
      InsertSorted(sortType, s[0], Sort(sortType, s[1..]));
      assert s == [s[0]] + s[1..];
    }
  }

  function Reversed(s: seq<ListItem>): (r: seq<ListItem>)
    ensures |r| == |s| && forall i :: 0 <= i < |s| ==> r[i] == s[|s| - 1 - i]
  {
    seq(|s|, i requires 0 <= i < |s| => s[|s| - 1 - i])
  }

  /** The list order: sorted by the active column and reversed when descending; an
      unknown sort type leaves the list as filtered. */
  function Order(s: seq<ListItem>, sortType: int, descending: bool): seq<ListItem>
  {
    if sortType != RIDE_SORT_TYPE && sortType != RIDE_SORT_RIDE then s
    else if descending then Reversed(Sort(sortType, s))
    else Sort(sortType, s)
  }

  /** The list order is a permutation of the filtered list; it runs in the active
      column's order, or against it when descending. */
  lemma {:induction false} OrderSorts(s: seq<ListItem>, sortType: int, descending: bool)
    requires sortType == RIDE_SORT_TYPE || sortType == RIDE_SORT_RIDE
    ensures multiset(Order(s, sortType, descending)) == multiset(s)
    ensures !descending ==> Sorted(sortType, Order(s, sortType, descending))
    ensures descending ==> forall i, j :: 0 <= i < j < |s| ==>
      !Less(sortType, Order(s, sortType, descending)[i], Order(s, sortType, descending)[j])
  {
    var sorted := Sort(sortType, s);
    SortPermutesAndSorts(sortType, s);
    if descending {
      ReversedPermutes(sorted);
      ReversedDescends(sortType, sorted);
    }
  }

  /** A sorted list read backwards runs against the order. */
  lemma ReversedDescends(sortType: int, s: seq<ListItem>)
    requires Sorted(sortType, s)
    ensures forall i, j :: 0 <= i < j < |s| ==> !Less(sortType, Reversed(s)[i], Reversed(s)[j])
  {
    var r := Reversed(s);
    forall i, j | 0 <= i < j < |s|
      ensures !Less(sortType, r[i], r[j])
    {
      assert r[i] == s[|s| - 1 - i] && r[j] == s[|s| - 1 - j];
    }
  }

  lemma {:induction false} ReversedPermutes(s: seq<ListItem>)
    ensures multiset(Reversed(s)) == multiset(s)
    decreases |s|
  {
    if |s| > 0 {
      var r := Reversed(s);
      ReversedPermutes(s[1..]);
      assert r == Reversed(s[1..]) + [s[0]];
      assert s == [s[0]] + s[1..];
    }
  }

  // ---------------------------------------------------------------------------
  // The visible list and the counts, as functions of the filters

  /** Whether item i belongs on the list of the given object type. */
  predicate Visible(repo: Repository, f: Filters, objectType: int, i: nat)
    requires WellFormed(repo) && i < |repo.items|
  {
    repo.items[i].objectType as int == objectType && !repo.selection[i].flag6 && Passes(repo, f, i)
  }

  /** The visible items among the first n, in repository order. */
  function VisibleFrom(repo: Repository, f: Filters, objectType: int, n: nat): (r: seq<ListItem>)
    requires WellFormed(repo) && n <= |repo.items|
    ensures |r| <= n
    ensures forall k :: 0 <= k < |r| ==> r[k].index < n && r[k].item == repo.items[r[k].index]
  {
    if n == 0 then []
    else
      var last := if Visible(repo, f, objectType, n - 1) then [ListItem(n - 1, repo.items[n - 1])] else [];
      VisibleFrom(repo, f, objectType, n - 1) + last
  }

  /** The filtered list holds exactly the visible items, each once, in repository order. */
  lemma {:induction false} VisibleFromMember(repo: Repository, f: Filters, objectType: int, n: nat, i: nat)
    requires WellFormed(repo) && i < n <= |repo.items|
    ensures Visible(repo, f, objectType, i) <==> ListItem(i, repo.items[i]) in VisibleFrom(repo, f, objectType, n)
  {
    var prefix := VisibleFrom(repo, f, objectType, n - 1);
    if i < n - 1 {
      VisibleFromMember(repo, f, objectType, n - 1, i);
    }
  }

  /** ... and in repository order, so no item appears twice. */
  lemma {:induction false} VisibleFromIncreasing(repo: Repository, f: Filters, objectType: int, n: nat)
    requires WellFormed(repo) && n <= |repo.items|
    ensures forall j, k :: 0 <= j < k < |VisibleFrom(repo, f, objectType, n)| ==>
      VisibleFrom(repo, f, objectType, n)[j].index < VisibleFrom(repo, f, objectType, n)[k].index
  {
    if n > 0 {
      VisibleFromIncreasing(repo, f, objectType, n - 1);
    }
  }

  /** The refreshed list holds exactly the items of the page's type that pass the
      filters and are not hidden by FLAG_6. */
  lemma {:induction false} VisibleListExactly(repo: Repository, f: Filters, tab: int, sortType: int, descending: bool, i: nat)
    requires WellFormed(repo) && i < |repo.items|
    ensures Visible(repo, f, GetSelectedObjectType(tab), i)
      <==> ListItem(i, repo.items[i]) in VisibleList(repo, f, tab, sortType, descending)
  {
    var filtered := VisibleFrom(repo, f, GetSelectedObjectType(tab), |repo.items|);
    VisibleFromMember(repo, f, GetSelectedObjectType(tab), |repo.items|, i);
    if sortType == RIDE_SORT_TYPE || sortType == RIDE_SORT_RIDE {
      OrderSorts(filtered, sortType, descending);
      var ordered := Order(filtered, sortType, descending);
      assert ListItem(i, repo.items[i]) in ordered <==> ListItem(i, repo.items[i]) in multiset(ordered);
      assert ListItem(i, repo.items[i]) in filtered <==> ListItem(i, repo.items[i]) in multiset(filtered);
    }
  }

  /** The list VisibleListRefresh builds. */
  function VisibleList(repo: Repository, f: Filters, tab: int, sortType: int, descending: bool): seq<ListItem>
    requires WellFormed(repo)
  {
    Order(VisibleFrom(repo, f, GetSelectedObjectType(tab), |repo.items|), sortType, descending)
  }

  /** How many of the first n items of type t pass the four filters. */
  function CountFrom(repo: Repository, f: Filters, t: int, n: nat): (c: nat)
    requires WellFormed(repo) && n <= |repo.items|
    ensures c <= n
  {
    if n == 0 then 0
    else CountFrom(repo, f, t, n - 1) + (if repo.items[n - 1].objectType as int == t && Passes(repo, f, n - 1) then 1 else 0)
  }

  /** A tab's list never holds more items than the count for its type. */
  lemma {:induction false} VisibleWithinCount(repo: Repository, f: Filters, t: int, n: nat)
    requires WellFormed(repo) && n <= |repo.items|
    ensures |VisibleFrom(repo, f, t, n)| <= CountFrom(repo, f, t, n)
  {
    if n > 0 {
      VisibleWithinCount(repo, f, t, n - 1);
    }
  }

  /** Whether FilterUpdateCounts recounts: some filter bit is off or there is a search. */
  predicate Recounts(f: Filters)
  {
    f.flags & FILTER_ALL != FILTER_ALL || |f.text| > 0
  }

  /** The count table after FilterUpdateCounts: recounted (each count a uint16) or kept. */
  function CountsAfter(repo: Repository, f: Filters, prev: seq<int>): (r: seq<int>)
    requires WellFormed(repo)
    ensures !Recounts(f) ==> r == prev
    ensures Recounts(f) ==>
      (|r| == OBJECT_TYPE_COUNT && forall t :: 0 <= t < OBJECT_TYPE_COUNT ==> 0 <= r[t] < UINT16_RANGE)
  {
    if Recounts(f)
    then seq(OBJECT_TYPE_COUNT, t requires 0 <= t < OBJECT_TYPE_COUNT => CountFrom(repo, f, t, |repo.items|) % UINT16_RANGE)
    else prev
  }

  // ---------------------------------------------------------------------------
  // The window

  class SelectionWindow {
    var filterFlags: bv32
    var filterText: seq<byte>
    var listItems: seq<ListItem>
    var listSortType: int
    var listSortDescending: bool
    var selectedTab: int
    var selectedListItem: int
    var pressedWidgets: set<int>
    const counts: array<int>

    predicate Valid()
      reads this
    {
      counts.Length == OBJECT_TYPE_COUNT && 0 <= selectedTab < PAGE_COUNT
    }

    function CurrentFilters(): Filters
      reads this
    {
      Filters(filterFlags, filterText)
    }

    /** The list is the one VisibleListRefresh builds from the current state, with no
        item selected. */
    predicate Refreshed(repo: Repository)
      requires WellFormed(repo)
      reads this
    {
      listItems == VisibleList(repo, CurrentFilters(), selectedTab, listSortType, listSortDescending)
      && selectedListItem == -1
    }

    /** Opening the window: the configured filter flags, an empty search, the first page
        and a freshly built list. The sort column and direction and the per-type counts are
        file-scope state that opening does not reset: they are whatever the last window
        left (type order, ascending and zero counts before any window was opened). */
    constructor (repo: Repository, configFlags: bv32, sortType: int, sortDescending: bool, prevCounts: seq<int>)
      requires WellFormed(repo)
      requires |prevCounts| == OBJECT_TYPE_COUNT
      ensures Valid() && fresh(counts)
      ensures filterFlags == configFlags && filterText == [] && selectedTab == 0
      ensures listSortType == sortType && listSortDescending == sortDescending
      ensures counts[..] == prevCounts
      ensures Refreshed(repo)
    {
      filterFlags := configFlags;
      filterText := [];
      listItems := [];
      listSortType := sortType;
      listSortDescending := sortDescending;
      selectedTab := 0;
      selectedListItem := -1;
      pressedWidgets := {};
      counts := new int[OBJECT_TYPE_COUNT](i requires 0 <= i < OBJECT_TYPE_COUNT => prevCounts[i]);
      new;
      VisibleListRefresh(repo);
    }

    /** VisibleListRefresh: rebuilds the list from the repository with the four filters,
        the page's type and the FLAG_6 exclusion, then orders it. */
    method VisibleListRefresh(repo: Repository)
      requires WellFormed(repo)
      modifies this
      ensures filterFlags == old(filterFlags) && filterText == old(filterText) && selectedTab == old(selectedTab)
      ensures listSortType == old(listSortType) && listSortDescending == old(listSortDescending)
      ensures pressedWidgets == old(pressedWidgets)
      ensures Refreshed(repo)
    {
      listItems := [];
      selectedListItem := -1;
      var f := CurrentFilters();
      var objectType := GetSelectedObjectType(selectedTab);
      var i := 0;
      while i < |repo.items|
        invariant 0 <= i <= |repo.items|
        invariant f == CurrentFilters() && objectType == GetSelectedObjectType(selectedTab)
        invariant filterFlags == old(filterFlags) && filterText == old(filterText) && selectedTab == old(selectedTab)
        invariant listSortType == old(listSortType) && listSortDescending == old(listSortDescending)
        invariant pressedWidgets == old(pressedWidgets) && selectedListItem == -1
        invariant listItems == VisibleFrom(repo, f, objectType, i)
      {
        var item := repo.items[i];
        if item.objectType as int == objectType && !repo.selection[i].flag6 {
          var pass := PassesFilters(repo, f, i);
          if pass {
            listItems := listItems + [ListItem(i, item)];
          }
        }
        i := i + 1;
      }
      listItems := Order(listItems, listSortType, listSortDescending);
    }

    /** FilterUpdateCounts: when some filter is active, recounts the items of each type
        that pass the four filters, each count wrapping as a uint16. */
    method FilterUpdateCounts(repo: Repository)
      requires WellFormed(repo) && Valid()
      modifies counts
      ensures counts[..] == CountsAfter(repo, CurrentFilters(), old(counts[..]))
    {
      var f := CurrentFilters();
      if Recounts(f) {
        forall t | 0 <= t < counts.Length {
          counts[t] := 0;
        }
        var i := 0;
        while i < |repo.items|
          invariant 0 <= i <= |repo.items|
          invariant forall t :: 0 <= t < OBJECT_TYPE_COUNT ==> counts[t] == CountFrom(repo, f, t, i) % UINT16_RANGE
        {
          var pass := PassesFilters(repo, f, i);
          if pass {
            var t := repo.items[i].objectType as int;
            counts[t] := (counts[t] + 1) % UINT16_RANGE;
          }
          i := i + 1;
        }
      }
    }

    /** The mouse-up handler for the ride tabs, the search clear button, the track install
        button, the sort headers and the page tabs. */
    method MouseUp(repo: Repository, widgetIndex: int)
      requires WellFormed(repo) && Valid()
      modifies this, counts
      ensures Valid() && pressedWidgets == old(pressedWidgets)
      ensures widgetIndex == WIDX_FILTER_RIDE_TAB_ALL || WIDX_FILTER_RIDE_TAB_TRANSPORT <= widgetIndex <= WIDX_FILTER_RIDE_TAB_STALL
              || widgetIndex == WIDX_FILTER_CLEAR_BUTTON || widgetIndex == WIDX_INSTALL_TRACK ==>
        listSortType == old(listSortType) && listSortDescending == old(listSortDescending)
      ensures widgetIndex == WIDX_LIST_SORT_TYPE || widgetIndex == WIDX_LIST_SORT_RIDE || widgetIndex == WIDX_INSTALL_TRACK
              || WIDX_TAB_1 <= widgetIndex < WIDX_TAB_1 + PAGE_COUNT ==>
        counts[..] == old(counts[..])
      ensures widgetIndex == WIDX_FILTER_RIDE_TAB_ALL ==>
        filterFlags == AllRidesFlags(old(filterFlags)) && filterText == old(filterText)
        && counts[..] == CountsAfter(repo, CurrentFilters(), old(counts[..])) && Refreshed(repo)
      ensures WIDX_FILTER_RIDE_TAB_TRANSPORT <= widgetIndex <= WIDX_FILTER_RIDE_TAB_STALL ==>
        filterFlags == OneRideFlags(old(filterFlags), widgetIndex) && filterText == old(filterText)
        && counts[..] == CountsAfter(repo, CurrentFilters(), old(counts[..])) && Refreshed(repo)
      ensures widgetIndex == WIDX_FILTER_CLEAR_BUTTON ==>
        filterText == [] && filterFlags == old(filterFlags)
        && counts[..] == CountsAfter(repo, CurrentFilters(), old(counts[..])) && Refreshed(repo)
      ensures widgetIndex == WIDX_INSTALL_TRACK ==>
        selectedListItem == -1 && listItems == old(listItems)
        && filterFlags == old(filterFlags) && filterText == old(filterText)
      ensures !Handled(widgetIndex) ==>
        filterFlags == old(filterFlags) && filterText == old(filterText) && listItems == old(listItems)
        && listSortType == old(listSortType) && listSortDescending == old(listSortDescending)
        && selectedListItem == old(selectedListItem) && counts[..] == old(counts[..])
      ensures widgetIndex == WIDX_LIST_SORT_TYPE || widgetIndex == WIDX_LIST_SORT_RIDE ==>
        (listSortType, listSortDescending)
          == SortClick(old(listSortType), old(listSortDescending), if widgetIndex == WIDX_LIST_SORT_TYPE then RIDE_SORT_TYPE else RIDE_SORT_RIDE)
        && filterFlags == old(filterFlags) && filterText == old(filterText) && Refreshed(repo)
      ensures WIDX_TAB_1 <= widgetIndex < WIDX_TAB_1 + PAGE_COUNT ==>
        selectedTab == widgetIndex - WIDX_TAB_1 && filterFlags == old(filterFlags) && filterText == old(filterText)
      ensures WIDX_TAB_1 <= widgetIndex < WIDX_TAB_1 + PAGE_COUNT && old(selectedTab) != widgetIndex - WIDX_TAB_1 ==>
        listSortType == (if widgetIndex == WIDX_TAB_1 then RIDE_SORT_TYPE else RIDE_SORT_RIDE)
        && !listSortDescending && Refreshed(repo)
      ensures !(WIDX_TAB_1 <= widgetIndex < WIDX_TAB_1 + PAGE_COUNT) ==> selectedTab == old(selectedTab)
    {
      if widgetIndex == WIDX_FILTER_RIDE_TAB_ALL {
        filterFlags := AllRidesFlags(filterFlags);
        FilterUpdateCounts(repo);
        VisibleListRefresh(repo);
      } else if WIDX_FILTER_RIDE_TAB_TRANSPORT <= widgetIndex <= WIDX_FILTER_RIDE_TAB_STALL {
        filterFlags := OneRideFlags(filterFlags, widgetIndex);
        FilterUpdateCounts(repo);
        VisibleListRefresh(repo);
      } else if widgetIndex == WIDX_INSTALL_TRACK {
        selectedListItem := -1;
      } else if widgetIndex == WIDX_FILTER_CLEAR_BUTTON {
        filterText := [];
        FilterUpdateCounts(repo);
        VisibleListRefresh(repo);
      } else if widgetIndex == WIDX_LIST_SORT_TYPE {
        listSortType, listSortDescending := SortClick(listSortType, listSortDescending, RIDE_SORT_TYPE).0,
                                            SortClick(listSortType, listSortDescending, RIDE_SORT_TYPE).1;
        VisibleListRefresh(repo);
      } else if widgetIndex == WIDX_LIST_SORT_RIDE {
        listSortType, listSortDescending := SortClick(listSortType, listSortDescending, RIDE_SORT_RIDE).0,
                                            SortClick(listSortType, listSortDescending, RIDE_SORT_RIDE).1;
        VisibleListRefresh(repo);
      } else if WIDX_TAB_1 <= widgetIndex < WIDX_TAB_1 + PAGE_COUNT {
        SetPage(repo, widgetIndex - WIDX_TAB_1);
      }
    }

    /** The filter dropdown's selection handler. */
    method Dropdown(repo: Repository, widgetIndex: int, dropdownIndex: int)
      requires WellFormed(repo) && Valid()
      requires -1 <= dropdownIndex <= DDIX_FILTER_NONSELECTED
      modifies this, counts
      ensures Valid()
      ensures dropdownIndex == -1 || widgetIndex != WIDX_FILTER_DROPDOWN ==>
        filterFlags == old(filterFlags) && listItems == old(listItems) && counts[..] == old(counts[..])
        && selectedListItem == old(selectedListItem)
      ensures listSortType == old(listSortType) && listSortDescending == old(listSortDescending)
      ensures pressedWidgets == old(pressedWidgets)
      ensures dropdownIndex != -1 && widgetIndex == WIDX_FILTER_DROPDOWN ==>
        filterFlags == DropdownFlags(old(filterFlags), dropdownIndex)
        && counts[..] == CountsAfter(repo, CurrentFilters(), old(counts[..])) && Refreshed(repo)
      ensures filterText == old(filterText) && selectedTab == old(selectedTab)
    {
      if dropdownIndex == -1 {
        return;
      }
      if widgetIndex == WIDX_FILTER_DROPDOWN {
        filterFlags := DropdownFlags(filterFlags, dropdownIndex);
        FilterUpdateCounts(repo);
        VisibleListRefresh(repo);
      }
    }

    /** WindowEditorObjectSetPage: nothing for the current page; otherwise switch page,
        clear the selection, sort rides by type and other objects by name, ascending. */
    method SetPage(repo: Repository, page: int)
      requires WellFormed(repo) && Valid()
      requires 0 <= page < PAGE_COUNT
      modifies this
      ensures Valid() && selectedTab == page
      ensures filterFlags == old(filterFlags) && filterText == old(filterText) && pressedWidgets == old(pressedWidgets)
      ensures old(selectedTab) == page ==>
        listItems == old(listItems) && listSortType == old(listSortType)
        && listSortDescending == old(listSortDescending) && selectedListItem == old(selectedListItem)
      ensures old(selectedTab) != page ==>
        listSortType == (if page == OBJECT_TYPE_RIDE then RIDE_SORT_TYPE else RIDE_SORT_RIDE)
        && !listSortDescending && Refreshed(repo)
    {
      if selectedTab == page {
        return;
      }
      selectedTab := page;
      selectedListItem := -1;
      if page == OBJECT_TYPE_RIDE {
        listSortType := RIDE_SORT_TYPE;
        listSortDescending := false;
      } else {
        listSortType := RIDE_SORT_RIDE;
        listSortDescending := false;
      }
      VisibleListRefresh(repo);
    }

    /** WindowEditorObjectSelectionSetPressedTab: of the page tab widgets exactly the
        selected one is pressed; no other widget changes. */
    method SetPressedTab()
      requires Valid()
      modifies this
      ensures pressedWidgets == (old(pressedWidgets) - TabWidgets()) + {WIDX_TAB_1 + selectedTab}
      ensures forall w :: WIDX_TAB_1 <= w < WIDX_TAB_1 + PAGE_COUNT ==> (w in pressedWidgets <==> w == WIDX_TAB_1 + selectedTab)
      ensures selectedTab == old(selectedTab) && listItems == old(listItems) && filterFlags == old(filterFlags)
    {
      var i := 0;
      while i < PAGE_COUNT
        invariant 0 <= i <= PAGE_COUNT
        invariant pressedWidgets == old(pressedWidgets) - (set w | w in TabWidgets() && w < WIDX_TAB_1 + i)
        invariant selectedTab == old(selectedTab) && listItems == old(listItems) && filterFlags == old(filterFlags)
      {
        pressedWidgets := pressedWidgets - {WIDX_TAB_1 + i};
        i := i + 1;
      }
      pressedWidgets := pressedWidgets + {WIDX_TAB_1 + selectedTab};
    }
  }

  /** The widgets the mouse-up handler acts on in this model: the ride tabs, the install
      track and clear buttons, the sort headers and the page tabs. */
  predicate Handled(widgetIndex: int)
  {
    widgetIndex == WIDX_FILTER_RIDE_TAB_ALL
    || WIDX_FILTER_RIDE_TAB_TRANSPORT <= widgetIndex <= WIDX_FILTER_RIDE_TAB_STALL
    || widgetIndex == WIDX_INSTALL_TRACK || widgetIndex == WIDX_FILTER_CLEAR_BUTTON
    || widgetIndex == WIDX_LIST_SORT_TYPE || widgetIndex == WIDX_LIST_SORT_RIDE
    || WIDX_TAB_1 <= widgetIndex < WIDX_TAB_1 + PAGE_COUNT
  }

  /** The page tab widgets (WIDX_TAB_1 .. WIDX_TAB_1 + PAGE_COUNT - 1). */
  function TabWidgets(): (r: set<int>)
    ensures forall w :: w in r <==> WIDX_TAB_1 <= w < WIDX_TAB_1 + PAGE_COUNT
  {
    {21, 22, 23, 24, 25, 26, 27, 28, 29, 30}
  }
}
