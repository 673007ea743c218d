/** The tree view behind the customer device panel (customer-device-panel-toolbar.tsx). */
module DevicePanel {
  import opened Options

  /** A JavaScript value as the panel sees it.  A record keeps its properties in order; reading a
      key finds the first property of that name. */
  datatype Value = Arr(items: seq<Value>) | Rec(fields: seq<(string, Value)>) | Scalar(text: string)

  datatype Motion = Moving | Idling | Static | Unknown

  datatype Descriptor = Descriptor(online: Option<bool>, following: bool, hidden: bool, motion: Motion,
                                   name: string, updatedAt: int)

  datatype PrimaryFilter = AnyState | Online | Following | Offline

  datatype MotionFilter = AnyMotion | Only(motion: Motion)

  datatype SortMode = NameAsc | NameDesc | Newest | Oldest

  /** How values are read: describeDevice, and the position of a name in the locale's collation. */
  datatype Reading = Reading(describe: Value -> Descriptor, nameRank: string -> int)

  datatype Settings = Settings(primary: PrimaryFilter, motion: MotionFilter, sort: SortMode, showHidden: bool)

  const CHILD_COLLECTION_KEYS: seq<string> :=
    ["devices", "items", "children", "objects", "vehicles", "trackers", "rows"]

  // ----- Groups -----

  /** Position of the first property with a key, or the number of properties. */
  function FieldIndex(fields: seq<(string, Value)>, key: string): (i: nat)
    ensures i <= |fields|
    ensures i < |fields| ==> fields[i].0 == key
    ensures forall j :: 0 <= j < i ==> fields[j].0 != key
  {
    if fields == [] then 0
    else if fields[0].0 == key then 0
    else
      var rest := FieldIndex(fields[1..], key);
      assert forall j :: 0 < j <= rest ==> fields[j - 1 + 1] == fields[j] && (j < rest + 1 ==> fields[1..][j - 1] == fields[j]);
      1 + rest
  }

  predicate HoldsArray(fields: seq<(string, Value)>, key: string) {
    var i := FieldIndex(fields, key);
    i < |fields| && fields[i].1.Arr?
  }

  /** findChildCollection: the position of the property that holds the children. */
  function ChildField(fields: seq<(string, Value)>, keys: seq<string>): (r: Option<nat>)
    ensures r.Some? ==> r.value < |fields| && fields[r.value].1.Arr?
  {
    if keys == [] then None
    else if HoldsArray(fields, keys[0]) then Some(FieldIndex(fields, keys[0]))
    else ChildField(fields, keys[1..])
  }

  predicate IsGroup(v: Value) {
    v.Rec? && ChildField(v.fields, CHILD_COLLECTION_KEYS).Some?
  }

  function Children(v: Value): (c: seq<Value>)
    requires IsGroup(v)
    ensures Arr(c) < v
  {
    var i := ChildField(v.fields, CHILD_COLLECTION_KEYS).value;
    assert v.fields[i].1 == Arr(v.fields[i].1.items);
    v.fields[i].1.items
  }

  /** The same record with its child collection replaced. */
  function WithChildren(v: Value, c: seq<Value>): Value
    requires IsGroup(v)
  {
    var i := ChildField(v.fields, CHILD_COLLECTION_KEYS).value;
    Rec(v.fields[i := (v.fields[i].0, Arr(c))])
  }

  lemma ReplacedFieldIndex(fields: seq<(string, Value)>, i: nat, w: Value, key: string)
    requires i < |fields|
    ensures FieldIndex(fields[i := (fields[i].0, w)], key) == FieldIndex(fields, key)
  {
    var g := fields[i := (fields[i].0, w)];
    var a, b := FieldIndex(fields, key), FieldIndex(g, key);
    assert forall j :: 0 <= j < |fields| ==> g[j].0 == fields[j].0;
  }

  lemma {:induction false} ReplacedChildField(fields: seq<(string, Value)>, keys: seq<string>, c: seq<Value>)
    requires ChildField(fields, keys).Some?
    ensures var i := ChildField(fields, keys).value;
            ChildField(fields[i := (fields[i].0, Arr(c))], keys) == Some(i)
  {
    var i := ChildField(fields, keys).value;
    ReplacedFieldIndex(fields, i, Arr(c), keys[0]);
    if !HoldsArray(fields, keys[0]) {
      ReplacedChildField(fields, keys[1..], c);
    }
  }

  /** A rebuilt group is still a group, with the new children. */
  lemma RebuiltGroup(v: Value, c: seq<Value>)
    requires IsGroup(v)
    ensures IsGroup(WithChildren(v, c)) && Children(WithChildren(v, c)) == c
    ensures c == Children(v) ==> WithChildren(v, c) == v
  {
    ReplacedChildField(v.fields, CHILD_COLLECTION_KEYS, c);
    if c == Children(v) {
      var i := ChildField(v.fields, CHILD_COLLECTION_KEYS).value;
      assert (v.fields[i].0, Arr(c)) == v.fields[i];
      assert v.fields[i := v.fields[i]] == v.fields;
    }
  }

  // ----- Leaves -----

  function LeavesOf(v: Value): seq<Value>
    decreases v
  {
    if IsGroup(v) then Flatten(Children(v)) else [v]
  }

  /** flattenLeaves. */
  function Flatten(items: seq<Value>): seq<Value>
    decreases items
  {
    if items == [] then [] else LeavesOf(items[0]) + Flatten(items[1..])
  }

  lemma FlattenCons(v: Value, items: seq<Value>)
    ensures Flatten([v] + items) == LeavesOf(v) + Flatten(items)
  {
    assert ([v] + items)[1..] == items;
  }

  // ----- Filters -----

  predicate MatchesPrimary(d: Descriptor, f: PrimaryFilter) {
    match f
    case Online => d.online == Some(true)
    case Following => d.following
    case Offline => d.online == Some(false)
    case AnyState => true
  }

  predicate MatchesMotion(d: Descriptor, f: MotionFilter) {
    f == AnyMotion || d.motion == f.motion
  }

  predicate Passes(r: Reading, s: Settings, v: Value) {
    var d := r.describe(v);
    (s.showHidden || !d.hidden) && MatchesPrimary(d, s.primary) && MatchesMotion(d, s.motion)
  }

  function Passing(r: Reading, s: Settings, leaves: seq<Value>): seq<Value> {
    if leaves == [] then []
    else (if Passes(r, s, leaves[0]) then [leaves[0]] else []) + Passing(r, s, leaves[1..])
  }

  lemma {:induction false} PassingAppend(r: Reading, s: Settings, a: seq<Value>, b: seq<Value>)
    ensures Passing(r, s, a + b) == Passing(r, s, a) + Passing(r, s, b)
  {
    if a == [] {
      assert a + b == b;
    } else {
      assert (a + b)[1..] == a[1..] + b;
      PassingAppend(r, s, a[1..], b);
    }
  }

  // ----- Sorting -----

  /** The comparator of sortLeafItems compares these keys. */
  function SortKey(r: Reading, mode: SortMode, v: Value): int {
    var d := r.describe(v);
    match mode
    case NameAsc => r.nameRank(d.name)
    case NameDesc => -r.nameRank(d.name)
    case Newest => -d.updatedAt
    case Oldest => d.updatedAt
  }

  ghost predicate Sorted(r: Reading, mode: SortMode, items: seq<Value>) {
    forall i, j :: 0 <= i < j < |items| ==> SortKey(r, mode, items[i]) <= SortKey(r, mode, items[j])
  }

  function Insert(r: Reading, mode: SortMode, v: Value, items: seq<Value>): seq<Value> {
    if items == [] || SortKey(r, mode, v) <= SortKey(r, mode, items[0]) then [v] + items
    else [items[0]] + Insert(r, mode, v, items[1..])
  }

  /** The built-in stable sort of a copy. */
  function SortItems(r: Reading, mode: SortMode, items: seq<Value>): seq<Value> {
    if items == [] then [] else Insert(r, mode, items[0], SortItems(r, mode, items[1..]))
  }

  lemma {:induction false} InsertMembers(r: Reading, mode: SortMode, v: Value, items: seq<Value>)
    ensures forall x :: x in Insert(r, mode, v, items) <==> x == v || x in items
  {
    hide SortKey;
    if items != [] && !(SortKey(r, mode, v) <= SortKey(r, mode, items[0])) {
      InsertMembers(r, mode, v, items[1..]);
      assert items == [items[0]] + items[1..];
    }
  }

  lemma SortedCons(r: Reading, mode: SortMode, v: Value, items: seq<Value>)
    requires Sorted(r, mode, items)
    requires forall x :: x in items ==> SortKey(r, mode, v) <= SortKey(r, mode, x)
    ensures Sorted(r, mode, [v] + items)
  {
    hide SortKey;
  }

  lemma {:induction false} InsertSorted(r: Reading, mode: SortMode, v: Value, items: seq<Value>)
    requires Sorted(r, mode, items)
    ensures Sorted(r, mode, Insert(r, mode, v, items))
  {
    hide SortKey;
    if items == [] {
    } else if SortKey(r, mode, v) <= SortKey(r, mode, items[0]) {
      SortedCons(r, mode, v, items);
    } else {
      InsertSorted(r, mode, v, items[1..]);
      InsertMembers(r, mode, v, items[1..]);
      SortedCons(r, mode, items[0], Insert(r, mode, v, items[1..]));
    }
  }

  lemma {:induction false} SortItemsSorted(r: Reading, mode: SortMode, items: seq<Value>)
    ensures Sorted(r, mode, SortItems(r, mode, items))
    ensures forall x :: x in SortItems(r, mode, items) <==> x in items
  {
    if items != [] {
      SortItemsSorted(r, mode, items[1..]);
      InsertSorted(r, mode, items[0], SortItems(r, mode, items[1..]));
      InsertMembers(r, mode, items[0], SortItems(r, mode, items[1..]));
      hide Sorted;
      assert items == [items[0]] + items[1..];
    }
  }

  function WithKey(r: Reading, mode: SortMode, k: int, items: seq<Value>): seq<Value> {
    if items == [] then []
    else (if SortKey(r, mode, items[0]) == k then [items[0]] else []) + WithKey(r, mode, k, items[1..])
  }

  lemma WithKeyCons(r: Reading, mode: SortMode, k: int, v: Value, items: seq<Value>)
    ensures WithKey(r, mode, k, [v] + items) ==
            (if SortKey(r, mode, v) == k then [v] else []) + WithKey(r, mode, k, items)
  {
    assert ([v] + items)[1..] == items;
  }

  lemma {:induction false} InsertStable(r: Reading, mode: SortMode, v: Value, items: seq<Value>, k: int)
    requires Sorted(r, mode, items)
    ensures WithKey(r, mode, k, Insert(r, mode, v, items)) == WithKey(r, mode, k, [v] + items)
  {
    hide WithKey;
    if items != [] && SortKey(r, mode, v) > SortKey(r, mode, items[0]) {
      InsertStable(r, mode, v, items[1..], k);
      WithKeyCons(r, mode, k, items[0], Insert(r, mode, v, items[1..]));
      WithKeyCons(r, mode, k, v, items[1..]);
      WithKeyCons(r, mode, k, v, items);
      WithKeyCons(r, mode, k, items[0], items[1..]);
      assert items == [items[0]] + items[1..];
    }
  }

  /** Sorting keeps the items of each key, in their order. */
  lemma {:induction false} SortItemsStable(r: Reading, mode: SortMode, items: seq<Value>, k: int)
    ensures WithKey(r, mode, k, SortItems(r, mode, items)) == WithKey(r, mode, k, items)
  {
    if items != [] {
      var rest := SortItems(r, mode, items[1..]);
      SortItemsStable(r, mode, items[1..], k);
      SortItemsSorted(r, mode, items[1..]);
      InsertStable(r, mode, items[0], rest, k);
      assert ([items[0]] + rest)[1..] == rest;
    }
  }

  lemma {:induction false} SortedItemsStay(r: Reading, mode: SortMode, items: seq<Value>)
    requires Sorted(r, mode, items)
    ensures SortItems(r, mode, items) == items
  {
    if items != [] {
      assert forall i :: 0 <= i < |items[1..]| ==> items[1..][i] == items[i + 1];
      SortedItemsStay(r, mode, items[1..]);
      assert items == [items[0]] + items[1..];
    }
  }

  // ----- The view -----

  /** The items of one level that survive, before sorting. */
  function Kept(r: Reading, s: Settings, items: seq<Value>): seq<Value>
    decreases items, 0
  {
    if items == [] then [] else KeptItem(r, s, items[0]) + Kept(r, s, items[1..])
  }

  function KeptItem(r: Reading, s: Settings, v: Value): seq<Value>
    decreases v
  {
    if IsGroup(v) then
      var children := View(r, s, Children(v));
      if children == [] then [] else [WithChildren(v, children)]
    else if Passes(r, s, v) then [v]
    else []
  }

  /** createDevicePanelView. */
  function View(r: Reading, s: Settings, items: seq<Value>): seq<Value>
    decreases items, 1
  {
    SortItems(r, s.sort, Kept(r, s, items))
  }

  lemma {:induction false} FlattenInsert(r: Reading, mode: SortMode, v: Value, items: seq<Value>)
    ensures multiset(Flatten(Insert(r, mode, v, items))) == multiset(Flatten([v] + items))
  {
    hide Flatten, LeavesOf;
    if items != [] && SortKey(r, mode, v) > SortKey(r, mode, items[0]) {
      FlattenInsert(r, mode, v, items[1..]);
      FlattenCons(items[0], Insert(r, mode, v, items[1..]));
      FlattenCons(v, items[1..]);
      FlattenCons(v, items);
      FlattenCons(items[0], items[1..]);
      assert items == [items[0]] + items[1..];
    }
  }

  lemma {:induction false} FlattenSort(r: Reading, mode: SortMode, items: seq<Value>)
    ensures multiset(Flatten(SortItems(r, mode, items))) == multiset(Flatten(items))
  {
    hide Flatten, LeavesOf;
    if items != [] {
      FlattenSort(r, mode, items[1..]);
      FlattenInsert(r, mode, items[0], SortItems(r, mode, items[1..]));
      FlattenCons(items[0], SortItems(r, mode, items[1..]));
      FlattenCons(items[0], items[1..]);
      assert items == [items[0]] + items[1..];
    }
  }

  lemma {:induction false} KeptItemLeaves(r: Reading, s: Settings, v: Value)
    ensures multiset(Flatten(KeptItem(r, s, v))) == multiset(Passing(r, s, LeavesOf(v)))
    decreases v
  {
    if IsGroup(v) {
      ViewLeaves(r, s, Children(v));
      var children := View(r, s, Children(v));
      if children != [] {
        RebuiltGroup(v, children);
        FlattenCons(WithChildren(v, children), []);
        assert KeptItem(r, s, v) == [WithChildren(v, children)] + [];
      }
    } else {
      FlattenCons(v, []);
      assert [v] == [v] + [];
    }
  }

  lemma Regroup<T>(a: seq<T>, b: seq<T>, c: seq<T>)
    ensures (a + b) + c == a + (b + c)
  {
  }

  lemma {:induction false} FlattenAppend(a: seq<Value>, b: seq<Value>)
    ensures Flatten(a + b) == Flatten(a) + Flatten(b)
  {
    if a == [] {
      assert a + b == b && Flatten(a) + Flatten(b) == Flatten(b);
    } else {
      FlattenAppend(a[1..], b);
      FlattenCons(a[0], a[1..]);
      FlattenCons(a[0], a[1..] + b);
      assert a == [a[0]] + a[1..] && a + b == [a[0]] + (a[1..] + b);
      hide Flatten, LeavesOf;
      Regroup(LeavesOf(a[0]), Flatten(a[1..]), Flatten(b));
    }
  }

  lemma {:induction false} KeptLeaves(r: Reading, s: Settings, items: seq<Value>)
    ensures multiset(Flatten(Kept(r, s, items))) == multiset(Passing(r, s, Flatten(items)))
    decreases items, 0
  {
    if items != [] {
      var v, rest := items[0], items[1..];
      KeptLeaves(r, s, rest);
      KeptItemLeaves(r, s, v);
      assert Flatten(items) == LeavesOf(v) + Flatten(rest);
      assert Kept(r, s, items) == KeptItem(r, s, v) + Kept(r, s, rest);
      hide Flatten, Passing, Kept, KeptItem, LeavesOf;
      PassingAppend(r, s, LeavesOf(v), Flatten(rest));
      FlattenAppend(KeptItem(r, s, v), Kept(r, s, rest));
    }
  }

  /** The leaves of the view are, as a multiset, exactly the source leaves that pass the hidden,
      primary and motion filters. */
  lemma {:induction false} ViewLeaves(r: Reading, s: Settings, items: seq<Value>)
    ensures multiset(Flatten(View(r, s, items))) == multiset(Passing(r, s, Flatten(items)))
    decreases items, 1
  {
    KeptLeaves(r, s, items);
    FlattenSort(r, s.sort, Kept(r, s, items));
  }

  /** Every level is sorted, no group is empty, and every leaf passes. */
  ghost predicate Tidy(r: Reading, s: Settings, items: seq<Value>)
    decreases items
  {
    && Sorted(r, s.sort, items)
    && forall i :: 0 <= i < |items| ==>
         if IsGroup(items[i]) then Children(items[i]) != [] && Tidy(r, s, Children(items[i]))
         else Passes(r, s, items[i])
  }

  ghost predicate TidyItem(r: Reading, s: Settings, v: Value) {
    if IsGroup(v) then Children(v) != [] && Tidy(r, s, Children(v)) else Passes(r, s, v)
  }

  lemma {:induction false} KeptTidy(r: Reading, s: Settings, items: seq<Value>)
    ensures forall v :: v in Kept(r, s, items) ==> TidyItem(r, s, v)
    decreases items, 0
  {
    if items != [] {
      KeptTidy(r, s, items[1..]);
      if IsGroup(items[0]) {
        ViewTidy(r, s, Children(items[0]));
        RebuiltGroup(items[0], View(r, s, Children(items[0])));
      }
    }
  }

  lemma {:induction false} ViewTidy(r: Reading, s: Settings, items: seq<Value>)
    ensures Tidy(r, s, View(r, s, items))
    decreases items, 1
  {
    KeptTidy(r, s, items);
    SortItemsSorted(r, s.sort, Kept(r, s, items));
    var view := View(r, s, items);
    forall i | 0 <= i < |view|
      ensures TidyItem(r, s, view[i])
    {
      assert view[i] in Kept(r, s, items);
    }
  }

  lemma {:induction false} TidyKept(r: Reading, s: Settings, items: seq<Value>)
    requires forall i :: 0 <= i < |items| ==> TidyItem(r, s, items[i])
    ensures Kept(r, s, items) == items
    decreases items, 0
  {
    if items != [] {
      assert forall i :: 0 <= i < |items[1..]| ==> items[1..][i] == items[i + 1];
      TidyKept(r, s, items[1..]);
      assert TidyItem(r, s, items[0]);
      if IsGroup(items[0]) {
        TidyStays(r, s, Children(items[0]));
        RebuiltGroup(items[0], Children(items[0]));
      }
      assert items == [items[0]] + items[1..];
    }
  }

  lemma {:induction false} TidyStays(r: Reading, s: Settings, items: seq<Value>)
    requires Tidy(r, s, items)
    ensures View(r, s, items) == items
    decreases items, 1
  {
    forall i | 0 <= i < |items|
      ensures TidyItem(r, s, items[i])
    {
    }
    TidyKept(r, s, items);
    SortedItemsStay(r, s.sort, items);
  }

  /** Building the view of a view with the same settings changes nothing. */
  lemma ViewIdempotent(r: Reading, s: Settings, items: seq<Value>)
    ensures View(r, s, View(r, s, items)) == View(r, s, items)
  {
    ViewTidy(r, s, items);
    TidyStays(r, s, View(r, s, items));
  }

  // ----- The loops -----

  lemma FlattenFrom(items: seq<Value>, i: nat)
    requires i < |items|
    ensures Flatten(items[i..]) == LeavesOf(items[i]) + Flatten(items[i + 1..])
  {
    FlattenCons(items[i], items[i + 1..]);
    assert items[i..] == [items[i]] + items[i + 1..];
  }

  lemma KeptFrom(r: Reading, s: Settings, items: seq<Value>, i: nat)
    requires i < |items|
    ensures Kept(r, s, items[i..]) == KeptItem(r, s, items[i]) + Kept(r, s, items[i + 1..])
  {
    assert items[i..][1..] == items[i + 1..];
  }

  method FlattenLeaves(items: seq<Value>) returns (result: seq<Value>)
    ensures result == Flatten(items)
    decreases items
  {
    result := [];
    for i := 0 to |items|
      invariant result + Flatten(items[i..]) == Flatten(items)
    {
      FlattenFrom(items, i);
      hide Flatten, IsGroup, Children;
      if IsGroup(items[i]) {
        var leaves := FlattenLeaves(Children(items[i]));
        result := result + leaves;
      } else {
        result := result + [items[i]];
      }
    }
  }

  method CreateDevicePanelView(r: Reading, s: Settings, items: seq<Value>) returns (view: seq<Value>)
    ensures view == View(r, s, items)
    decreases items
  {
    var result := [];
    for i := 0 to |items|
      invariant result + Kept(r, s, items[i..]) == Kept(r, s, items)
    {
      ghost var before := result;
      KeptFrom(r, s, items, i);
      hide Kept, IsGroup, Children, WithChildren, View;
      if IsGroup(items[i]) {
        var children := CreateDevicePanelView(r, s, Children(items[i]));
        if |children| > 0 {
          result := result + [WithChildren(items[i], children)];
        }
      } else {
        var d := r.describe(items[i]);
        if !(!s.showHidden && d.hidden) && MatchesPrimary(d, s.primary) && MatchesMotion(d, s.motion) {
          result := result + [items[i]];
        }
      }
      assert result == before + KeptItem(r, s, items[i]);
      hide KeptItem;
      Regroup(before, KeptItem(r, s, items[i]), Kept(r, s, items[i + 1..]));
    }
    assert result == result + [];
    view := SortItems(r, s.sort, result);
  }

  datatype Counts = Counts(all: nat, online: nat, following: nat, offline: nat, moving: nat, idling: nat, still: nat)

  /** The number of leaves that one badge's filters let through. */
  function BadgeCount(r: Reading, items: seq<Value>, primary: PrimaryFilter, motion: MotionFilter, showHidden: bool): nat {
    |Passing(r, Settings(primary, motion, NameAsc, showHidden), Flatten(items))|
  }

  lemma {:induction false} PassingIgnoresSort(r: Reading, s: Settings, leaves: seq<Value>, mode: SortMode)
    ensures Passing(r, s.(sort := mode), leaves) == Passing(r, s, leaves)
  {
    if leaves != [] {
      PassingIgnoresSort(r, s, leaves[1..], mode);
    }
  }

  /** A badge shows as many leaves as the view under its filters, whatever the sort mode. */
  lemma BadgeMatchesView(r: Reading, items: seq<Value>, s: Settings)
    ensures BadgeCount(r, items, s.primary, s.motion, s.showHidden) == |Flatten(View(r, s, items))|
  {
    ViewLeaves(r, s, items);
    PassingIgnoresSort(r, s, Flatten(items), NameAsc);
    assert |multiset(Flatten(View(r, s, items)))| == |multiset(Passing(r, s, Flatten(items)))|;
  }

  method BuildCounts(r: Reading, items: seq<Value>, showHidden: bool) returns (c: Counts)
    ensures c.all == BadgeCount(r, items, AnyState, AnyMotion, showHidden)
    ensures c.online == BadgeCount(r, items, Online, AnyMotion, showHidden)
    ensures c.following == BadgeCount(r, items, Following, AnyMotion, showHidden)
    ensures c.offline == BadgeCount(r, items, Offline, AnyMotion, showHidden)
    ensures c.moving == BadgeCount(r, items, AnyState, Only(Moving), showHidden)
    ensures c.idling == BadgeCount(r, items, AnyState, Only(Idling), showHidden)
    ensures c.still == BadgeCount(r, items, AnyState, Only(Static), showHidden)
  {
    var flat := FlattenLeaves(items);
    var visible := Settings(AnyState, AnyMotion, NameAsc, showHidden);
    var leaves := Passing(r, visible, flat);
    c := Counts(|leaves|, 0, 0, 0, 0, 0, 0);
    for i := 0 to |leaves|
      invariant c.all == |leaves|
      invariant c.online == |Passing(r, visible.(primary := Online), leaves[..i])|
      invariant c.following == |Passing(r, visible.(primary := Following), leaves[..i])|
      invariant c.offline == |Passing(r, visible.(primary := Offline), leaves[..i])|
      invariant c.moving == |Passing(r, visible.(motion := Only(Moving)), leaves[..i])|
      invariant c.idling == |Passing(r, visible.(motion := Only(Idling)), leaves[..i])|
      invariant c.still == |Passing(r, visible.(motion := Only(Static)), leaves[..i])|
    {
      PassingElement(r, visible, flat, i);
      PassingNext(r, visible.(primary := Online), leaves, i);
      PassingNext(r, visible.(primary := Following), leaves, i);
      PassingNext(r, visible.(primary := Offline), leaves, i);
      PassingNext(r, visible.(motion := Only(Moving)), leaves, i);
      PassingNext(r, visible.(motion := Only(Idling)), leaves, i);
      PassingNext(r, visible.(motion := Only(Static)), leaves, i);
      hide Passing;
      var d := r.describe(leaves[i]);
      if d.online == Some(true) { c := c.(online := c.online + 1); }
      if d.online == Some(false) { c := c.(offline := c.offline + 1); }
      if d.following { c := c.(following := c.following + 1); }
      if d.motion == Moving { c := c.(moving := c.moving + 1); }
      if d.motion == Idling { c := c.(idling := c.idling + 1); }
      if d.motion == Static { c := c.(still := c.still + 1); }
    }
    assert leaves[..|leaves|] == leaves;
    NarrowerFilter(r, visible, visible.(primary := Online), flat);
    NarrowerFilter(r, visible, visible.(primary := Following), flat);
    NarrowerFilter(r, visible, visible.(primary := Offline), flat);
    NarrowerFilter(r, visible, visible.(motion := Only(Moving)), flat);
    NarrowerFilter(r, visible, visible.(motion := Only(Idling)), flat);
    NarrowerFilter(r, visible, visible.(motion := Only(Static)), flat);
  }

  lemma PassingNext(r: Reading, s: Settings, leaves: seq<Value>, i: nat)
    requires i < |leaves|
    ensures |Passing(r, s, leaves[..i + 1])| == |Passing(r, s, leaves[..i])| + if Passes(r, s, leaves[i]) then 1 else 0
  {
    assert leaves[..i + 1] == leaves[..i] + [leaves[i]];
    PassingAppend(r, s, leaves[..i], [leaves[i]]);
  }

  lemma {:induction false} PassingElement(r: Reading, s: Settings, leaves: seq<Value>, i: nat)
    requires i < |Passing(r, s, leaves)|
    ensures Passes(r, s, Passing(r, s, leaves)[i])
  {
    if Passes(r, s, leaves[0]) {
      if i > 0 {
        PassingElement(r, s, leaves[1..], i - 1);
      }
    } else {
      PassingElement(r, s, leaves[1..], i);
    }
  }

  /** Filtering the visible leaves again gives the leaves of the narrower filter. */
  lemma {:induction false} NarrowerFilter(r: Reading, visible: Settings, s: Settings, leaves: seq<Value>)
    requires visible.primary == AnyState && visible.motion == AnyMotion && visible.showHidden == s.showHidden
    ensures Passing(r, s, Passing(r, visible, leaves)) == Passing(r, s, leaves)
  {
    if leaves != [] {
      NarrowerFilter(r, visible, s, leaves[1..]);
      var rest := Passing(r, visible, leaves[1..]);
      assert ([leaves[0]] + rest)[1..] == rest;
      assert [] + rest == rest;
      assert Passes(r, s, leaves[0]) ==> Passes(r, visible, leaves[0]);
    }
  }
}
