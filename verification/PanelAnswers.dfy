/** What the device panel shows, said of the records and not through the functions that build the view. */
module PanelAnswers {
  import opened Options
  import opened DevicePanel

  // ----- Groups -----

  ghost predicate FirstField(fields: seq<(string, Value)>, key: string, i: nat) {
    i < |fields| && fields[i].0 == key && forall j :: 0 <= j < i ==> fields[j].0 != key
  }

  /** The first of the keys under which the record holds an array is found at position i. */
  ghost predicate Holds(fields: seq<(string, Value)>, keys: seq<string>, i: nat) {
    exists k :: 0 <= k < |keys| && FirstField(fields, keys[k], i) && fields[i].1.Arr?
                && forall l, j: nat :: 0 <= l < k && FirstField(fields, keys[l], j) ==> !fields[j].1.Arr?
  }

  lemma {:induction false} ChildFieldMeans(fields: seq<(string, Value)>, keys: seq<string>)
    ensures var r := ChildField(fields, keys);
            && (r.Some? ==> Holds(fields, keys, r.value))
            && (r.None? ==> forall l, j: nat :: 0 <= l < |keys| && FirstField(fields, keys[l], j) ==> !fields[j].1.Arr?)
  {
    if keys != [] {
      var i := FieldIndex(fields, keys[0]);
      assert forall j: nat :: FirstField(fields, keys[0], j) ==> j == i;
      if HoldsArray(fields, keys[0]) {
        assert FirstField(fields, keys[0], i);
      } else {
        ChildFieldMeans(fields, keys[1..]);
        hide ChildField, FirstField;
        assert forall l :: 0 < l < |keys| ==> keys[l] == keys[1..][l - 1];
        var r := ChildField(fields, keys[1..]);
        if r.Some? {
          var k :| 0 <= k < |keys[1..]| && FirstField(fields, keys[1..][k], r.value) && fields[r.value].1.Arr?
                   && forall l, j: nat :: 0 <= l < k && FirstField(fields, keys[1..][l], j) ==> !fields[j].1.Arr?;
          assert FirstField(fields, keys[k + 1], r.value);
        }
      }
    }
  }

  lemma HoldsOnce(fields: seq<(string, Value)>, keys: seq<string>, i: nat, j: nat)
    requires Holds(fields, keys, i) && Holds(fields, keys, j)
    ensures i == j
  {
  }

  /** The property that makes a value a group. */
  ghost predicate GroupAt(v: Value, i: nat) {
    v.Rec? && i < |v.fields| && v.fields[i].1.Arr?
    && Holds(v.fields, ["devices", "items", "children", "objects", "vehicles", "trackers", "rows"], i)
  }

  /** Main theorem.  A value is a group exactly when it holds an array under one of the seven keys; its children
      are those under the first such key in the order of the keys, and replacing them changes nothing else. */
  lemma GroupMeans(v: Value, i: nat, c: seq<Value>)
    ensures IsGroup(v) <==> exists j: nat :: GroupAt(v, j)
    ensures GroupAt(v, i) ==> Children(v) == v.fields[i].1.items && WithChildren(v, c) == Rec(v.fields[i := (v.fields[i].0, Arr(c))])
  {
    hide Holds, ChildField;
    if v.Rec? {
      ChildFieldMeans(v.fields, CHILD_COLLECTION_KEYS);
      var r := ChildField(v.fields, CHILD_COLLECTION_KEYS);
      if r.Some? {
        assert GroupAt(v, r.value);
        if GroupAt(v, i) {
          HoldsOnce(v.fields, CHILD_COLLECTION_KEYS, i, r.value);
        }
      } else if j: nat :| GroupAt(v, j) {
        NotHeld(v.fields, CHILD_COLLECTION_KEYS, j);
      }
    }
  }

  lemma NotHeld(fields: seq<(string, Value)>, keys: seq<string>, i: nat)
    requires forall l, j: nat :: 0 <= l < |keys| && FirstField(fields, keys[l], j) ==> !fields[j].1.Arr?
    ensures !Holds(fields, keys, i)
  {
  }

  // ----- Filters and order -----

  /** The filters let a device through. */
  ghost predicate Shown(d: Descriptor, s: Settings) {
    && (d.hidden ==> s.showHidden)
    && (s.primary == Online ==> d.online == Some(true))
    && (s.primary == Offline ==> d.online == Some(false))
    && (s.primary == Following ==> d.following)
    && (s.motion == AnyMotion || s.motion == Only(d.motion))
  }

  /** a may stand before b. */
  ghost predicate MayPrecede(r: Reading, mode: SortMode, a: Value, b: Value) {
    var x, y := r.describe(a), r.describe(b);
    && (mode == NameAsc ==> r.nameRank(x.name) <= r.nameRank(y.name))
    && (mode == NameDesc ==> r.nameRank(x.name) >= r.nameRank(y.name))
    && (mode == Newest ==> x.updatedAt >= y.updatedAt)
    && (mode == Oldest ==> x.updatedAt <= y.updatedAt)
  }

  /** Each level is in the order of the mode, its groups have children that are so too, and its devices pass. */
  ghost predicate Displayed(r: Reading, s: Settings, items: seq<Value>)
    decreases items
  {
    && (forall i, j :: 0 <= i < j < |items| ==> MayPrecede(r, s.sort, items[i], items[j]))
    && (forall i :: 0 <= i < |items| ==> if IsGroup(items[i]) then Children(items[i]) != [] && Displayed(r, s, Children(items[i]))
                                         else Shown(r.describe(items[i]), s))
  }

  lemma PassesMeans(r: Reading, s: Settings, v: Value)
    ensures Passes(r, s, v) <==> Shown(r.describe(v), s)
  {
  }

  lemma {:induction false} TidyMeans(r: Reading, s: Settings, items: seq<Value>)
    ensures Tidy(r, s, items) <==> Displayed(r, s, items)
    decreases items
  {
    hide IsGroup, Children, Passes, Shown;
    forall i | 0 <= i < |items|
      ensures if IsGroup(items[i]) then Tidy(r, s, Children(items[i])) <==> Displayed(r, s, Children(items[i]))
              else Passes(r, s, items[i]) <==> Shown(r.describe(items[i]), s)
    {
      if IsGroup(items[i]) {
        TidyMeans(r, s, Children(items[i]));
      } else {
        PassesMeans(r, s, items[i]);
      }
    }
    forall i, j | 0 <= i < j < |items|
      ensures SortKey(r, s.sort, items[i]) <= SortKey(r, s.sort, items[j]) <==> MayPrecede(r, s.sort, items[i], items[j])
    {
    }
    hide SortKey, MayPrecede;
  }

  lemma {:induction false} PassingCount(r: Reading, s: Settings, leaves: seq<Value>, v: Value)
    ensures multiset(Passing(r, s, leaves))[v] == if Shown(r.describe(v), s) then multiset(leaves)[v] else 0
  {
    hide Passes, Shown;
    if leaves != [] {
      PassingCount(r, s, leaves[1..], v);
      PassesMeans(r, s, leaves[0]);
      assert leaves == [leaves[0]] + leaves[1..];
    }
  }

  /** Main theorem.  The view shows every device of the source that the filters let through as often as the
      source has it and no other, each level in the order of the mode. */
  lemma ViewMeans(r: Reading, s: Settings, items: seq<Value>, v: Value)
    ensures var view := View(r, s, items);
            && multiset(Flatten(view))[v] == (if Shown(r.describe(v), s) then multiset(Flatten(items))[v] else 0)
            && Displayed(r, s, view)
  {
    hide View, Tidy, Displayed, Shown;
    ViewLeaves(r, s, items);
    PassingCount(r, s, Flatten(items), v);
    ViewTidy(r, s, items);
    TidyMeans(r, s, View(r, s, items));
  }
}
