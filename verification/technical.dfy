/** The Technical Tracker page: tasks grouped by component type in order of
    first appearance, the three status counts and the completion rate. */
module TechnicalTracker {
  import opened Options
  import opened Records
  import opened Lists
  import Percent

  function TypeOf(item: TechnicalItem): ComponentType {
    item.componentType
  }

  /** `item => item.componentType === t` */
  function OfType(t: ComponentType): TechnicalItem -> bool {
    (item: TechnicalItem) => item.componentType == t
  }

  /** `i => i.status === s` */
  function InStatus(s: TechnicalStatus): TechnicalItem -> bool {
    (item: TechnicalItem) => item.status == s
  }

  /** One `[type, items]` entry of `Object.entries(groupedItems)`. */
  datatype Group = Group(componentType: ComponentType, items: seq<TechnicalItem>)

  function GroupKeys(groups: seq<Group>): (keys: seq<ComponentType>)
    ensures |keys| == |groups|
    ensures forall g :: 0 <= g < |groups| ==> keys[g] == groups[g].componentType
  {
    if |groups| == 0 then [] else GroupKeys(groups[..|groups| - 1]) + [groups[|groups| - 1].componentType]
  }

  /** The total number of tasks over all groups. */
  function GroupSizes(groups: seq<Group>): nat {
    if |groups| == 0 then 0 else GroupSizes(groups[..|groups| - 1]) + |groups[|groups| - 1].items|
  }

  /** `acc[t]`: the position of the group for type `t`, if there is one. */
  function GroupOf(groups: seq<Group>, t: ComponentType): (r: Option<nat>)
    ensures r.Some? ==> r.value < |groups| && groups[r.value].componentType == t
    ensures r.None? <==> t !in GroupKeys(groups)
  {
    if |groups| == 0 then None
    else if groups[|groups| - 1].componentType == t then Some(|groups| - 1)
    else GroupOf(groups[..|groups| - 1], t)
  }

  predicate DistinctKeys(groups: seq<Group>) {
    forall g, h :: 0 <= g < h < |groups| ==> groups[g].componentType != groups[h].componentType
  }

  /** One step of the reduce: create the group for the item's type on first
      sight (a new key goes last among the object's keys), then push the
      item onto it. */
  function Push(groups: seq<Group>, item: TechnicalItem): (r: seq<Group>)
  {
    var t := item.componentType;
    match GroupOf(groups, t)
    case None => groups + [Group(t, [item])]
    case Some(g) => groups[g := Group(t, groups[g].items + [item])]
  }

  /** `Object.entries(technicalItems.reduce(...))`. */
  function GroupedItems(items: seq<TechnicalItem>): seq<Group> {
    if |items| == 0 then [] else Push(GroupedItems(items[..|items| - 1]), items[|items| - 1])
  }

  /** Pushing adds the item's type as a new last key exactly when no group
      has it yet. */
  lemma PushKeys(groups: seq<Group>, item: TechnicalItem)
    ensures var t := item.componentType;
      GroupKeys(Push(groups, item))
        == if t in GroupKeys(groups) then GroupKeys(groups) else GroupKeys(groups) + [t]
  {
    var t := item.componentType;
    var r := Push(groups, item);
    var keys := GroupKeys(groups);
    match GroupOf(groups, t)
    case None =>
      assert GroupKeys(r) == keys + [t];
    case Some(g) =>
      assert GroupKeys(r) == keys;
  }

  /** Pushing appends the item to the group of its type and to no other, and
      opens a group of its own for an unseen type. */
  lemma PushItems(groups: seq<Group>, item: TechnicalItem, g: nat)
    requires DistinctKeys(groups)
    requires g <= |groups|
    ensures g < |groups| ==>
      Push(groups, item)[g] == Group(groups[g].componentType,
        groups[g].items + if groups[g].componentType == item.componentType then [item] else [])
    ensures g == |groups| && item.componentType !in GroupKeys(groups) ==>
      Push(groups, item)[g] == Group(item.componentType, [item])
  {
  }

  lemma {:induction false} PushSizes(groups: seq<Group>, item: TechnicalItem)
    ensures GroupSizes(Push(groups, item)) == GroupSizes(groups) + 1
  {
    var t := item.componentType;
    match GroupOf(groups, t)
    case None =>
      assert Push(groups, item)[..|groups|] == groups;
    case Some(g) =>
      SizesUpdate(groups, g, Group(t, groups[g].items + [item]));
  }

  lemma {:induction false} SizesUpdate(groups: seq<Group>, g: nat, v: Group)
    requires g < |groups|
    ensures GroupSizes(groups[g := v]) == GroupSizes(groups) - |groups[g].items| + |v.items|
  {
    var n := |groups| - 1;
    var r := groups[g := v];
    if g < n {
      SizesUpdate(groups[..n], g, v);
      assert r[..n] == groups[..n][g := v];
    } else {
      assert r[..n] == groups[..n];
    }
  }

  /** The groups appear in order of each type's first task. */
  lemma {:induction false} GroupedKeys(items: seq<TechnicalItem>)
    ensures GroupKeys(GroupedItems(items)) == FirstOccurrences(Map(items, TypeOf))
  {
    if |items| > 0 {
      var n := |items| - 1;
      var init := items[..n];
      var x := items[n];
      GroupedKeys(init);
      PushKeys(GroupedItems(init), x);
      var types := Map(items, TypeOf);
      assert types[..n] == Map(init, TypeOf);
      assert types[n] == x.componentType;
    }
  }

  lemma GroupsDistinct(items: seq<TechnicalItem>)
    ensures DistinctKeys(GroupedItems(items))
  {
    GroupedKeys(items);
    var keys := GroupKeys(GroupedItems(items));
    assert forall g :: 0 <= g < |keys| ==> keys[g] == GroupedItems(items)[g].componentType;
  }

  /** Each group holds exactly the tasks of its type, in list order. */
  lemma {:induction false} GroupedItemsSpec(items: seq<TechnicalItem>)
    ensures forall g :: 0 <= g < |GroupedItems(items)| ==>
      GroupedItems(items)[g].items == Filter(items, OfType(GroupedItems(items)[g].componentType))
  {
    if |items| > 0 {
      var n := |items| - 1;
      var init := items[..n];
      var x := items[n];
      var before := GroupedItems(init);
      GroupedItemsSpec(init);
      GroupsDistinct(init);
      var after := GroupedItems(items);
      assert after == Push(before, x);
      forall g | 0 <= g < |after|
        ensures after[g].items == Filter(items, OfType(after[g].componentType))
      {
        PushKeys(before, x);
        PushItems(before, x, g);
        if g == |before| {
          forall i | 0 <= i < |init| ensures !OfType(x.componentType)(init[i]) {
            TypeHasGroup(init, i);
          }
          FilterNone(init, OfType(x.componentType));
        }
      }
    }
  }

  /** Every task's type has a group. */
  lemma TypeHasGroup(items: seq<TechnicalItem>, i: nat)
    requires i < |items|
    ensures items[i].componentType in GroupKeys(GroupedItems(items))
  {
    GroupedKeys(items);
    var types := Map(items, TypeOf);
    assert types[i] == items[i].componentType;
  }

  /** The group keys are distinct, and a type has a group exactly when some
      task has that type. */
  lemma GroupKeysAreTypes(items: seq<TechnicalItem>, t: ComponentType)
    ensures DistinctKeys(GroupedItems(items))
    ensures t in GroupKeys(GroupedItems(items)) <==> exists i :: 0 <= i < |items| && items[i].componentType == t
  {
    GroupsDistinct(items);
    GroupedKeys(items);
    var keys := GroupKeys(GroupedItems(items));
    var types := Map(items, TypeOf);
    if exists i :: 0 <= i < |items| && items[i].componentType == t {
      var i :| 0 <= i < |items| && items[i].componentType == t;
      assert types[i] == t;
    }
    if t in keys {
      var g :| 0 <= g < |keys| && keys[g] == t;
      var i :| 0 <= i < |types| && types[i] == t;
    }
  }

  /** Each task sits in the group of its own type and in no other. */
  lemma GroupsPartition(items: seq<TechnicalItem>, g: nat, x: TechnicalItem)
    requires g < |GroupedItems(items)|
    ensures var group := GroupedItems(items)[g];
      multiset(group.items)[x] == if x.componentType == group.componentType then multiset(items)[x] else 0
  {
    GroupedItemsSpec(items);
    FilterMultiset(items, OfType(GroupedItems(items)[g].componentType), x);
  }

  /** Grouping neither loses nor duplicates tasks. */
  lemma {:induction false} GroupSizesTotal(items: seq<TechnicalItem>)
    ensures GroupSizes(GroupedItems(items)) == |items|
  {
    if |items| > 0 {
      var n := |items| - 1;
      GroupSizesTotal(items[..n]);
      PushSizes(GroupedItems(items[..n]), items[n]);
    }
  }

  /** `technicalItems.filter(i => i.status === s).length` */
  function StatusCount(items: seq<TechnicalItem>, s: TechnicalStatus): (c: nat)
    ensures c == |Indices(items, InStatus(s))|
  {
    FilterLengthCountsIndices(items, InStatus(s));
    |Filter(items, InStatus(s))|
  }

  /** The three status tiles account for every task exactly once. */
  lemma {:induction false} StatusCountsTotal(items: seq<TechnicalItem>)
    ensures StatusCount(items, Completed) + StatusCount(items, InProgress) + StatusCount(items, NotStarted)
      == |items|
  {
    if |items| > 0 {
      var n := |items| - 1;
      StatusCountsTotal(items[..n]);
    }
  }

  /** The completion rate; `None` is the `NaN%` an empty list shows. */
  function CompletionRate(items: seq<TechnicalItem>): (r: Option<nat>)
    ensures r.None? <==> |items| == 0
    ensures r.Some? ==> r.value <= 100
    ensures r.Some? && (forall i :: 0 <= i < |items| ==> items[i].status == Completed) ==> r.value == 100
    ensures r.Some? && (forall i :: 0 <= i < |items| ==> items[i].status != Completed) ==> r.value == 0
  {
    var done := StatusCount(items, Completed);
    var rate := Percent.RoundPercent(done, |items|);
    assert rate.Some? ==> rate.value <= 100 by {
      if |items| > 0 {
        Percent.RoundPercentBounded(done, |items|);
      }
    }
    assert rate.Some? && (forall i :: 0 <= i < |items| ==> items[i].status == Completed) ==> rate.value == 100 by {
      if |items| > 0 && forall i :: 0 <= i < |items| ==> items[i].status == Completed {
        FilterAll(items, InStatus(Completed));
        Percent.RoundPercentExtremes(|items|);
      }
    }
    assert rate.Some? && (forall i :: 0 <= i < |items| ==> items[i].status != Completed) ==> rate.value == 0 by {
      if |items| > 0 && forall i :: 0 <= i < |items| ==> items[i].status != Completed {
        FilterNone(items, InStatus(Completed));
        Percent.RoundPercentExtremes(|items|);
      }
    }
    rate
  }

  /** The rate is the completed share of the list, rounded half up. */
  lemma CompletionRateIsShare(items: seq<TechnicalItem>)
    requires |items| > 0
    ensures var r := CompletionRate(items).value;
      2 * |items| * r <= 200 * StatusCount(items, Completed) + |items| < 2 * |items| * r + 2 * |items|
  {
  }
}
