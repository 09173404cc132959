/** What the page shows besides the service cards: the header widgets and the
    bookmark groups, both put into order from lists that come in any order. */
module Display {
  import opened Ordering
  import opened Binding
  import opened Store

  // ---------------------------------------------------------- header widgets

  /** One entry of a bound InfoWidget; `name` and `index` identify it. */
  datatype HeaderWidget = HeaderWidget(name: string, index: nat, order: Option<int>, config: string)

  datatype InfoEntry = InfoEntry(order: Option<int>, config: string)

  datatype InfoWidget = InfoWidget(name: string, ref: Option<string>, entries: seq<InfoEntry>)

  function CompareHeaders(a: HeaderWidget, b: HeaderWidget): int {
    if CompareOrder(a.order, b.order) != 0 then CompareOrder(a.order, b.order)
    else if Compare(a.name, b.name) != 0 then Compare(a.name, b.name)
    else CompareIndex(a.index, b.index)
  }

  function CompareIndex(i: nat, j: nat): int { i - j }

  lemma CompareIndexConsistent()
    ensures Consistent(CompareIndex)
  {
  }

  lemma CompareHeadersConsistent()
    ensures Consistent(CompareHeaders)
  {
    hide Consistent, CompareOrder;
    CompareConsistent();
    CompareOrderConsistent();
    CompareIndexConsistent();
    var byOrder := By((h: HeaderWidget) => h.order, CompareOrder);
    var byName := By((h: HeaderWidget) => h.name, Compare);
    var byIndex := By((h: HeaderWidget) => h.index, CompareIndex);
    ByConsistent((h: HeaderWidget) => h.order, CompareOrder);
    ByConsistent((h: HeaderWidget) => h.name, Compare);
    ByConsistent((h: HeaderWidget) => h.index, CompareIndex);
    ThenConsistent(byName, byIndex);
    ThenConsistent(byOrder, Then(byName, byIndex));
    SameComparison(Then(byOrder, Then(byName, byIndex)), CompareHeaders);
  }

  function Headers(w: InfoWidget): seq<HeaderWidget> {
    seq(|w.entries|,
      i requires 0 <= i < |w.entries| => HeaderWidget(w.name, i, w.entries[i].order, w.entries[i].config))
  }

  /** The entries of the bound InfoWidgets, one after the other. */
  function Flatten(items: seq<InfoWidget>, dashboard: string, dashboards: nat): seq<HeaderWidget> {
    if items == [] then []
    else
      (if BoundTo(RefName(items[0].ref), dashboard, dashboards) then Headers(items[0]) else [])
      + Flatten(items[1..], dashboard, dashboards)
  }

  lemma {:induction false} FlattenConcat(a: seq<InfoWidget>, b: seq<InfoWidget>, dashboard: string, dashboards: nat)
    ensures Flatten(a + b, dashboard, dashboards) == Flatten(a, dashboard, dashboards)
      + Flatten(b, dashboard, dashboards)
  {
    if a == [] {
      assert a + b == b;
    } else {
      assert (a + b)[1..] == a[1..] + b;
      hide Headers, BoundTo;
      FlattenConcat(a[1..], b, dashboard, dashboards);
      var head := if BoundTo(RefName(a[0].ref), dashboard, dashboards) then Headers(a[0]) else [];
      assert Flatten(a, dashboard, dashboards) == head + Flatten(a[1..], dashboard, dashboards);
      assert Flatten(a + b, dashboard, dashboards) == head + Flatten(a[1..] + b, dashboard, dashboards);
    }
  }

  /** `h` is entry number `h.index` of `w`. */
  ghost predicate IsEntryOf(h: HeaderWidget, w: InfoWidget) {
    && h.name == w.name && h.index < |w.entries|
    && h.order == w.entries[h.index].order && h.config == w.entries[h.index].config
  }

  /** How often the InfoWidgets of this Dashboard list `h`. */
  ghost function Listed(items: seq<InfoWidget>, dashboard: string, dashboards: nat, h: HeaderWidget): nat {
    if items == [] then 0
    else
      (if Claims(items[0].ref, dashboard, dashboards) && IsEntryOf(h, items[0]) then 1 else 0)
      + Listed(items[1..], dashboard, dashboards, h)
  }

  lemma HeadersCount(w: InfoWidget, h: HeaderWidget)
    ensures multiset(Headers(w))[h] == if IsEntryOf(h, w) then 1 else 0
  {
    var hs := Headers(w);
    assert forall i :: 0 <= i < |hs| ==> hs[i].index == i;
    if IsEntryOf(h, w) {
      assert hs[h.index] == h;
      assert hs == hs[..h.index] + [h] + hs[h.index + 1..];
      assert h !in hs[..h.index] && h !in hs[h.index + 1..];
    } else {
      assert h !in hs;
    }
  }

  lemma {:induction false} FlattenCounts(items: seq<InfoWidget>, dashboard: string, dashboards: nat, h: HeaderWidget)
    ensures multiset(Flatten(items, dashboard, dashboards))[h] == Listed(items, dashboard, dashboards, h)
  {
    if items != [] {
      HeadersCount(items[0], h);
      BoundToIsClaims(items[0].ref, dashboard, dashboards);
      FlattenCounts(items[1..], dashboard, dashboards, h);
      hide BoundTo, Claims, Headers, IsEntryOf;
    }
  }

  lemma {:induction false} ListedOnce(items: seq<InfoWidget>, dashboard: string, dashboards: nat, h: HeaderWidget)
    ensures Listed(items, dashboard, dashboards, h) > 0 <==>
      exists w :: w in items && Claims(w.ref, dashboard, dashboards) && IsEntryOf(h, w)
    ensures (forall i, j :: 0 <= i < j < |items| ==> items[i].name != items[j].name) ==>
      Listed(items, dashboard, dashboards, h) <= 1
  {
    hide Claims;
    if items != [] {
      ListedOnce(items[1..], dashboard, dashboards, h);
      assert forall w :: w in items <==> w == items[0] || w in items[1..];
    }
  }

  /** The header strip has exactly the entries of the InfoWidgets that name this Dashboard,
      or name none where there is no other; each once, if object names are unique. */
  lemma HeadersAreTheBoundEntries(items: seq<InfoWidget>, dashboard: string, dashboards: nat, out: seq<HeaderWidget>,
                                  h: HeaderWidget)
    requires multiset(out) == multiset(Flatten(items, dashboard, dashboards))
    ensures h in out <==> exists w :: w in items && Claims(w.ref, dashboard, dashboards) && IsEntryOf(h, w)
    ensures (forall i, j :: 0 <= i < j < |items| ==> items[i].name != items[j].name) && h in out ==>
      multiset(out)[h] == 1
  {
    hide Claims, IsEntryOf, Flatten;
    FlattenCounts(items, dashboard, dashboards, h);
    ListedOnce(items, dashboard, dashboards, h);
    assert h in out <==> multiset(out)[h] > 0;
  }

  /** `headerWidgets`, up to rendering. */
  method HeaderWidgets(items: seq<InfoWidget>, dashboard: string, dashboards: nat) returns (out: seq<HeaderWidget>)
    ensures SortedBy(CompareHeaders, out)
    ensures multiset(out) == multiset(Flatten(items, dashboard, dashboards))
    ensures forall h ::
      h in out <==> exists w :: w in items && Claims(w.ref, dashboard, dashboards) && IsEntryOf(h, w)
  {
    out := [];
    for i := 0 to |items|
      invariant out == Flatten(items[..i], dashboard, dashboards)
    {
      assert items[..i + 1] == items[..i] + [items[i]];
      FlattenConcat(items[..i], [items[i]], dashboard, dashboards);
      if BoundTo(RefName(items[i].ref), dashboard, dashboards) {
        for j := 0 to |items[i].entries|
          invariant out == Flatten(items[..i], dashboard, dashboards) + Headers(items[i])[..j]
        {
          var e := items[i].entries[j];
          out := out + [HeaderWidget(items[i].name, j, e.order, e.config)];
        }
        assert Headers(items[i])[..|items[i].entries|] == Headers(items[i]);
      }
      assert Flatten([items[i]], dashboard, dashboards)
          == (if BoundTo(RefName(items[i].ref), dashboard, dashboards) then Headers(items[i]) else []) + [];
    }
    assert items[..|items|] == items;
    CompareHeadersConsistent();
    out := SortFunc(CompareHeaders, out);
    forall h
      ensures h in out <==> exists w :: w in items && Claims(w.ref, dashboard, dashboards) && IsEntryOf(h, w)
    {
      HeadersAreTheBoundEntries(items, dashboard, dashboards, out, h);
    }
  }

  /** Object names are unique in a namespace. */
  ghost predicate UniqueNames(items: seq<InfoWidget>) {
    forall a, b :: a in items && b in items && a.name == b.name ==> a == b
  }

  lemma {:induction false} FlattenMember(items: seq<InfoWidget>, dashboard: string, dashboards: nat, h: HeaderWidget)
    requires h in Flatten(items, dashboard, dashboards)
    ensures exists w :: w in items && h in Headers(w)
  {
    if items != [] {
      if BoundTo(RefName(items[0].ref), dashboard, dashboards) && h in Headers(items[0]) {
      } else {
        FlattenMember(items[1..], dashboard, dashboards, h);
      }
    }
  }

  lemma FlattenRemove(items: seq<InfoWidget>, i: nat, dashboard: string, dashboards: nat)
    requires i < |items|
    ensures multiset(Flatten(items, dashboard, dashboards))
         == multiset(Flatten([items[i]], dashboard, dashboards))
          + multiset(Flatten(items[..i] + items[i + 1..], dashboard, dashboards))
  {
    hide Flatten;
    var front, back := items[..i], items[i + 1..];
    assert items == (front + [items[i]]) + back;
    FlattenConcat(front + [items[i]], back, dashboard, dashboards);
    FlattenConcat(front, [items[i]], dashboard, dashboards);
    FlattenConcat(front, back, dashboard, dashboards);
  }

  lemma RemoveMultiset(items: seq<InfoWidget>, i: nat)
    requires i < |items|
    ensures multiset(items[..i] + items[i + 1..]) == multiset(items) - multiset{items[i]}
  {
    assert items == items[..i] + [items[i]] + items[i + 1..];
  }

  lemma {:induction false} FlattenIgnoresOrder(items: seq<InfoWidget>, items': seq<InfoWidget>, dashboard: string,
                                               dashboards: nat)
    requires multiset(items) == multiset(items')
    ensures multiset(Flatten(items, dashboard, dashboards)) == multiset(Flatten(items', dashboard, dashboards))
  {
    hide *;
    if items == [] {
      assert |multiset(items')| == |items'|;
    } else {
      var i := Occurrence(items, items');
      var rest, rest' := items[..0] + items[1..], items'[..i] + items'[i + 1..];
      RemoveMultiset(items, 0);
      RemoveMultiset(items', i);
      FlattenRemove(items, 0, dashboard, dashboards);
      FlattenRemove(items', i, dashboard, dashboards);
      FlattenIgnoresOrder(rest, rest', dashboard, dashboards);
    }
  }

  lemma Occurrence(items: seq<InfoWidget>, items': seq<InfoWidget>) returns (i: nat)
    requires multiset(items) == multiset(items') && items != []
    ensures i < |items'| && items'[i] == items[0]
  {
    assert items[0] in multiset(items');
    i :| 0 <= i < |items'| && items'[i] == items[0];
  }

  lemma HeadersDoNotTie(items: seq<InfoWidget>, dashboard: string, dashboards: nat, a: HeaderWidget, b: HeaderWidget)
    requires UniqueNames(items) && CompareHeaders(a, b) == 0
    requires a in Flatten(items, dashboard, dashboards) && b in Flatten(items, dashboard, dashboards)
    ensures a == b
  {
    hide Flatten;
    FlattenMember(items, dashboard, dashboards, a);
    FlattenMember(items, dashboard, dashboards, b);
    CompareAntisymmetric(a.name, b.name);
  }

  /** The header strip is the same for every order in which the API server lists the
      InfoWidgets. */
  lemma {:induction false} HeaderOrderIsCanonical(items: seq<InfoWidget>, items': seq<InfoWidget>, dashboard: string,
                                                  dashboards: nat, out: seq<HeaderWidget>, out': seq<HeaderWidget>)
    requires UniqueNames(items) && multiset(items) == multiset(items')
    requires SortedBy(CompareHeaders, out) && multiset(out) == multiset(Flatten(items, dashboard, dashboards))
    requires SortedBy(CompareHeaders, out') && multiset(out') == multiset(Flatten(items', dashboard, dashboards))
    ensures out == out'
  {
    hide Flatten, CompareHeaders, UniqueNames;
    CompareHeadersConsistent();
    FlattenIgnoresOrder(items, items', dashboard, dashboards);
    forall a, b | a in out && b in out && CompareHeaders(a, b) == 0 ensures a == b {
      assert a in multiset(out) && b in multiset(out);
      HeadersDoNotTie(items, dashboard, dashboards, a, b);
    }
    SortedPermutationIsUnique(CompareHeaders, out, out');
  }

  /** Header widgets with an order come first, in that order; then by object name,
      then by place in the object. */
  lemma HeadersReadInOrder(out: seq<HeaderWidget>, i: nat, j: nat)
    requires SortedBy(CompareHeaders, out) && i < j < |out|
    ensures OrderedBefore(out[i].order, out[j].order)
    ensures out[i].order == out[j].order ==> Compare(out[i].name, out[j].name) <= 0
    ensures out[i].order == out[j].order && out[i].name == out[j].name ==> out[i].index <= out[j].index
  {
    CompareAntisymmetric(out[i].name, out[j].name);
  }

  // --------------------------------------------------------- bookmark groups

  datatype BookmarkEntry = BookmarkEntry(name: string, group: string, order: Option<int>, link: string)

  datatype Bookmark = Bookmark(ref: Option<string>, entries: seq<BookmarkEntry>)

  datatype BookmarkGroup = BookmarkGroup(name: string, bookmarks: seq<BookmarkEntry>)

  function CompareEntries(a: BookmarkEntry, b: BookmarkEntry): int {
    if CompareOrder(a.order, b.order) != 0 then CompareOrder(a.order, b.order)
    else Compare(a.name, b.name)
  }

  lemma CompareEntriesConsistent()
    ensures Consistent(CompareEntries)
  {
    hide Consistent, CompareOrder;
    CompareConsistent();
    CompareOrderConsistent();
    ByConsistent((e: BookmarkEntry) => e.order, CompareOrder);
    ByConsistent((e: BookmarkEntry) => e.name, Compare);
    var byOrder := By((e: BookmarkEntry) => e.order, CompareOrder);
    var byName := By((e: BookmarkEntry) => e.name, Compare);
    ThenConsistent(byOrder, byName);
    SameComparison(Then(byOrder, byName), CompareEntries);
  }

  /** Groups by name, each name looked up in a table of orders; a name that is not
      in the table reads as unset. */
  function CompareGroups(orders: map<string, Option<int>>): Cmp<string> {
    Then(By((g: string) => if g in orders then orders[g] else None, CompareOrder), Compare)
  }

  lemma CompareGroupsConsistent(orders: map<string, Option<int>>)
    ensures Consistent(CompareGroups(orders))
  {
    hide Consistent, CompareOrder;
    CompareConsistent();
    CompareOrderConsistent();
    ByConsistent((g: string) => if g in orders then orders[g] else None, CompareOrder);
    ThenConsistent(By((g: string) => if g in orders then orders[g] else None, CompareOrder), Compare);
  }

  /** The bound bookmarks' entries, one after the other. */
  function BoundEntries(items: seq<Bookmark>, dashboard: string, dashboards: nat): seq<BookmarkEntry> {
    if items == [] then []
    else
      BoundEntries(items[..|items| - 1], dashboard, dashboards)
      + (if BoundTo(RefName(items[|items| - 1].ref), dashboard, dashboards) then items[|items| - 1].entries else [])
  }

  /** How often the Bookmarks of this Dashboard list `e`. */
  ghost function TimesBound(items: seq<Bookmark>, dashboard: string, dashboards: nat, e: BookmarkEntry): nat {
    if items == [] then 0
    else
      TimesBound(items[..|items| - 1], dashboard, dashboards, e)
      + if Claims(items[|items| - 1].ref, dashboard, dashboards) then multiset(items[|items| - 1].entries)[e] else 0
  }

  lemma {:induction false} BoundEntriesCount(items: seq<Bookmark>, dashboard: string, dashboards: nat, e: BookmarkEntry)
    ensures multiset(BoundEntries(items, dashboard, dashboards))[e] == TimesBound(items, dashboard, dashboards, e)
    ensures e in BoundEntries(items, dashboard, dashboards) <==>
      exists b :: b in items && Claims(b.ref, dashboard, dashboards) && e in b.entries
  {
    if items != [] {
      var last := items[|items| - 1];
      BoundToIsClaims(last.ref, dashboard, dashboards);
      var front := items[..|items| - 1];
      BoundEntriesCount(front, dashboard, dashboards, e);
      hide BoundTo, Claims, RefName;
      assert items == front + [last];
      assert forall b :: b in items <==> b in front || b == last;
      var own := if BoundTo(RefName(last.ref), dashboard, dashboards) then last.entries else [];
      assert BoundEntries(items, dashboard, dashboards) == BoundEntries(front, dashboard, dashboards) + own;
      hide BoundEntries;
    }
  }

  function InGroup(es: seq<BookmarkEntry>, group: string): seq<BookmarkEntry> {
    if es == [] then []
    else
      InGroup(es[..|es| - 1], group) + (if es[|es| - 1].group == group then [es[|es| - 1]] else [])
  }

  lemma {:induction false} InGroupCounts(es: seq<BookmarkEntry>, group: string, e: BookmarkEntry)
    ensures multiset(InGroup(es, group))[e] == if e.group == group then multiset(es)[e] else 0
  {
    if es != [] {
      InGroupCounts(es[..|es| - 1], group, e);
      assert es == es[..|es| - 1] + [es[|es| - 1]];
    }
  }

  /** `o` is the order of some entry, and no entry's order comes before it. */
  ghost predicate IsLeastOrder(o: Option<int>, es: seq<BookmarkEntry>) {
    && (exists e :: e in es && e.order == o)
    && forall e :: e in es ==> CompareOrder(o, e.order) <= 0
  }

  lemma LeastOrderIsUnique(o: Option<int>, es: seq<BookmarkEntry>, o': Option<int>, es': seq<BookmarkEntry>)
    requires IsLeastOrder(o, es) && IsLeastOrder(o', es') && multiset(es) == multiset(es')
    ensures o == o'
  {
    var e :| e in es && e.order == o;
    var e' :| e' in es' && e'.order == o';
    assert e in multiset(es') && e' in multiset(es);
  }

  /** What the page relies on: `groups` is the grouping of `es`. `orders` gives each
      group the least order of its entries. */
  ghost predicate IsGrouping(es: seq<BookmarkEntry>, groups: seq<BookmarkGroup>, orders: map<string, Option<int>>) {
    && (forall e :: e in es ==> exists g :: g in groups && g.name == e.group)
    && (forall i, j :: 0 <= i < j < |groups| ==> groups[i].name != groups[j].name)
    && (forall i, j :: 0 <= i < j < |groups| ==> CompareGroups(orders)(groups[i].name, groups[j].name) <= 0)
    && (forall g :: g in groups ==> GroupIsRight(es, g, orders))
  }

  /** A group holds exactly its own entries, at least one, in order. */
  ghost predicate GroupIsRight(es: seq<BookmarkEntry>, g: BookmarkGroup, orders: map<string, Option<int>>) {
    && multiset(g.bookmarks) == multiset(InGroup(es, g.name))
    && SortedBy(CompareEntries, g.bookmarks)
    && g.name in orders
    && IsLeastOrder(orders[g.name], g.bookmarks)
  }

  /** The tables built while walking the bound entries. */
  ghost predicate Tables(es: seq<BookmarkEntry>, names: seq<string>, orders: map<string, Option<int>>,
                         members: map<string, seq<BookmarkEntry>>)
  {
    && Distinct(names)
    && (forall g :: g in names <==> g in members)
    && (forall g :: g in members <==> g in orders)
    && (forall e :: e in es ==> e.group in members)
    && (forall g :: g in members ==> members[g] == InGroup(es, g))
    && (forall g :: g in members ==> IsLeastOrder(orders[g], members[g]))
    && (forall g :: g !in members ==> InGroup(es, g) == [])
  }

  lemma LeastOrderExtends(o: Option<int>, es: seq<BookmarkEntry>, e: BookmarkEntry)
    requires IsLeastOrder(o, es)
    ensures IsLeastOrder(if CompareOrder(e.order, o) < 0 then e.order else o, es + [e])
  {
    assert e in es + [e];
    var w :| w in es && w.order == o;
    assert w in es + [e];
  }

  lemma TablesExtendNew(es: seq<BookmarkEntry>, names: seq<string>, orders: map<string, Option<int>>,
                        members: map<string, seq<BookmarkEntry>>, e: BookmarkEntry)
    requires Tables(es, names, orders, members) && e.group !in members
    ensures Tables(es + [e], names + [e.group], orders[e.group := e.order], members[e.group := [e]])
  {
    hide IsLeastOrder, InGroup, Distinct;
    InGroupExtends(es, e);
    LeastOrderOfOne(e);
    DistinctExtends(names, e.group);
    assert InGroup(es, e.group) + [e] == [e];
    var orders', members' := orders[e.group := e.order], members[e.group := [e]];
    assert members'.Keys == members.Keys + {e.group} == orders'.Keys;
    NamesExtend(names, members.Keys, e.group);
    GroupsExtend(es, e, members.Keys);
  }

  lemma NamesExtend(names: seq<string>, keys: set<string>, name: string)
    requires forall g :: g in names <==> g in keys
    ensures forall g :: g in names + [name] <==> g in keys + {name}
  {
  }

  lemma GroupsExtend(es: seq<BookmarkEntry>, e: BookmarkEntry, keys: set<string>)
    requires forall x :: x in es ==> x.group in keys
    ensures forall x :: x in es + [e] ==> x.group in keys + {e.group}
  {
  }

  lemma DistinctExtends(names: seq<string>, name: string)
    requires Distinct(names) && name !in names
    ensures Distinct(names + [name])
  {
  }

  lemma LeastOrderOfOne(e: BookmarkEntry)
    ensures IsLeastOrder(e.order, [e])
  {
    assert e in [e];
  }

  lemma TablesExtendOld(es: seq<BookmarkEntry>, names: seq<string>, orders: map<string, Option<int>>,
                        members: map<string, seq<BookmarkEntry>>, e: BookmarkEntry)
    requires Tables(es, names, orders, members) && e.group in members
    ensures
      var least := if CompareOrder(e.order, orders[e.group]) < 0 then e.order else orders[e.group];
      Tables(es + [e], names, orders[e.group := least], members[e.group := members[e.group] + [e]])
  {
    hide IsLeastOrder, InGroup;
    InGroupExtends(es, e);
    LeastOrderExtends(orders[e.group], members[e.group], e);
  }

  lemma InGroupExtends(es: seq<BookmarkEntry>, e: BookmarkEntry)
    ensures forall g :: InGroup(es + [e], g) == if g == e.group then InGroup(es, g) + [e] else InGroup(es, g)
  {
    assert (es + [e])[..|es|] == es;
  }

  method CollectBound(items: seq<Bookmark>, dashboard: string, dashboards: nat) returns (bound: seq<BookmarkEntry>)
    ensures bound == BoundEntries(items, dashboard, dashboards)
  {
    bound := [];
    for i := 0 to |items|
      invariant bound == BoundEntries(items[..i], dashboard, dashboards)
    {
      assert items[..i + 1][..i] == items[..i];
      if BoundTo(RefName(items[i].ref), dashboard, dashboards) {
        bound := bound + items[i].entries;
      }
    }
    assert items[..|items|] == items;
  }

  method CollectGroups(bound: seq<BookmarkEntry>)
    returns (names: seq<string>, orders: map<string, Option<int>>, members: map<string, seq<BookmarkEntry>>)
    ensures Tables(bound, names, orders, members)
  {
    hide Tables, CompareOrder;
    names, orders, members := [], map[], map[];
    NoTables();
    for i := 0 to |bound|
      invariant Tables(bound[..i], names, orders, members)
    {
      var e := bound[i];
      assert bound[..i + 1] == bound[..i] + [e];
      TablesHave(bound[..i], names, orders, members);
      if e.group !in members {
        TablesExtendNew(bound[..i], names, orders, members, e);
        names := names + [e.group];
        orders := orders[e.group := e.order];
        members := members[e.group := [e]];
      } else {
        TablesExtendOld(bound[..i], names, orders, members, e);
        if CompareOrder(e.order, orders[e.group]) < 0 {
          orders := orders[e.group := e.order];
        } else {
          assert orders[e.group := orders[e.group]] == orders;
        }
        members := members[e.group := members[e.group] + [e]];
      }
    }
    assert bound[..|bound|] == bound;
  }

  lemma NoTables()
    ensures Tables([], [], map[], map[])
  {
  }

  lemma TablesHave(es: seq<BookmarkEntry>, names: seq<string>, orders: map<string, Option<int>>,
                   members: map<string, seq<BookmarkEntry>>)
    requires Tables(es, names, orders, members)
    ensures members.Keys == orders.Keys == Elems(names)
    ensures Distinct(names)
    ensures forall e :: e in es ==> e.group in names
  {
  }

  /** `groupBookmarks`, up to styling. */
  method GroupBookmarks(items: seq<Bookmark>, dashboard: string, dashboards: nat)
    returns (groups: seq<BookmarkGroup>, groupOrder: map<string, Option<int>>)
    ensures IsGrouping(BoundEntries(items, dashboard, dashboards), groups, groupOrder)
  {
    hide InGroup, IsLeastOrder, CompareGroups, CompareEntries, Consistent, GroupIsRight, Tables;
    var bound := CollectBound(items, dashboard, dashboards);
    var groupNames, orders, groupItems := CollectGroups(bound);
    groupOrder := orders;
    CompareGroupsConsistent(groupOrder);
    CompareEntriesConsistent();
    TablesHave(bound, groupNames, groupOrder, groupItems);
    var sorted := SortFunc(CompareGroups(groupOrder), groupNames);
    SortedNamesStayDistinct(groupNames, sorted);
    groups := [];
    for i := 0 to |sorted|
      invariant |groups| == i
      invariant forall k :: 0 <= k < i ==> groups[k].name == sorted[k]
      invariant forall k :: 0 <= k < i ==> GroupIsRight(bound, groups[k], groupOrder)
    {
      var name := sorted[i];
      assert name in groupNames;
      var bms := SortFunc(CompareEntries, groupItems[name]);
      SortedGroupIsRight(bound, groupNames, groupOrder, groupItems, BookmarkGroup(name, bms));
      groups := groups + [BookmarkGroup(name, bms)];
    }
    EveryEntryHasItsGroup(bound, sorted, groups);
  }

  lemma SortedGroupIsRight(es: seq<BookmarkEntry>, names: seq<string>, orders: map<string, Option<int>>,
                           members: map<string, seq<BookmarkEntry>>, g: BookmarkGroup)
    requires Tables(es, names, orders, members) && g.name in members
    requires SortedBy(CompareEntries, g.bookmarks) && multiset(g.bookmarks) == multiset(members[g.name])
    ensures GroupIsRight(es, g, orders)
  {
    hide IsLeastOrder, InGroup, SortedBy;
    LeastOrderIgnoresOrder(orders[g.name], members[g.name], g.bookmarks);
  }

  lemma SortedNamesStayDistinct(names: seq<string>, sorted: seq<string>)
    requires Distinct(names) && multiset(names) == multiset(sorted)
    ensures Distinct(sorted)
    ensures forall g :: g in names <==> g in sorted
  {
    assert forall g :: g in names <==> g in multiset(names);
    assert forall g :: g in sorted <==> g in multiset(sorted);
    DistinctMeansOnce(names);
    forall i, j | 0 <= i < j < |sorted| ensures sorted[i] != sorted[j] {
      assert sorted == sorted[..j] + sorted[j..];
      assert sorted[i] in sorted[..j] && sorted[j] in sorted[j..];
      assert multiset(sorted)[sorted[i]] == multiset(sorted[..j])[sorted[i]] + multiset(sorted[j..])[sorted[i]];
    }
  }

  lemma {:induction false} DistinctMeansOnce(names: seq<string>)
    requires Distinct(names)
    ensures forall g :: multiset(names)[g] <= 1
  {
    if names != [] {
      DistinctMeansOnce(names[1..]);
      assert names == [names[0]] + names[1..];
      assert names[0] !in names[1..];
    }
  }

  lemma LeastOrderIgnoresOrder(o: Option<int>, es: seq<BookmarkEntry>, es': seq<BookmarkEntry>)
    requires IsLeastOrder(o, es) && multiset(es) == multiset(es')
    ensures IsLeastOrder(o, es')
  {
    var e :| e in es && e.order == o;
    assert e in multiset(es');
    forall x | x in es' ensures x in es { assert x in multiset(es'); }
  }

  lemma EveryEntryHasItsGroup(es: seq<BookmarkEntry>, names: seq<string>, groups: seq<BookmarkGroup>)
    requires forall e :: e in es ==> e.group in names
    requires |groups| == |names| && forall k :: 0 <= k < |names| ==> groups[k].name == names[k]
    ensures forall e :: e in es ==> exists g :: g in groups && g.name == e.group
  {
    forall e | e in es ensures exists g :: g in groups && g.name == e.group {
      var k :| 0 <= k < |names| && names[k] == e.group;
      assert groups[k] in groups;
    }
  }

  function Shown(groups: seq<BookmarkGroup>): multiset<BookmarkEntry> {
    if groups == [] then multiset{} else multiset(groups[0].bookmarks) + Shown(groups[1..])
  }

  lemma {:induction false} ShownCounts(es: seq<BookmarkEntry>, groups: seq<BookmarkGroup>, e: BookmarkEntry)
    requires forall i, j :: 0 <= i < j < |groups| ==> groups[i].name != groups[j].name
    requires forall g :: g in groups ==> multiset(g.bookmarks) == multiset(InGroup(es, g.name))
    ensures Shown(groups)[e] == if exists g :: g in groups && g.name == e.group then multiset(es)[e] else 0
  {
    if groups != [] {
      ShownCounts(es, groups[1..], e);
      InGroupCounts(es, groups[0].name, e);
      assert forall g :: g in groups <==> g == groups[0] || g in groups[1..];
    }
  }

  /** The groups split up the bound entries: every entry is shown as often as it is
      bound, neither lost nor repeated. */
  lemma GroupsPartition(es: seq<BookmarkEntry>, groups: seq<BookmarkGroup>, orders: map<string, Option<int>>)
    requires IsGrouping(es, groups, orders)
    ensures Shown(groups) == multiset(es)
  {
    forall e ensures Shown(groups)[e] == multiset(es)[e] {
      ShownCounts(es, groups, e);
      assert e in es <==> multiset(es)[e] > 0;
    }
  }

  /** Seen from the Bookmarks: a group holds exactly the entries of that group in the
      Bookmarks that name this Dashboard, or name none where there is no other, every one
      as often as they list it; and no such entry is without its group. */
  lemma GroupsAreTheBoundEntries(items: seq<Bookmark>, dashboard: string, dashboards: nat, groups: seq<BookmarkGroup>,
                                 orders: map<string, Option<int>>, e: BookmarkEntry)
    requires IsGrouping(BoundEntries(items, dashboard, dashboards), groups, orders)
    ensures Shown(groups)[e] == TimesBound(items, dashboard, dashboards, e)
    ensures forall g :: g in groups ==>
      multiset(g.bookmarks)[e] == if e.group == g.name then TimesBound(items, dashboard, dashboards, e) else 0
    ensures (exists g :: g in groups && g.name == e.group && e in g.bookmarks) <==>
      exists b :: b in items && Claims(b.ref, dashboard, dashboards) && e in b.entries
  {
    var es := BoundEntries(items, dashboard, dashboards);
    GroupsPartition(es, groups, orders);
    BoundEntriesCount(items, dashboard, dashboards, e);
    hide BoundEntries, Claims, CompareGroups, InGroup, IsLeastOrder, SortedBy;
    forall g | g in groups
      ensures multiset(g.bookmarks)[e] == if e.group == g.name then multiset(es)[e] else 0
    {
      assert GroupIsRight(es, g, orders);
      InGroupCounts(es, g.name, e);
    }
    assert e in es <==> multiset(es)[e] > 0;
    assert forall g :: g in groups ==> (e in g.bookmarks <==> multiset(g.bookmarks)[e] > 0);
  }

  function Names(groups: seq<BookmarkGroup>): seq<string> {
    seq(|groups|, i requires 0 <= i < |groups| => groups[i].name)
  }

  lemma NamesAreTheGroups(es: seq<BookmarkEntry>, groups: seq<BookmarkGroup>, orders: map<string, Option<int>>)
    requires IsGrouping(es, groups, orders)
    ensures Distinct(Names(groups))
    ensures SortedBy(CompareGroups(orders), Names(groups))
    ensures Elems(Names(groups)) == set e | e in es :: e.group
  {
    hide CompareGroups;
    forall n | n in Names(groups) ensures exists e :: e in es && e.group == n {
      var i :| 0 <= i < |groups| && groups[i].name == n;
      assert GroupIsRight(es, groups[i], orders);
      var e :| e in groups[i].bookmarks && e.order == orders[n];
      InGroupCounts(es, n, e);
      assert e in multiset(groups[i].bookmarks) && e in multiset(es);
    }
    forall e | e in es ensures e.group in Names(groups) {
      var g :| g in groups && g.name == e.group;
      var i :| 0 <= i < |groups| && groups[i] == g;
      assert Names(groups)[i] == e.group;
    }
  }

  lemma GroupMembers(es: seq<BookmarkEntry>, es': seq<BookmarkEntry>, group: string)
    requires multiset(es) == multiset(es')
    ensures multiset(InGroup(es, group)) == multiset(InGroup(es', group))
  {
    forall e ensures multiset(InGroup(es, group))[e] == multiset(InGroup(es', group))[e] {
      InGroupCounts(es, group, e);
      InGroupCounts(es', group, e);
    }
  }

  lemma OrdersAgree(es: seq<BookmarkEntry>, groups: seq<BookmarkGroup>, orders: map<string, Option<int>>,
                    es': seq<BookmarkEntry>, groups': seq<BookmarkGroup>, orders': map<string, Option<int>>,
                    name: string)
    requires IsGrouping(es, groups, orders) && IsGrouping(es', groups', orders')
    requires multiset(es) == multiset(es')
    requires name in Names(groups) && name in Names(groups')
    ensures name in orders && name in orders' && orders[name] == orders'[name]
  {
    var i :| 0 <= i < |groups| && groups[i].name == name;
    var j :| 0 <= j < |groups'| && groups'[j].name == name;
    assert GroupIsRight(es, groups[i], orders) && GroupIsRight(es', groups'[j], orders');
    GroupMembers(es, es', name);
    LeastOrderIsUnique(orders[name], groups[i].bookmarks, orders'[name], groups'[j].bookmarks);
  }

  lemma SameNames(a: seq<string>, b: seq<string>)
    requires Distinct(a) && Distinct(b) && Elems(a) == Elems(b)
    ensures multiset(a) == multiset(b)
  {
    DistinctMeansOnce(a);
    DistinctMeansOnce(b);
    forall g ensures multiset(a)[g] == multiset(b)[g] {
      assert g in multiset(a) <==> g in Elems(a);
      assert g in multiset(b) <==> g in Elems(b);
    }
  }

  /** No two different entries of a group share order and name. */
  ghost predicate NoTies(es: seq<BookmarkEntry>) {
    forall a, b :: a in es && b in es && a.group == b.group && CompareEntries(a, b) == 0 ==> a == b
  }

  /** However the API server orders the bookmarks, the page shows the same groups in
      the same places, holding the same entries; only entries that share order and
      name may change places inside a group. */
  lemma GroupingIsCanonical(es: seq<BookmarkEntry>, groups: seq<BookmarkGroup>, orders: map<string, Option<int>>,
                            es': seq<BookmarkEntry>, groups': seq<BookmarkGroup>, orders': map<string, Option<int>>)
    requires IsGrouping(es, groups, orders) && IsGrouping(es', groups', orders')
    requires multiset(es) == multiset(es')
    ensures Names(groups) == Names(groups')
    ensures |groups| == |groups'|
    ensures forall i :: 0 <= i < |groups| ==> multiset(groups[i].bookmarks) == multiset(groups'[i].bookmarks)
    ensures NoTies(es) ==> groups == groups'
  {
    SameNamesInOrder(es, groups, orders, es', groups', orders');
    assert |Names(groups)| == |groups| && |Names(groups')| == |groups'|;
    forall i | 0 <= i < |groups|
      ensures multiset(groups[i].bookmarks) == multiset(groups'[i].bookmarks)
      ensures NoTies(es) ==> groups[i] == groups'[i]
    {
      assert Names(groups)[i] == Names(groups')[i];
      SameGroup(es, groups[i], orders, es', groups'[i], orders');
    }
  }

  lemma SameNamesInOrder(es: seq<BookmarkEntry>, groups: seq<BookmarkGroup>, orders: map<string, Option<int>>,
                         es': seq<BookmarkEntry>, groups': seq<BookmarkGroup>, orders': map<string, Option<int>>)
    requires IsGrouping(es, groups, orders) && IsGrouping(es', groups', orders')
    requires multiset(es) == multiset(es')
    ensures Names(groups) == Names(groups')
  {
    hide IsGrouping, Names, CompareOrder, Consistent;
    var names, names' := Names(groups), Names(groups');
    NamesAreTheGroups(es, groups, orders);
    NamesAreTheGroups(es', groups', orders');
    assert Elems(names) == Elems(names') by {
      assert forall e :: e in es <==> e in multiset(es);
      assert forall e :: e in es' <==> e in multiset(es');
    }
    SameNames(names, names');
    forall n | n in Elems(names) ensures n in orders && n in orders' && orders[n] == orders'[n] {
      OrdersAgree(es, groups, orders, es', groups', orders', n);
    }
    assert SortedBy(CompareGroups(orders), names') by {
      forall i, j | 0 <= i < j < |names'| ensures CompareGroups(orders)(names'[i], names'[j]) <= 0 {
        assert names'[i] in Elems(names') && names'[j] in Elems(names');
        assert CompareGroups(orders')(names'[i], names'[j]) <= 0;
      }
    }
    forall a, b | CompareGroups(orders)(a, b) == 0 ensures a == b {
      CompareAntisymmetric(a, b);
    }
    CompareGroupsConsistent(orders);
    SortedPermutationIsUnique(CompareGroups(orders), names, names');
  }

  lemma SameGroup(es: seq<BookmarkEntry>, g: BookmarkGroup, orders: map<string, Option<int>>,
                  es': seq<BookmarkEntry>, g': BookmarkGroup, orders': map<string, Option<int>>)
    requires GroupIsRight(es, g, orders) && GroupIsRight(es', g', orders')
    requires multiset(es) == multiset(es') && g.name == g'.name
    ensures multiset(g.bookmarks) == multiset(g'.bookmarks)
    ensures NoTies(es) ==> g == g'
  {
    hide IsLeastOrder, InGroup, CompareEntries;
    GroupMembers(es, es', g.name);
    if NoTies(es) {
      forall e | e in g.bookmarks ensures e in es && e.group == g.name {
        InGroupCounts(es, g.name, e);
        assert e in multiset(g.bookmarks) && e in multiset(es);
      }
      CompareEntriesConsistent();
      SortedPermutationIsUnique(CompareEntries, g.bookmarks, g'.bookmarks);
    }
  }

  // -------------------------------------------------- entries that may change places

  function Swap<T>(s: seq<T>, i: nat, j: nat): seq<T>
    requires i < j < |s|
  {
    s[i := s[j]][j := s[i]]
  }

  lemma SwapKeeps<T>(s: seq<T>, i: nat, j: nat)
    requires i < j < |s|
    ensures multiset(Swap(s, i, j)) == multiset(s)
  {
    var front, mid, back := s[..i], s[i + 1..j], s[j + 1..];
    assert s == front + [s[i]] + mid + [s[j]] + back;
    assert Swap(s, i, j) == front + [s[j]] + mid + [s[i]] + back;
  }

  /** Elements that tie can stand in either place. */
  lemma SwapStaysSorted(s: seq<BookmarkEntry>, i: nat, j: nat)
    requires SortedBy(CompareEntries, s) && i < j < |s| && CompareEntries(s[i], s[j]) == 0
    ensures SortedBy(CompareEntries, Swap(s, i, j))
  {
    CompareEntriesConsistent();
    forall x ensures CompareEntries(x, s[i]) <= 0 <==> CompareEntries(x, s[j]) <= 0
             ensures CompareEntries(s[i], x) <= 0 <==> CompareEntries(s[j], x) <= 0
    {
      TiesCompareAlike(s[i], s[j], x);
    }
    hide CompareEntries, Consistent;
    var t := Swap(s, i, j);
    forall m, n | 0 <= m < n < |t| ensures CompareEntries(t[m], t[n]) <= 0 {
      assert CompareEntries(s[m], s[n]) <= 0;
      if m != i && m != j && n != i && n != j {
        assert t[m] == s[m] && t[n] == s[n];
      } else {
        assert m < i ==> CompareEntries(s[m], s[i]) <= 0;
        assert m < j && m != i ==> CompareEntries(s[m], s[j]) <= 0;
        assert n > j ==> CompareEntries(s[j], s[n]) <= 0;
        assert n > i && n != j ==> CompareEntries(s[i], s[n]) <= 0;
        assert CompareEntries(s[i], s[j]) <= 0;
      }
    }
  }

  lemma TiesCompareAlike(a: BookmarkEntry, b: BookmarkEntry, x: BookmarkEntry)
    requires CompareEntries(a, b) == 0
    ensures CompareEntries(x, a) <= 0 <==> CompareEntries(x, b) <= 0
    ensures CompareEntries(a, x) <= 0 <==> CompareEntries(b, x) <= 0
  {
    CompareEntriesConsistent();
    var cmp: Cmp<BookmarkEntry> := CompareEntries;
    assert cmp(a, b) <= 0 && cmp(b, a) <= 0;
    hide CompareEntries;
  }

  /** With two tied entries of a group, there is another way to arrange the same groups. */
  lemma TiesLeaveAChoice(es: seq<BookmarkEntry>, groups: seq<BookmarkGroup>, orders: map<string, Option<int>>)
    returns (groups': seq<BookmarkGroup>)
    requires IsGrouping(es, groups, orders) && !NoTies(es)
    ensures IsGrouping(es, groups', orders) && groups' != groups
  {
    var a, b :| a in es && b in es && a.group == b.group && CompareEntries(a, b) == 0 && a != b;
    var g :| g in groups && g.name == a.group;
    var n :| 0 <= n < |groups| && groups[n] == g;
    assert GroupIsRight(es, g, orders);
    hide IsGrouping, GroupIsRight, NoTies, CompareEntries;
    var g' := OtherOrder(es, g, orders, a, b);
    groups' := groups[n := g'];
    assert groups'[n] != groups[n];
    OtherArrangement(es, groups, orders, n, g');
  }

  /** Within one group: swapping two tied entries leaves it right. */
  lemma OtherOrder(es: seq<BookmarkEntry>, g: BookmarkGroup, orders: map<string, Option<int>>, a: BookmarkEntry,
                   b: BookmarkEntry)
    returns (g': BookmarkGroup)
    requires GroupIsRight(es, g, orders) && a in es && b in es && a.group == b.group == g.name
    requires CompareEntries(a, b) == 0 && a != b
    ensures GroupIsRight(es, g', orders) && g'.name == g.name && g' != g
  {
    var i, j := TiedPlaces(es, g, orders, a, b);
    g' := BookmarkGroup(g.name, Swap(g.bookmarks, i, j));
    hide CompareEntries, IsLeastOrder, InGroup;
    SwapKeeps(g.bookmarks, i, j);
    SwapStaysSorted(g.bookmarks, i, j);
    LeastOrderIgnoresOrder(orders[g.name], g.bookmarks, g'.bookmarks);
    assert g'.bookmarks[i] != g.bookmarks[i];
  }

  lemma TiedPlaces(es: seq<BookmarkEntry>, g: BookmarkGroup, orders: map<string, Option<int>>, a: BookmarkEntry,
                   b: BookmarkEntry)
    returns (i: nat, j: nat)
    requires GroupIsRight(es, g, orders) && a in es && b in es && a.group == b.group == g.name
    requires CompareEntries(a, b) == 0 && a != b
    ensures i < j < |g.bookmarks| && CompareEntries(g.bookmarks[i], g.bookmarks[j]) == 0
      && g.bookmarks[i] != g.bookmarks[j]
  {
    hide CompareEntries, IsLeastOrder, InGroup, SortedBy;
    InGroupCounts(es, g.name, a);
    InGroupCounts(es, g.name, b);
    assert a in multiset(es) && b in multiset(es);
    assert a in multiset(g.bookmarks) && b in multiset(g.bookmarks);
    var x: nat :| x < |g.bookmarks| && g.bookmarks[x] == a;
    var y: nat :| y < |g.bookmarks| && g.bookmarks[y] == b;
    TieIsMutual(a, b);
    i, j := if x < y then x else y, if x < y then y else x;
  }

  lemma TieIsMutual(a: BookmarkEntry, b: BookmarkEntry)
    requires CompareEntries(a, b) == 0
    ensures CompareEntries(b, a) == 0
  {
    CompareAntisymmetric(a.name, b.name);
  }

  lemma OtherArrangement(es: seq<BookmarkEntry>, groups: seq<BookmarkGroup>, orders: map<string, Option<int>>, n: nat,
                         g': BookmarkGroup)
    requires IsGrouping(es, groups, orders) && n < |groups| && g'.name == groups[n].name && GroupIsRight(es, g', orders)
    ensures IsGrouping(es, groups[n := g'], orders)
  {
    hide GroupIsRight, CompareGroups;
    var groups' := groups[n := g'];
    assert forall i :: 0 <= i < |groups| ==> groups'[i].name == groups[i].name;
    forall e | e in es ensures exists g :: g in groups' && g.name == e.group {
      var g :| g in groups && g.name == e.group;
      var i :| 0 <= i < |groups| && groups[i] == g;
      assert groups'[i] in groups';
    }
  }

  /** The page is determined by the bookmarks if and only if no two different entries of
      a group share order and name. */
  lemma PageIsDeterminedIff(es: seq<BookmarkEntry>, groups: seq<BookmarkGroup>, orders: map<string, Option<int>>)
    requires IsGrouping(es, groups, orders)
    ensures NoTies(es) <==> forall groups', orders' :: IsGrouping(es, groups', orders') ==> groups' == groups
  {
    hide IsGrouping, NoTies;
    if NoTies(es) {
      forall groups', orders' | IsGrouping(es, groups', orders') ensures groups' == groups {
        GroupingIsCanonical(es, groups, orders, es, groups', orders');
      }
    } else {
      var other := TiesLeaveAChoice(es, groups, orders);
      assert IsGrouping(es, other, orders) && other != groups;
    }
  }

  /** Groups with an order come first, in the order of their least entries, then by
      name; so do the entries inside a group. */
  lemma GroupsReadInOrder(es: seq<BookmarkEntry>, groups: seq<BookmarkGroup>, orders: map<string, Option<int>>, i: nat,
                          j: nat)
    requires IsGrouping(es, groups, orders) && i < j < |groups|
    ensures groups[i].name in orders && groups[j].name in orders
    ensures OrderedBefore(orders[groups[i].name], orders[groups[j].name])
    ensures orders[groups[i].name] == orders[groups[j].name] ==> Compare(groups[i].name, groups[j].name) < 0
    ensures exists e :: e in groups[i].bookmarks && e.order == orders[groups[i].name]
    ensures forall e :: e in groups[i].bookmarks ==> OrderedBefore(orders[groups[i].name], e.order)
  {
    assert GroupIsRight(es, groups[i], orders) && GroupIsRight(es, groups[j], orders);
    LeastIsFirst(orders[groups[i].name], groups[i].bookmarks);
    hide IsLeastOrder, InGroup, SortedBy;
    CompareAntisymmetric(groups[i].name, groups[j].name);
    assert CompareGroups(orders)(groups[i].name, groups[j].name) <= 0;
    CompareGroupsIs(orders, groups[i].name, groups[j].name);
  }

  lemma LeastIsFirst(o: Option<int>, es: seq<BookmarkEntry>)
    requires IsLeastOrder(o, es)
    ensures exists e :: e in es && e.order == o
    ensures forall e :: e in es ==> OrderedBefore(o, e.order)
  {
  }

  lemma CompareGroupsIs(orders: map<string, Option<int>>, a: string, b: string)
    requires a in orders && b in orders
    ensures CompareGroups(orders)(a, b) ==
      if CompareOrder(orders[a], orders[b]) != 0 then CompareOrder(orders[a], orders[b]) else Compare(a, b)
  {
  }

  lemma EntriesReadInOrder(es: seq<BookmarkEntry>, g: BookmarkGroup, orders: map<string, Option<int>>, i: nat, j: nat)
    requires GroupIsRight(es, g, orders) && i < j < |g.bookmarks|
    ensures OrderedBefore(g.bookmarks[i].order, g.bookmarks[j].order)
    ensures g.bookmarks[i].order == g.bookmarks[j].order ==> Compare(g.bookmarks[i].name, g.bookmarks[j].name) <= 0
  {
    hide IsLeastOrder, InGroup;
    CompareAntisymmetric(g.bookmarks[i].name, g.bookmarks[j].name);
  }
}
