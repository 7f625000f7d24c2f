/** Which scrapes give every sample a combination of name and labels of its own, as
    "Grouping and sorting" asks, and every label a name of its own. */
module Series {
  import opened Text
  import opened Exposition
  import opened Labelset
  import opened Resolver
  import opened Family
  import opened Store
  import opened StoreRuns
  import opened Document

  // ---- Items ----

  predicate SameKey(x: Item, y: Item) {
    x.Point? && y.Point? && x.name == y.name && x.labels == y.labels
  }

  ghost predicate NoRepeat(items: seq<Item>) {
    forall p, q :: 0 <= p < q < |items| ==> !SameKey(items[p], items[q])
  }

  ghost predicate Apart(a: seq<Item>, b: seq<Item>) {
    forall x, y :: x in a && y in b ==> !SameKey(x, y)
  }

  lemma NoRepeatSum(a: seq<Item>, b: seq<Item>)
    ensures NoRepeat(a + b) <==> NoRepeat(a) && NoRepeat(b) && Apart(a, b)
  {
    var all := a + b;
    if NoRepeat(all) {
      forall p, q | 0 <= p < q < |a| ensures !SameKey(a[p], a[q]) {
        assert !SameKey(all[p], all[q]);
      }
      forall p, q | 0 <= p < q < |b| ensures !SameKey(b[p], b[q]) {
        assert !SameKey(all[|a| + p], all[|a| + q]);
      }
      forall x, y | x in a && y in b ensures !SameKey(x, y) {
        var p :| 0 <= p < |a| && a[p] == x;
        var q :| 0 <= q < |b| && b[q] == y;
        assert !SameKey(all[p], all[|a| + q]);
      }
    }
  }

  lemma {:induction false} InFlatten(parts: seq<seq<Item>>, x: Item)
    ensures x in Flatten(parts) <==> exists k :: 0 <= k < |parts| && x in parts[k]
  {
    if parts != [] {
      InFlatten(parts[1..], x);
      if x in Flatten(parts[1..]) {
        var k :| 0 <= k < |parts[1..]| && x in parts[1..][k];
        assert x in parts[k + 1];
      }
      if k :| 0 < k < |parts| && x in parts[k] {
        assert x in parts[1..][k - 1];
      }
    }
  }

  lemma ApartFlatten(parts: seq<seq<Item>>, others: seq<seq<Item>>)
    ensures Apart(Flatten(parts), Flatten(others)) <==>
            forall k, l :: 0 <= k < |parts| && 0 <= l < |others| ==> Apart(parts[k], others[l])
  {
    hide SameKey;
    hide Flatten;
    forall x ensures x in Flatten(parts) <==> exists k :: 0 <= k < |parts| && x in parts[k] {
      InFlatten(parts, x);
    }
    forall x ensures x in Flatten(others) <==> exists k :: 0 <= k < |others| && x in others[k] {
      InFlatten(others, x);
    }
  }

  lemma {:induction false} NoRepeatFlatten(parts: seq<seq<Item>>)
    ensures NoRepeat(Flatten(parts)) <==>
            && (forall k :: 0 <= k < |parts| ==> NoRepeat(parts[k]))
            && forall k, l :: 0 <= k < l < |parts| ==> Apart(parts[k], parts[l])
  {
    hide NoRepeat;
    hide Apart;
    if parts == [] {
      NothingRepeats();
    } else {
      var rest := parts[1..];
      NoRepeatFlatten(rest);
      NoRepeatSum(parts[0], Flatten(rest));
      ApartFlatten([parts[0]], rest);
      assert Flatten([parts[0]]) == parts[0] + Flatten([]) == parts[0];
      assert forall k :: 0 <= k < |rest| ==> rest[k] == parts[k + 1];
      assert forall k :: 0 < k < |parts| ==> parts[k] == rest[k - 1];
      assert forall l :: 0 <= l < |rest| ==> Apart([parts[0]][0], rest[l]) == Apart(parts[0], parts[l + 1]);
    }
  }

  lemma NothingRepeats()
    ensures NoRepeat([])
  {
  }

  // ---- Rows, families, stores ----

  predicate SameSeries(x: Sample, y: Sample) {
    x.family == y.family && AllLabels(x) == AllLabels(y)
  }

  predicate Clash(x: Option<Sample>, y: Option<Sample>) {
    x.Some? && y.Some? && SameSeries(x.value, y.value)
  }

  /** No two samples of one object's row are one series. */
  predicate RowOnce(row: Row) {
    forall k, l :: 0 <= k < l < |row| ==> !Clash(row[k], row[l])
  }

  predicate RowsApart(row: Row, other: Row) {
    forall k, l :: 0 <= k < |row| && 0 <= l < |other| ==> !Clash(row[k], other[l])
  }

  ghost predicate FamilyOnce(s: StoreState, i: nat)
    requires Shaped(s) && i < |s.headers|
  {
    && (forall u :: u in s.rows ==> RowOnce(s.rows[u][i]))
    && forall u, v :: u in s.rows && v in s.rows && u != v ==> RowsApart(s.rows[u][i], s.rows[v][i])
  }

  ghost predicate FamiliesApart(s: StoreState, i: nat, t: StoreState, j: nat)
    requires Shaped(s) && i < |s.headers| && Shaped(t) && j < |t.headers|
  {
    forall u, v :: u in s.rows && v in t.rows ==> RowsApart(s.rows[u][i], t.rows[v][j])
  }

  ghost predicate StoreOnce(s: StoreState)
    requires Shaped(s)
  {
    && (forall i :: 0 <= i < |s.headers| ==> FamilyOnce(s, i))
    && forall i, j :: 0 <= i < j < |s.headers| ==> FamiliesApart(s, i, s, j)
  }

  ghost predicate StoresApart(s: StoreState, t: StoreState)
    requires Shaped(s) && Shaped(t)
  {
    forall i, j :: 0 <= i < |s.headers| && 0 <= j < |t.headers| ==> FamiliesApart(s, i, t, j)
  }

  /** All samples the stores hold, of whichever object, are series of their own. */
  ghost predicate DocumentOnce(stores: seq<StoreState>)
    requires forall j :: 0 <= j < |stores| ==> Shaped(stores[j])
  {
    && (forall j :: 0 <= j < |stores| ==> StoreOnce(stores[j]))
    && forall j, k :: 0 <= j < k < |stores| ==> StoresApart(stores[j], stores[k])
  }

  lemma OutItemsClash(x: Option<Sample>, y: Option<Sample>)
    ensures NoRepeat(OutItems(x))
    ensures Apart(OutItems(x), OutItems(y)) <==> !Clash(x, y)
  {
    hide AllLabels;
    if x.Some? && y.Some? {
      var a, b := PointOf(x.value), PointOf(y.value);
      assert (PREFIX + x.value.family)[|PREFIX|..] == x.value.family;
      assert (PREFIX + y.value.family)[|PREFIX|..] == y.value.family;
      assert SameKey(a, b) <==> SameSeries(x.value, y.value);
      assert a in OutItems(x) && b in OutItems(y);
    }
  }

  lemma RowItemsApart(row: Row, other: Row)
    ensures Apart(RowItems(row), RowItems(other)) <==> RowsApart(row, other)
  {
    hide Apart;
    hide Clash;
    hide OutItems;
    var parts := seq(|row|, k requires 0 <= k < |row| => OutItems(row[k]));
    var others := seq(|other|, k requires 0 <= k < |other| => OutItems(other[k]));
    ApartFlatten(parts, others);
    forall k, l | 0 <= k < |row| && 0 <= l < |other| ensures Apart(parts[k], others[l]) <==> !Clash(row[k], other[l]) {
      OutItemsClash(row[k], other[l]);
    }
  }

  lemma RowItemsOnce(row: Row)
    ensures NoRepeat(RowItems(row)) <==> RowOnce(row)
  {
    hide Apart;
    hide NoRepeat;
    hide Clash;
    hide OutItems;
    var parts := seq(|row|, k requires 0 <= k < |row| => OutItems(row[k]));
    NoRepeatFlatten(parts);
    forall k, l | 0 <= k < |row| && 0 <= l < |row|
      ensures NoRepeat(parts[k]) && (Apart(parts[k], parts[l]) <==> !Clash(row[k], row[l])) {
      OutItemsClash(row[k], row[l]);
    }
  }

  lemma HeadersApart(f: FamilyState, items: seq<Item>)
    ensures NoRepeat(HeaderItems(f)) && Apart(HeaderItems(f), items) && Apart(items, HeaderItems(f))
  {
  }

  lemma ApartSum(a: seq<Item>, b: seq<Item>, c: seq<Item>)
    ensures Apart(a + b, c) <==> Apart(a, c) && Apart(b, c)
    ensures Apart(c, a + b) <==> Apart(c, a) && Apart(c, b)
  {
    hide SameKey;
    forall x ensures x in a + b <==> x in a || x in b {
    }
  }

  lemma FamilyItemsApart(s: StoreState, i: nat, order: seq<string>, t: StoreState, j: nat, other: seq<string>)
    requires Shaped(s) && i < |s.headers| && Enumerates(order, s.rows.Keys) && Held(s, order)
    requires Shaped(t) && j < |t.headers| && Enumerates(other, t.rows.Keys) && Held(t, other)
    ensures Apart(FamilyItems(s, i, order), FamilyItems(t, j, other)) <==> FamiliesApart(s, i, t, j)
  {
    hide Apart;
    hide RowItems;
    hide RowsApart;
    hide HeaderItems;
    var parts, others := RowsItems(s, i, order), RowsItems(t, j, other);
    var a, b := Flatten(parts), Flatten(others);
    var h, g := HeaderItems(s.families[i]), HeaderItems(t.families[j]);
    HeadersApart(s.families[i], g + b);
    HeadersApart(t.families[j], a);
    ApartSum(h, a, g + b);
    ApartSum(g, b, a);
    ApartFlatten(parts, others);
    forall k, l | 0 <= k < |order| && 0 <= l < |other|
      ensures Apart(parts[k], others[l]) <==> RowsApart(s.rows[order[k]][i], t.rows[other[l]][j]) {
      RowItemsApart(s.rows[order[k]][i], t.rows[other[l]][j]);
    }
    AllPairs(s, i, order, t, j, other);
  }

  lemma AllPairs(s: StoreState, i: nat, order: seq<string>, t: StoreState, j: nat, other: seq<string>)
    requires Shaped(s) && i < |s.headers| && Enumerates(order, s.rows.Keys) && Held(s, order)
    requires Shaped(t) && j < |t.headers| && Enumerates(other, t.rows.Keys) && Held(t, other)
    ensures FamiliesApart(s, i, t, j) <==>
            forall k, l :: 0 <= k < |order| && 0 <= l < |other| ==>
              RowsApart(s.rows[order[k]][i], t.rows[other[l]][j])
  {
    hide RowsApart;
    if forall k, l :: 0 <= k < |order| && 0 <= l < |other| ==> RowsApart(s.rows[order[k]][i], t.rows[other[l]][j]) {
      forall u, v | u in s.rows && v in t.rows ensures RowsApart(s.rows[u][i], t.rows[v][j]) {
        assert u in order && v in other;
        var k :| 0 <= k < |order| && order[k] == u;
        var l :| 0 <= l < |other| && other[l] == v;
      }
    }
  }

  lemma FamilyItemsOnce(s: StoreState, i: nat, order: seq<string>)
    requires Shaped(s) && i < |s.headers| && Enumerates(order, s.rows.Keys) && Held(s, order)
    ensures NoRepeat(FamilyItems(s, i, order)) <==> FamilyOnce(s, i)
  {
    hide Apart;
    hide NoRepeat;
    hide RowItems;
    hide RowsApart;
    hide RowOnce;
    hide HeaderItems;
    var parts := RowsItems(s, i, order);
    HeadersApart(s.families[i], Flatten(parts));
    NoRepeatSum(HeaderItems(s.families[i]), Flatten(parts));
    NoRepeatFlatten(parts);
    forall k, l | 0 <= k < |order| && 0 <= l < |order|
      ensures NoRepeat(parts[k]) <==> RowOnce(s.rows[order[k]][i])
      ensures Apart(parts[k], parts[l]) <==> RowsApart(s.rows[order[k]][i], s.rows[order[l]][i])
      ensures Apart(parts[k], parts[l]) <==> Apart(parts[l], parts[k])
    {
      RowItemsOnce(s.rows[order[k]][i]);
      RowItemsApart(s.rows[order[k]][i], s.rows[order[l]][i]);
      ApartIsSymmetric(parts[k], parts[l]);
    }
    OnceInOrder(s, i, order);
  }

  lemma ApartIsSymmetric(a: seq<Item>, b: seq<Item>)
    ensures Apart(a, b) <==> Apart(b, a)
  {
  }

  lemma OnceInOrder(s: StoreState, i: nat, order: seq<string>)
    requires Shaped(s) && i < |s.headers| && Enumerates(order, s.rows.Keys) && Held(s, order)
    ensures FamilyOnce(s, i) <==>
            && (forall k :: 0 <= k < |order| ==> RowOnce(s.rows[order[k]][i]))
            && forall k, l :: 0 <= k < |order| && 0 <= l < |order| && k != l ==>
                 RowsApart(s.rows[order[k]][i], s.rows[order[l]][i])
  {
    hide RowsApart;
    hide RowOnce;
    forall u | u in s.rows ensures exists k :: 0 <= k < |order| && order[k] == u {
      assert u in order;
    }
  }

  lemma StoreItemsOnce(s: StoreState, orders: seq<seq<string>>)
    requires Shaped(s) && StoreOrdering(s, orders)
    ensures NoRepeat(Flatten(StoreItems(s, orders))) <==> StoreOnce(s)
  {
    hide Apart;
    hide NoRepeat;
    hide FamilyItems;
    hide FamilyOnce;
    hide FamiliesApart;
    hide Enumerates;
    var parts := StoreItems(s, orders);
    NoRepeatFlatten(parts);
    forall i, j | 0 <= i < |orders| && 0 <= j < |orders|
      ensures NoRepeat(parts[i]) <==> FamilyOnce(s, i)
      ensures Apart(parts[i], parts[j]) <==> FamiliesApart(s, i, s, j)
    {
      OrderingIsHeld(s, orders[i]);
      OrderingIsHeld(s, orders[j]);
      FamilyItemsOnce(s, i, orders[i]);
      FamilyItemsApart(s, i, orders[i], s, j, orders[j]);
    }
  }

  lemma StoreItemsApart(s: StoreState, orders: seq<seq<string>>, t: StoreState, others: seq<seq<string>>)
    requires Shaped(s) && StoreOrdering(s, orders) && Shaped(t) && StoreOrdering(t, others)
    ensures Apart(Flatten(StoreItems(s, orders)), Flatten(StoreItems(t, others))) <==> StoresApart(s, t)
  {
    hide Apart;
    hide FamilyItems;
    hide FamiliesApart;
    hide Enumerates;
    var parts, more := StoreItems(s, orders), StoreItems(t, others);
    ApartFlatten(parts, more);
    forall i, j | 0 <= i < |orders| && 0 <= j < |others|
      ensures Apart(parts[i], more[j]) <==> FamiliesApart(s, i, t, j)
    {
      OrderingIsHeld(s, orders[i]);
      OrderingIsHeld(t, others[j]);
      FamilyItemsApart(s, i, orders[i], t, j, others[j]);
    }
  }

  /** A scrape gives each combination of name and labels once, exactly when no two
      samples that its stores hold are the same series. */
  lemma {:induction false} SeriesUnique(stores: seq<StoreState>, orders: seq<seq<seq<string>>>)
    requires (forall j :: 0 <= j < |stores| ==> Shaped(stores[j])) && Ordering(stores, orders)
    ensures NoRepeat(DocumentItems(stores, orders)) <==> DocumentOnce(stores)
  {
    hide Apart;
    hide NoRepeat;
    hide StoreItems;
    hide StoreOnce;
    hide StoresApart;
    hide Shaped;
    hide StoreOrdering;
    var parts := seq(|stores|, j requires 0 <= j < |stores| => Flatten(StoreItems(stores[j], orders[j])));
    NoRepeatFlatten(parts);
    forall j, k | 0 <= j < |stores| && 0 <= k < |stores|
      ensures NoRepeat(parts[j]) <==> StoreOnce(stores[j])
      ensures Apart(parts[j], parts[k]) <==> StoresApart(stores[j], stores[k])
    {
      StoreItemsOnce(stores[j], orders[j]);
      StoreItemsApart(stores[j], orders[j], stores[k], orders[k]);
    }
  }

  // ---- Every label a name of its own ----

  ghost predicate NamesOnce(ls: seq<Label>) {
    forall i, j :: 0 <= i < j < |ls| ==> ls[i].name != ls[j].name
  }

  ghost predicate OncePerName(ls: multiset<Label>) {
    (forall l :: ls[l] <= 1) && forall p, q :: p in ls && q in ls && p.name == q.name ==> p == q
  }

  lemma OneMoreName(some: multiset<Label>, last: Label)
    ensures OncePerName(some + multiset{last}) <==> OncePerName(some) && forall p :: p in some ==> p.name != last.name
  {
    var all := some + multiset{last};
    assert forall l :: l != last ==> all[l] == some[l];
    assert all[last] == some[last] + 1;
    if OncePerName(all) {
      assert last !in some;
      forall p | p in some ensures p.name != last.name {
        assert p in all && last in all;
      }
    }
  }

  lemma OneMoreLabel(front: seq<Label>, last: Label)
    ensures NamesOnce(front + [last]) <==> NamesOnce(front) && forall i :: 0 <= i < |front| ==> front[i].name != last.name
  {
    var all, n := front + [last], |front|;
    assert all[n] == last;
    if NamesOnce(all) {
      forall i, j | 0 <= i < j < n ensures front[i].name != front[j].name {
        assert all[i].name != all[j].name;
      }
      forall i | 0 <= i < n ensures front[i].name != last.name {
        assert all[i].name != all[n].name;
      }
    }
  }

  lemma NameInFront(front: seq<Label>, last: Label)
    ensures (forall i :: 0 <= i < |front| ==> front[i].name != last.name) <==>
            forall p :: p in multiset(front) ==> p.name != last.name
  {
    forall i | 0 <= i < |front| ensures front[i] in multiset(front) {
      assert front[i] in front;
    }
    forall p | p in multiset(front) ensures exists i :: 0 <= i < |front| && front[i] == p {
      assert p in front;
    }
  }

  /** It does not depend on the order. */
  lemma {:induction false} NamesOnceAnyOrder(ls: seq<Label>)
    ensures NamesOnce(ls) <==> OncePerName(multiset(ls))
  {
    if ls != [] {
      hide NamesOnce;
      hide OncePerName;
      var n := |ls| - 1;
      var front, last := ls[..n], ls[n];
      NamesOnceAnyOrder(front);
      assert ls == front + [last];
      OneMoreLabel(front, last);
      OneMoreName(multiset(front), last);
      assert multiset(ls) == multiset(front) + multiset{last};
      NameInFront(front, last);
    } else {
      assert multiset(ls) == multiset{};
    }
  }

  predicate Reserved(name: string) {
    name == "group" || name == "version" || name == "kind"
  }

  /** Sanitised, the keys differ from each other and from the three that are added. */
  predicate DistinctKeys(keys: seq<string>) {
    && (forall i :: 0 <= i < |keys| ==> !Reserved(Sanitise(keys[i])))
    && forall i, j :: 0 <= i < j < |keys| ==> Sanitise(keys[i]) != Sanitise(keys[j])
  }

  lemma IdentityNames(ls: seq<Label>, g: string, v: string, k: string)
    ensures NamesOnce(WithIdentity(ls, g, v, k)) <==>
            NamesOnce(ls) && forall i :: 0 <= i < |ls| ==> !Reserved(ls[i].name)
  {
    var all, n := WithIdentity(ls, g, v, k), |ls|;
    assert "group"[0] != "version"[0] && "group"[0] != "kind"[0] && "version"[0] != "kind"[0];
    assert all[n].name == "group" && all[n + 1].name == "version" && all[n + 2].name == "kind";
    assert forall i :: 0 <= i < n ==> all[i] == ls[i];
    if NamesOnce(all) {
      forall i | 0 <= i < n ensures !Reserved(ls[i].name) {
        assert all[i].name != all[n].name && all[i].name != all[n + 1].name && all[i].name != all[n + 2].name;
      }
    }
  }

  /** Unsorted pairs under the unstructured resolver: one for each query, in order. */
  lemma {:induction false} UnstructuredPairs(
    lib: Library, metric: MetricState, fields: map<string, Value>, orders: seq<seq<string>>)
    requires Aligned(metric) && Visits(lib, Unstructured, metric, fields, orders)
    ensures var pairs := PairsInOrder(lib, Unstructured, metric, fields, orders);
            |pairs| == |orders| && forall i :: 0 <= i < |pairs| ==> pairs[i].name == Sanitise(metric.keys[i])
  {
    hide Sanitise;
    hide Resolve;
    hide EntryPairs;
    if orders != [] {
      var n := |orders| - 1;
      assert Visited(lib, Unstructured, metric, fields, n, orders[n]);
      assert forall i :: 0 <= i < n ==> Visited(lib, Unstructured, metric, fields, i, orders[..n][i]);
      UnstructuredPairs(lib, metric, fields, orders[..n]);
      QueryNamed(lib, metric.values[n], fields);
    }
  }

  lemma QueryNamed(lib: Library, query: string, fields: map<string, Value>)
    ensures query in Resolve(lib, Unstructured, query, fields)
  {
    hide Nested;
    hide Split;
    assert query in ResolveUnstructured(lib, query, fields);
  }

  /** Under the unstructured resolver no label name repeats within a sample exactly if
      the sanitised keys of its queries are distinct and none of the reserved ones. */
  lemma {:induction false} NamesInSample(
    lib: Library, name: string, resolver: string, metric: MetricState, obj: Object, out: Option<Sample>)
    requires Aligned(metric) && Renders(lib, name, resolver, metric, obj, out) && out.Some?
    requires EngineFor(metric.resolver, resolver) == Some(Unstructured)
    ensures NamesOnce(AllLabels(out.value)) <==> DistinctKeys(metric.keys[..|metric.values|])
  {
    hide Resolve;
    hide PairsInOrder;
    hide Visits;
    hide DistinctKeys;
    hide NamesOnce;
    hide OncePerName;
    hide Reserved;
    hide WithIdentity;
    var s := out.value;
    var orders :| |orders| == |metric.values| && Visits(lib, Unstructured, metric, obj.fields, orders)
                  && s.labels == lib.sort(PairsInOrder(lib, Unstructured, metric, obj.fields, orders));
    var pairs := PairsInOrder(lib, Unstructured, metric, obj.fields, orders);
    assert multiset(s.labels) == multiset(pairs) by {
      Permutes(lib.sort, pairs);
    }
    UnstructuredPairs(lib, metric, obj.fields, orders);
    NamesOnceAnyOrder(s.labels);
    NamesOnceAnyOrder(pairs);
    IdentityNames(s.labels, s.group, s.version, s.kind);
    SameNames(s.labels, pairs);
    NamedAfterKeys(pairs, metric.keys[..|metric.values|]);
  }

  lemma Permutes(sort: Sorter, ls: seq<Label>)
    ensures multiset(sort(ls)) == multiset(ls)
  {
    assert Sorts(sort);
  }

  lemma NamedAfterKeys(pairs: seq<Label>, keys: seq<string>)
    requires |pairs| == |keys| && forall i :: 0 <= i < |keys| ==> pairs[i].name == Sanitise(keys[i])
    ensures NamesOnce(pairs) && (forall i :: 0 <= i < |pairs| ==> !Reserved(pairs[i].name)) <==> DistinctKeys(keys)
  {
    hide Sanitise;
    hide Reserved;
  }

  lemma SameNames(ls: seq<Label>, pairs: seq<Label>)
    requires multiset(ls) == multiset(pairs)
    ensures (forall i :: 0 <= i < |ls| ==> !Reserved(ls[i].name)) <==>
            (forall i :: 0 <= i < |pairs| ==> !Reserved(pairs[i].name))
  {
    hide Reserved;
    forall i | 0 <= i < |ls| ensures ls[i] in pairs {
      assert ls[i] in multiset(ls);
    }
    forall i | 0 <= i < |pairs| ensures pairs[i] in ls {
      assert pairs[i] in multiset(pairs);
    }
  }

  // ---- Accumulated labels repeat their names ----

  lemma DistinctSum(a: seq<string>, b: seq<string>)
    ensures DistinctKeys(a + b) ==> DistinctKeys(a) && DistinctKeys(b)
    ensures forall i, j :: 0 <= i < |a| && 0 <= j < |b| && a[i] == b[j] ==> !DistinctKeys(a + b)
  {
    hide Sanitise;
    hide Reserved;
    var all := a + b;
    if DistinctKeys(all) {
      assert forall i :: 0 <= i < |a| ==> all[i] == a[i];
      assert forall i :: 0 <= i < |b| ==> all[|a| + i] == b[i];
    }
    forall i, j | 0 <= i < |a| && 0 <= j < |b| && a[i] == b[j] ensures !DistinctKeys(all) {
      assert Sanitise(all[i]) == Sanitise(all[|a| + j]);
    }
  }

  /** What is handed down twice or more repeats a key, unless there is nothing. */
  lemma HandedDownRepeats(fs: seq<string>, ss: seq<string>, n: nat)
    requires n > 1 && fs + ss != []
    ensures !DistinctKeys(HandedDown(fs, ss, n))
  {
    hide DistinctKeys;
    var earlier, last := HandedDown(fs, ss, n - 1), fs + Repeat(ss, n);
    DistinctSum(earlier, last);
    HandedDownLength(fs, ss, n);
    var before, own := HandedDown(fs, ss, n - 2), fs + Repeat(ss, n - 1);
    assert earlier == before + own;
    if fs != [] {
      assert earlier[|before|] == fs[0] == last[0];
    } else {
      assert Repeat(ss, n) == Repeat(ss, n - 1) + ss && Repeat(ss, n - 1) == Repeat(ss, n - 2) + ss;
      assert earlier[|earlier| - 1] == ss[|ss| - 1] == last[|last| - 1];
    }
  }

  /** From the second object on, labels of the family or of the store stand in a
      sample under the same name more than once. No name repeats exactly if the
      configured keys are distinct and this is the first addition or there is nothing
      to hand down. */
  lemma {:induction false} NamesInText(lib: Library, s: StoreState, n: nat, obj: Object, block: Block, i: nat, k: nat)
    requires n > 0 && i < |s.families| && k < |s.families[i].metrics|
    requires Paired(s.families[i]) && |s.keys| == |s.values|
    requires BlockRenders(lib, FamiliesAfter(s, n), obj, block)
    requires k < |FamiliesAfter(s, n)[i].metrics| && k < |block[i]| && block[i][k].Some?
    requires EngineFor(FamiliesAfter(s, n)[i].metrics[k].resolver, FamiliesAfter(s, n)[i].resolver) == Some(Unstructured)
    ensures var f := s.families[i];
            NamesOnce(AllLabels(block[i][k].value)) <==>
            DistinctKeys(f.metrics[k].keys + (f.keys + s.keys)) && (n == 1 || f.keys + s.keys == [])
  {
    hide Resolve;
    hide LabelsFrom;
    hide NamesOnce;
    hide AllLabels;
    hide DistinctKeys;
    var f, g := s.families[i], FamiliesAfter(s, n)[i];
    MetricPairs(f, s.resolver, s.keys, s.values, n, k);
    LabelsAccumulate(f, s.resolver, s.keys, s.values, n);
    assert RowRenders(lib, g, obj, block[i]);
    NamesInSample(lib, g.name, g.resolver, g.metrics[k], obj, block[i][k]);
    var down := HandedDown(f.keys, s.keys, n);
    assert g.metrics[k].keys[..|g.metrics[k].values|] == g.metrics[k].keys == f.metrics[k].keys + down;
    if n == 1 {
      OneHandedDown(f.keys, s.keys);
    } else if f.keys + s.keys == [] {
      EmptyHandsDownNothing<string>(n);
    } else {
      DistinctSum(f.metrics[k].keys, down);
      HandedDownRepeats(f.keys, s.keys, n);
    }
  }

  lemma OneHandedDown(fs: seq<string>, ss: seq<string>)
    ensures HandedDown(fs, ss, 1) == fs + ss
  {
    assert Repeat(ss, 1) == Repeat(ss, 0) + ss == ss;
    assert HandedDown(fs, ss, 0) == [];
  }
}
