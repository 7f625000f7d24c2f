/** On what the text of a metric depends besides the configuration and the object:
    the order in which Go ranges over a composite result, and what `sort.Slice`
    makes of equal keys. */
module Determinism {
  import opened Text
  import opened Exposition
  import opened Labelset
  import opened Resolver
  import opened Family

  // ---- Any way of sorting ----

  /** Neither can be seen exactly when no sanitised key is given two values. */
  lemma {:induction false} RenderingDetermined(
    lib: Library, name: string, resolver: string, metric: MetricState, obj: Object, out: Option<Sample>)
    requires Aligned(metric) && Renders(lib, name, resolver, metric, obj, out) && out.Some?
    ensures Consistent(MetricLabels(lib, EngineFor(metric.resolver, resolver).value, metric, |metric.values|, obj.fields))
       <==> forall sort: Sorter, other ::
              RendersUnder(lib, sort, name, resolver, metric, obj, other) ==> other == out
  {
    hide Resolve;
    hide MetricLabels;
    hide Ordered;
    hide PairsInOrder;
    hide Visits;
    hide LabelsFrom;
    var engine := EngineFor(metric.resolver, resolver).value;
    var labels := out.value.labels;
    LabelsAreArranged(lib, lib.sort, engine, metric, obj.fields, labels);
    ArrangementUnique(labels);
    if Consistent(multiset(labels)) {
      forall sort: Sorter, other | RendersUnder(lib, sort, name, resolver, metric, obj, other) ensures other == out {
        LabelsAreArranged(lib, sort, engine, metric, obj.fields, other.value.labels);
      }
    } else {
      var sort, qs := AnotherSort(lib, engine, metric, obj.fields, labels);
      assert RendersUnder(lib, sort, name, resolver, metric, obj, Some(out.value.(labels := qs)));
    }
  }

  /** Some way of sorting the same pairs gives another result. */
  lemma AnotherSort(lib: Library, engine: Engine, metric: MetricState, fields: map<string, Value>, labels: seq<Label>)
    returns (sort: Sorter, qs: seq<Label>)
    requires Aligned(metric) && LabelsFrom(lib, lib.sort, engine, metric, fields, labels) && !Consistent(multiset(labels))
    ensures qs != labels && LabelsFrom(lib, sort, engine, metric, fields, qs)
  {
    hide Resolve;
    hide PairsInOrder;
    hide Visits;
    hide Consistent;
    var orders :| |orders| == |metric.values| && Visits(lib, engine, metric, fields, orders)
                  && labels == lib.sort(PairsInOrder(lib, engine, metric, fields, orders));
    var pairs := PairsInOrder(lib, engine, metric, fields, orders);
    assert Sorts(lib.sort);
    assert Arranges(labels, multiset(pairs));
    qs := AnotherArrangement(labels);
    sort := SortInstead(lib.sort, pairs, qs);
  }

  lemma SortInstead(sort: Sorter, pairs: seq<Label>, qs: seq<Label>) returns (other: Sorter)
    requires Arranges(qs, multiset(pairs))
    ensures other(pairs) == qs
  {
    hide Arranges;
    assert Sorts(sort);
    var f: seq<Label> -> seq<Label> := ls => if ls == pairs then qs else sort(ls);
    assert Sorts(f);
    other := f;
  }

  lemma SameText(
    lib: Library, sort: Sorter, name: string, resolver: string, metric: MetricState, obj: Object,
    out: Option<Sample>, other: Option<Sample>)
    requires Tokens(lib) && Aligned(metric) && out.Some?
    requires Renders(lib, name, resolver, metric, obj, out) && RendersUnder(lib, sort, name, resolver, metric, obj, other)
    ensures RenderOut(other) == RenderOut(out) ==> other == out
  {
    hide LabelsFrom;
    hide SampleLine;
    assert other.Some?;
    RenderedIsPrintable(lib, lib.sort, name, resolver, metric, obj, out);
    RenderedIsPrintable(lib, sort, name, resolver, metric, obj, other);
    if RenderOut(other) == RenderOut(out) {
      assert RenderSample(other.value)[..|SampleLine(other.value)|] == SampleLine(other.value);
      assert RenderSample(out.value)[..|SampleLine(out.value)|] == SampleLine(out.value);
      SampleLineInjective(other.value, out.value);
    }
  }

  /** The same for the text. */
  lemma {:induction false} TextDetermined(
    lib: Library, name: string, resolver: string, metric: MetricState, obj: Object, out: Option<Sample>)
    requires Tokens(lib) && Aligned(metric) && Renders(lib, name, resolver, metric, obj, out) && out.Some?
    ensures Consistent(MetricLabels(lib, EngineFor(metric.resolver, resolver).value, metric, |metric.values|, obj.fields))
       <==> forall sort: Sorter, other ::
              RendersUnder(lib, sort, name, resolver, metric, obj, other) ==> RenderOut(other) == RenderOut(out)
  {
    hide MetricLabels;
    hide Consistent;
    hide RenderOut;
    hide RendersUnder;
    RenderingDetermined(lib, name, resolver, metric, obj, out);
    forall sort: Sorter, other | RendersUnder(lib, sort, name, resolver, metric, obj, other)
      ensures RenderOut(other) == RenderOut(out) ==> other == out
    {
      SameText(lib, sort, name, resolver, metric, obj, out, other);
    }
  }

  // ---- Without composite results ----

  /** Every query's result names the query, or has one entry at most. */
  predicate Scalars(lib: Library, engine: Engine, metric: MetricState, fields: map<string, Value>) {
    forall i :: 0 <= i < |metric.values| ==>
      metric.values[i] in Resolve(lib, engine, metric.values[i], fields)
      || |Resolve(lib, engine, metric.values[i], fields)| <= 1
  }

  lemma OneOrder(m: map<string, string>, o: seq<string>, p: seq<string>)
    requires |m| <= 1 && Enumerates(o, m.Keys) && Enumerates(p, m.Keys)
    ensures o == p
  {
    EnumerationLength(o, m.Keys);
    EnumerationLength(p, m.Keys);
    if |m| == 1 {
      assert o[0] in o && p[0] in p;
      assert |m.Keys - {o[0]}| == 0;
      assert p[0] == o[0];
    }
  }

  lemma {:induction false} ScalarsFixPairs(
    lib: Library, engine: Engine, metric: MetricState, fields: map<string, Value>,
    orders: seq<seq<string>>, others: seq<seq<string>>)
    requires Aligned(metric) && Scalars(lib, engine, metric, fields) && |orders| == |others|
    requires Visits(lib, engine, metric, fields, orders) && Visits(lib, engine, metric, fields, others)
    ensures PairsInOrder(lib, engine, metric, fields, orders) == PairsInOrder(lib, engine, metric, fields, others)
  {
    hide Resolve;
    hide Enumerates;
    if orders != [] {
      var n := |orders| - 1;
      assert Visited(lib, engine, metric, fields, n, orders[n]) && Visited(lib, engine, metric, fields, n, others[n]);
      FrontVisits(lib, engine, metric, fields, orders);
      FrontVisits(lib, engine, metric, fields, others);
      ScalarsFixPairs(lib, engine, metric, fields, orders[..n], others[..n]);
      var m := Resolve(lib, engine, metric.values[n], fields);
      if metric.values[n] !in m {
        OneOrder(m, orders[n], others[n]);
      }
    }
  }

  lemma FrontVisits(lib: Library, engine: Engine, metric: MetricState, fields: map<string, Value>, orders: seq<seq<string>>)
    requires Visits(lib, engine, metric, fields, orders) && orders != []
    ensures Visits(lib, engine, metric, fields, orders[..|orders| - 1])
  {
    hide Visited;
    var n := |orders| - 1;
    assert forall i :: 0 <= i < n && Visited(lib, engine, metric, fields, i, orders[i]) ==>
                         Visited(lib, engine, metric, fields, i, orders[..n][i]);
  }

  /** Without composite results the rendering is a function of the configuration and
      the object, whatever the sort does with equal keys and however often keys are
      repeated. */
  lemma {:induction false} ScalarRenderingDetermined(
    lib: Library, name: string, resolver: string, metric: MetricState, obj: Object,
    out: Option<Sample>, other: Option<Sample>)
    requires Aligned(metric)
    requires Renders(lib, name, resolver, metric, obj, out) && Renders(lib, name, resolver, metric, obj, other)
    requires EngineFor(metric.resolver, resolver).Some? ==>
               Scalars(lib, EngineFor(metric.resolver, resolver).value, metric, obj.fields)
    ensures other == out
  {
    hide Resolve;
    hide PairsInOrder;
    hide Visits;
    hide Scalars;
    if out.Some? {
      var engine := EngineFor(metric.resolver, resolver).value;
      var orders :| |orders| == |metric.values| && Visits(lib, engine, metric, obj.fields, orders)
                    && out.value.labels == lib.sort(PairsInOrder(lib, engine, metric, obj.fields, orders));
      var others :| |others| == |metric.values| && Visits(lib, engine, metric, obj.fields, others)
                    && other.value.labels == lib.sort(PairsInOrder(lib, engine, metric, obj.fields, others));
      ScalarsFixPairs(lib, engine, metric, obj.fields, orders, others);
    }
  }

  /** The unstructured resolver never gives a composite result. */
  lemma UnstructuredIsScalar(lib: Library, metric: MetricState, fields: map<string, Value>)
    ensures Scalars(lib, Unstructured, metric, fields)
  {
    hide Nested;
    hide Split;
    forall i | 0 <= i < |metric.values|
      ensures metric.values[i] in Resolve(lib, Unstructured, metric.values[i], fields) {
      assert metric.values[i] in ResolveUnstructured(lib, metric.values[i], fields);
    }
  }

  // ---- A sort that keeps equal keys in order ----

  /** Entries of a composite result whose sanitised keys collide agree. */
  predicate QueryAgrees(lib: Library, engine: Engine, key: string, query: string, fields: map<string, Value>) {
    var m := Resolve(lib, engine, query, fields);
    query in m || forall k, l :: k in m && l in m && Sanitise(key + k) == Sanitise(key + l) ==> m[k] == m[l]
  }

  predicate EntriesAgree(lib: Library, engine: Engine, metric: MetricState, fields: map<string, Value>)
    requires Aligned(metric)
  {
    forall i :: 0 <= i < |metric.values| ==> QueryAgrees(lib, engine, metric.keys[i], metric.values[i], fields)
  }

  lemma {:induction false} ValuesOfAppend(a: seq<Label>, b: seq<Label>, name: string)
    ensures ValuesOf(a + b, name) == ValuesOf(a, name) + ValuesOf(b, name)
  {
    if b == [] {
      assert a + b == a;
    } else {
      var n := |b| - 1;
      ValuesOfAppend(a, b[..n], name);
      assert (a + b)[..|a| + n] == a + b[..n];
    }
  }

  lemma {:induction false} ConstantValues(ls: seq<Label>, name: string, v: string)
    requires forall l :: l in ls && l.name == name ==> l.value == v
    ensures ValuesOf(ls, name) == seq(multiset(ls)[Label(name, v)], _ => v)
  {
    if ls != [] {
      var n := |ls| - 1;
      assert ls == ls[..n] + [ls[n]];
      ConstantValues(ls[..n], name, v);
      assert ls[n].name == name ==> ls[n] == Label(name, v);
    }
  }

  /** Agreeing entries can be visited in any order. */
  lemma AgreeingEntries(key: string, m: map<string, string>, o: seq<string>, p: seq<string>)
    requires Enumerates(o, m.Keys) && Enumerates(p, m.Keys)
    requires forall k, l :: k in m && l in m && Sanitise(key + k) == Sanitise(key + l) ==> m[k] == m[l]
    ensures SameValues(EntryPairs(key, m, o), EntryPairs(key, m, p))
  {
    hide Sanitise;
    hide EntryLabels;
    var a, b := EntryPairs(key, m, o), EntryPairs(key, m, p);
    EntryPairsAreLabels(key, m, o, m.Keys);
    EntryPairsAreLabels(key, m, p, m.Keys);
    forall name ensures ValuesOf(a, name) == ValuesOf(b, name) {
      var v := if k :| k in m && Sanitise(key + k) == name then m[k] else "";
      ConstantValues(a, name, v);
      ConstantValues(b, name, v);
    }
  }

  lemma {:induction false} AgreeingPairs(
    lib: Library, engine: Engine, metric: MetricState, fields: map<string, Value>,
    orders: seq<seq<string>>, others: seq<seq<string>>)
    requires Aligned(metric) && EntriesAgree(lib, engine, metric, fields) && |orders| == |others|
    requires Visits(lib, engine, metric, fields, orders) && Visits(lib, engine, metric, fields, others)
    ensures SameValues(PairsInOrder(lib, engine, metric, fields, orders), PairsInOrder(lib, engine, metric, fields, others))
  {
    hide Resolve;
    hide EntryPairs;
    if orders != [] {
      var n := |orders| - 1;
      var key, query := metric.keys[n], metric.values[n];
      assert Visited(lib, engine, metric, fields, n, orders[n]) && Visited(lib, engine, metric, fields, n, others[n]);
      FrontVisits(lib, engine, metric, fields, orders);
      FrontVisits(lib, engine, metric, fields, others);
      AgreeingPairs(lib, engine, metric, fields, orders[..n], others[..n]);
      var m := Resolve(lib, engine, query, fields);
      assert QueryAgrees(lib, engine, key, query, fields);
      if query !in m {
        AgreeingEntries(key, m, orders[n], others[n]);
      }
      forall name
        ensures ValuesOf(PairsInOrder(lib, engine, metric, fields, orders), name)
             == ValuesOf(PairsInOrder(lib, engine, metric, fields, others), name)
      {
        ValuesOfAppend(PairsInOrder(lib, engine, metric, fields, orders[..n]),
                       QueryPairs(lib, engine, key, query, fields, orders[n]), name);
        ValuesOfAppend(PairsInOrder(lib, engine, metric, fields, others[..n]),
                       QueryPairs(lib, engine, key, query, fields, others[n]), name);
      }
    }
  }

  /** The values under a key come query by query. */
  lemma LastQuery(lib: Library, engine: Engine, metric: MetricState, fields: map<string, Value>,
                  orders: seq<seq<string>>, name: string)
    requires Aligned(metric) && Visits(lib, engine, metric, fields, orders) && orders != []
    ensures Visits(lib, engine, metric, fields, orders[..|orders| - 1])
    ensures var n := |orders| - 1;
            && (forall k :: k in orders[n] ==> k in Resolve(lib, engine, metric.values[n], fields))
            && ValuesOf(PairsInOrder(lib, engine, metric, fields, orders), name)
               == ValuesOf(PairsInOrder(lib, engine, metric, fields, orders[..n]), name)
                  + ValuesOf(QueryPairs(lib, engine, metric.keys[n], metric.values[n], fields, orders[n]), name)
  {
    hide Resolve;
    hide EntryPairs;
    hide ValuesOf;
    var n := |orders| - 1;
    assert Visited(lib, engine, metric, fields, n, orders[n]);
    FrontVisits(lib, engine, metric, fields, orders);
    ValuesOfAppend(PairsInOrder(lib, engine, metric, fields, orders[..n]),
                   QueryPairs(lib, engine, metric.keys[n], metric.values[n], fields, orders[n]), name);
  }

  /** Changing one query's order in a way that shows in its own values shows in all. */
  lemma {:induction false} DifferenceShows(
    lib: Library, engine: Engine, metric: MetricState, fields: map<string, Value>,
    orders: seq<seq<string>>, i: nat, o: seq<string>, name: string)
    requires Aligned(metric) && Visits(lib, engine, metric, fields, orders) && i < |orders|
    requires Visited(lib, engine, metric, fields, i, o)
    requires ValuesOf(QueryPairs(lib, engine, metric.keys[i], metric.values[i], fields, o), name)
          != ValuesOf(QueryPairs(lib, engine, metric.keys[i], metric.values[i], fields, orders[i]), name)
    ensures Visits(lib, engine, metric, fields, orders[i := o])
    ensures ValuesOf(PairsInOrder(lib, engine, metric, fields, orders[i := o]), name)
         != ValuesOf(PairsInOrder(lib, engine, metric, fields, orders), name)
    decreases |orders|
  {
    hide Visited;
    hide QueryPairs;
    hide PairsInOrder;
    hide ValuesOf;
    var n := |orders| - 1;
    var others := orders[i := o];
    assert Visits(lib, engine, metric, fields, others);
    LastQuery(lib, engine, metric, fields, orders, name);
    LastQuery(lib, engine, metric, fields, others, name);
    var a, b := PairsInOrder(lib, engine, metric, fields, orders[..n]), PairsInOrder(lib, engine, metric, fields, others[..n]);
    var c := QueryPairs(lib, engine, metric.keys[n], metric.values[n], fields, orders[n]);
    var d := QueryPairs(lib, engine, metric.keys[n], metric.values[n], fields, others[n]);
    if i < n {
      assert others[..n] == orders[..n][i := o];
      DifferenceShows(lib, engine, metric, fields, orders[..n], i, o, name);
      SameEnd(ValuesOf(a, name), ValuesOf(b, name), ValuesOf(c, name));
    } else {
      assert others[..n] == orders[..n];
      SameStart(ValuesOf(a, name), ValuesOf(c, name), ValuesOf(d, name));
    }
  }

  lemma SameEnd(a: seq<string>, b: seq<string>, c: seq<string>)
    ensures a + c == b + c ==> a == b
  {
    if a + c == b + c {
      assert (a + c)[..|a|] == a && (b + c)[..|b|] == b;
    }
  }

  lemma SameStart(a: seq<string>, b: seq<string>, c: seq<string>)
    ensures a + b == a + c ==> b == c
  {
    if a + b == a + c {
      assert (a + b)[|a|..] == b && (a + c)[|a|..] == c;
    }
  }

  /** An enumeration that starts with the given keys. */
  lemma StartingWith(ks: set<string>, k: string, l: string) returns (order: seq<string>)
    requires k in ks && l in ks && k != l
    ensures |order| >= 2 && order[0] == k && order[1] == l && Enumerates(order, ks)
  {
    var rest := AnyOrder(ks - {k, l});
    order := [k, l] + rest;
    assert forall u :: u in order <==> u == k || u == l || u in rest;
  }

  lemma {:induction false} FirstValue(ls: seq<Label>)
    requires ls != []
    ensures var vs := ValuesOf(ls, ls[0].name); vs != [] && vs[0] == ls[0].value
  {
    if |ls| > 1 {
      FirstValue(ls[..|ls| - 1]);
    }
  }

  /** Two orders of visiting disagreeing entries that give different values. */
  lemma DisagreeingOrders(key: string, m: map<string, string>, k: string, l: string)
    returns (o: seq<string>, p: seq<string>)
    requires k in m && l in m && Sanitise(key + k) == Sanitise(key + l) && m[k] != m[l]
    ensures Enumerates(o, m.Keys) && Enumerates(p, m.Keys)
    ensures ValuesOf(EntryPairs(key, m, o), Sanitise(key + k)) != ValuesOf(EntryPairs(key, m, p), Sanitise(key + k))
  {
    hide Sanitise;
    o := StartingWith(m.Keys, k, l);
    p := StartingWith(m.Keys, l, k);
    FirstValue(EntryPairs(key, m, o));
    FirstValue(EntryPairs(key, m, p));
  }

  /** Two orders of visiting give different pairs. */
  lemma DisagreeingPairs(lib: Library, engine: Engine, metric: MetricState, fields: map<string, Value>)
    returns (orders: seq<seq<string>>, others: seq<seq<string>>, name: string)
    requires Aligned(metric) && !EntriesAgree(lib, engine, metric, fields)
    ensures |orders| == |metric.values| == |others|
    ensures Visits(lib, engine, metric, fields, orders) && Visits(lib, engine, metric, fields, others)
    ensures ValuesOf(PairsInOrder(lib, engine, metric, fields, orders), name)
         != ValuesOf(PairsInOrder(lib, engine, metric, fields, others), name)
  {
    hide Resolve;
    hide Sanitise;
    hide EntryPairs;
    var i: nat :| i < |metric.values| && !QueryAgrees(lib, engine, metric.keys[i], metric.values[i], fields);
    var key, m := metric.keys[i], Resolve(lib, engine, metric.values[i], fields);
    var k, l :| k in m && l in m && Sanitise(key + k) == Sanitise(key + l) && m[k] != m[l];
    name := Sanitise(key + k);
    var o, p := DisagreeingOrders(key, m, k, l);
    assert Visited(lib, engine, metric, fields, i, o) && Visited(lib, engine, metric, fields, i, p);
    orders := AnyOrders(lib, engine, metric, fields)[i := p];
    assert Visits(lib, engine, metric, fields, orders);
    others := orders[i := o];
    DifferenceShows(lib, engine, metric, fields, orders, i, o, name);
  }

  /** Under a sort that keeps equal keys in order, the order in which Go ranges over
      composite results cannot be seen exactly when, in each of them, entries whose
      sanitised keys collide agree. */
  lemma {:induction false} MapOrderDetermined(
    lib: Library, name: string, resolver: string, metric: MetricState, obj: Object, out: Option<Sample>)
    requires Stable(lib.sort) && Aligned(metric) && Renders(lib, name, resolver, metric, obj, out) && out.Some?
    ensures EntriesAgree(lib, EngineFor(metric.resolver, resolver).value, metric, obj.fields)
       <==> forall other :: Renders(lib, name, resolver, metric, obj, other) ==> other == out
  {
    hide Resolve;
    hide PairsInOrder;
    hide Visits;
    hide EntriesAgree;
    var engine := EngineFor(metric.resolver, resolver).value;
    if EntriesAgree(lib, engine, metric, obj.fields) {
      forall other | Renders(lib, name, resolver, metric, obj, other) ensures other == out {
        AgreeingLabels(lib, engine, metric, obj.fields, out.value.labels, other.value.labels);
      }
    } else {
      var ls, qs := DisagreeingLabels(lib, engine, metric, obj.fields);
      assert Renders(lib, name, resolver, metric, obj, Some(out.value.(labels := ls)));
      assert Renders(lib, name, resolver, metric, obj, Some(out.value.(labels := qs)));
    }
  }

  lemma AgreeingLabels(lib: Library, engine: Engine, metric: MetricState, fields: map<string, Value>,
                       ls: seq<Label>, qs: seq<Label>)
    requires Stable(lib.sort) && Aligned(metric) && EntriesAgree(lib, engine, metric, fields)
    requires LabelsFrom(lib, lib.sort, engine, metric, fields, ls) && LabelsFrom(lib, lib.sort, engine, metric, fields, qs)
    ensures ls == qs
  {
    hide Resolve;
    hide PairsInOrder;
    hide Visits;
    hide EntriesAgree;
    hide ValuesOf;
    hide KeyLess;
    var orders :| |orders| == |metric.values| && Visits(lib, engine, metric, fields, orders)
                  && ls == lib.sort(PairsInOrder(lib, engine, metric, fields, orders));
    var others :| |others| == |metric.values| && Visits(lib, engine, metric, fields, others)
                  && qs == lib.sort(PairsInOrder(lib, engine, metric, fields, others));
    AgreeingPairs(lib, engine, metric, fields, orders, others);
    assert Sorts(lib.sort);
    ValuesDetermine(ls, qs);
  }

  lemma DisagreeingLabels(lib: Library, engine: Engine, metric: MetricState, fields: map<string, Value>)
    returns (ls: seq<Label>, qs: seq<Label>)
    requires Stable(lib.sort) && Aligned(metric) && !EntriesAgree(lib, engine, metric, fields)
    ensures LabelsFrom(lib, lib.sort, engine, metric, fields, ls) && LabelsFrom(lib, lib.sort, engine, metric, fields, qs)
    ensures ls != qs
  {
    hide Resolve;
    hide PairsInOrder;
    hide Visits;
    hide EntriesAgree;
    hide ValuesOf;
    var orders, others, name := DisagreeingPairs(lib, engine, metric, fields);
    ls := lib.sort(PairsInOrder(lib, engine, metric, fields, orders));
    qs := lib.sort(PairsInOrder(lib, engine, metric, fields, others));
    assert ValuesOf(ls, name) != ValuesOf(qs, name);
  }

  /** The same for the text. */
  lemma {:induction false} MapOrderInText(
    lib: Library, name: string, resolver: string, metric: MetricState, obj: Object, out: Option<Sample>)
    requires Tokens(lib) && Stable(lib.sort)
    requires Aligned(metric) && Renders(lib, name, resolver, metric, obj, out) && out.Some?
    ensures EntriesAgree(lib, EngineFor(metric.resolver, resolver).value, metric, obj.fields)
       <==> forall other :: Renders(lib, name, resolver, metric, obj, other) ==> RenderOut(other) == RenderOut(out)
  {
    hide EntriesAgree;
    hide RenderOut;
    hide RendersUnder;
    MapOrderDetermined(lib, name, resolver, metric, obj, out);
    forall other | Renders(lib, name, resolver, metric, obj, other)
      ensures RenderOut(other) == RenderOut(out) ==> other == out
    {
      SameText(lib, lib.sort, name, resolver, metric, obj, out, other);
    }
  }

  // ---- An object on which the order shows ----

  /** A query that gives `{"a-b": x, "a_b": y}` with different x and y: both keys are
      sanitised to the same label, the two orders of ranging give the two orders of
      its values, and so two texts. */
  lemma MapOrderShows(
    lib: Library, name: string, query: string, value: string, obj: Object, x: Value, y: Value)
    returns (out: Option<Sample>, other: Option<Sample>)
    requires Tokens(lib) && Stable(lib.sort)
    requires lib.evaluate(query, obj.fields) == MapResult(Some(map["a-b" := x, "a_b" := y]))
    requires Kept(x) && Kept(y) && lib.show(x) != lib.show(y) && query != "a-b" && query != "a_b"
    requires value in ResolveCel(lib, value, obj.fields)
    requires lib.number(ResolveCel(lib, value, obj.fields)[value]).Some?
    ensures var metric := MetricState(["k"], [query], value, RESOLVER_CEL);
            && Renders(lib, name, RESOLVER_NONE, metric, obj, out) && Renders(lib, name, RESOLVER_NONE, metric, obj, other)
            && out.Some? && out.value.labels == [Label("ka_b", lib.show(x)), Label("ka_b", lib.show(y))]
            && other.Some? && other.value.labels == [Label("ka_b", lib.show(y)), Label("ka_b", lib.show(x))]
            && RenderOut(out) != RenderOut(other)
  {
    hide ResolveCel;
    hide RenderOut;
    hide LabelsFrom;
    hide Sanitise;
    var metric := MetricState(["k"], [query], value, RESOLVER_CEL);
    var token := lib.number(ResolveCel(lib, value, obj.fields)[value]).value;
    Distinct();
    SanitisedAlike();
    ResultKeys(lib, query, obj.fields, x, y);
    CollidingLabels(lib, "k", query, value, obj.fields, "a-b", "a_b", "ka_b");
    CollidingLabels(lib, "k", query, value, obj.fields, "a_b", "a-b", "ka_b");
    var ls := [Label("ka_b", lib.show(x)), Label("ka_b", lib.show(y))];
    var qs := [Label("ka_b", lib.show(y)), Label("ka_b", lib.show(x))];
    out := Some(Sample(name, ls, obj.group, obj.version, obj.kind, token));
    other := Some(Sample(name, qs, obj.group, obj.version, obj.kind, token));
    assert ls[0] != qs[0];
    SameText(lib, lib.sort, name, RESOLVER_NONE, metric, obj, out, other);
  }

  /** Two entries that collide, visited in the given order. */
  lemma CollidingLabels(lib: Library, key: string, query: string, value: string, fields: map<string, Value>,
                        a: string, b: string, c: string)
    requires Stable(lib.sort) && a != b
    requires Resolve(lib, Cel, query, fields).Keys == {a, b} && query != a && query != b
    requires Sanitise(key + a) == c && Sanitise(key + b) == c
    ensures var m := Resolve(lib, Cel, query, fields);
            LabelsFrom(lib, lib.sort, Cel, MetricState([key], [query], value, RESOLVER_CEL), fields,
                       [Label(c, m[a]), Label(c, m[b])])
  {
    hide Sanitise;
    hide Resolve;
    var m := Resolve(lib, Cel, query, fields);
    assert Enumerates([a, b], m.Keys);
    var ls := EntryPairs(key, m, [a, b]);
    assert ls == [Label(c, m[a]), Label(c, m[b])];
    OneQuery(lib, Cel, key, query, value, fields, [a, b]);
    SortedAlready(lib.sort, ls, c);
  }

  lemma ResultKeys(lib: Library, query: string, fields: map<string, Value>, x: Value, y: Value)
    requires lib.evaluate(query, fields) == MapResult(Some(map["a-b" := x, "a_b" := y])) && Kept(x) && Kept(y)
    ensures var m := Resolve(lib, Cel, query, fields);
            m.Keys == {"a-b", "a_b"} && m["a-b"] == lib.show(x) && m["a_b"] == lib.show(y)
  {
    Distinct();
  }

  lemma Distinct()
    ensures "a-b" != "a_b"
  {
    assert "a-b"[1] != "a_b"[1];
  }

  lemma SanitisedAlike()
    ensures Sanitise("k" + "a-b") == "ka_b" && Sanitise("k" + "a_b") == "ka_b"
  {
  }

  /** Pairs with one key only stay as they are. */
  lemma SortedAlready(sort: Sorter, ls: seq<Label>, name: string)
    requires Stable(sort) && forall i :: 0 <= i < |ls| ==> ls[i].name == name
    ensures sort(ls) == ls
  {
    KeyOrder(name, name, name);
    assert Ordered(ls);
    assert Sorts(sort);
    ValuesDetermine(sort(ls), ls);
  }

  lemma OneQuery(lib: Library, engine: Engine, key: string, query: string, value: string, fields: map<string, Value>,
                 order: seq<string>)
    requires Enumerates(order, Resolve(lib, engine, query, fields).Keys) && query !in Resolve(lib, engine, query, fields)
    ensures LabelsFrom(lib, lib.sort, engine, MetricState([key], [query], value, RESOLVER_CEL), fields,
                       lib.sort(EntryPairs(key, Resolve(lib, engine, query, fields), order)))
  {
    hide Resolve;
    hide EntryPairs;
    var metric := MetricState([key], [query], value, RESOLVER_CEL);
    assert Visited(lib, engine, metric, fields, 0, order);
    assert Visits(lib, engine, metric, fields, [order]);
    var pairs := EntryPairs(key, Resolve(lib, engine, query, fields), order);
    assert [order][..0] == [];
    assert PairsInOrder(lib, engine, metric, fields, [order]) == [] + pairs == pairs;
  }
}
