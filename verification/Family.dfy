/** Rendering one object as one metric family: `internal/family.go`. */
module Family {
  import opened Text
  import opened Exposition
  import opened Labelset
  import opened Output
  import opened Resolver

  const RESOLVER_NONE := ""
  const RESOLVER_CEL := "cel"
  const RESOLVER_UNSTRUCTURED := "unstructured"

  /** A custom resource as a reflector hands it over. */
  datatype Object = Object(uid: string, group: string, version: string, kind: string, fields: map<string, Value>)

  datatype MetricState = MetricState(keys: seq<string>, values: seq<string>, value: string, resolver: string)

  datatype FamilyState = FamilyState(
    name: string, help: string, resolver: string,
    keys: seq<string>, values: seq<string>, metrics: seq<MetricState>)

  // ---- What rendering means ----

  function EngineFor(metricResolver: string, familyResolver: string): Option<Engine> {
    var r := if metricResolver == RESOLVER_NONE then familyResolver else metricResolver;
    if r == RESOLVER_NONE || r == RESOLVER_CEL then Some(Cel)
    else if r == RESOLVER_UNSTRUCTURED then Some(Unstructured)
    else None
  }

  /** One label per entry of a composite result, the query's key as its prefix. */
  ghost function EntryLabels(key: string, m: map<string, string>, ks: set<string>): multiset<Label>
    requires ks <= m.Keys
  {
    if ks == {} then multiset{}
    else var k := Pick(ks); multiset{Label(Sanitise(key + k), m[k])} + EntryLabels(key, m, ks - {k})
  }

  /** Whichever entry Go visits first, the labels are the same. */
  lemma {:induction false} EntryLabelsAnyOrder(key: string, m: map<string, string>, ks: set<string>, k: string)
    requires k in ks && ks <= m.Keys
    ensures EntryLabels(key, m, ks) == multiset{Label(Sanitise(key + k), m[k])} + EntryLabels(key, m, ks - {k})
    decreases ks
  {
    var p := Pick(ks);
    if p != k {
      EntryLabelsAnyOrder(key, m, ks - {p}, k);
      EntryLabelsAnyOrder(key, m, ks - {k}, p);
      assert ks - {p} - {k} == ks - {k} - {p};
    }
  }

  ghost function QueryLabels(lib: Library, engine: Engine, key: string, query: string, fields: map<string, Value>)
    : multiset<Label>
  {
    var m := Resolve(lib, engine, query, fields);
    if query in m then multiset{Label(Sanitise(key), m[query])} else EntryLabels(key, m, m.Keys)
  }

  /** The labels of the first `n` queries. */
  ghost function MetricLabels(lib: Library, engine: Engine, metric: MetricState, n: nat, fields: map<string, Value>)
    : multiset<Label>
    requires n <= |metric.values| <= |metric.keys|
  {
    if n == 0 then multiset{}
    else MetricLabels(lib, engine, metric, n - 1, fields) +
         QueryLabels(lib, engine, metric.keys[n - 1], metric.values[n - 1], fields)
  }

  /** Each query has a key; keys without a query are never looked at. */
  predicate Aligned(metric: MetricState) {
    |metric.values| <= |metric.keys|
  }

  function EntryPairs(key: string, m: map<string, string>, order: seq<string>): seq<Label>
    requires forall k :: k in order ==> k in m
  {
    seq(|order|, i requires 0 <= i < |order| => Label(Sanitise(key + order[i]), m[order[i]]))
  }

  /** The labels of a query in the order in which they are resolved. `order` is that
      in which the result's entries are visited, if it is composite. */
  function QueryPairs(lib: Library, engine: Engine, key: string, query: string, fields: map<string, Value>,
                      order: seq<string>): seq<Label>
    requires forall k :: k in order ==> k in Resolve(lib, engine, query, fields)
  {
    var m := Resolve(lib, engine, query, fields);
    if query in m then [Label(Sanitise(key), m[query])]
    else EntryPairs(key, m, order)
  }

  /** One order for each query's result. */
  ghost predicate Visits(lib: Library, engine: Engine, metric: MetricState, fields: map<string, Value>,
                         orders: seq<seq<string>>) {
    |orders| <= |metric.values| && forall i :: 0 <= i < |orders| ==> Visited(lib, engine, metric, fields, i, orders[i])
  }

  ghost predicate Visited(lib: Library, engine: Engine, metric: MetricState, fields: map<string, Value>,
                          i: nat, order: seq<string>)
    requires i < |metric.values|
  {
    Enumerates(order, Resolve(lib, engine, metric.values[i], fields).Keys)
  }

  /** The pairs of the first queries, in the order in which they are resolved. */
  ghost function PairsInOrder(lib: Library, engine: Engine, metric: MetricState, fields: map<string, Value>,
                              orders: seq<seq<string>>): seq<Label>
    requires Aligned(metric) && Visits(lib, engine, metric, fields, orders)
  {
    if orders == [] then []
    else
      var n := |orders| - 1;
      assert Visited(lib, engine, metric, fields, n, orders[n]);
      assert forall i :: 0 <= i < n ==> Visited(lib, engine, metric, fields, i, orders[..n][i]);
      PairsInOrder(lib, engine, metric, fields, orders[..n])
      + QueryPairs(lib, engine, metric.keys[n], metric.values[n], fields, orders[n])
  }

  /** The resolved pairs, sorted, for some order of visiting each result. */
  ghost predicate LabelsFrom(lib: Library, sort: Sorter, engine: Engine, metric: MetricState, fields: map<string, Value>,
                             labels: seq<Label>)
    requires Aligned(metric)
  {
    exists orders :: |orders| == |metric.values| && Visits(lib, engine, metric, fields, orders)
                     && labels == sort(PairsInOrder(lib, engine, metric, fields, orders))
  }

  /** What one metric may become. It is dropped exactly when its resolver is
      unknown, its value is not found, or the value is not a number. */
  ghost predicate Renders(lib: Library, name: string, resolver: string, metric: MetricState, obj: Object,
                          out: Option<Sample>)
    requires Aligned(metric)
  {
    RendersUnder(lib, lib.sort, name, resolver, metric, obj, out)
  }

  /** The same under another way of sorting. */
  ghost predicate RendersUnder(lib: Library, sort: Sorter, name: string, resolver: string, metric: MetricState,
                               obj: Object, out: Option<Sample>)
    requires Aligned(metric)
  {
    match EngineFor(metric.resolver, resolver)
    case None => out == None
    case Some(engine) =>
      var resolved := Resolve(lib, engine, metric.value, obj.fields);
      if metric.value !in resolved then out == None
      else
        match lib.number(resolved[metric.value])
        case None => out == None
        case Some(token) =>
          && out.Some?
          && out.value == Sample(name, out.value.labels, obj.group, obj.version, obj.kind, token)
          && LabelsFrom(lib, sort, engine, metric, obj.fields, out.value.labels)
  }

  type Row = seq<Option<Sample>>

  predicate AllAligned(family: FamilyState) {
    |family.values| <= |family.keys| && forall i :: 0 <= i < |family.metrics| ==> Aligned(family.metrics[i])
  }

  ghost predicate RowRenders(lib: Library, family: FamilyState, obj: Object, row: Row)
    requires AllAligned(family)
  {
    && |row| == |family.metrics|
    && forall i :: 0 <= i < |row| ==>
         Renders(lib, family.name, family.resolver, family.metrics[i], obj, row[i])
  }

  function RenderOut(out: Option<Sample>): string {
    if out.None? then "" else RenderSample(out.value)
  }

  function Lines(row: Row): seq<string> {
    seq(|row|, i requires 0 <= i < |row| => RenderOut(row[i]))
  }

  /** The surviving lines, in order and whole. */
  function RenderRow(row: Row): string {
    Concat(Lines(row))
  }

  lemma RenderRowAppend(row: Row, out: Option<Sample>)
    ensures RenderRow(row + [out]) == RenderRow(row) + RenderOut(out)
  {
    hide RenderOut;
    ConcatOne(Lines(row), RenderOut(out));
    assert Lines(row + [out]) == Lines(row) + [RenderOut(out)];
  }

  function InheritMetric(metric: MetricState, keys: seq<string>, values: seq<string>): MetricState {
    metric.(keys := metric.keys + keys, values := metric.values + values)
  }

  /** Rendering once hands the family's labels down to every metric, for good. */
  function Inherited(family: FamilyState): (r: FamilyState)
    ensures AllAligned(family) ==> AllAligned(r)
  {
    family.(metrics := seq(|family.metrics|, i requires 0 <= i < |family.metrics| =>
      InheritMetric(family.metrics[i], family.keys, family.values)))
  }

  // ---- What follows from it ----

  lemma LastEntry(key: string, m: map<string, string>, order: seq<string>)
    requires (forall k :: k in order ==> k in m) && order != []
    ensures var n := |order| - 1;
            && (forall k :: k in order[..n] ==> k in m)
            && EntryPairs(key, m, order)
               == EntryPairs(key, m, order[..n]) + [Label(Sanitise(key + order[n]), m[order[n]])]
  {
    hide Sanitise;
  }

  lemma {:induction false} EntryPairsAreLabels(key: string, m: map<string, string>, order: seq<string>, ks: set<string>)
    requires ks <= m.Keys && Enumerates(order, ks)
    ensures multiset(EntryPairs(key, m, order)) == EntryLabels(key, m, ks)
    decreases |order|
  {
    if order == [] {
      assert ks == {};
    } else {
      var n := |order| - 1;
      FrontEnumerates(order, ks);
      EntryPairsAreLabels(key, m, order[..n], ks - {order[n]});
      EntryLabelsAnyOrder(key, m, ks, order[n]);
      LastEntry(key, m, order);
      hide Sanitise;
      hide EntryLabels;
      hide EntryPairs;
      assert order[n] in m && EntryPairs(key, m, order) != [];
    }
  }

  lemma QueryPairsAreLabels(lib: Library, engine: Engine, key: string, query: string, fields: map<string, Value>,
                            order: seq<string>)
    requires Enumerates(order, Resolve(lib, engine, query, fields).Keys)
    ensures multiset(QueryPairs(lib, engine, key, query, fields, order)) == QueryLabels(lib, engine, key, query, fields)
  {
    hide Resolve;
    hide Sanitise;
    hide EntryLabels;
    var m := Resolve(lib, engine, query, fields);
    EntryPairsAreLabels(key, m, order, m.Keys);
  }

  /** Whatever order entries are visited in, the pairs are the specified labels. */
  lemma {:induction false} PairsAreLabels(lib: Library, engine: Engine, metric: MetricState, fields: map<string, Value>,
                                          orders: seq<seq<string>>)
    requires Aligned(metric) && Visits(lib, engine, metric, fields, orders)
    ensures multiset(PairsInOrder(lib, engine, metric, fields, orders))
         == MetricLabels(lib, engine, metric, |orders|, fields)
  {
    hide Resolve;
    hide QueryPairs;
    hide QueryLabels;
    if orders != [] {
      var n := |orders| - 1;
      assert Visited(lib, engine, metric, fields, n, orders[n]);
      assert forall i :: 0 <= i < n ==> Visited(lib, engine, metric, fields, i, orders[..n][i]);
      PairsAreLabels(lib, engine, metric, fields, orders[..n]);
      QueryPairsAreLabels(lib, engine, metric.keys[n], metric.values[n], fields, orders[n]);
    }
  }

  lemma LabelsAreArranged(lib: Library, sort: Sorter, engine: Engine, metric: MetricState, fields: map<string, Value>,
                          labels: seq<Label>)
    requires Aligned(metric) && LabelsFrom(lib, sort, engine, metric, fields, labels)
    ensures Arranges(labels, MetricLabels(lib, engine, metric, |metric.values|, fields))
  {
    hide Resolve;
    hide MetricLabels;
    hide PairsInOrder;
    hide Visits;
    hide Ordered;
    var orders :| |orders| == |metric.values| && Visits(lib, engine, metric, fields, orders)
                  && labels == sort(PairsInOrder(lib, engine, metric, fields, orders));
    PairsAreLabels(lib, engine, metric, fields, orders);
    assert Sorts(sort);
  }

  ghost function AnyOrders(lib: Library, engine: Engine, metric: MetricState, fields: map<string, Value>)
    : (orders: seq<seq<string>>)
    ensures |orders| == |metric.values| && Visits(lib, engine, metric, fields, orders)
  {
    seq(|metric.values|, i requires 0 <= i < |metric.values| => AnyOrder(Resolve(lib, engine, metric.values[i], fields).Keys))
  }

  /** The library prints a number as one token. */
  ghost predicate Tokens(lib: Library) {
    forall s :: lib.number(s).Some? ==> IsToken(lib.number(s).value)
  }

  /** A composite result contributes each label as often as entries produce it:
      one prefixed label per entry, none lost and none invented. */
  lemma {:induction false} EntryLabelsExact(key: string, m: map<string, string>, ks: set<string>, l: Label)
    requires ks <= m.Keys
    ensures EntryLabels(key, m, ks)[l] == |set k | k in ks && Label(Sanitise(key + k), m[k]) == l|
    ensures |EntryLabels(key, m, ks)| == |ks|
  {
    hide Sanitise;
    var makers := set k | k in ks && Label(Sanitise(key + k), m[k]) == l;
    if ks == {} {
      assert makers == {};
    } else {
      var p := Pick(ks);
      EntryLabelsExact(key, m, ks - {p}, l);
      var fewer := set k | k in ks - {p} && Label(Sanitise(key + k), m[k]) == l;
      assert makers == if Label(Sanitise(key + p), m[p]) == l then fewer + {p} else fewer;
    }
  }

  /** Each query adds exactly one label under its own key if its result names the
      query, else one label per entry of its result. */
  lemma QueryExpansion(lib: Library, engine: Engine, key: string, query: string, fields: map<string, Value>, l: Label)
    ensures
      var m := Resolve(lib, engine, query, fields);
      var labels := QueryLabels(lib, engine, key, query, fields);
      if query in m then labels == multiset{Label(Sanitise(key), m[query])}
      else |labels| == |m| && labels[l] == |set k | k in m && Label(Sanitise(key + k), m[k]) == l|
  {
    hide Resolve;
    hide Sanitise;
    var m := Resolve(lib, engine, query, fields);
    EntryLabelsExact(key, m, m.Keys, l);
    assert (set k | k in m.Keys && Label(Sanitise(key + k), m[k]) == l)
        == (set k | k in m && Label(Sanitise(key + k), m[k]) == l);
  }

  lemma UnstructuredLabel(lib: Library, key: string, query: string, fields: map<string, Value>)
    ensures |QueryLabels(lib, Unstructured, key, query, fields)| == 1
  {
    hide Nested;
    hide Split;
    hide EntryLabels;
    hide Sanitise;
    assert query in ResolveUnstructured(lib, query, fields);
  }

  /** The unstructured resolver never expands: one label per query. */
  lemma {:induction false} UnstructuredLabelCount(lib: Library, metric: MetricState, n: nat, fields: map<string, Value>)
    requires n <= |metric.values| <= |metric.keys|
    ensures |MetricLabels(lib, Unstructured, metric, n, fields)| == n
  {
    hide QueryLabels;
    if n > 0 {
      UnstructuredLabelCount(lib, metric, n - 1, fields);
      UnstructuredLabel(lib, metric.keys[n - 1], metric.values[n - 1], fields);
    }
  }

  lemma {:induction false} EntryNames(key: string, m: map<string, string>, ks: set<string>, l: Label)
    requires ks <= m.Keys && l in EntryLabels(key, m, ks)
    ensures AllWord(l.name)
  {
    var p := Pick(ks);
    SanitisedKey(key + p);
    if l != Label(Sanitise(key + p), m[p]) {
      EntryNames(key, m, ks - {p}, l);
    }
  }

  lemma {:induction false} MetricNames(lib: Library, engine: Engine, metric: MetricState, n: nat,
                                       fields: map<string, Value>, l: Label)
    requires n <= |metric.values| <= |metric.keys|
    requires l in MetricLabels(lib, engine, metric, n, fields)
    ensures AllWord(l.name)
  {
    hide Resolve;
    var key, query := metric.keys[n - 1], metric.values[n - 1];
    var m := Resolve(lib, engine, query, fields);
    SanitisedKey(key);
    if l in MetricLabels(lib, engine, metric, n - 1, fields) {
      MetricNames(lib, engine, metric, n - 1, fields, l);
    } else if query !in m {
      EntryNames(key, m, m.Keys, l);
    }
  }

  /** Whatever the configuration, a rendered label key is made of word characters
      and the value is one token. */
  lemma RenderedIsPrintable(lib: Library, sort: Sorter, name: string, resolver: string, metric: MetricState, obj: Object,
                            out: Option<Sample>)
    requires Tokens(lib) && Aligned(metric)
    requires RendersUnder(lib, sort, name, resolver, metric, obj, out) && out.Some?
    ensures Printable(out.value) && out.value.family == name
  {
    hide Resolve;
    hide Ordered;
    hide LabelsFrom;
    var engine := EngineFor(metric.resolver, resolver).value;
    var labels := out.value.labels;
    LabelsAreArranged(lib, sort, engine, metric, obj.fields, labels);
    forall i | 0 <= i < |labels| ensures AllWord(labels[i].name) {
      assert labels[i] in multiset(labels);
      MetricNames(lib, engine, metric, |metric.values|, obj.fields, labels[i]);
    }
  }

  // ---- The same, spelled out ----

  /** Which resolver a metric is rendered with, by name, and what it is then dropped
      for. */
  lemma RendersByName(lib: Library, name: string, resolver: string, metric: MetricState, obj: Object, out: Option<Sample>)
    requires Aligned(metric) && Renders(lib, name, resolver, metric, obj, out)
    ensures
      var r := if metric.resolver != "" then metric.resolver else resolver;
      && (r == "unstructured" ==>
            var m := ResolveUnstructured(lib, metric.value, obj.fields);
            && metric.value in m && (out.Some? <==> lib.number(m[metric.value]).Some?)
            && (out.Some? ==> out.value.token == lib.number(m[metric.value]).value))
      && (r == "cel" || r == "" ==>
            var m := ResolveCel(lib, metric.value, obj.fields);
            && (out.Some? <==> metric.value in m && lib.number(m[metric.value]).Some?)
            && (out.Some? ==> out.value.token == lib.number(m[metric.value]).value))
      && (r != "unstructured" && r != "cel" && r != "" ==> out.None?)
    ensures out.Some? ==>
              && out.value.family == name && out.value.group == obj.group
              && out.value.version == obj.version && out.value.kind == obj.kind
  {
    hide ResolveUnstructured;
    hide ResolveCel;
    hide LabelsFrom;
    assert "cel"[0] != "unstructured"[0];
    PathResults(lib, metric.value, obj.fields);
  }

  lemma {:induction false} EntryLabelIn(key: string, m: map<string, string>, k: string)
    requires k in m
    ensures Label(Sanitise(key + k), m[k]) in EntryLabels(key, m, m.Keys)
  {
    hide Sanitise;
    EntryLabelsAnyOrder(key, m, m.Keys, k);
  }

  lemma {:induction false} QueryLabelsIn(lib: Library, engine: Engine, metric: MetricState, n: nat,
                                         fields: map<string, Value>, i: nat, l: Label)
    requires i < n <= |metric.values| <= |metric.keys|
    requires l in QueryLabels(lib, engine, metric.keys[i], metric.values[i], fields)
    ensures l in MetricLabels(lib, engine, metric, n, fields)
  {
    hide QueryLabels;
    if i < n - 1 {
      QueryLabelsIn(lib, engine, metric, n - 1, fields, i, l);
    }
  }

  /** What a query's result puts among the labels. */
  lemma {:induction false} QueryIn(lib: Library, engine: Engine, metric: MetricState, fields: map<string, Value>,
                                   labels: seq<Label>, i: nat)
    requires Aligned(metric) && i < |metric.values|
    requires multiset(labels) == MetricLabels(lib, engine, metric, |metric.values|, fields)
    ensures
      var key, query := metric.keys[i], metric.values[i];
      var m := Resolve(lib, engine, query, fields);
      && (query in m ==> Label(Sanitise(key), m[query]) in labels)
      && (query !in m ==> forall k :: k in m ==> Label(Sanitise(key + k), m[k]) in labels)
  {
    hide Resolve;
    hide Sanitise;
    hide MetricLabels;
    hide EntryLabels;
    var key, query := metric.keys[i], metric.values[i];
    var m := Resolve(lib, engine, query, fields);
    forall l | l in QueryLabels(lib, engine, key, query, fields) ensures l in labels {
      QueryLabelsIn(lib, engine, metric, |metric.values|, fields, i, l);
      assert l in multiset(labels);
    }
    if query in m {
      assert Label(Sanitise(key), m[query]) in QueryLabels(lib, engine, key, query, fields);
    } else {
      forall k | k in m ensures Label(Sanitise(key + k), m[k]) in labels {
        EntryLabelIn(key, m, k);
      }
    }
  }

  /** And into a rendered sample. */
  lemma QueryInSample(lib: Library, name: string, resolver: string, metric: MetricState, obj: Object,
                      out: Option<Sample>, i: nat)
    requires Aligned(metric) && Renders(lib, name, resolver, metric, obj, out) && out.Some? && i < |metric.values|
    ensures EngineFor(metric.resolver, resolver).Some?
    ensures
      var key, query := metric.keys[i], metric.values[i];
      var m := Resolve(lib, EngineFor(metric.resolver, resolver).value, query, obj.fields);
      && (query in m ==> Label(Sanitise(key), m[query]) in out.value.labels)
      && (query !in m ==> forall k :: k in m ==> Label(Sanitise(key + k), m[k]) in out.value.labels)
  {
    hide Resolve;
    hide LabelsFrom;
    hide Sanitise;
    hide MetricLabels;
    hide Ordered;
    var engine := EngineFor(metric.resolver, resolver).value;
    LabelsAreArranged(lib, lib.sort, engine, metric, obj.fields, out.value.labels);
    QueryIn(lib, engine, metric, obj.fields, out.value.labels, i);
  }

  /** What CEL's outcomes come to in a sample: scalars show their own value, errors
      and failed casts the query, and a metric whose value is of an unsupported type
      is dropped. */
  lemma {:induction false} CelInSample(lib: Library, name: string, resolver: string, metric: MetricState, obj: Object,
                                       out: Option<Sample>)
    requires Aligned(metric) && Renders(lib, name, resolver, metric, obj, out)
    requires metric.resolver == "cel" || (metric.resolver == "" && (resolver == "cel" || resolver == ""))
    ensures
      match lib.evaluate(metric.value, obj.fields)
      case Scalar(v) => (if out.Some? then Some(out.value.token) else None) == lib.number(lib.show(v))
      case Unsupported => out.None?
      case ListResult(Some(_)) => true
      case MapResult(Some(_)) => true
      case _ => (if out.Some? then Some(out.value.token) else None) == lib.number(metric.value)
    ensures out.Some? ==> forall i :: 0 <= i < |metric.values| ==>
      var key, query := metric.keys[i], metric.values[i];
      match lib.evaluate(query, obj.fields)
      case Scalar(v) => Label(Sanitise(key), lib.show(v)) in out.value.labels
      case Unsupported => true
      case ListResult(Some(_)) => true
      case MapResult(Some(entries)) =>
        query !in entries ==> forall k :: k in entries && Kept(entries[k]) ==>
          Label(Sanitise(key + k), lib.show(entries[k])) in out.value.labels
      case _ => Label(Sanitise(key), query) in out.value.labels
  {
    hide ResolveCel;
    hide LabelsFrom;
    hide Sanitise;
    CelResults(lib, metric.value, obj.fields);
    RendersByName(lib, name, resolver, metric, obj, out);
    if out.Some? {
      forall i | 0 <= i < |metric.values|
        ensures
          var key, query := metric.keys[i], metric.values[i];
          match lib.evaluate(query, obj.fields)
          case Scalar(v) => Label(Sanitise(key), lib.show(v)) in out.value.labels
          case Unsupported => true
          case ListResult(Some(_)) => true
          case MapResult(Some(entries)) =>
            query !in entries ==> forall k :: k in entries && Kept(entries[k]) ==>
              Label(Sanitise(key + k), lib.show(entries[k])) in out.value.labels
          case _ => Label(Sanitise(key), query) in out.value.labels
      {
        CelResults(lib, metric.values[i], obj.fields);
        QueryInSample(lib, name, resolver, metric, obj, out, i);
      }
    }
  }

  /** Rendering always has an outcome. */
  lemma RenderingExists(lib: Library, name: string, resolver: string, metric: MetricState, obj: Object)
    returns (out: Option<Sample>)
    requires Aligned(metric)
    ensures Renders(lib, name, resolver, metric, obj, out)
  {
    hide Resolve;
    hide Visits;
    hide PairsInOrder;
    out := None;
    var engine := EngineFor(metric.resolver, resolver);
    if engine.Some? {
      var resolved := Resolve(lib, engine.value, metric.value, obj.fields);
      if metric.value in resolved && lib.number(resolved[metric.value]).Some? {
        var orders := AnyOrders(lib, engine.value, metric, obj.fields);
        var labels := lib.sort(PairsInOrder(lib, engine.value, metric, obj.fields, orders));
        assert LabelsFrom(lib, lib.sort, engine.value, metric, obj.fields, labels);
        out := Some(Sample(name, labels, obj.group, obj.version, obj.kind, lib.number(resolved[metric.value]).value));
      }
    }
  }

  lemma {:induction false} RowExists(lib: Library, family: FamilyState, obj: Object, n: nat) returns (row: Row)
    requires AllAligned(family) && n <= |family.metrics|
    ensures |row| == n
    ensures forall i :: 0 <= i < n ==> Renders(lib, family.name, family.resolver, family.metrics[i], obj, row[i])
  {
    hide Renders;
    row := [];
    if n > 0 {
      var front := RowExists(lib, family, obj, n - 1);
      var out := RenderingExists(lib, family.name, family.resolver, family.metrics[n - 1], obj);
      row := front + [out];
    }
  }

  // ---- The code ----

  /** The label loop: two lists grow together, one pair per scalar result, one
      pair per entry of a composite, in whatever order Go visits the entries. */
  method ResolveLabels(lib: Library, engine: Engine, metric: MetricState, fields: map<string, Value>)
    returns (keys: seq<string>, values: seq<string>, ghost orders: seq<seq<string>>)
    requires Aligned(metric)
    ensures |keys| == |values|
    ensures |orders| == |metric.values| && Visits(lib, engine, metric, fields, orders)
    ensures Zip(keys, values) == PairsInOrder(lib, engine, metric, fields, orders)
    ensures forall i :: 0 <= i < |metric.values| ==>
              var key, query := metric.keys[i], metric.values[i];
              var m := Resolve(lib, engine, query, fields);
              && (query in m ==> Label(Sanitise(key), m[query]) in Zip(keys, values))
              && (query !in m ==> forall k :: k in m ==> Label(Sanitise(key + k), m[k]) in Zip(keys, values))
              && (engine.Cel? ==> CelGives(lib, query, lib.evaluate(query, fields), m))
              && (engine.Unstructured? ==> PathGives(lib, query, fields, m))
  {
    hide CelGives;
    hide PathGives;
    hide Resolve;
    hide Sanitise;
    hide Zip;
    hide Enumerates;
    keys, values, orders := [], [], [];
    assert Zip(keys, values) == [];
    for i := 0 to |metric.values|
      invariant |keys| == |values| && |orders| == i && Visits(lib, engine, metric, fields, orders)
      invariant Zip(keys, values) == PairsInOrder(lib, engine, metric, fields, orders)
    {
      var query := metric.values[i];
      var resolved := ResolveQuery(lib, engine, query, fields);
      ghost var before, order := orders, AnyOrder(resolved.Keys);
      if query in resolved {
        keys, values := AppendPair(keys, values, metric.keys[i], resolved[query]);
      } else {
        keys, values, order := AppendEntries(keys, values, metric.keys[i], resolved);
      }
      orders := orders + [order];
      OneMoreQuery(lib, engine, metric, fields, before, order);
    }
    QueriesInPairs(lib, engine, metric, fields, orders);
  }

  lemma QueriesInPairs(lib: Library, engine: Engine, metric: MetricState, fields: map<string, Value>,
                       orders: seq<seq<string>>)
    requires Aligned(metric) && Visits(lib, engine, metric, fields, orders) && |orders| == |metric.values|
    ensures forall i :: 0 <= i < |metric.values| ==>
              var key, query := metric.keys[i], metric.values[i];
              var m := Resolve(lib, engine, query, fields);
              var pairs := PairsInOrder(lib, engine, metric, fields, orders);
              && (query in m ==> Label(Sanitise(key), m[query]) in pairs)
              && (query !in m ==> forall k :: k in m ==> Label(Sanitise(key + k), m[k]) in pairs)
              && (engine.Cel? ==> CelGives(lib, query, lib.evaluate(query, fields), m))
              && (engine.Unstructured? ==> PathGives(lib, query, fields, m))
  {
    hide CelGives;
    hide PathGives;
    hide ResolveCel;
    hide ResolveUnstructured;
    hide Sanitise;
    hide PairsInOrder;
    hide MetricLabels;
    PairsAreLabels(lib, engine, metric, fields, orders);
    forall i | 0 <= i < |metric.values|
      ensures
        var key, query := metric.keys[i], metric.values[i];
        var m := Resolve(lib, engine, query, fields);
        var pairs := PairsInOrder(lib, engine, metric, fields, orders);
        && (query in m ==> Label(Sanitise(key), m[query]) in pairs)
        && (query !in m ==> forall k :: k in m ==> Label(Sanitise(key + k), m[k]) in pairs)
        && (engine.Cel? ==> CelGives(lib, query, lib.evaluate(query, fields), m))
        && (engine.Unstructured? ==> PathGives(lib, query, fields, m))
    {
      CelResults(lib, metric.values[i], fields);
      PathResults(lib, metric.values[i], fields);
      QueryIn(lib, engine, metric, fields, PairsInOrder(lib, engine, metric, fields, orders), i);
    }
  }

  lemma OneMoreQuery(lib: Library, engine: Engine, metric: MetricState, fields: map<string, Value>,
                     orders: seq<seq<string>>, order: seq<string>)
    requires Aligned(metric) && Visits(lib, engine, metric, fields, orders) && |orders| < |metric.values|
    requires Visited(lib, engine, metric, fields, |orders|, order)
    ensures Visits(lib, engine, metric, fields, orders + [order])
    ensures PairsInOrder(lib, engine, metric, fields, orders + [order])
         == PairsInOrder(lib, engine, metric, fields, orders)
            + QueryPairs(lib, engine, metric.keys[|orders|], metric.values[|orders|], fields, order)
  {
    hide Resolve;
    assert (orders + [order])[..|orders|] == orders;
  }

  method AppendPair(keys: seq<string>, values: seq<string>, key: string, value: string)
    returns (keys': seq<string>, values': seq<string>)
    requires |keys| == |values|
    ensures |keys'| == |values'| && Zip(keys', values') == Zip(keys, values) + [Label(Sanitise(key), value)]
  {
    keys', values' := keys + [Sanitise(key)], values + [value];
  }

  /** `order` is the one the range over the result took. */
  method AppendEntries(keys: seq<string>, values: seq<string>, key: string, resolved: map<string, string>)
    returns (keys': seq<string>, values': seq<string>, ghost order: seq<string>)
    requires |keys| == |values|
    ensures |keys'| == |values'| && Enumerates(order, resolved.Keys)
    ensures Zip(keys', values') == Zip(keys, values) + EntryPairs(key, resolved, order)
  {
    hide Sanitise;
    keys', values', order := keys, values, [];
    var rest := resolved.Keys;
    while rest != {}
      invariant rest <= resolved.Keys && |keys'| == |values'|
      invariant Enumerates(order, resolved.Keys - rest) && forall k :: k in order ==> k in resolved
      invariant Zip(keys', values') == Zip(keys, values) + EntryPairs(key, resolved, order)
      decreases rest
    {
      var k :| k in rest;
      keys', values' := AppendPair(keys', values', key + k, resolved[k]);
      assert forall v :: v in order + [k] <==> v in order || v == k;
      order := order + [k];
      rest := rest - {k};
    }
  }

  lemma LinePieces(s: Sample)
    ensures RenderSample(s)
         == "" + PREFIX + s.family + RenderBody(WithIdentity(s.labels, s.group, s.version, s.kind)) + s.token + "\n"
  {
    hide RenderBody;
    hide WithIdentity;
  }

  class MetricType {
    var labelKeys: seq<string>
    var labelValues: seq<string>
    const value: string
    const resolver: string

    constructor (labelKeys: seq<string>, labelValues: seq<string>, value: string, resolver: string)
      ensures View() == MetricState(labelKeys, labelValues, value, resolver)
    {
      this.labelKeys, this.labelValues, this.value, this.resolver := labelKeys, labelValues, value, resolver;
    }

    ghost function View(): MetricState
      reads this
    {
      MetricState(labelKeys, labelValues, value, resolver)
    }
  }

  class FamilyType {
    const name: string
    const help: string
    const metrics: seq<MetricType>
    var t: string
    var resolver: string
    var labelKeys: seq<string>
    var labelValues: seq<string>

    constructor (name: string, help: string, metrics: seq<MetricType>, resolver: string,
                 labelKeys: seq<string>, labelValues: seq<string>)
      ensures this.name == name && this.help == help && this.metrics == metrics
      ensures this.resolver == resolver && this.labelKeys == labelKeys && this.labelValues == labelValues
    {
      this.name, this.help, this.metrics, this.t := name, help, metrics, "";
      this.resolver, this.labelKeys, this.labelValues := resolver, labelKeys, labelValues;
    }

    /** Decoding gives every list entry an object of its own. */
    ghost predicate Distinct() {
      forall i, j :: 0 <= i < j < |metrics| ==> metrics[i] != metrics[j]
    }

    ghost function View(): FamilyState
      reads this, metrics
    {
      FamilyState(name, help, resolver, labelKeys, labelValues, MetricViews())
    }

    ghost function MetricViews(): (views: seq<MetricState>)
      reads metrics
      ensures |views| == |metrics|
    {
      seq(|metrics|, i requires 0 <= i < |metrics| reads metrics => metrics[i].View())
    }

    method BuildHeaders() returns (header: string)
      modifies this`t
      ensures header == RenderHeader(name, help) && t == GAUGE
      ensures header
           == "# HELP kube_customresource_" + name + " " + help + "\n" + ("# TYPE kube_customresource_" + name + " gauge")
    {
      hide RenderHeader;
      HeaderLines(name, help);
      var builder := new StringBuilder();
      builder.WriteString("# HELP ");
      assert builder.contents == "# HELP ";
      builder.WriteString(PREFIX);
      builder.WriteString(name);
      builder.WriteString(" ");
      builder.WriteString(help);
      builder.WriteString("\n");
      HeaderPieces(name, help);
      builder.WriteString("# TYPE ");
      builder.WriteString(PREFIX);
      builder.WriteString(name);
      builder.WriteString(" ");
      t := GAUGE;
      builder.WriteString(t);
      header := builder.contents;
    }

    method RawFrom(lib: Library, obj: Object) returns (text: string, ghost row: Row)
      requires Distinct() && AllAligned(View())
      modifies metrics
      ensures View() == Inherited(old(View()))
      ensures RowRenders(lib, View(), obj, row) && text == RenderRow(row)
    {
      hide Renders;
      hide RenderOut;
      hide InheritMetric;
      var familyRaw := new StringBuilder();
      row := [];
      ghost var before := View();
      ghost var after := Inherited(before);
      var i := 0;
      while i < |metrics|
        invariant 0 <= i <= |metrics|
        invariant forall j :: 0 <= j < i ==> metrics[j].View() == after.metrics[j]
        invariant forall j :: i <= j < |metrics| ==> metrics[j].View() == before.metrics[j]
        invariant |row| == i
        invariant forall j :: 0 <= j < i ==> Renders(lib, name, resolver, after.metrics[j], obj, row[j])
        invariant familyRaw.contents == RenderRow(row)
        invariant fresh(familyRaw)
      {
        var metricRaw: string;
        ghost var out: Option<Sample>;
        metricRaw, out := RawMetric(lib, metrics[i], obj);
        familyRaw.WriteString(metricRaw);
        RenderRowAppend(row, out);
        row := row + [out];
        i := i + 1;
      }
      text := familyRaw.contents;
      assert MetricViews() == after.metrics;
    }

    /** `resolver`, the method. The family's own is asked if the metric has none. */
    method ResolverFor(inheritedResolver: string) returns (engine: Option<Engine>)
      ensures engine == EngineFor(inheritedResolver, resolver)
    {
      var r := inheritedResolver;
      if r == "" {
        r := resolver;
      }
      if r == "" || r == "cel" {
        engine := Some(Cel);
      } else if r == "unstructured" {
        engine := Some(Unstructured);
      } else {
        engine := None;
      }
    }

    /** One turn of the loop above. The labels are handed down even when the
        metric is then skipped; a skipped metric leaves no text. */
    method RawMetric(lib: Library, metric: MetricType, obj: Object)
      returns (text: string, ghost out: Option<Sample>)
      requires Aligned(metric.View()) && |labelValues| <= |labelKeys|
      modifies metric
      ensures metric.View() == InheritMetric(old(metric.View()), labelKeys, labelValues)
      ensures Renders(lib, name, resolver, metric.View(), obj, out) && text == RenderOut(out)
      ensures
        var r := if metric.resolver != "" then metric.resolver else resolver;
        && (r == "unstructured" ==>
              var m := ResolveUnstructured(lib, metric.value, obj.fields);
              metric.value in m && (text != "" <==> lib.number(m[metric.value]).Some?))
        && (r == "cel" || r == "" ==>
              var m := ResolveCel(lib, metric.value, obj.fields);
              text != "" <==> metric.value in m && lib.number(m[metric.value]).Some?)
        && (r != "unstructured" && r != "cel" && r != "" ==> text == "")
    {
      text, out := RenderMetric(lib, metric, obj);
      RendersByName(lib, name, resolver, metric.View(), obj, out);
    }

    method RenderMetric(lib: Library, metric: MetricType, obj: Object)
      returns (text: string, ghost out: Option<Sample>)
      requires Aligned(metric.View()) && |labelValues| <= |labelKeys|
      modifies metric
      ensures metric.View() == InheritMetric(old(metric.View()), labelKeys, labelValues)
      ensures Renders(lib, name, resolver, metric.View(), obj, out) && text == RenderOut(out)
    {
      text, out := "", None;
      metric.labelKeys := metric.labelKeys + labelKeys;
      metric.labelValues := metric.labelValues + labelValues;
      var engine := ResolverFor(metric.resolver);
      if engine.None? {
        return;
      }
      var resolvedKeys, resolvedValues;
      ghost var orders;
      resolvedKeys, resolvedValues, orders :=
        ResolveLabels(lib, engine.value,
                      MetricState(metric.labelKeys, metric.labelValues, metric.value, metric.resolver), obj.fields);
      var resolved := ResolveQuery(lib, engine.value, metric.value, obj.fields);
      if metric.value !in resolved {
        return;
      }
      text, out := RenderLine(lib, resolvedKeys, resolvedValues, resolved[metric.value], obj);
    }

    /** The last step of that turn: print the line, or nothing. */
    method RenderLine(lib: Library, resolvedKeys: seq<string>, resolvedValues: seq<string>,
                      resolvedValue: string, obj: Object)
      returns (text: string, ghost out: Option<Sample>)
      requires |resolvedKeys| == |resolvedValues|
      ensures text == RenderOut(out)
      ensures match lib.number(resolvedValue)
              case None => out == None
              case Some(token) =>
                && out.Some?
                && out.value == Sample(name, out.value.labels, obj.group, obj.version, obj.kind, token)
                && out.value.labels == lib.sort(Zip(resolvedKeys, resolvedValues))
    {
      hide ReadsAs;
      hide WordLabels;
      hide WithIdentity;
      hide Arranges;
      hide RenderBody;
      hide RenderSample;
      text, out := "", None;
      var builder := new StringBuilder();
      builder.WriteString(PREFIX);
      builder.WriteString(name);
      var keys := new string[|resolvedKeys|](i requires 0 <= i < |resolvedKeys| => resolvedKeys[i]);
      var values := new string[|resolvedValues|](i requires 0 <= i < |resolvedValues| => resolvedValues[i]);
      assert keys[..] == resolvedKeys && values[..] == resolvedValues;
      var r := WriteMetricTo(builder, obj.group, obj.version, obj.kind, resolvedValue, keys, values, lib.sort, lib.number);
      if r.Written? {
        text := builder.contents;
        out := Some(Sample(name, Zip(keys[..], values[..]), obj.group, obj.version, obj.kind,
                           lib.number(resolvedValue).value));
        LinePieces(out.value);
      }
    }
  }
}
