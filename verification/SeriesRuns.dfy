/** When two objects are one series, from configuration and events to the text. */
module SeriesRuns {
  import opened Text
  import opened Exposition
  import opened Labelset
  import opened Resolver
  import opened Family
  import opened Determinism
  import opened Store
  import opened StoreRuns
  import opened Document
  import opened Series
  import Readable

  // ---- What tells two objects apart ----

  /** What a query gives, if its result names it. */
  function Answer(lib: Library, engine: Engine, query: string, fields: map<string, Value>): Option<string> {
    var m := Resolve(lib, engine, query, fields);
    if query in m then Some(m[query]) else None
  }

  /** All queries give scalars, as they always do under the unstructured resolver. */
  predicate Answered(lib: Library, engine: Engine, queries: seq<string>, fields: map<string, Value>) {
    forall q :: q in queries ==> Answer(lib, engine, q, fields).Some?
  }

  predicate SameAnswers(lib: Library, engine: Engine, queries: seq<string>, obj: Object, other: Object) {
    forall q :: q in queries ==> Answer(lib, engine, q, obj.fields) == Answer(lib, engine, q, other.fields)
  }

  predicate SameKind(obj: Object, other: Object) {
    obj.group == other.group && obj.version == other.version && obj.kind == other.kind
  }

  lemma UnstructuredAnswers(lib: Library, queries: seq<string>, fields: map<string, Value>)
    ensures Answered(lib, Unstructured, queries, fields)
  {
    hide Resolve;
    forall q | q in queries ensures Answer(lib, Unstructured, q, fields).Some? {
      QueryNamed(lib, q, fields);
    }
  }

  /** Queries under one sanitised key are one query. */
  predicate OneQueryEach(metric: MetricState)
    requires Aligned(metric)
  {
    forall i, j :: 0 <= i < |metric.values| && 0 <= j < |metric.values| ==>
      Sanitise(metric.keys[i]) == Sanitise(metric.keys[j]) ==> metric.values[i] == metric.values[j]
  }

  /** The pairs of the queries, in order. */
  function AnswerPairs(lib: Library, engine: Engine, metric: MetricState, fields: map<string, Value>): seq<Label>
    requires Aligned(metric) && Answered(lib, engine, metric.values, fields)
  {
    seq(|metric.values|, i requires 0 <= i < |metric.values| =>
      Label(Sanitise(metric.keys[i]), Answer(lib, engine, metric.values[i], fields).value))
  }

  lemma {:induction false} PairsAreAnswers(
    lib: Library, engine: Engine, metric: MetricState, fields: map<string, Value>, orders: seq<seq<string>>)
    requires Aligned(metric) && Visits(lib, engine, metric, fields, orders)
    requires Answered(lib, engine, metric.values, fields)
    ensures PairsInOrder(lib, engine, metric, fields, orders) == AnswerPairs(lib, engine, metric, fields)[..|orders|]
  {
    hide Sanitise;
    hide Resolve;
    hide EntryPairs;
    if orders != [] {
      var n := |orders| - 1;
      assert Visited(lib, engine, metric, fields, n, orders[n]);
      FrontVisits(lib, engine, metric, fields, orders);
      PairsAreAnswers(lib, engine, metric, fields, orders[..n]);
      assert Answer(lib, engine, metric.values[n], fields).Some?;
    }
  }

  lemma LabelsAreAnswers(lib: Library, engine: Engine, metric: MetricState, fields: map<string, Value>,
                         labels: seq<Label>)
    requires Aligned(metric) && LabelsFrom(lib, lib.sort, engine, metric, fields, labels)
    requires Answered(lib, engine, metric.values, fields)
    ensures labels == lib.sort(AnswerPairs(lib, engine, metric, fields))
  {
    hide Resolve;
    hide PairsInOrder;
    hide Visits;
    hide Answered;
    hide AnswerPairs;
    var orders :| |orders| == |metric.values| && Visits(lib, engine, metric, fields, orders)
                  && labels == lib.sort(PairsInOrder(lib, engine, metric, fields, orders));
    PairsAreAnswers(lib, engine, metric, fields, orders);
    var pairs := AnswerPairs(lib, engine, metric, fields);
    AnswerCount(lib, engine, metric, fields);
    assert pairs[..|orders|] == pairs;
  }

  lemma AnswerCount(lib: Library, engine: Engine, metric: MetricState, fields: map<string, Value>)
    requires Aligned(metric) && Answered(lib, engine, metric.values, fields)
    ensures |AnswerPairs(lib, engine, metric, fields)| == |metric.values|
  {
  }

  /** Lists with the same names in the same places are told apart by the values under
      each name. */
  lemma {:induction false} NamesAndValues(ps: seq<Label>, qs: seq<Label>)
    requires |ps| == |qs| && SameValues(ps, qs)
    requires forall i :: 0 <= i < |ps| ==> ps[i].name == qs[i].name
    ensures ps == qs
  {
    if ps != [] {
      var n := |ps| - 1;
      var p, q := ps[n], qs[n];
      var a, b := ValuesOf(ps[..n], p.name), ValuesOf(qs[..n], p.name);
      assert a + [p.value] == ValuesOf(ps, p.name) == ValuesOf(qs, p.name) == b + [q.value];
      assert (a + [p.value])[|a|] == p.value && (b + [q.value])[|b|] == q.value && |a| == |b|;
      forall name ensures ValuesOf(ps[..n], name) == ValuesOf(qs[..n], name) {
        var c, d := ValuesOf(ps[..n], name), ValuesOf(qs[..n], name);
        assert ValuesOf(ps, name) == ValuesOf(qs, name);
        assert c + [] == c && d + [] == d;
        Cut(c, d, p.value);
      }
      NamesAndValues(ps[..n], qs[..n]);
      assert ps == ps[..n] + [p] && qs == qs[..n] + [q];
    }
  }

  /** Sorting loses nothing that tells such lists apart, if it keeps equal names in
      order or they carry equal values. */
  lemma SortKeepsApart(sort: Sorter, ps: seq<Label>, qs: seq<Label>)
    requires |ps| == |qs| && forall i :: 0 <= i < |ps| ==> ps[i].name == qs[i].name
    requires Stable(sort) || Consistent(multiset(ps))
    ensures sort(ps) == sort(qs) <==> ps == qs
  {
    if sort(ps) == sort(qs) {
      Permutes(sort, ps);
      Permutes(sort, qs);
      forall name ensures ValuesOf(ps, name) == ValuesOf(qs, name) {
        if Stable(sort) {
          assert ValuesOf(sort(ps), name) == ValuesOf(ps, name) && ValuesOf(sort(qs), name) == ValuesOf(qs, name);
        } else {
          OneValue(ps, qs, name);
        }
      }
      NamesAndValues(ps, qs);
    }
  }

  lemma OneValue(ps: seq<Label>, qs: seq<Label>, name: string)
    requires Consistent(multiset(ps)) && multiset(ps) == multiset(qs)
    ensures ValuesOf(ps, name) == ValuesOf(qs, name)
  {
    var all := multiset(ps);
    var v := if l :| l in all && l.name == name then l.value else "";
    forall l | l in ps && l.name == name ensures l.value == v {
      assert l in all;
    }
    forall l | l in qs && l.name == name ensures l.value == v {
      assert l in multiset(qs);
    }
    ConstantValues(ps, name, v);
    ConstantValues(qs, name, v);
  }

  lemma AnswersAgree(lib: Library, engine: Engine, metric: MetricState, fields: map<string, Value>)
    requires Aligned(metric) && Answered(lib, engine, metric.values, fields) && OneQueryEach(metric)
    ensures Consistent(multiset(AnswerPairs(lib, engine, metric, fields)))
  {
    hide Answer;
    hide Sanitise;
    var pairs := AnswerPairs(lib, engine, metric, fields);
    forall p: Label, q: Label | p in multiset(pairs) && q in multiset(pairs) && p.name == q.name ensures p == q {
      assert p in pairs && q in pairs;
    }
  }

  lemma SamePairs(lib: Library, engine: Engine, metric: MetricState, obj: Object, other: Object)
    requires Aligned(metric)
    requires Answered(lib, engine, metric.values, obj.fields) && Answered(lib, engine, metric.values, other.fields)
    ensures var a, b := AnswerPairs(lib, engine, metric, obj.fields), AnswerPairs(lib, engine, metric, other.fields);
            && (a == b <==> SameAnswers(lib, engine, metric.values, obj, other))
            && |a| == |b| && forall i :: 0 <= i < |a| ==> a[i].name == b[i].name
  {
    hide Answer;
    hide Sanitise;
    var a, b := AnswerPairs(lib, engine, metric, obj.fields), AnswerPairs(lib, engine, metric, other.fields);
    if a == b {
      forall q | q in metric.values
        ensures Answer(lib, engine, q, obj.fields) == Answer(lib, engine, q, other.fields) {
        var i :| 0 <= i < |metric.values| && metric.values[i] == q;
        assert a[i].value == b[i].value;
      }
    }
  }

  /** Two objects are one series under a metric whose queries give scalars, if their
      kind is the same and no query tells them apart; and only then, if the sort
      keeps equal keys in order or queries under one key are one. */
  lemma {:induction false} ClashExactly(
    lib: Library, name: string, resolver: string, metric: MetricState, obj: Object, other: Object,
    x: Option<Sample>, y: Option<Sample>)
    requires Aligned(metric) && x.Some? && y.Some?
    requires Renders(lib, name, resolver, metric, obj, x) && Renders(lib, name, resolver, metric, other, y)
    requires var engine := EngineFor(metric.resolver, resolver).value;
             Answered(lib, engine, metric.values, obj.fields) && Answered(lib, engine, metric.values, other.fields)
    ensures var engine := EngineFor(metric.resolver, resolver).value;
            && (SameKind(obj, other) && SameAnswers(lib, engine, metric.values, obj, other) ==> Clash(x, y))
            && (Stable(lib.sort) || OneQueryEach(metric) ==>
                  (Clash(x, y) <==> SameKind(obj, other) && SameAnswers(lib, engine, metric.values, obj, other)))
  {
    hide Resolve;
    hide LabelsFrom;
    hide Answered;
    hide AnswerPairs;
    hide SameAnswers;
    hide Stable;
    hide OneQueryEach;
    var engine := EngineFor(metric.resolver, resolver).value;
    LabelsAreAnswers(lib, engine, metric, obj.fields, x.value.labels);
    LabelsAreAnswers(lib, engine, metric, other.fields, y.value.labels);
    SamePairs(lib, engine, metric, obj, other);
    SameLabelsAndKind(x.value, y.value);
    if OneQueryEach(metric) {
      AnswersAgree(lib, engine, metric, obj.fields);
    }
    if Stable(lib.sort) || OneQueryEach(metric) {
      SortKeepsApart(lib.sort, AnswerPairs(lib, engine, metric, obj.fields),
                     AnswerPairs(lib, engine, metric, other.fields));
    }
  }

  lemma SameLabelsAndKind(x: Sample, y: Sample)
    ensures SameSeries(x, y) <==>
            x.family == y.family && x.labels == y.labels
            && x.group == y.group && x.version == y.version && x.kind == y.kind
  {
    var a, b, n := AllLabels(x), AllLabels(y), |x.labels|;
    if a == b {
      assert |x.labels| == |y.labels|;
      assert a[..n] == x.labels && b[..n] == y.labels;
      assert a[n] == b[n] && a[n + 1] == b[n + 1] && a[n + 2] == b[n + 2];
    }
  }

  /** Without labels, all objects of one kind are one series. */
  lemma UnlabelledClash(lib: Library, name: string, resolver: string, metric: MetricState, obj: Object, other: Object,
                        x: Option<Sample>, y: Option<Sample>)
    requires metric.values == []
    requires Renders(lib, name, resolver, metric, obj, x) && Renders(lib, name, resolver, metric, other, y)
    ensures x.Some? && y.Some? ==> (Clash(x, y) <==> SameKind(obj, other))
  {
    hide Renders;
    hide Clash;
    hide Stable;
    if x.Some? && y.Some? {
      ClashExactly(lib, name, resolver, metric, obj, other, x, y);
    }
  }

  // ---- Two additions to one store ----

  /** A family's resolver on every addition. */
  function ResolverOf(s: StoreState, i: nat): string
    requires i < |s.families|
  {
    if s.families[i].resolver == RESOLVER_NONE then s.resolver else s.families[i].resolver
  }

  function EngineOf(s: StoreState, i: nat, k: nat): Option<Engine>
    requires i < |s.families| && k < |s.families[i].metrics|
  {
    EngineFor(s.families[i].metrics[k].resolver, ResolverOf(s, i))
  }

  predicate HandsDown(s: StoreState, i: nat)
    requires i < |s.families|
  {
    s.families[i].values + s.values != []
  }

  /** The metric is not dropped for this object. */
  predicate Shows(lib: Library, s: StoreState, i: nat, k: nat, obj: Object)
    requires i < |s.families| && k < |s.families[i].metrics|
  {
    EngineOf(s, i, k).Some? &&
    var query := s.families[i].metrics[k].value;
    var answer := Answer(lib, EngineOf(s, i, k).value, query, obj.fields);
    answer.Some? && lib.number(answer.value).Some?
  }

  /** Nothing the store was configured with tells two objects apart. */
  predicate Twins(lib: Library, s: StoreState, i: nat, k: nat, obj: Object, other: Object)
    requires i < |s.families| && k < |s.families[i].metrics|
  {
    && Shows(lib, s, i, k, obj) && Shows(lib, s, i, k, other) && !HandsDown(s, i)
    && SameKind(obj, other)
    && SameAnswers(lib, EngineOf(s, i, k).value, s.families[i].metrics[k].values, obj, other)
  }

  /** Every label query of the store gives a scalar for the object. */
  predicate AllAnswered(lib: Library, s: StoreState, obj: Object) {
    forall i, k :: 0 <= i < |s.families| && 0 <= k < |s.families[i].metrics| && EngineOf(s, i, k).Some? ==>
      Answered(lib, EngineOf(s, i, k).value, s.families[i].metrics[k].values + (s.families[i].values + s.values),
               obj.fields)
  }

  predicate QueriesByKey(s: StoreState) {
    forall i, k :: 0 <= i < |s.families| && 0 <= k < |s.families[i].metrics| ==>
      Aligned(s.families[i].metrics[k]) && OneQueryEach(s.families[i].metrics[k])
  }

  lemma {:induction false} InRepeat(xs: seq<string>, n: nat)
    ensures forall x :: x in Repeat(xs, n) ==> x in xs
  {
    if n > 0 {
      InRepeat(xs, n - 1);
    }
  }

  lemma {:induction false} InHandedDown(fs: seq<string>, ss: seq<string>, n: nat)
    ensures forall x :: x in HandedDown(fs, ss, n) ==> x in fs + ss
  {
    if n > 0 {
      InHandedDown(fs, ss, n - 1);
      InRepeat(ss, n);
    }
  }

  /** A metric as the `n`-th addition finds it. */
  function MetricAt(s: StoreState, n: nat, i: nat, k: nat): MetricState
    requires i < |s.families| && k < |s.families[i].metrics|
  {
    var f := s.families[i];
    InheritMetric(f.metrics[k], HandedDown(f.keys, s.keys, n), HandedDown(f.values, s.values, n))
  }

  lemma AdditionRenders(lib: Library, s: StoreState, n: nat, obj: Object, block: Block, i: nat, k: nat)
    requires StoreAligned(s) && n > 0 && i < |s.families| && k < |s.families[i].metrics|
    requires BlockRenders(lib, FamiliesAfter(s, n), obj, block)
    ensures i < |block| && k < |block[i]| && Aligned(MetricAt(s, n, i, k))
    ensures EngineFor(MetricAt(s, n, i, k).resolver, ResolverOf(s, i)) == EngineOf(s, i, k)
    ensures Renders(lib, s.families[i].name, ResolverOf(s, i), MetricAt(s, n, i, k), obj, block[i][k])
    ensures block[i][k].Some? <==> Shows(lib, s, i, k, obj)
  {
    hide Resolve;
    hide LabelsFrom;
    var g := FamiliesAfter(s, n)[i];
    LabelsAccumulate(s.families[i], s.resolver, s.keys, s.values, n);
    assert RowRenders(lib, g, obj, block[i]);
    assert Renders(lib, g.name, g.resolver, g.metrics[k], obj, block[i][k]);
  }

  lemma AdditionAnswered(lib: Library, s: StoreState, n: nat, obj: Object, i: nat, k: nat)
    requires AllAnswered(lib, s, obj) && i < |s.families| && k < |s.families[i].metrics| && EngineOf(s, i, k).Some?
    ensures var f, values := s.families[i], MetricAt(s, n, i, k).values;
            && Answered(lib, EngineOf(s, i, k).value, values, obj.fields)
            && Answered(lib, EngineOf(s, i, k).value, f.metrics[k].values, obj.fields)
            && |values| == |f.metrics[k].values| + n * |f.values| + Triangle(n) * |s.values|
  {
    hide Answer;
    hide EngineOf;
    var f := s.families[i];
    HandedDownLength(f.values, s.values, n);
    InHandedDown(f.values, s.values, n);
  }

  /** Keys without a query do not matter. */
  lemma {:induction false} SpareKeys(lib: Library, engine: Engine, metric: MetricState, keys: seq<string>,
                                     fields: map<string, Value>, orders: seq<seq<string>>)
    requires Aligned(metric) && Visits(lib, engine, metric.(keys := metric.keys + keys), fields, orders)
    ensures Visits(lib, engine, metric, fields, orders)
    ensures PairsInOrder(lib, engine, metric.(keys := metric.keys + keys), fields, orders)
         == PairsInOrder(lib, engine, metric, fields, orders)
  {
    hide Resolve;
    hide QueryPairs;
    hide Enumerates;
    var more := metric.(keys := metric.keys + keys);
    if orders != [] {
      var n := |orders| - 1;
      assert Visited(lib, engine, more, fields, n, orders[n]);
      FrontVisits(lib, engine, more, fields, orders);
      SpareKeys(lib, engine, metric, keys, fields, orders[..n]);
      assert Visited(lib, engine, metric, fields, n, orders[n]);
      assert more.keys[n] == metric.keys[n];
    }
  }

  /** With nothing to hand down a metric renders as configured on every addition. */
  lemma AsConfigured(lib: Library, s: StoreState, n: nat, obj: Object, out: Option<Sample>, i: nat, k: nat)
    requires StoreAligned(s) && i < |s.families| && k < |s.families[i].metrics| && !HandsDown(s, i)
    requires Aligned(MetricAt(s, n, i, k))
    requires Renders(lib, s.families[i].name, ResolverOf(s, i), MetricAt(s, n, i, k), obj, out)
    ensures Aligned(s.families[i].metrics[k])
    ensures Renders(lib, s.families[i].name, ResolverOf(s, i), s.families[i].metrics[k], obj, out)
  {
    hide Resolve;
    hide Visits;
    hide PairsInOrder;
    var f := s.families[i];
    var metric, keys := f.metrics[k], HandedDown(f.keys, s.keys, n);
    assert f.values == [] && s.values == [];
    EmptyHandsDownNothing<string>(n);
    assert MetricAt(s, n, i, k) == metric.(keys := metric.keys + keys);
    if out.Some? {
      var engine, more := EngineOf(s, i, k).value, metric.(keys := metric.keys + keys);
      var orders :| |orders| == |more.values| && Visits(lib, engine, more, obj.fields, orders)
                    && out.value.labels == lib.sort(PairsInOrder(lib, engine, more, obj.fields, orders));
      SpareKeys(lib, engine, metric, keys, obj.fields, orders);
    }
  }

  lemma SeriesLength(lib: Library, name: string, resolver: string, metric: MetricState, obj: Object, x: Option<Sample>)
    requires Aligned(metric) && x.Some? && Renders(lib, name, resolver, metric, obj, x)
    requires Answered(lib, EngineFor(metric.resolver, resolver).value, metric.values, obj.fields)
    ensures |AllLabels(x.value)| == |metric.values| + 3
  {
    hide Resolve;
    hide LabelsFrom;
    hide Answered;
    hide AnswerPairs;
    var engine := EngineFor(metric.resolver, resolver).value;
    LabelsAreAnswers(lib, engine, metric, obj.fields, x.value.labels);
    AnswerCount(lib, engine, metric, obj.fields);
    var pairs := AnswerPairs(lib, engine, metric, obj.fields);
    Permutes(lib.sort, pairs);
    assert |multiset(lib.sort(pairs))| == |lib.sort(pairs)| && |multiset(pairs)| == |pairs|;
  }

  lemma Scaled(a: nat, b: nat, c: nat)
    requires a < b
    ensures a * c <= b * c && (c > 0 ==> a * c < b * c)
  {
    assert b * c == a * c + (b - a) * c;
    assert c > 0 ==> (b - a) * c > 0;
  }

  lemma CountsDiffer(n: nat, m: nat, f: nat, s: nat)
    requires n < m && f + s > 0
    ensures n * f + Triangle(n) * s < m * f + Triangle(m) * s
  {
    hide Triangle;
    TrianglesGrow(n, m);
    Scaled(n, m, f);
    Scaled(Triangle(n), Triangle(m), s);
  }

  lemma {:induction false} TrianglesGrow(n: nat, m: nat)
    requires n < m
    ensures Triangle(n) < Triangle(m)
  {
    TriangleStep(m);
    if n < m - 1 {
      TrianglesGrow(n, m - 1);
    }
  }

  /** Samples of one metric in two different additions are one series if and only if
      the objects are twins: with labels to hand down the later one has more. */
  lemma {:induction false} AdditionsClash(
    lib: Library, s: StoreState, n: nat, m: nat, obj: Object, other: Object, block: Block, more: Block, i: nat, k: nat)
    requires StoreAligned(s) && 0 < n && 0 < m && n != m && i < |s.families| && k < |s.families[i].metrics|
    requires BlockRenders(lib, FamiliesAfter(s, n), obj, block) && BlockRenders(lib, FamiliesAfter(s, m), other, more)
    requires AllAnswered(lib, s, obj) && AllAnswered(lib, s, other)
    ensures i < |block| && k < |block[i]| && i < |more| && k < |more[i]|
    ensures Twins(lib, s, i, k, obj, other) ==> Clash(block[i][k], more[i][k])
    ensures Stable(lib.sort) || OneQueryEach(s.families[i].metrics[k]) ==>
              (Clash(block[i][k], more[i][k]) <==> Twins(lib, s, i, k, obj, other))
  {
    hide Answered;
    hide Renders;
    hide BlockRenders;
    hide AllLabels;
    hide Answer;
    hide SameAnswers;
    hide Stable;
    hide OneQueryEach;
    hide AllAnswered;
    hide MetricAt;
    hide Triangle;
    hide EngineFor;
    AdditionRenders(lib, s, n, obj, block, i, k);
    AdditionRenders(lib, s, m, other, more, i, k);
    var x, y, name, resolver := block[i][k], more[i][k], s.families[i].name, ResolverOf(s, i);
    if x.Some? && y.Some? {
      AdditionAnswered(lib, s, n, obj, i, k);
      AdditionAnswered(lib, s, m, other, i, k);
      if HandsDown(s, i) {
        SeriesLength(lib, name, resolver, MetricAt(s, n, i, k), obj, x);
        SeriesLength(lib, name, resolver, MetricAt(s, m, i, k), other, y);
        CountsDiffer(if n < m then n else m, if n < m then m else n, |s.families[i].values|, |s.values|);
      } else {
        AsConfigured(lib, s, n, obj, x, i, k);
        AsConfigured(lib, s, m, other, y, i, k);
        ClashExactly(lib, name, resolver, s.families[i].metrics[k], obj, other, x, y);
      }
    }
  }

  // ---- What events leave in a store ----

  /** What happened to a store since it was built, as far as label queries give
      scalars for every object it was told of. */
  datatype HistoryData = HistoryData(states: seq<StoreState>, ops: seq<Op>)

  type History = h: HistoryData | |h.states| == |h.ops| + 1
    witness HistoryData([StoreState([], [], "", [], [], map[])], [])

  ghost predicate Past(lib: Library, h: History) {
    && StoreRuns.Run(lib, h.states, h.ops)
    && h.states[0].rows == map[] && Printed(h.states[0]) && StoreAligned(h.states[0])
    && forall j :: 0 <= j < |h.ops| && Adds(h.ops[j]) ==> AllAnswered(lib, h.states[0], h.ops[j].o.obj)
  }

  ghost function Built(h: History): StoreState
  {
    h.states[0]
  }

  ghost function Now(h: History): StoreState
  {
    h.states[|h.ops|]
  }

  predicate IsHeld(h: History, uid: string) {
    LastObject(h.ops, uid).Some?
  }

  function ObjectOf(h: History, uid: string): Object
    requires IsHeld(h, uid)
  {
    LastObject(h.ops, uid).value
  }

  /** Two objects that were added last under different UIDs are twins. */
  ghost predicate TwinsHeld(lib: Library, h: History)
  {
    exists i: nat, k: nat, u, v | i < |Built(h).families| && k < |Built(h).families[i].metrics| && u != v
        && IsHeld(h, u) && IsHeld(h, v) :: Twins(lib, Built(h), i, k, ObjectOf(h, u), ObjectOf(h, v))
  }

  /** The rows of two objects, each with the addition it is from. */
  lemma HeldRows(lib: Library, h: History, u: string, v: string) returns (n: nat, m: nat)
    requires Past(lib, h) && u in Now(h).rows && v in Now(h).rows && u != v
    ensures IsHeld(h, u) && IsHeld(h, v) && 0 < n && 0 < m && n != m
    ensures BlockRenders(lib, FamiliesAfter(Built(h), n), ObjectOf(h, u), Now(h).rows[u])
    ensures BlockRenders(lib, FamiliesAfter(Built(h), m), ObjectOf(h, v), Now(h).rows[v])
    ensures AllAnswered(lib, Built(h), ObjectOf(h, u)) && AllAnswered(lib, Built(h), ObjectOf(h, v))
  {
    hide BlockRenders;
    hide FamiliesAfter;
    hide AllAnswered;
    hide AddCount;
    hide Printed;
    StoreRefinesFold(lib, h.states, h.ops, u);
    StoreRefinesFold(lib, h.states, h.ops, v);
    var a, b := LastWrite(h.ops, u).value, LastWrite(h.ops, v).value;
    n, m := AddCount(h.ops[..a]) + 1, AddCount(h.ops[..b]) + 1;
    if a < b {
      AddCountGrows(h.ops, a, b);
    } else {
      AddCountGrows(h.ops, b, a);
    }
  }

  lemma HeldClash(lib: Library, h: History, u: string, v: string, i: nat, k: nat)
    requires Past(lib, h) && u in Now(h).rows && v in Now(h).rows && u != v
    requires i < |Built(h).families| && k < |Built(h).families[i].metrics|
    ensures IsHeld(h, u) && IsHeld(h, v)
    ensures var a, b := Now(h).rows[u], Now(h).rows[v];
            && i < |a| && k < |a[i]| && i < |b| && k < |b[i]|
            && var twins := Twins(lib, Built(h), i, k, ObjectOf(h, u), ObjectOf(h, v));
               && (twins ==> Clash(a[i][k], b[i][k]))
               && (Stable(lib.sort) || QueriesByKey(Built(h)) ==> (Clash(a[i][k], b[i][k]) <==> twins))
  {
    hide BlockRenders;
    hide FamiliesAfter;
    hide AllAnswered;
    hide Printed;
    hide Clash;
    hide Stable;
    hide OneQueryEach;
    hide Twins;
    var n, m := HeldRows(lib, h, u, v);
    AdditionsClash(lib, Built(h), n, m, ObjectOf(h, u), ObjectOf(h, v), Now(h).rows[u], Now(h).rows[v], i, k);
  }

  /** At most one metric to a family. */
  predicate SingleMetrics(s: StoreState) {
    forall i :: 0 <= i < |s.families| ==> |s.families[i].metrics| <= 1
  }

  lemma NowIsShaped(lib: Library, h: History)
    requires Tokens(lib) && Past(lib, h)
    ensures Printed(Now(h)) && Shaped(Now(h)) && |Now(h).families| == |Built(h).families|
    ensures StoreNames(Now(h)) == StoreNames(Built(h))
    ensures forall u :: u in Now(h).rows <==> IsHeld(h, u)
  {
    hide BlockRenders;
    hide Printed;
    hide FamilyAfter;
    RunKeepsPrinted(lib, h.states, h.ops);
    PrintedIsShaped(Now(h));
    RunFamilies(lib, h.states, h.ops);
    var s, n := Built(h), AddCount(h.ops);
    forall i | 0 <= i < |s.families| ensures FamiliesAfter(s, n)[i].name == s.families[i].name {
      LabelsAccumulate(s.families[i], s.resolver, s.keys, s.values, n);
    }
    forall u ensures u in Now(h).rows <==> IsHeld(h, u) {
      StoreRefinesFold(lib, h.states, h.ops, u);
    }
  }

  /** Twins stand in the store as one series. */
  lemma TwinsRepeat(lib: Library, h: History)
    requires Tokens(lib) && Past(lib, h) && TwinsHeld(lib, h)
    ensures Shaped(Now(h)) && !StoreOnce(Now(h))
  {
    hide AllAnswered;
    hide Step;
    hide Printed;
    hide Clash;
    hide Twins;
    hide Stable;
    hide QueriesByKey;
    NowIsShaped(lib, h);
    var i: nat, k: nat, u, v :| i < |Built(h).families| && k < |Built(h).families[i].metrics| && u != v
        && IsHeld(h, u) && IsHeld(h, v) && Twins(lib, Built(h), i, k, ObjectOf(h, u), ObjectOf(h, v));
    HeldClash(lib, h, u, v, i, k);
    var s := Now(h);
    assert !RowsApart(s.rows[u][i], s.rows[v][i]);
    assert !FamilyOnce(s, i);
  }

  lemma FamilyOfSingles(lib: Library, h: History, i: nat)
    requires Tokens(lib) && Past(lib, h) && !TwinsHeld(lib, h) && SingleMetrics(Built(h)) && i < |Built(h).families|
    requires Stable(lib.sort) || QueriesByKey(Built(h))
    ensures Shaped(Now(h)) && i < |Now(h).headers| && FamilyOnce(Now(h), i)
  {
    hide AllAnswered;
    hide Step;
    hide Printed;
    hide Clash;
    hide Twins;
    hide Stable;
    hide QueriesByKey;
    NowIsShaped(lib, h);
    var s := Now(h);
    forall u | u in s.rows ensures |s.rows[u][i]| == |Built(h).families[i].metrics| {
      RowWidth(lib, h, u, i);
    }
    forall u, v | u in s.rows && v in s.rows && u != v ensures RowsApart(s.rows[u][i], s.rows[v][i]) {
      if Built(h).families[i].metrics != [] {
        HeldClash(lib, h, u, v, i, 0);
      }
    }
  }

  lemma RowWidth(lib: Library, h: History, u: string, i: nat)
    requires Past(lib, h) && u in Now(h).rows && i < |Built(h).families|
    ensures i < |Now(h).rows[u]| && |Now(h).rows[u][i]| == |Built(h).families[i].metrics|
  {
    hide AllAnswered;
    hide Step;
    hide Printed;
    hide Renders;
    StoreRefinesFold(lib, h.states, h.ops, u);
    var s, n := Built(h), AddCount(h.ops[..LastWrite(h.ops, u).value]) + 1;
    LabelsAccumulate(s.families[i], s.resolver, s.keys, s.values, n);
    assert RowRenders(lib, FamiliesAfter(s, n)[i], ObjectOf(h, u), Now(h).rows[u][i]);
  }

  /** Families of different names share no series. */
  lemma NamesApart(s: StoreState, i: nat, t: StoreState, j: nat)
    requires Printed(s) && Shaped(s) && i < |s.headers| && Printed(t) && Shaped(t) && j < |t.headers|
    requires s.families[i].name != t.families[j].name
    ensures FamiliesApart(s, i, t, j)
  {
    hide AllLabels;
    hide Printable;
    hide RenderHeader;
    forall u, v | u in s.rows && v in t.rows ensures RowsApart(s.rows[u][i], t.rows[v][j]) {
      var a, b := s.rows[u][i], t.rows[v][j];
      forall k, l | 0 <= k < |a| && 0 <= l < |b| ensures !Clash(a[k], b[l]) {
        assert BlockPrinted(s.families, s.rows[u]) && BlockPrinted(t.families, t.rows[v]);
      }
    }
  }

  lemma OnceByNames(s: StoreState)
    requires Printed(s) && Shaped(s) && Unique(StoreNames(s))
    ensures StoreOnce(s) <==> forall i :: 0 <= i < |s.headers| ==> FamilyOnce(s, i)
  {
    hide Printed;
    hide Shaped;
    hide FamilyOnce;
    hide FamiliesApart;
    PrintedIsShaped(s);
    assert |s.headers| == |s.families| by {
      ShapedLength(s);
    }
    forall i, j | 0 <= i < j < |s.headers| ensures FamiliesApart(s, i, s, j) {
      assert StoreNames(s)[i] != StoreNames(s)[j];
      NamesApart(s, i, s, j);
    }
  }

  lemma ShapedLength(s: StoreState)
    requires Shaped(s)
    ensures |s.headers| == |s.families|
  {
  }

  /** With families of one metric and names of their own, the store holds every
      series once exactly when no two objects it holds are twins. */
  lemma {:induction false} RunSeries(lib: Library, h: History)
    requires Tokens(lib) && Past(lib, h)
    requires SingleMetrics(Built(h)) && Unique(StoreNames(Built(h)))
    requires Stable(lib.sort) || QueriesByKey(Built(h))
    ensures Shaped(Now(h)) && (StoreOnce(Now(h)) <==> !TwinsHeld(lib, h))
  {
    hide AllAnswered;
    hide Step;
    hide Printed;
    hide Stable;
    hide QueriesByKey;
    hide FamilyOnce;
    hide SingleMetrics;
    hide StoreOnce;
    hide TwinsHeld;
    NowIsShaped(lib, h);
    OnceByNames(Now(h));
    ShapedLength(Now(h));
    if TwinsHeld(lib, h) {
      TwinsRepeat(lib, h);
    } else {
      forall i | 0 <= i < |Now(h).headers| ensures FamilyOnce(Now(h), i) {
        FamilyOfSingles(lib, h, i);
      }
    }
  }

  // ---- Scrapes ----

  lemma {:induction false} AllNamesHas(stores: seq<StoreState>, j: nat, i: nat) returns (p: nat)
    requires j < |stores| && i < |stores[j].families|
    ensures p < |AllNames(stores)| && AllNames(stores)[p] == PREFIX + stores[j].families[i].name
    ensures j == 0 ==> p == i
    ensures j > 0 ==> p >= |stores[0].families|
  {
    if j == 0 {
      p := i;
    } else {
      var q := AllNamesHas(stores[1..], j - 1, i);
      p := |stores[0].families| + q;
    }
  }

  lemma {:induction false} DifferentStores(stores: seq<StoreState>, j: nat, l: nat, i: nat, k: nat)
    requires j < l < |stores| && i < |stores[j].families| && k < |stores[l].families| && Unique(AllNames(stores))
    ensures stores[j].families[i].name != stores[l].families[k].name
  {
    if j == 0 {
      var p := AllNamesHas(stores, 0, i);
      var q := AllNamesHas(stores, l, k);
      assert AllNames(stores)[p] != AllNames(stores)[q];
    } else {
      LaterUnique(stores);
      DifferentStores(stores[1..], j - 1, l - 1, i, k);
    }
  }

  lemma LaterUnique(stores: seq<StoreState>)
    requires stores != [] && Unique(AllNames(stores))
    ensures Unique(AllNames(stores[1..])) && Unique(StoreNames(stores[0]))
  {
    var a, b := StoreNames(stores[0]), AllNames(stores[1..]);
    assert AllNames(stores) == a + b;
    assert forall k :: 0 <= k < |a| ==> (a + b)[k] == a[k];
    assert forall k :: 0 <= k < |b| ==> (a + b)[|a| + k] == b[k];
    forall k, m | 0 <= k < m < |b| ensures b[k] != b[m] {
      assert (a + b)[|a| + k] != (a + b)[|a| + m];
    }
    forall k, m | 0 <= k < m < |a| ensures a[k] != a[m] {
      assert (a + b)[k] != (a + b)[m];
    }
  }

  lemma {:induction false} EachUnique(stores: seq<StoreState>, j: nat)
    requires j < |stores| && Unique(AllNames(stores))
    ensures Unique(StoreNames(stores[j]))
  {
    LaterUnique(stores);
    if j > 0 {
      EachUnique(stores[1..], j - 1);
    }
  }

  lemma DocumentByNames(stores: seq<StoreState>)
    requires (forall j :: 0 <= j < |stores| ==> Printed(stores[j]) && Shaped(stores[j])) && Unique(AllNames(stores))
    ensures DocumentOnce(stores) <==> forall j :: 0 <= j < |stores| ==> StoreOnce(stores[j])
  {
    hide Printed;
    hide Shaped;
    hide StoreOnce;
    hide FamiliesApart;
    hide AllNames;
    forall j, l | 0 <= j < l < |stores| ensures StoresApart(stores[j], stores[l]) {
      ShapedLength(stores[j]);
      ShapedLength(stores[l]);
      forall i, k | 0 <= i < |stores[j].headers| && 0 <= k < |stores[l].headers|
        ensures FamiliesApart(stores[j], i, stores[l], k) {
        DifferentStores(stores, j, l, i, k);
        NamesApart(stores[j], i, stores[l], k);
      }
    }
  }

  /** What a scrape of stores with such pasts repeats: twins always stand in it as
      one series, and where families have one metric and a name of their own,
      nothing else does. */
  lemma {:induction false} ScrapeSeries(
    lib: Library, pasts: seq<History>, stores: seq<StoreState>, orders: seq<seq<seq<string>>>)
    requires Tokens(lib) && |pasts| == |stores|
    requires forall j :: 0 <= j < |stores| ==> Past(lib, pasts[j]) && Now(pasts[j]) == stores[j]
    requires Ordering(stores, orders)
    ensures forall j :: 0 <= j < |stores| ==> Shaped(stores[j])
    ensures (exists j :: 0 <= j < |pasts| && TwinsHeld(lib, pasts[j])) ==> !NoRepeat(DocumentItems(stores, orders))
    ensures Unique(AllNames(stores))
            && (forall j :: 0 <= j < |pasts| ==> SingleMetrics(Built(pasts[j])))
            && (Stable(lib.sort) || forall j :: 0 <= j < |pasts| ==> QueriesByKey(Built(pasts[j]))) ==>
              (NoRepeat(DocumentItems(stores, orders)) <==>
               forall j :: 0 <= j < |pasts| ==> !TwinsHeld(lib, pasts[j]))
  {
    hide AllAnswered;
    hide StoreRuns.Run;
    hide Printed;
    hide Shaped;
    hide Stable;
    hide QueriesByKey;
    hide SingleMetrics;
    hide StoreOnce;
    hide StoresApart;
    hide TwinsHeld;
    hide NoRepeat;
    hide Ordering;
    hide DocumentItems;
    hide AllNames;
    forall j | 0 <= j < |stores| ensures Printed(stores[j]) && Shaped(stores[j]) {
      NowIsShaped(lib, pasts[j]);
    }
    forall j | 0 <= j < |stores| && TwinsHeld(lib, pasts[j]) ensures !StoreOnce(stores[j]) {
      TwinsRepeat(lib, pasts[j]);
    }
    SeriesUnique(stores, orders);
    if Unique(AllNames(stores)) && forall j :: 0 <= j < |pasts| ==> SingleMetrics(Built(pasts[j])) {
      DocumentByNames(stores);
      if Stable(lib.sort) || forall j :: 0 <= j < |pasts| ==> QueriesByKey(Built(pasts[j])) {
        forall j | 0 <= j < |stores| ensures StoreOnce(stores[j]) <==> !TwinsHeld(lib, pasts[j]) {
          EachUnique(stores, j);
          NowIsShaped(lib, pasts[j]);
          RunSeries(lib, pasts[j]);
        }
      }
    }
  }

  /** Any configuration and any two twins: once both are added, no scrape gives
      every series once. */
  lemma TwinsAdded(lib: Library, c: StoreConfig, obj: Object, other: Object, i: nat, k: nat) returns (s: StoreState)
    requires Tokens(lib) && StoreAligned(InitialState(c)) && obj.uid != other.uid
    requires AllAnswered(lib, InitialState(c), obj) && AllAnswered(lib, InitialState(c), other)
    requires i < |c.families| && k < |c.families[i].metrics| && Twins(lib, InitialState(c), i, k, obj, other)
    ensures Readable.Reachable(lib, c, s) && Shaped(s)
    ensures forall orders :: Ordering([s], orders) ==> !NoRepeat(DocumentItems([s], orders))
  {
    hide AllAnswered;
    hide Printed;
    hide Twins;
    hide NoRepeat;
    hide Ordering;
    hide DocumentItems;
    hide Readable.Reachable;
    var h := BothAdded(lib, c, obj, other);
    s := Now(h);
    assert Twins(lib, Built(h), i, k, ObjectOf(h, obj.uid), ObjectOf(h, other.uid));
    assert TwinsHeld(lib, h);
    TwinsRepeat(lib, h);
    forall orders | Ordering([s], orders) ensures !NoRepeat(DocumentItems([s], orders)) {
      assert [h][0] == h && [s][0] == s;
      ScrapeSeries(lib, [h], [s], orders);
    }
  }

  lemma BothAdded(lib: Library, c: StoreConfig, obj: Object, other: Object) returns (h: History)
    requires StoreAligned(InitialState(c)) && obj.uid != other.uid
    requires AllAnswered(lib, InitialState(c), obj) && AllAnswered(lib, InitialState(c), other)
    ensures Past(lib, h) && Built(h) == InitialState(c) && Readable.Reachable(lib, c, Now(h))
    ensures LastObject(h.ops, obj.uid) == Some(obj)
    ensures LastObject(h.ops, other.uid) == Some(other)
  {
    hide AllAnswered;
    hide Printed;
    hide Step;
    var first, add, more := InitialState(c), Op.Add(Converted(obj)), Op.Add(Converted(other));
    InitiallyPrinted(c);
    var next := StepExists(lib, first, add);
    StepStaysAligned(lib, first, add, next);
    var last := StepExists(lib, next, more);
    h := HistoryData([first, next, last], [add, more]);
    assert StoreRuns.Run(lib, h.states, h.ops);
    assert h.ops[..1] == [add];
    assert LastWrite([add], obj.uid) == Some(0);
    assert Readable.Reachable(lib, c, Now(h)) by {
      assert h.states[|h.ops|] == last;
    }
  }
}
