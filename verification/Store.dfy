/** The cache behind one configured store: `internal/store.go` and the parts of
    `internal/builder.go` that make it. */
module Store {
  import opened Text
  import opened Exposition
  import opened Resolver
  import opened Family
  import opened Sync

  /** For each family, what one object rendered to. */
  type Block = seq<Row>

  datatype StoreConfig = StoreConfig(
    families: seq<FamilyState>, resolver: string, keys: seq<string>, values: seq<string>)

  datatype StoreState = StoreState(
    families: seq<FamilyState>, headers: seq<string>,
    resolver: string, keys: seq<string>, values: seq<string>,
    rows: map<string, Block>)

  // ---- What an event does ----

  function InheritFamily(f: FamilyState, resolver: string, keys: seq<string>, values: seq<string>): FamilyState {
    f.(resolver := if f.resolver == RESOLVER_NONE then resolver else f.resolver,
       keys := f.keys + keys, values := f.values + values)
  }

  /** One `Add` changes a family for good: first itself, then its metrics. */
  function FamilyAfterAdd(f: FamilyState, resolver: string, keys: seq<string>, values: seq<string>): FamilyState {
    Inherited(InheritFamily(f, resolver, keys, values))
  }

  function FamiliesAfterAdd(s: StoreState): seq<FamilyState> {
    seq(|s.families|, i requires 0 <= i < |s.families| => FamilyAfterAdd(s.families[i], s.resolver, s.keys, s.values))
  }

  ghost predicate FamiliesAligned(families: seq<FamilyState>) {
    forall i :: 0 <= i < |families| ==> AllAligned(families[i])
  }

  ghost predicate StoreAligned(s: StoreState) {
    |s.values| <= |s.keys| && FamiliesAligned(s.families)
  }

  lemma StaysAligned(s: StoreState)
    requires StoreAligned(s)
    ensures forall i :: 0 <= i < |s.families| ==> AllAligned(FamiliesAfterAdd(s)[i])
  {
  }

  ghost predicate BlockRenders(lib: Library, families: seq<FamilyState>, obj: Object, block: Block) {
    && |block| == |families|
    && forall i :: 0 <= i < |families| ==> AllAligned(families[i]) && RowRenders(lib, families[i], obj, block[i])
  }

  /** An event's object may fail conversion. */
  datatype Incoming = Unconvertible | Converted(obj: Object)

  datatype Op = Add(o: Incoming) | Update(o: Incoming) | Delete(uid: Option<string>) | Replace | Resync

  predicate Adds(op: Op) {
    (op.Add? || op.Update?) && op.o.Converted?
  }

  ghost predicate Step(lib: Library, s: StoreState, op: Op, s': StoreState) {
    && StoreAligned(s)
    && if Adds(op) then
         var uid := op.o.obj.uid;
         && uid in s'.rows
         && BlockRenders(lib, FamiliesAfterAdd(s), op.o.obj, s'.rows[uid])
         && s' == s.(families := FamiliesAfterAdd(s), rows := s.rows[uid := s'.rows[uid]])
       else if op.Delete? && op.uid.Some? then s' == s.(rows := s.rows - {op.uid.value})
       else s' == s
  }

  lemma {:induction false} BlockExists(lib: Library, families: seq<FamilyState>, obj: Object) returns (block: Block)
    requires FamiliesAligned(families)
    ensures BlockRenders(lib, families, obj, block)
  {
    hide Renders;
    block := [];
    if families != [] {
      var n := |families| - 1;
      var front := BlockExists(lib, families[..n], obj);
      var row := RowExists(lib, families[n], obj, |families[n].metrics|);
      block := front + [row];
      assert forall i :: 0 <= i < n ==> families[..n][i] == families[i];
    }
  }

  /** Every event can be handled. */
  lemma StepExists(lib: Library, s: StoreState, op: Op) returns (s': StoreState)
    requires StoreAligned(s)
    ensures Step(lib, s, op, s')
  {
    hide BlockRenders;
    if Adds(op) {
      StaysAligned(s);
      var block := BlockExists(lib, FamiliesAfterAdd(s), op.o.obj);
      s' := s.(families := FamiliesAfterAdd(s), rows := s.rows[op.o.obj.uid := block]);
    } else if op.Delete? && op.uid.Some? {
      s' := s.(rows := s.rows - {op.uid.value});
    } else {
      s' := s;
    }
  }

  lemma StepStaysAligned(lib: Library, s: StoreState, op: Op, s': StoreState)
    requires Step(lib, s, op, s')
    ensures StoreAligned(s')
  {
    hide BlockRenders;
    StaysAligned(s);
  }

  // ---- The code ----

  function RenderBlock(block: Block): seq<string> {
    seq(|block|, i requires 0 <= i < |block| => RenderRow(block[i]))
  }

  /** Every family and every metric is an object of its own. */
  ghost predicate SeparateFamilies(families: seq<FamilyType>) {
    && (forall i :: 0 <= i < |families| ==> families[i].Distinct())
    && (forall i, j :: 0 <= i < j < |families| ==> families[i] != families[j])
    && (forall i, j, m :: 0 <= i < j < |families| && m in families[i].metrics ==> m !in families[j].metrics)
  }

  class StoreType {
    const mutex: RWMutex
    var metrics: map<string, seq<string>>
    const headers: seq<string>
    const families: seq<FamilyType>
    const resolver: string
    const labelKeys: seq<string>
    const labelValues: seq<string>
    /** What `metrics` is the text of. */
    ghost var rows: map<string, Block>

    /** `newStore`. */
    constructor (headers: seq<string>, families: seq<FamilyType>, resolver: string,
                 labelKeys: seq<string>, labelValues: seq<string>)
      ensures this.headers == headers && this.families == families && this.resolver == resolver
      ensures this.labelKeys == labelKeys && this.labelValues == labelValues
      ensures metrics == map[] && rows == map[]
      ensures fresh(mutex) && mutex.readers == 0 && !mutex.writer
    {
      this.headers, this.families, this.resolver := headers, families, resolver;
      this.labelKeys, this.labelValues := labelKeys, labelValues;
      metrics, rows := map[], map[];
      mutex := new RWMutex();
    }

    ghost function Metrics(): set<MetricType> {
      set i, m | 0 <= i < |families| && m in families[i].metrics :: m
    }

    ghost function FamilyViews(): (views: seq<FamilyState>)
      reads families, Metrics()
      ensures |views| == |families|
    {
      seq(|families|, i requires 0 <= i < |families| reads families, Metrics() =>
        assert forall m :: m in families[i].metrics ==> m in Metrics(); families[i].View())
    }

    ghost function View(): StoreState
      reads this, families, Metrics()
    {
      StoreState(FamilyViews(), headers, resolver, labelKeys, labelValues, rows)
    }

    ghost predicate Separate() {
      SeparateFamilies(families)
    }

    ghost predicate Valid()
      reads this, families, Metrics()
    {
      && Separate() && StoreAligned(View()) && |headers| == |families|
      && Rendered()
    }

    ghost predicate Rendered()
      reads this
    {
      && metrics.Keys == rows.Keys
      && forall u :: u in rows ==> |rows[u]| == |families| && metrics[u] == RenderBlock(rows[u])
    }

    method Add(lib: Library, objectI: Incoming) returns (ok: bool)
      requires Valid() && mutex.readers == 0 && !mutex.writer
      modifies this, families, Metrics(), mutex
      ensures Valid() && mutex.readers == 0 && !mutex.writer
      ensures ok == objectI.Converted?
      ensures Step(lib, old(View()), Op.Add(objectI), View())
    {
      hide Separate;
      hide FamiliesAligned;
      hide BlockRenders;
      hide RenderBlock;
      hide Rendered;
      hide FamiliesAfterAdd;
      ghost var views := FamilyViews();
      mutex.Lock();
      assert FamilyViews() == views;
      if objectI.Unconvertible? {
        mutex.Unlock();
        return false;
      }
      var familyMetrics: seq<string>;
      ghost var block: Block;
      familyMetrics, block := AddFamilies(lib, objectI.obj);
      Keep(objectI.obj.uid, familyMetrics, block);
      ghost var after := FamilyViews();
      mutex.Unlock();
      assert FamilyViews() == after;
      ok := true;
    }

    method Keep(uid: string, familyMetrics: seq<string>, ghost block: Block)
      requires Rendered() && |block| == |families| && familyMetrics == RenderBlock(block)
      modifies this
      ensures Rendered() && View() == old(View()).(rows := old(rows)[uid := block])
    {
      hide RenderBlock;
      metrics := metrics[uid := familyMetrics];
      rows := rows[uid := block];
      assert FamilyViews() == old(FamilyViews());
    }

    method AddFamilies(lib: Library, obj: Object) returns (familyMetrics: seq<string>, ghost block: Block)
      requires Separate() && StoreAligned(View())
      modifies families, Metrics()
      ensures FamilyViews() == FamiliesAfterAdd(old(View()))
      ensures BlockRenders(lib, FamilyViews(), obj, block) && familyMetrics == RenderBlock(block)
      ensures |block| == |families| && FamiliesAligned(FamilyViews())
    {
      hide RowRenders;
      hide FamilyAfterAdd;
      hide RenderRow;
      familyMetrics, block := [], [];
      ghost var before, after := FamilyViews(), FamiliesAfterAdd(View());
      StaysAligned(View());
      var i := 0;
      while i < |families|
        invariant 0 <= i <= |families| && |block| == i
        invariant forall j :: 0 <= j < i ==> families[j].View() == after[j]
        invariant forall j :: i <= j < |families| ==> families[j].View() == before[j]
        invariant forall j :: 0 <= j < i ==> RowRenders(lib, after[j], obj, block[j])
        invariant familyMetrics == RenderBlock(block)
      {
        var raw: string;
        ghost var row: Row;
        assert forall m :: m in families[i].metrics ==> m in Metrics();
        raw, row := AddAt(lib, i, obj);
        familyMetrics, block := familyMetrics + [raw], block + [row];
        i := i + 1;
      }
      assert FamilyViews() == after;
    }

    /** One turn of that loop disturbs no other family. */
    method AddAt(lib: Library, i: nat, obj: Object) returns (raw: string, ghost row: Row)
      requires Separate() && i < |families| && AllAligned(families[i].View()) && |labelValues| <= |labelKeys|
      modifies families[i], families[i].metrics
      ensures families[i].View() == FamilyAfterAdd(old(families[i].View()), resolver, labelKeys, labelValues)
      ensures RowRenders(lib, families[i].View(), obj, row) && raw == RenderRow(row)
      ensures forall j :: 0 <= j < |families| && j != i ==> families[j].View() == old(families[j].View())
    {
      hide RowRenders;
      hide FamilyAfterAdd;
      hide RenderRow;
      raw, row := AddFamily(lib, families[i], obj);
      forall j | 0 <= j < |families| && j != i ensures families[j].View() == old(families[j].View()) {
        assert forall m :: m in families[j].metrics ==> m !in families[i].metrics;
        OtherFamily(families[j]);
      }
    }

    twostate lemma OtherFamily(f: FamilyType)
      requires unchanged(f) && forall m :: m in f.metrics ==> unchanged(m)
      ensures f.View() == old(f.View())
    {
      forall i | 0 <= i < |f.metrics| ensures f.MetricViews()[i] == old(f.MetricViews()[i]) {
        assert f.metrics[i] in f.metrics;
      }
    }

    method AddFamily(lib: Library, f: FamilyType, obj: Object) returns (raw: string, ghost row: Row)
      requires f.Distinct() && AllAligned(f.View()) && |labelValues| <= |labelKeys|
      modifies f, f.metrics
      ensures f.View() == FamilyAfterAdd(old(f.View()), resolver, labelKeys, labelValues)
      ensures RowRenders(lib, f.View(), obj, row) && raw == RenderRow(row)
    {
      if f.resolver == RESOLVER_NONE {
        f.resolver := resolver;
      }
      f.labelKeys := f.labelKeys + labelKeys;
      f.labelValues := f.labelValues + labelValues;
      assert f.View() == InheritFamily(old(f.View()), resolver, labelKeys, labelValues);
      raw, row := f.RawFrom(lib, obj);
    }

    method Update(lib: Library, objectI: Incoming) returns (ok: bool)
      requires Valid() && mutex.readers == 0 && !mutex.writer
      modifies this, families, Metrics(), mutex
      ensures Valid() && mutex.readers == 0 && !mutex.writer
      ensures ok == objectI.Converted?
      ensures Step(lib, old(View()), Op.Update(objectI), View())
    {
      ok := Add(lib, objectI);
    }

    /** `uid` is what `meta.Accessor` finds in the object, if it finds anything. */
    method Delete(lib: Library, uid: Option<string>) returns (ok: bool)
      requires Valid() && mutex.readers == 0 && !mutex.writer
      modifies this, mutex
      ensures Valid() && mutex.readers == 0 && !mutex.writer
      ensures ok == uid.Some?
      ensures Step(lib, old(View()), Op.Delete(uid), View())
    {
      ghost var views := FamilyViews();
      mutex.Lock();
      if uid.None? {
        mutex.Unlock();
        assert FamilyViews() == views;
        return false;
      }
      metrics := metrics - {uid.value};
      rows := rows - {uid.value};
      mutex.Unlock();
      assert FamilyViews() == views;
      ok := true;
    }

    /** What a reader sees under a header is the text of what is held there. */
    lemma RowText(u: string, i: nat)
      requires Valid() && u in metrics && i < |headers|
      ensures u in rows && i < |rows[u]| && i < |metrics[u]| && metrics[u][i] == RenderRow(rows[u][i])
    {
      hide RenderRow;
    }

    lemma ValidIsShaped()
      requires Valid()
      ensures |headers| == |families| && metrics.Keys == rows.Keys
      ensures forall u :: u in rows ==> |rows[u]| == |headers|
    {
      hide RenderBlock;
    }

    /** Nothing the store is made of has changed. */
    twostate lemma Untouched()
      requires unchanged(this)
      requires forall f :: f in families ==> unchanged(f)
      requires forall m :: m in Metrics() ==> unchanged(m)
      ensures View() == old(View()) && (old(Valid()) ==> Valid())
    {
      hide RenderBlock;
      forall i | 0 <= i < |families| ensures FamilyViews()[i] == old(FamilyViews()[i]) {
        assert families[i] in families;
        forall m | m in families[i].metrics ensures unchanged(m) {
          assert m in Metrics();
        }
        OtherFamily(families[i]);
      }
      assert FamilyViews() == old(FamilyViews());
    }

    /** A reflector starts with this; it deliberately does nothing. */
    method Replace(lib: Library)
      requires Valid()
      ensures Step(lib, View(), Op.Replace, View())
    {
    }

    method Resync(lib: Library)
      requires Valid()
      ensures Step(lib, View(), Op.Resync, View())
    {
    }
  }

  // ---- Making a store ----

  function DefaultResolver(resolver: string): string {
    if resolver == RESOLVER_NONE then RESOLVER_UNSTRUCTURED else resolver
  }

  function InitialState(c: StoreConfig): StoreState {
    StoreState(
      c.families,
      seq(|c.families|, i requires 0 <= i < |c.families| => RenderHeader(c.families[i].name, c.families[i].help)),
      DefaultResolver(c.resolver), c.keys, c.values, map[])
  }

  /** `buildStore`, up to starting the reflector. */
  method BuildStore(families: seq<FamilyType>, resolver: string, labelKeys: seq<string>, labelValues: seq<string>)
    returns (s: StoreType)
    requires SeparateFamilies(families)
    modifies families`t
    ensures fresh(s) && fresh(s.mutex) && s.families == families && s.metrics == map[]
    ensures StoreAligned(s.View()) ==> s.Valid()
    ensures s.mutex.readers == 0 && !s.mutex.writer
    ensures s.View() == InitialState(StoreConfig(s.FamilyViews(), resolver, labelKeys, labelValues))
    ensures forall i :: 0 <= i < |families| ==> families[i].View() == old(families[i].View())
  {
    hide RenderHeader;
    var headers: seq<string> := [];
    var i := 0;
    while i < |families|
      invariant 0 <= i <= |families| && |headers| == i
      invariant forall j :: 0 <= j < i ==> headers[j] == RenderHeader(families[j].name, families[j].help)
      invariant forall j :: 0 <= j < |families| ==> families[j].View() == old(families[j].View())
    {
      var header := families[i].BuildHeaders();
      headers := headers + [header];
      i := i + 1;
    }
    s := new StoreType(headers, families, DefaultResolver(resolver), labelKeys, labelValues);
    assert s.headers == InitialState(StoreConfig(s.FamilyViews(), resolver, labelKeys, labelValues)).headers;
  }
}
