/** Which configurations give scrapes that can be read. */
module Readable {
  import opened Text
  import opened Exposition
  import opened Labelset
  import opened Resolver
  import opened Family
  import opened Store
  import opened StoreRuns
  import opened Document
  import Scrape

  // ---- One label key ----

  predicate GoodKey(key: string) {
    key != "" && !IsDigit(key[0])
  }

  predicate GoodKeys(keys: seq<string>) {
    forall i :: 0 <= i < |keys| ==> GoodKey(keys[i])
  }

  /** A configured key gives a label name the format allows exactly when it is not
      empty and does not begin with a digit; whatever is appended to it. */
  lemma GoodKeyExactly(key: string)
    ensures ValidLabelName(Sanitise(key)) <==> GoodKey(key)
    ensures forall more :: GoodKey(key) ==> ValidLabelName(Sanitise(key + more))
  {
    SanitisedKey(key);
    forall more | GoodKey(key) ensures ValidLabelName(Sanitise(key + more)) {
      SanitisedKey(key + more);
    }
  }

  // ---- One metric ----

  lemma {:induction false} EntryNamesGood(key: string, m: map<string, string>, ks: set<string>, l: Label)
    requires ks <= m.Keys && GoodKey(key) && l in EntryLabels(key, m, ks)
    ensures ValidLabelName(l.name)
  {
    hide Sanitise;
    hide ValidLabelName;
    GoodKeyExactly(key);
    var p := Pick(ks);
    if l != Label(Sanitise(key + p), m[p]) {
      EntryNamesGood(key, m, ks - {p}, l);
    }
  }

  lemma {:induction false} NamesGood(lib: Library, engine: Engine, metric: MetricState, n: nat,
                                     fields: map<string, Value>, l: Label)
    requires n <= |metric.values| <= |metric.keys| && GoodKeys(metric.keys)
    requires l in MetricLabels(lib, engine, metric, n, fields)
    ensures ValidLabelName(l.name)
  {
    hide Resolve;
    hide Sanitise;
    hide ValidLabelName;
    var key, query := metric.keys[n - 1], metric.values[n - 1];
    var m := Resolve(lib, engine, query, fields);
    GoodKeyExactly(key);
    if l in MetricLabels(lib, engine, metric, n - 1, fields) {
      NamesGood(lib, engine, metric, n - 1, fields, l);
    } else if query !in m {
      EntryNamesGood(key, m, m.Keys, l);
    }
  }

  /** Good keys and a good name give a well-named sample, whatever queries resolve to. */
  lemma RenderedWellNamed(lib: Library, name: string, resolver: string, metric: MetricState, obj: Object,
                          out: Option<Sample>)
    requires Aligned(metric) && Renders(lib, name, resolver, metric, obj, out) && out.Some?
    requires GoodKeys(metric.keys) && NameChars(name)
    ensures WellNamed(out.value)
  {
    hide Resolve;
    hide MetricLabels;
    hide LabelsFrom;
    hide GoodKeys;
    hide ValidLabelName;
    var engine, labels := EngineFor(metric.resolver, resolver).value, out.value.labels;
    PrefixedName(name);
    LabelsAreArranged(lib, lib.sort, engine, metric, obj.fields, labels);
    forall i | 0 <= i < |labels| ensures ValidLabelName(labels[i].name) {
      assert labels[i] in multiset(labels);
      NamesGood(lib, engine, metric, |metric.values|, obj.fields, labels[i]);
    }
  }

  lemma OwnLabel(lib: Library, key: string, query: string, fields: map<string, Value>) returns (l: Label)
    ensures l in QueryLabels(lib, Unstructured, key, query, fields) && l.name == Sanitise(key)
  {
    hide Nested;
    hide Split;
    hide Sanitise;
    hide EntryLabels;
    var m := ResolveUnstructured(lib, query, fields);
    assert query in m;
    l := Label(Sanitise(key), m[query]);
  }

  lemma {:induction false} KeyIsUsed(lib: Library, metric: MetricState, n: nat, fields: map<string, Value>, i: nat)
    returns (l: Label)
    requires i < n <= |metric.values| <= |metric.keys|
    ensures l in MetricLabels(lib, Unstructured, metric, n, fields) && l.name == Sanitise(metric.keys[i])
  {
    hide QueryLabels;
    hide Sanitise;
    if i == n - 1 {
      l := OwnLabel(lib, metric.keys[i], metric.values[i], fields);
    } else {
      l := KeyIsUsed(lib, metric, n - 1, fields, i);
    }
  }

  /** Under the unstructured resolver the converse holds: a sample is well named
      exactly if its family's name and the keys of its queries are good. */
  lemma UnstructuredWellNamed(lib: Library, name: string, resolver: string, metric: MetricState, obj: Object,
                              out: Option<Sample>)
    requires Aligned(metric) && Renders(lib, name, resolver, metric, obj, out) && out.Some? && out.value.family == name
    requires EngineFor(metric.resolver, resolver) == Some(Unstructured)
    ensures WellNamed(out.value) <==> NameChars(name) && GoodKeys(metric.keys[..|metric.values|])
  {
    hide Resolve;
    hide MetricLabels;
    hide LabelsFrom;
    hide ValidLabelName;
    var labels := out.value.labels;
    PrefixedName(name);
    LabelsAreArranged(lib, lib.sort, Unstructured, metric, obj.fields, labels);
    if WellNamed(out.value) {
      forall i | 0 <= i < |metric.values| ensures GoodKey(metric.keys[i]) {
        var l := KeyIsUsed(lib, metric, |metric.values|, obj.fields, i);
        assert l in multiset(labels);
        GoodKeyExactly(metric.keys[i]);
      }
    } else if NameChars(name) && GoodKeys(metric.keys[..|metric.values|]) {
      var used := metric.(keys := metric.keys[..|metric.values|]);
      SameLabels(lib, metric, |metric.values|, obj.fields);
      forall i | 0 <= i < |labels| ensures ValidLabelName(labels[i].name) {
        assert labels[i] in multiset(labels);
        NamesGood(lib, Unstructured, used, |metric.values|, obj.fields, labels[i]);
      }
    }
  }

  lemma {:induction false} SameLabels(lib: Library, metric: MetricState, n: nat, fields: map<string, Value>)
    requires n <= |metric.values| <= |metric.keys|
    ensures MetricLabels(lib, Unstructured, metric, n, fields)
         == MetricLabels(lib, Unstructured, metric.(keys := metric.keys[..|metric.values|]), n, fields)
  {
    hide QueryLabels;
    if n > 0 {
      SameLabels(lib, metric, n - 1, fields);
    }
  }

  // ---- One store ----

  /** Names, help texts and keys the format can carry. */
  predicate GoodFamily(f: FamilyState) {
    NameChars(f.name) && PlainHelp(f.help) && GoodKeys(f.keys)
    && forall k :: 0 <= k < |f.metrics| ==> GoodKeys(f.metrics[k].keys)
  }

  predicate GoodFamilies(families: seq<FamilyState>) {
    forall i :: 0 <= i < |families| ==> GoodFamily(families[i])
  }

  predicate GoodConfig(c: StoreConfig) {
    GoodKeys(c.keys) && GoodFamilies(c.families)
  }

  ghost predicate BlockWellNamed(block: Block) {
    forall i :: 0 <= i < |block| ==> RowValid(block[i])
  }

  ghost predicate GoodStore(s: StoreState) {
    GoodKeys(s.keys) && GoodFamilies(s.families) && forall u :: u in s.rows ==> BlockWellNamed(s.rows[u])
  }

  lemma GoodAfterAdd(f: FamilyState, resolver: string, keys: seq<string>, values: seq<string>)
    requires GoodFamily(f) && GoodKeys(keys)
    ensures GoodFamily(FamilyAfterAdd(f, resolver, keys, values))
  {
    hide GoodKey;
    hide PlainHelp;
    var g := FamilyAfterAdd(f, resolver, keys, values);
    assert GoodKeys(f.keys + keys);
    forall k | 0 <= k < |g.metrics| ensures GoodKeys(g.metrics[k].keys) {
      assert GoodKeys(f.metrics[k].keys);
      assert g.metrics[k].keys == f.metrics[k].keys + (f.keys + keys);
    }
  }

  lemma GoodRow(lib: Library, f: FamilyState, obj: Object, row: Row)
    requires AllAligned(f) && RowRenders(lib, f, obj, row) && GoodFamily(f)
    ensures RowValid(row)
  {
    hide Renders;
    hide GoodKeys;
    hide WellNamed;
    forall k | 0 <= k < |row| && row[k].Some? ensures WellNamed(row[k].value) {
      RenderedWellNamed(lib, f.name, f.resolver, f.metrics[k], obj, row[k]);
    }
  }

  lemma StepKeepsGood(lib: Library, s: StoreState, op: Op, s': StoreState)
    requires GoodStore(s) && Step(lib, s, op, s')
    ensures GoodStore(s')
  {
    hide RowRenders;
    hide GoodFamily;
    hide GoodKeys;
    hide RowValid;
    hide FamilyAfterAdd;
    if Adds(op) {
      var families, block := FamiliesAfterAdd(s), s'.rows[op.o.obj.uid];
      forall i | 0 <= i < |families| ensures GoodFamily(families[i]) && RowValid(block[i]) {
        assert GoodFamily(s.families[i]);
        GoodAfterAdd(s.families[i], s.resolver, s.keys, s.values);
        GoodRow(lib, families[i], op.o.obj, block[i]);
      }
    }
  }

  lemma {:induction false} RunKeepsGood(lib: Library, states: seq<StoreState>, ops: seq<Op>)
    requires StoreRuns.Run(lib, states, ops) && GoodStore(states[0])
    ensures GoodStore(states[|ops|])
    decreases |ops|
  {
    hide GoodStore;
    hide Step;
    if ops != [] {
      var n := |ops| - 1;
      assert StoreRuns.Run(lib, states[..n + 1], ops[..n]);
      RunKeepsGood(lib, states[..n + 1], ops[..n]);
      StepKeepsGood(lib, states[n], ops[n], states[n + 1]);
    }
  }

  lemma GoodIsValid(s: StoreState)
    requires Printed(s) && GoodStore(s)
    ensures Shaped(s) ==> StoreValid(s)
  {
    hide PlainHelp;
    hide RowValid;
    hide ValidMetricName;
    forall i | 0 <= i < |s.families| ensures ValidMetricName(PREFIX + s.families[i].name) {
      assert GoodFamily(s.families[i]);
      PrefixedName(s.families[i].name);
      assert NameChars(s.families[i].name);
    }
  }

  // ---- From configurations to documents ----

  /** Some events lead from the freshly built store to `s`. */
  ghost predicate Reachable(lib: Library, c: StoreConfig, s: StoreState) {
    exists states, ops :: StoreRuns.Run(lib, states, ops) && states[0] == InitialState(c) && states[|ops|] == s
  }

  lemma ReachableIsValid(lib: Library, c: StoreConfig, s: StoreState)
    requires Tokens(lib) && Reachable(lib, c, s)
    ensures Printed(s) && Shaped(s)
    ensures GoodConfig(c) ==> StoreValid(s)
  {
    hide StoreValid;
    hide Printed;
    hide Step;
    var states, ops :| StoreRuns.Run(lib, states, ops) && states[0] == InitialState(c) && states[|ops|] == s;
    InitiallyPrinted(c);
    RunKeepsPrinted(lib, states, ops);
    PrintedIsShaped(s);
    if GoodConfig(c) {
      RunKeepsGood(lib, states, ops);
      GoodIsValid(s);
    }
  }

  /** Whatever the events, a scrape of stores with good configurations reads back as
      what they hold. */
  lemma {:induction false} GoodConfigurationsRead(
    lib: Library, configs: seq<StoreConfig>, stores: seq<StoreState>, orders: seq<seq<seq<string>>>)
    requires Tokens(lib) && |configs| == |stores|
    requires forall j :: 0 <= j < |stores| ==> GoodConfig(configs[j]) && Reachable(lib, configs[j], stores[j])
    requires Ordering(stores, orders)
    ensures forall j :: 0 <= j < |stores| ==> Shaped(stores[j])
    ensures ParseDocument(DocumentText(stores, orders)) == Some(DocumentItems(stores, orders))
  {
    hide StoreValid;
    hide Printed;
    hide Reachable;
    hide GoodConfig;
    hide Shaped;
    hide StoreOrdering;
    forall j | 0 <= j < |stores| ensures Printed(stores[j]) && Shaped(stores[j]) && StoreValid(stores[j]) {
      ReachableIsValid(lib, configs[j], stores[j]);
    }
    DocumentRoundTrip(stores, orders);
  }

  // ---- Interleaved scrapes ----

  ghost predicate GoodStores(s: Scrape.State) {
    forall l :: 0 <= l < |s.stores| ==> GoodStore(s.stores[l])
  }

  lemma NextKeepsGood(lib: Library, s: Scrape.State, a: Scrape.Action, s': Scrape.State)
    requires Scrape.WellFormed(s) && Scrape.Next(lib, s, a, s') && GoodStores(s)
    ensures GoodStores(s')
  {
    hide GoodStore;
    hide Step;
    hide Scrape.Writes;
    hide Scrape.Ascending;
    if Scrape.OfScrape(a) {
      Scrape.ScrapeStepFrame(s, a, s');
    } else if a.Apply? {
      var w := s.writers[a.t];
      StepKeepsGood(lib, s.stores[w.store], w.op, s'.stores[w.store]);
    }
  }

  lemma {:induction false} ScrapesKeepGood(
    lib: Library, states: seq<Scrape.State>, actions: seq<Scrape.Action>, n: nat)
    requires Scrape.Run(lib, states, actions) && n <= |actions| && GoodStores(states[0])
    ensures GoodStores(states[n])
  {
    hide GoodStores;
    hide Scrape.Next;
    hide Scrape.Init;
    hide Scrape.WellFormed;
    if n > 0 {
      ScrapesKeepGood(lib, states, actions, n - 1);
      NextKeepsGood(lib, states[n - 1], actions[n - 1], states[n]);
    }
  }

  /** With good configurations every scrape that finishes without error is read back
      as the contents that its stores all had at one moment. */
  lemma {:induction false} GoodScrapesRead(
    lib: Library, configs: seq<StoreConfig>, states: seq<Scrape.State>, actions: seq<Scrape.Action>, n: nat, c: nat)
    requires Tokens(lib) && Scrape.Run(lib, states, actions) && n <= |actions|
    requires |configs| == |states[0].stores|
    requires forall l :: 0 <= l < |configs| ==> GoodConfig(configs[l]) && states[0].stores[l] == InitialState(configs[l])
    requires c < |states[n].scrapes| && states[n].scrapes[c].phase == Scrape.Finished(true)
    ensures
      var th := states[n].scrapes[c];
      && Scrape.AllShaped(th.snapshot) && Ordering(th.snapshot, th.orders)
      && (exists m :: 0 <= m < n && Scrape.Moment(states[m], c, th.plan, th.snapshot))
      && ParseDocument(th.text) == Some(DocumentItems(th.snapshot, th.orders))
  {
    hide GoodFamilies;
    hide Printed;
    hide StoreValid;
    hide Scrape.Next;
    hide Scrape.LocksInv;
    hide Ordering;
    assert GoodStores(states[0]);
    Scrape.ScrapeIsAtomic(lib, states, actions, n, c);
    var th := states[n].scrapes[c];
    var m :| 0 <= m < n && Scrape.Moment(states[m], c, th.plan, th.snapshot);
    Scrape.RunKeepsInv(lib, states, actions, m);
    ScrapesKeepGood(lib, states, actions, m);
    MomentIsValid(states[m], c, th.plan, th.snapshot);
  }

  lemma MomentIsValid(s: Scrape.State, c: nat, plan: seq<nat>, snap: seq<StoreState>)
    requires Scrape.Inv(s) && GoodStores(s) && Scrape.Moment(s, c, plan, snap)
    ensures Scrape.AllShaped(snap) ==> DocumentValid(snap)
  {
    hide Printed;
    hide GoodStore;
    hide StoreValid;
    hide Scrape.LocksInv;
    hide Scrape.ScrapeInv;
    assert Scrape.Ascending(plan, |s.stores|);
    forall k | 0 <= k < |snap| ensures Shaped(snap[k]) ==> StoreValid(snap[k]) {
      assert snap[k] == s.stores[plan[k]];
      GoodIsValid(snap[k]);
    }
  }

  // ---- The converse ----

  lemma GoodSum(a: seq<string>, b: seq<string>)
    ensures GoodKeys(a + b) <==> GoodKeys(a) && GoodKeys(b)
  {
    hide GoodKey;
    if GoodKeys(a + b) {
      forall i | 0 <= i < |b| ensures GoodKey(b[i]) {
        assert GoodKey((a + b)[|a| + i]);
      }
      forall i | 0 <= i < |a| ensures GoodKey(a[i]) {
        assert GoodKey((a + b)[i]);
      }
    }
  }

  lemma {:induction false} GoodRepeat(ks: seq<string>, n: nat)
    ensures GoodKeys(Repeat(ks, n)) <==> n == 0 || GoodKeys(ks)
  {
    hide GoodKey;
    if n > 0 {
      GoodRepeat(ks, n - 1);
      GoodSum(Repeat(ks, n - 1), ks);
    }
  }

  lemma {:induction false} GoodHandedDown(fs: seq<string>, ss: seq<string>, n: nat)
    ensures GoodKeys(HandedDown(fs, ss, n)) <==> n == 0 || (GoodKeys(fs) && GoodKeys(ss))
  {
    hide GoodKey;
    if n > 0 {
      GoodHandedDown(fs, ss, n - 1);
      GoodRepeat(ss, n);
      GoodSum(fs, Repeat(ss, n));
      GoodSum(HandedDown(fs, ss, n - 1), fs + Repeat(ss, n));
    }
  }

  /** Under the unstructured resolver, a sample of any addition is well named exactly
      if its family's name and the metric's, family's and store's keys are good. */
  lemma {:induction false} KeysInTheText(lib: Library, s: StoreState, n: nat, obj: Object, block: Block, i: nat, k: nat)
    requires n > 0 && i < |s.families| && k < |s.families[i].metrics|
    requires Paired(s.families[i]) && |s.keys| == |s.values|
    requires BlockRenders(lib, FamiliesAfter(s, n), obj, block)
    requires k < |FamiliesAfter(s, n)[i].metrics| && k < |block[i]| && block[i][k].Some?
    requires EngineFor(FamiliesAfter(s, n)[i].metrics[k].resolver, FamiliesAfter(s, n)[i].resolver) == Some(Unstructured)
    ensures WellNamed(block[i][k].value) <==>
            && NameChars(s.families[i].name) && GoodKeys(s.families[i].metrics[k].keys)
            && GoodKeys(s.families[i].keys) && GoodKeys(s.keys)
  {
    hide Resolve;
    hide LabelsFrom;
    hide WellNamed;
    hide NameChars;
    hide GoodKey;
    var f, g := s.families[i], FamiliesAfter(s, n)[i];
    MetricPairs(f, s.resolver, s.keys, s.values, n, k);
    LabelsAccumulate(f, s.resolver, s.keys, s.values, n);
    assert RowRenders(lib, g, obj, block[i]);
    UnstructuredWellNamed(lib, g.name, g.resolver, g.metrics[k], obj, block[i][k]);
    assert g.metrics[k].keys[..|g.metrics[k].values|] == g.metrics[k].keys;
    GoodSum(f.metrics[k].keys, HandedDown(f.keys, s.keys, n));
    GoodHandedDown(f.keys, s.keys, n);
  }

  /** Names in name characters, plain help texts, and a value to every key. */
  predicate PlainConfig(c: StoreConfig) {
    |c.keys| == |c.values| && forall i :: 0 <= i < |c.families| ==> PlainFamily(c.families[i]) && Paired(c.families[i])
  }

  predicate UnstructuredConfig(c: StoreConfig) {
    forall i, k :: 0 <= i < |c.families| && 0 <= k < |c.families[i].metrics| ==>
      EngineFor(FirstNonEmpty(c.families[i].metrics[k].resolver, c.families[i].resolver, c.resolver), RESOLVER_NONE)
      == Some(Unstructured)
  }

  predicate UsedKeysGood(c: StoreConfig, i: nat, k: nat)
    requires i < |c.families| && k < |c.families[i].metrics|
  {
    GoodKeys(c.families[i].metrics[k].keys) && GoodKeys(c.families[i].keys) && GoodKeys(c.keys)
  }

  predicate HoldsSample(s: StoreState, u: string, i: nat, k: nat) {
    u in s.rows && i < |s.rows[u]| && k < |s.rows[u][i]| && s.rows[u][i][k].Some?
  }

  /** A held sample, however many additions led to it. */
  lemma HeldSample(lib: Library, c: StoreConfig, s: StoreState, u: string, i: nat, k: nat)
    requires Reachable(lib, c, s) && PlainConfig(c) && UnstructuredConfig(c) && HoldsSample(s, u, i, k)
    ensures i < |c.families| && k < |c.families[i].metrics|
    ensures WellNamed(s.rows[u][i][k].value) <==> UsedKeysGood(c, i, k)
  {
    hide Step;
    hide Renders;
    hide WellNamed;
    hide GoodKeys;
    hide PlainHelp;
    hide EngineFor;
    hide FirstNonEmpty;
    var states: seq<StoreState>, ops: seq<Op> :| StoreRuns.Run(lib, states, ops) && states[0] == InitialState(c) && states[|ops|] == s;
    StoreRefinesFold(lib, states, ops, u);
    var j := LastWrite(ops, u).value;
    var n, first := AddCount(ops[..j]) + 1, InitialState(c);
    LabelsAccumulate(c.families[i], first.resolver, c.keys, c.values, n);
    assert RowRenders(lib, FamiliesAfter(first, n)[i], ops[j].o.obj, s.rows[u][i]);
    ResolverIsStable(c, n, i, k);
    assert PlainFamily(c.families[i]);
    KeysInTheText(lib, first, n, ops[j].o.obj, s.rows[u], i, k);
  }

  lemma ReachableIsPlain(lib: Library, c: StoreConfig, s: StoreState)
    requires Reachable(lib, c, s) && PlainConfig(c)
    ensures |s.families| == |c.families| && forall i :: 0 <= i < |s.families| ==> PlainFamily(s.families[i])
  {
    hide Step;
    hide NameChars;
    hide PlainHelp;
    var states, ops :| StoreRuns.Run(lib, states, ops) && states[0] == InitialState(c) && states[|ops|] == s;
    RunFamilies(lib, states, ops);
    var first, n := InitialState(c), AddCount(ops);
    forall i | 0 <= i < |c.families| ensures PlainFamily(FamiliesAfter(first, n)[i]) {
      LabelsAccumulate(c.families[i], first.resolver, c.keys, c.values, n);
      assert PlainFamily(c.families[i]);
    }
  }

  /** Every sample the store holds has been given good keys. */
  ghost predicate HeldKeysGood(c: StoreConfig, s: StoreState) {
    forall u, i: nat, k: nat :: HoldsSample(s, u, i, k) && i < |c.families| && k < |c.families[i].metrics| ==>
      UsedKeysGood(c, i, k)
  }

  lemma ValidByKeys(lib: Library, c: StoreConfig, s: StoreState)
    requires Tokens(lib) && Reachable(lib, c, s) && PlainConfig(c) && UnstructuredConfig(c) && Shaped(s)
    ensures StoreValid(s) <==> HeldKeysGood(c, s)
  {
    hide Reachable;
    hide WellNamed;
    hide PlainHelp;
    hide UsedKeysGood;
    hide UnstructuredConfig;
    ReachableIsPlain(lib, c, s);
    forall u, i: nat, k: nat | HoldsSample(s, u, i, k)
      ensures i < |c.families| && k < |c.families[i].metrics|
      ensures WellNamed(s.rows[u][i][k].value) <==> UsedKeysGood(c, i, k)
    {
      HeldSample(lib, c, s, u, i, k);
    }
    forall i | 0 <= i < |s.headers| ensures ValidMetricName(PREFIX + s.families[i].name) && PlainHelp(s.families[i].help) {
      assert PlainFamily(s.families[i]);
      PlainNames(s.families[i]);
    }
    if HeldKeysGood(c, s) {
      forall i, u | 0 <= i < |s.headers| && u in s.rows ensures RowValid(s.rows[u][i]) {
        forall k | 0 <= k < |s.rows[u][i]| && s.rows[u][i][k].Some? ensures WellNamed(s.rows[u][i][k].value) {
          assert HoldsSample(s, u, i, k);
        }
      }
    } else {
      var u, i: nat, k: nat :| HoldsSample(s, u, i, k) && !UsedKeysGood(c, i, k);
      assert !RowValid(s.rows[u][i]);
      assert !FamilyValid(s, i);
    }
  }

  /** Under the unstructured resolver, with plain names and help texts, configured
      keys decide: whatever happened to its stores, a scrape is read if and only if
      no sample with a bad key is held; one such sample has all of it rejected. */
  lemma {:induction false} KeysDecide(
    lib: Library, configs: seq<StoreConfig>, stores: seq<StoreState>, orders: seq<seq<seq<string>>>)
    requires Tokens(lib) && |configs| == |stores|
    requires forall j :: 0 <= j < |stores| ==>
               Reachable(lib, configs[j], stores[j]) && PlainConfig(configs[j]) && UnstructuredConfig(configs[j])
    requires Ordering(stores, orders)
    ensures forall j :: 0 <= j < |stores| ==> Shaped(stores[j])
    ensures ParseDocument(DocumentText(stores, orders)).Some? <==>
            forall j :: 0 <= j < |stores| ==> HeldKeysGood(configs[j], stores[j])
  {
    hide StoreValid;
    hide HeldKeysGood;
    hide Printed;
    hide Reachable;
    hide PlainConfig;
    hide UnstructuredConfig;
    hide PlainFamily;
    hide Shaped;
    hide StoreOrdering;
    forall j | 0 <= j < |stores|
      ensures Printed(stores[j]) && Shaped(stores[j]) && (StoreValid(stores[j]) <==> HeldKeysGood(configs[j], stores[j]))
      ensures forall i :: 0 <= i < |stores[j].families| ==> PlainFamily(stores[j].families[i])
    {
      ReachableIsValid(lib, configs[j], stores[j]);
      ReachableIsPlain(lib, configs[j], stores[j]);
      ValidByKeys(lib, configs[j], stores[j]);
    }
    DocumentAccepted(stores, orders);
  }

  /** Such samples are easily come by: any configuration with a bad key on a metric,
      or handed down to it, once an object with a value for the metric is added. No
      scrape of the store reads back, and with plain names and help texts none is
      read at all. */
  lemma BadKeyCannotBeRead(lib: Library, c: StoreConfig, obj: Object, i: nat, k: nat) returns (s: StoreState)
    requires Tokens(lib) && StoreAligned(InitialState(c)) && |c.keys| == |c.values|
    requires i < |c.families| && Paired(c.families[i]) && k < |c.families[i].metrics|
    requires var m := c.families[i].metrics[k];
             && !UsedKeysGood(c, i, k)
             && EngineFor(FirstNonEmpty(m.resolver, c.families[i].resolver, c.resolver), RESOLVER_NONE) == Some(Unstructured)
             && m.value in ResolveUnstructured(lib, m.value, obj.fields)
             && lib.number(ResolveUnstructured(lib, m.value, obj.fields)[m.value]).Some?
    ensures Reachable(lib, c, s) && Shaped(s)
    ensures forall orders :: Ordering([s], orders) ==>
              && ParseDocument(DocumentText([s], orders)) != Some(DocumentItems([s], orders))
              && (PlainConfig(c) ==> ParseDocument(DocumentText([s], orders)) == None)
  {
    hide Printed;
    hide StoreOrdering;
    hide Reachable;
    hide InitialState;
    hide GoodKeys;
    hide PlainFamily;
    hide PlainConfig;
    s := BadKeyAdded(lib, c, obj, i, k);
    ReachableIsValid(lib, c, s);
    forall orders | Ordering([s], orders)
      ensures ParseDocument(DocumentText([s], orders)) != Some(DocumentItems([s], orders))
      ensures PlainConfig(c) ==> ParseDocument(DocumentText([s], orders)) == None
    {
      DocumentRoundTrip([s], orders);
      if PlainConfig(c) {
        ReachableIsPlain(lib, c, s);
        DocumentAccepted([s], orders);
      }
    }
  }

  lemma BadKeyAdded(lib: Library, c: StoreConfig, obj: Object, i: nat, k: nat) returns (s: StoreState)
    requires StoreAligned(InitialState(c)) && |c.keys| == |c.values|
    requires i < |c.families| && Paired(c.families[i]) && k < |c.families[i].metrics|
    requires var m := c.families[i].metrics[k];
             && !UsedKeysGood(c, i, k)
             && EngineFor(FirstNonEmpty(m.resolver, c.families[i].resolver, c.resolver), RESOLVER_NONE) == Some(Unstructured)
             && m.value in ResolveUnstructured(lib, m.value, obj.fields)
             && lib.number(ResolveUnstructured(lib, m.value, obj.fields)[m.value]).Some?
    ensures Reachable(lib, c, s) && (Shaped(s) ==> !StoreValid(s))
  {
    hide BlockRenders;
    hide RenderHeader;
    hide GoodKeys;
    hide EngineFor;
    hide FirstNonEmpty;
    hide ResolveUnstructured;
    hide FamiliesAfterAdd;
    hide RowValid;
    var first, op := InitialState(c), Op.Add(Converted(obj));
    s := StepExists(lib, first, op);
    OneStep(lib, c, op, s);
    FirstAdd(first);
    BadRow(lib, c, obj, s.rows[obj.uid], i, k);
    if Shaped(s) {
      assert s.headers == first.headers && |s.headers| == |c.families|;
      assert !FamilyValid(s, i);
    }
  }

  lemma OneStep(lib: Library, c: StoreConfig, op: Op, s: StoreState)
    requires Step(lib, InitialState(c), op, s)
    ensures Reachable(lib, c, s)
  {
    hide Step;
    hide InitialState;
    var states, ops := [InitialState(c), s], [op];
    assert StoreRuns.Run(lib, states, ops) && states[|ops|] == s;
  }

  lemma BadRow(lib: Library, c: StoreConfig, obj: Object, block: Block, i: nat, k: nat)
    requires |c.keys| == |c.values| && i < |c.families| && Paired(c.families[i]) && k < |c.families[i].metrics|
    requires var m := c.families[i].metrics[k];
             && !UsedKeysGood(c, i, k)
             && EngineFor(FirstNonEmpty(m.resolver, c.families[i].resolver, c.resolver), RESOLVER_NONE) == Some(Unstructured)
             && m.value in ResolveUnstructured(lib, m.value, obj.fields)
             && lib.number(ResolveUnstructured(lib, m.value, obj.fields)[m.value]).Some?
    requires BlockRenders(lib, FamiliesAfter(InitialState(c), 1), obj, block)
    ensures |block| == |c.families| && !RowValid(block[i])
  {
    hide LabelsFrom;
    hide WellNamed;
    hide GoodKeys;
    hide EngineFor;
    hide FirstNonEmpty;
    hide Resolve;
    hide ResolveUnstructured;
    var first := InitialState(c);
    var g := FamiliesAfter(first, 1)[i];
    LabelsAccumulate(c.families[i], first.resolver, first.keys, first.values, 1);
    ResolverIsStable(c, 1, i, k);
    assert RowRenders(lib, g, obj, block[i]);
    assert Renders(lib, g.name, g.resolver, g.metrics[k], obj, block[i][k]);
    UnstructuredResolves(lib, c.families[i].metrics[k].value, obj.fields);
    assert block[i][k].Some?;
    KeysInTheText(lib, first, 1, obj, block, i, k);
  }

  lemma FirstAdd(s: StoreState)
    ensures FamiliesAfter(s, 1) == FamiliesAfterAdd(s)
  {
    hide FamilyAfterAdd;
    forall i | 0 <= i < |s.families| ensures FamiliesAfter(s, 1)[i] == FamiliesAfterAdd(s)[i] {
      assert FamilyAfter(s.families[i], s.resolver, s.keys, s.values, 0) == s.families[i];
    }
  }

  lemma UnstructuredResolves(lib: Library, query: string, fields: map<string, Value>)
    ensures Resolve(lib, Unstructured, query, fields) == ResolveUnstructured(lib, query, fields)
  {
    hide ResolveUnstructured;
  }
}
