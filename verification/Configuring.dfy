/** Decoding a configuration and building its stores: `internal/config.go`. */
module Configuring {
  import opened Text
  import opened Exposition
  import opened Family
  import opened Store
  import Reconcile

  /** One configured store as decoded: its families are objects of their own. */
  datatype StoreConfiguration = StoreConfiguration(
    families: seq<FamilyType>, resolver: string, keys: seq<string>, values: seq<string>)

  ghost function MetricsOf(families: seq<FamilyType>): set<MetricType> {
    set i, m | 0 <= i < |families| && m in families[i].metrics :: m
  }

  ghost predicate Shows(families: seq<FamilyType>, configs: seq<FamilyState>)
    reads families, MetricsOf(families)
  {
    |families| == |configs| &&
    forall k :: 0 <= k < |families| ==>
      assert forall m :: m in families[k].metrics ==> m in MetricsOf(families);
      families[k].View() == configs[k]
  }

  // ---- The decoder makes the objects ----

  method NewFamily(c: FamilyState) returns (f: FamilyType)
    ensures fresh(f) && (forall m :: m in f.metrics ==> fresh(m)) && f.Distinct() && f.View() == c
  {
    var metrics: seq<MetricType> := [];
    var i := 0;
    while i < |c.metrics|
      invariant 0 <= i <= |c.metrics| && |metrics| == i
      invariant forall k :: 0 <= k < i ==> fresh(metrics[k]) && metrics[k].View() == c.metrics[k]
      invariant forall k, l :: 0 <= k < l < i ==> metrics[k] != metrics[l]
    {
      var m := new MetricType(c.metrics[i].keys, c.metrics[i].values, c.metrics[i].value, c.metrics[i].resolver);
      metrics := metrics + [m];
      i := i + 1;
    }
    f := new FamilyType(c.name, c.help, metrics, c.resolver, c.keys, c.values);
    assert f.MetricViews() == c.metrics;
  }

  method NewFamilies(cs: seq<FamilyState>) returns (families: seq<FamilyType>)
    ensures forall f :: f in families ==> fresh(f) && forall m :: m in f.metrics ==> fresh(m)
    ensures SeparateFamilies(families) && Shows(families, cs)
  {
    families := [];
    var i := 0;
    while i < |cs|
      invariant 0 <= i <= |cs|
      invariant forall f :: f in families ==> fresh(f) && forall m :: m in f.metrics ==> fresh(m)
      invariant SeparateFamilies(families) && Shows(families, cs[..i])
    {
      var f := NewFamily(cs[i]);
      families := families + [f];
      i := i + 1;
    }
    assert cs[..i] == cs;
  }

  /** What `yaml.Unmarshal` allocates. */
  method Unmarshal(configs: seq<StoreConfig>) returns (decoded: seq<StoreConfiguration>)
    ensures Decodes(decoded, configs)
    ensures forall c :: c in decoded ==> forall f :: f in c.families ==> fresh(f) && forall m :: m in f.metrics ==> fresh(m)
  {
    decoded := [];
    var i := 0;
    while i < |configs|
      invariant 0 <= i <= |configs|
      invariant Decodes(decoded, configs[..i])
      invariant forall c :: c in decoded ==> forall f :: f in c.families ==> fresh(f) && forall m :: m in f.metrics ==> fresh(m)
    {
      var families := NewFamilies(configs[i].families);
      decoded := decoded + [StoreConfiguration(families, configs[i].resolver, configs[i].keys, configs[i].values)];
      i := i + 1;
    }
    assert configs[..i] == configs;
  }

  ghost function FamiliesOf(decoded: seq<StoreConfiguration>): set<FamilyType> {
    set i, f | 0 <= i < |decoded| && f in decoded[i].families :: f
  }

  ghost function AllMetricsOf(decoded: seq<StoreConfiguration>): set<MetricType> {
    set i, m | 0 <= i < |decoded| && m in MetricsOf(decoded[i].families) :: m
  }

  ghost predicate Decodes(decoded: seq<StoreConfiguration>, configs: seq<StoreConfig>)
    reads FamiliesOf(decoded), AllMetricsOf(decoded)
  {
    && |decoded| == |configs|
    && (forall i :: 0 <= i < |decoded| ==>
          && SeparateFamilies(decoded[i].families)
          && (assert forall f :: f in decoded[i].families ==> f in FamiliesOf(decoded);
              assert MetricsOf(decoded[i].families) <= AllMetricsOf(decoded);
              Shows(decoded[i].families, configs[i].families))
          && decoded[i].resolver == configs[i].resolver
          && decoded[i].keys == configs[i].keys && decoded[i].values == configs[i].values)
    && (forall i, j, f :: 0 <= i < j < |decoded| && f in decoded[i].families ==> f !in decoded[j].families)
  }

  // ---- configurer ----

  /** A store is one made for a configured store, as far as it never changes. */
  ghost predicate MadeFor(s: StoreType, c: StoreConfig) {
    && s.headers == InitialState(c).headers && s.resolver == DefaultResolver(c.resolver)
    && s.labelKeys == c.keys && s.labelValues == c.values
    && |s.families| == |c.families|
    && forall k :: 0 <= k < |s.families| ==>
         s.families[k].name == c.families[k].name && s.families[k].help == c.families[k].help
  }

  /** A store as it leaves `buildStore`. */
  ghost predicate JustMade(s: StoreType, c: StoreConfig)
    reads s, s.families, s.Metrics()
  {
    s.View() == InitialState(c) && s.metrics == map[]
  }

  ghost predicate BuiltFrom(s: StoreType, c: StoreConfiguration)
    reads s
  {
    && s.families == c.families && s.resolver == DefaultResolver(c.resolver)
    && s.labelKeys == c.keys && s.labelValues == c.values && s.metrics == map[] && s.rows == map[]
    && |s.headers| == |c.families|
    && forall k :: 0 <= k < |c.families| ==> s.headers[k] == RenderHeader(c.families[k].name, c.families[k].help)
  }

  lemma BuiltIsMade(s: StoreType, c: StoreConfiguration, config: StoreConfig)
    requires BuiltFrom(s, c) && Shows(c.families, config.families)
    requires c.resolver == config.resolver && c.keys == config.keys && c.values == config.values
    ensures JustMade(s, config) && MadeFor(s, config)
  {
    hide RenderHeader;
    forall k | 0 <= k < |c.families|
      ensures c.families[k].name == config.families[k].name && c.families[k].help == config.families[k].help {
      assert c.families[k].View() == config.families[k];
    }
    assert s.headers == InitialState(config).headers;
    assert s.FamilyViews() == config.families;
  }

  twostate lemma SameView(f: FamilyType)
    requires f.resolver == old(f.resolver)
    requires f.labelKeys == old(f.labelKeys)
    requires f.labelValues == old(f.labelValues)
    requires forall m :: m in f.metrics ==> m.View() == old(m.View())
    ensures f.View() == old(f.View())
  {
    forall k | 0 <= k < |f.metrics| ensures f.MetricViews()[k] == old(f.MetricViews()[k]) {
      assert f.metrics[k] in f.metrics;
    }
  }

  class Configurer {
    const resource: Reconcile.Obj
    var configuration: seq<StoreConfiguration>
    /** What `configuration` decodes. */
    ghost var configs: seq<StoreConfig>

    constructor (resource: Reconcile.Obj)
      ensures this.resource == resource && configuration == [] && configs == []
    {
      this.resource, configuration, configs := resource, [], [];
    }

    method Parse(w: Reconcile.World, raw: string) returns (err: Option<string>)
      modifies this
      ensures match err
              case Some(why) => w.parse(raw) == Reconcile.Malformed(why)
              case None => w.parse(raw) == Reconcile.Configuration(configs) && Decodes(configuration, configs)
                           && (forall f :: f in FamiliesOf(configuration) ==> fresh(f))
    {
      match w.parse(raw) {
        case Malformed(why) => err := Some(why);
        case Configuration(stores) =>
          configuration := Unmarshal(stores);
          configs := stores;
          err := None;
      }
    }

    /** What was decoded stays so while the families look the same. */
    twostate lemma KeepsDecoding()
      requires configuration == old(configuration) && configs == old(configs)
      requires forall f :: f in FamiliesOf(configuration) ==> f.View() == old(f.View())
      ensures old(Decodes(configuration, configs)) ==> Decodes(configuration, configs)
    {
      if old(Decodes(configuration, configs)) {
        forall j | 0 <= j < |configuration| ensures Shows(configuration[j].families, configs[j].families) {
          var families := configuration[j].families;
          forall k | 0 <= k < |families| ensures families[k].View() == configs[j].families[k] {
            assert families[k] in families && families[k] in FamiliesOf(configuration);
          }
        }
      }
    }

    method BuildOne(i: nat) returns (s: StoreType)
      requires i < |configuration| && Decodes(configuration, configs)
      modifies FamiliesOf(configuration)
      ensures fresh(s) && BuiltFrom(s, configuration[i]) && Decodes(configuration, configs)
    {
      hide RenderHeader;
      var c := configuration[i];
      assert forall f :: f in c.families ==> f in FamiliesOf(configuration);
      s := BuildStore(c.families, c.resolver, c.keys, c.values);
      forall f | f in FamiliesOf(configuration) ensures f.View() == old(f.View()) {
        if f !in c.families {
          SameView(f);
        }
      }
      KeepsDecoding();
    }

    /** One store built and appended per configured store, under the resource's UID. */
    method Build(stores: map<string, seq<StoreType>>)
      returns (stores': map<string, seq<StoreType>>, ghost built: seq<StoreType>)
      requires Decodes(configuration, configs)
      modifies FamiliesOf(configuration)
      ensures |built| == |configs|
      ensures forall i :: 0 <= i < |built| ==>
                fresh(built[i]) && JustMade(built[i], configs[i]) && MadeFor(built[i], configs[i])
      ensures forall i, j :: 0 <= i < j < |built| ==> built[i] != built[j]
      ensures stores' == if built == [] then stores
                         else stores[resource.uid := (if resource.uid in stores then stores[resource.uid] else []) + built]
    {
      hide Decodes;
      hide BuiltFrom;
      stores', built := stores, [];
      var uid := resource.uid;
      ghost var before := if uid in stores then stores[uid] else [];
      var i := 0;
      while i < |configuration|
        invariant 0 <= i <= |configuration| && |built| == i
        invariant Decodes(configuration, configs)
        invariant forall j :: 0 <= j < i ==> fresh(built[j]) && BuiltFrom(built[j], configuration[j])
        invariant forall j, k :: 0 <= j < k < i ==> built[j] != built[k]
        invariant stores' == if i == 0 then stores else stores[uid := before + built]
      {
        var s := BuildOne(i);
        var earlier := if uid in stores' then stores'[uid] else [];
        assert earlier == before + built;
        stores' := stores'[uid := earlier + [s]];
        assert before + built + [s] == before + (built + [s]);
        built := built + [s];
        i := i + 1;
      }
      AllMade(configuration, configs, built);
    }
  }

  lemma AllMade(decoded: seq<StoreConfiguration>, configs: seq<StoreConfig>, built: seq<StoreType>)
    requires Decodes(decoded, configs) && |built| == |decoded|
    requires forall j :: 0 <= j < |built| ==> BuiltFrom(built[j], decoded[j])
    ensures |built| == |configs|
    ensures forall j :: 0 <= j < |built| ==> JustMade(built[j], configs[j]) && MadeFor(built[j], configs[j])
  {
    hide JustMade;
    hide MadeFor;
    hide BuiltFrom;
    forall j | 0 <= j < |built| ensures JustMade(built[j], configs[j]) && MadeFor(built[j], configs[j]) {
      BuiltIsMade(built[j], decoded[j], configs[j]);
    }
  }
}
