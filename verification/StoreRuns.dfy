/** What any sequence of events leaves in a store: `internal/store.go` over runs. */
module StoreRuns {
  import opened Text
  import opened Exposition
  import opened Labelset
  import opened Resolver
  import opened Family
  import opened Store

  // ---- Labels accumulate ----

  function FamilyAfter(f: FamilyState, resolver: string, keys: seq<string>, values: seq<string>, n: nat): FamilyState {
    if n == 0 then f else FamilyAfterAdd(FamilyAfter(f, resolver, keys, values, n - 1), resolver, keys, values)
  }

  function FamiliesAfter(s: StoreState, n: nat): seq<FamilyState> {
    seq(|s.families|, i requires 0 <= i < |s.families| =>
      FamilyAfter(s.families[i], s.resolver, s.keys, s.values, n))
  }

  function Repeat<T>(xs: seq<T>, n: nat): seq<T> {
    if n == 0 then [] else Repeat(xs, n - 1) + xs
  }

  /** What a metric has been handed after `n` renderings: at the i-th, the family's
      own labels and `i` copies of the store's. */
  function HandedDown<T>(fs: seq<T>, ss: seq<T>, n: nat): seq<T> {
    if n == 0 then [] else HandedDown(fs, ss, n - 1) + (fs + Repeat(ss, n))
  }

  ghost predicate Accumulated(f: FamilyState, resolver: string, keys: seq<string>, values: seq<string>, n: nat,
                              g: FamilyState) {
    && g.name == f.name && g.help == f.help && |g.metrics| == |f.metrics|
    && g.resolver == (if n > 0 && f.resolver == RESOLVER_NONE then resolver else f.resolver)
    && g.keys == f.keys + Repeat(keys, n) && g.values == f.values + Repeat(values, n)
    && forall k :: 0 <= k < |f.metrics| ==>
         g.metrics[k] == InheritMetric(f.metrics[k], HandedDown(f.keys, keys, n), HandedDown(f.values, values, n))
  }

  /** The exact state of a family after `n` objects were added. */
  lemma {:induction false} LabelsAccumulate(f: FamilyState, resolver: string, keys: seq<string>, values: seq<string>, n: nat)
    ensures Accumulated(f, resolver, keys, values, n, FamilyAfter(f, resolver, keys, values, n))
  {
    if n > 0 {
      LabelsAccumulate(f, resolver, keys, values, n - 1);
      OneMore(f, resolver, keys, values, n, FamilyAfter(f, resolver, keys, values, n - 1));
    } else {
      assert f.keys + [] == f.keys && f.values + [] == f.values;
      forall k | 0 <= k < |f.metrics| ensures f.metrics[k] == InheritMetric(f.metrics[k], [], []) {
        assert f.metrics[k].keys + [] == f.metrics[k].keys && f.metrics[k].values + [] == f.metrics[k].values;
      }
    }
  }

  lemma {:induction false} OneMore(f: FamilyState, resolver: string, keys: seq<string>, values: seq<string>, n: nat,
                                   g: FamilyState)
    requires n > 0 && Accumulated(f, resolver, keys, values, n - 1, g)
    ensures Accumulated(f, resolver, keys, values, n, FamilyAfterAdd(g, resolver, keys, values))
  {
    hide AllAligned;
    var h := InheritFamily(g, resolver, keys, values);
    assert h.keys == f.keys + Repeat(keys, n) && h.values == f.values + Repeat(values, n);
    forall k | 0 <= k < |f.metrics|
      ensures Inherited(h).metrics[k]
           == InheritMetric(f.metrics[k], HandedDown(f.keys, keys, n), HandedDown(f.values, values, n))
    {
      Regroup(f.metrics[k].keys, HandedDown(f.keys, keys, n - 1), h.keys);
      Regroup(f.metrics[k].values, HandedDown(f.values, values, n - 1), h.values);
    }
  }

  lemma Regroup<T>(a: seq<T>, b: seq<T>, c: seq<T>)
    ensures (a + b) + c == a + (b + c)
  {
  }

  /** 1 + 2 + … + n. */
  function Triangle(n: nat): nat {
    n * (n + 1) / 2
  }

  lemma TriangleStep(n: nat)
    requires n > 0
    ensures Triangle(n) == Triangle(n - 1) + n
  {
    assert n * (n + 1) == (n - 1) * n + 2 * n;
  }

  lemma {:induction false} RepeatLength<T>(xs: seq<T>, n: nat)
    ensures |Repeat(xs, n)| == n * |xs|
  {
    if n > 0 {
      RepeatLength(xs, n - 1);
      assert n * |xs| == (n - 1) * |xs| + |xs|;
    }
  }

  lemma Distributes(a: nat, b: nat, c: nat)
    ensures (a + b) * c == a * c + b * c
  {
  }

  lemma {:induction false} HandedDownLength<T>(fs: seq<T>, ss: seq<T>, n: nat)
    ensures |HandedDown(fs, ss, n)| == n * |fs| + Triangle(n) * |ss|
  {
    if n > 0 {
      HandedDownLength(fs, ss, n - 1);
      RepeatLength(ss, n);
      TriangleStep(n);
      hide Triangle;
      hide Repeat;
      Distributes(n - 1, 1, |fs|);
      Distributes(Triangle(n - 1), n, |ss|);
    }
  }

  lemma ZipOfSum(ks: seq<string>, vs: seq<string>, ls: seq<string>, ws: seq<string>)
    requires |ks| == |vs| && |ls| == |ws|
    ensures Zip(ks + ls, vs + ws) == Zip(ks, vs) + Zip(ls, ws)
  {
  }

  lemma {:induction false} RepeatStaysAligned(ks: seq<string>, vs: seq<string>, n: nat)
    requires |ks| == |vs|
    ensures |Repeat(ks, n)| == |Repeat(vs, n)|
    ensures Zip(Repeat(ks, n), Repeat(vs, n)) == Repeat(Zip(ks, vs), n)
  {
    if n > 0 {
      RepeatStaysAligned(ks, vs, n - 1);
      ZipOfSum(Repeat(ks, n - 1), Repeat(vs, n - 1), ks, vs);
    }
  }

  /** Values stay with their keys, index by index. */
  lemma {:induction false} HandedDownStaysAligned(fk: seq<string>, fv: seq<string>, sk: seq<string>, sv: seq<string>, n: nat)
    requires |fk| == |fv| && |sk| == |sv|
    ensures |HandedDown(fk, sk, n)| == |HandedDown(fv, sv, n)|
    ensures Zip(HandedDown(fk, sk, n), HandedDown(fv, sv, n)) == HandedDown(Zip(fk, fv), Zip(sk, sv), n)
  {
    if n > 0 {
      HandedDownStaysAligned(fk, fv, sk, sv, n - 1);
      RepeatStaysAligned(sk, sv, n);
      ZipOfSum(fk, fv, Repeat(sk, n), Repeat(sv, n));
      ZipOfSum(HandedDown(fk, sk, n - 1), HandedDown(fv, sv, n - 1), fk + Repeat(sk, n), fv + Repeat(sv, n));
    }
  }

  /** Keys and values of equal number at both levels. */
  predicate Paired(f: FamilyState) {
    |f.keys| == |f.values| && forall k :: 0 <= k < |f.metrics| ==> |f.metrics[k].keys| == |f.metrics[k].values|
  }

  /** A metric's label pairs after `n` additions: its own, then what it was handed,
      `|M| + n|F| + (1 + … + n)|S|` in all. */
  lemma MetricPairs(f: FamilyState, resolver: string, keys: seq<string>, values: seq<string>, n: nat, k: nat)
    requires Paired(f) && |keys| == |values| && k < |f.metrics|
    ensures
      var m, m' := f.metrics[k], FamilyAfter(f, resolver, keys, values, n).metrics;
      && k < |m'| && |m'[k].keys| == |m'[k].values|
      && Zip(m'[k].keys, m'[k].values)
         == Zip(m.keys, m.values) + HandedDown(Zip(f.keys, f.values), Zip(keys, values), n)
      && |m'[k].keys| == |m.keys| + n * |f.keys| + Triangle(n) * |keys|
  {
    LabelsAccumulate(f, resolver, keys, values, n);
    HandedDownStaysAligned(f.keys, f.values, keys, values, n);
    HandedDownLength(f.keys, keys, n);
    ZipOfSum(f.metrics[k].keys, f.metrics[k].values, HandedDown(f.keys, keys, n), HandedDown(f.values, values, n));
  }

  /** The inheritance the configuration documents, metric then family then store,
      is what the first object gets. Later objects get it only where neither the
      family nor the store has labels to hand down. */
  lemma DocumentedInheritance(f: FamilyState, resolver: string, keys: seq<string>, values: seq<string>, n: nat, k: nat)
    requires n > 0 && k < |f.metrics|
    ensures k < |FamilyAfter(f, resolver, keys, values, n).metrics|
    ensures FamilyAfter(f, resolver, keys, values, n).metrics[k].keys == f.metrics[k].keys + f.keys + keys
       <==> n == 1 || (f.keys == [] && keys == [])
  {
    LabelsAccumulate(f, resolver, keys, values, n);
    HandedDownLength(f.keys, keys, n);
    var m := f.metrics[k];
    assert Repeat(keys, 1) == Repeat(keys, 0) + keys == keys;
    assert HandedDown(f.keys, keys, 1) == f.keys + keys;
    assert m.keys + f.keys + keys == m.keys + (f.keys + keys);
    if n > 1 {
      TriangleStep(n);
      TriangleGrows(n, |f.keys|, |keys|);
    }
  }

  lemma TriangleGrows(n: nat, f: nat, s: nat)
    requires n > 1
    ensures n * f + Triangle(n) * s == f + s <==> f == 0 && s == 0
  {
    TriangleStep(n);
    assert n * f == f + (n - 1) * f;
    assert Triangle(n) >= n;
    assert Triangle(n) * s == s + (Triangle(n) - 1) * s;
    if f > 0 {
      assert (n - 1) * f >= f;
    }
    if s > 0 {
      assert (Triangle(n) - 1) * s >= s;
    }
  }

  /** Nothing to hand down, so rendering leaves no trace. */
  ghost predicate HistoryFree(s: StoreState) {
    forall i :: 0 <= i < |s.families| ==>
      s.keys == [] && s.values == []
      && (s.families[i].metrics == [] || (s.families[i].keys == [] && s.families[i].values == []))
  }

  lemma {:induction false} EmptyHandsDownNothing<T>(n: nat)
    ensures Repeat<T>([], n) == [] && HandedDown<T>([], [], n) == []
  {
    RepeatLength<T>([], n);
    HandedDownLength<T>([], [], n);
  }

  lemma SameAfter(f: FamilyState, g: FamilyState)
    requires f.name == g.name && f.help == g.help && f.resolver == g.resolver
    requires f.keys == g.keys && f.values == g.values && f.metrics == g.metrics
    ensures f == g
  {
  }

  lemma FamilyHistoryFree(f: FamilyState, resolver: string, n: nat)
    requires n > 0 && (f.metrics == [] || (f.keys == [] && f.values == []))
    ensures FamilyAfter(f, resolver, [], [], n) == FamilyAfter(f, resolver, [], [], 1)
  {
    LabelsAccumulate(f, resolver, [], [], n);
    LabelsAccumulate(f, resolver, [], [], 1);
    EmptyHandsDownNothing<string>(n);
    EmptyHandsDownNothing<string>(1);
    SameAfter(FamilyAfter(f, resolver, [], [], n), FamilyAfter(f, resolver, [], [], 1));
  }

  /** Every object is rendered under the same labels, whatever came before it,
      exactly when there is nothing to hand down. */
  lemma HistoryFreeExactly(s: StoreState)
    requires StoreAligned(s)
    ensures HistoryFree(s) <==> forall n: nat :: n > 0 ==> FamiliesAfter(s, n) == FamiliesAfter(s, 1)
  {
    if HistoryFree(s) {
      forall n: nat | n > 0 ensures FamiliesAfter(s, n) == FamiliesAfter(s, 1) {
        forall i | 0 <= i < |s.families| ensures FamiliesAfter(s, n)[i] == FamiliesAfter(s, 1)[i] {
          FamilyHistoryFree(s.families[i], s.resolver, n);
        }
      }
    } else {
      var i :| 0 <= i < |s.families| && !(s.keys == [] && s.values == []
        && (s.families[i].metrics == [] || (s.families[i].keys == [] && s.families[i].values == [])));
      NextAddDiffers(s.families[i], s.resolver, s.keys, s.values, 1);
      assert FamiliesAfter(s, 2)[i] != FamiliesAfter(s, 1)[i];
    }
  }

  /** With something to hand down, every addition leaves its trace. */
  lemma NextAddDiffers(f: FamilyState, resolver: string, keys: seq<string>, values: seq<string>, n: nat)
    requires keys != [] || (f.metrics != [] && f.keys != [])
    ensures FamilyAfter(f, resolver, keys, values, n + 1) != FamilyAfter(f, resolver, keys, values, n)
  {
    var now, next := FamilyAfter(f, resolver, keys, values, n), FamilyAfter(f, resolver, keys, values, n + 1);
    LabelsAccumulate(f, resolver, keys, values, n);
    LabelsAccumulate(f, resolver, keys, values, n + 1);
    if keys != [] {
      assert Repeat(keys, n + 1) == Repeat(keys, n) + keys;
      assert |next.keys| > |now.keys|;
    } else {
      assert HandedDown(f.keys, keys, n + 1) == HandedDown(f.keys, keys, n) + (f.keys + Repeat(keys, n + 1));
      assert |next.metrics[0].keys| > |now.metrics[0].keys|;
    }
  }

  // ---- Resolvers do not drift ----

  function FirstNonEmpty(a: string, b: string, c: string): string {
    if a != RESOLVER_NONE then a else if b != RESOLVER_NONE then b else if c != RESOLVER_NONE then c
    else RESOLVER_UNSTRUCTURED
  }

  /** On every rendering the resolver in force is the first one given by metric,
      family or store, and `unstructured` failing those, although the family's
      own field is overwritten on the way. */
  lemma ResolverIsStable(c: StoreConfig, n: nat, i: nat, k: nat)
    requires n > 0 && i < |c.families| && k < |c.families[i].metrics|
    ensures k < |FamiliesAfter(InitialState(c), n)[i].metrics|
    ensures
      var g := FamiliesAfter(InitialState(c), n)[i];
      var chosen := FirstNonEmpty(c.families[i].metrics[k].resolver, c.families[i].resolver, c.resolver);
      && chosen != RESOLVER_NONE
      && EngineFor(g.metrics[k].resolver, g.resolver) == EngineFor(chosen, RESOLVER_NONE)
  {
    var s := InitialState(c);
    LabelsAccumulate(s.families[i], s.resolver, s.keys, s.values, n);
  }

  /** By name: with "unstructured", or no resolver given anywhere, a metric is dropped
      exactly if the value its path leads to is no number; with "cel" exactly if what
      the expression gives is none; and with any other name always. */
  lemma {:induction false} ResolverByName(lib: Library, c: StoreConfig, n: nat, i: nat, k: nat, obj: Object, block: Block)
    requires n > 0 && StoreAligned(InitialState(c)) && i < |c.families| && k < |c.families[i].metrics|
    requires BlockRenders(lib, FamiliesAfter(InitialState(c), n), obj, block)
    ensures i < |block| && k < |block[i]|
    ensures
      var m, out := c.families[i].metrics[k], block[i][k];
      var r := if m.resolver != "" then m.resolver else if c.families[i].resolver != "" then c.families[i].resolver
               else c.resolver;
      && (r == "unstructured" || r == "" ==>
            var answers := ResolveUnstructured(lib, m.value, obj.fields);
            && m.value in answers && (out.Some? <==> lib.number(answers[m.value]).Some?)
            && (out.Some? ==> out.value.token == lib.number(answers[m.value]).value))
      && (r == "cel" ==>
            var answers := ResolveCel(lib, m.value, obj.fields);
            && (out.Some? <==> m.value in answers && lib.number(answers[m.value]).Some?)
            && (out.Some? ==> out.value.token == lib.number(answers[m.value]).value))
      && (r != "unstructured" && r != "cel" && r != "" ==> out.None?)
      && (out.Some? ==>
            && out.value.family == c.families[i].name && out.value.group == obj.group
            && out.value.version == obj.version && out.value.kind == obj.kind)
  {
    hide ResolveUnstructured;
    hide ResolveCel;
    hide Renders;
    var first := InitialState(c);
    var g := FamiliesAfter(first, n)[i];
    LabelsAccumulate(first.families[i], first.resolver, first.keys, first.values, n);
    assert RowRenders(lib, g, obj, block[i]);
    RendersByName(lib, g.name, g.resolver, g.metrics[k], obj, block[i][k]);
  }

  // ---- The cache is a fold over its events ----

  ghost predicate Run(lib: Library, states: seq<StoreState>, ops: seq<Op>) {
    && |states| == |ops| + 1
    && forall i :: 0 <= i < |ops| ==> Step(lib, states[i], ops[i], states[i + 1])
  }

  function AddCount(ops: seq<Op>): nat {
    if ops == [] then 0 else AddCount(ops[..|ops| - 1]) + if Adds(ops[|ops| - 1]) then 1 else 0
  }

  lemma {:induction false} AddCountGrows(ops: seq<Op>, i: nat, j: nat)
    requires i < j <= |ops| && Adds(ops[i])
    ensures AddCount(ops[..i]) < AddCount(ops[..j])
    decreases j
  {
    assert ops[..j][..j - 1] == ops[..j - 1];
    if i < j - 1 {
      AddCountGrows(ops, i, j - 1);
    }
  }

  /** The addition that decides `uid`'s entry: the last event about `uid` that
      succeeded, if that was an addition. */
  function LastWrite(ops: seq<Op>, uid: string): (r: Option<nat>)
    ensures r.Some? ==> r.value < |ops| && Adds(ops[r.value]) && ops[r.value].o.obj.uid == uid
  {
    if ops == [] then None
    else
      var n := |ops| - 1;
      if (ops[n].Add? || ops[n].Update?) && ops[n].o.Converted? && ops[n].o.obj.uid == uid then Some(n)
      else if ops[n].Delete? && ops[n].uid == Some(uid) then None
      else LastWrite(ops[..n], uid)
  }

  function LastObject(ops: seq<Op>, uid: string): Option<Object> {
    if LastWrite(ops, uid).Some? then Some(ops[LastWrite(ops, uid).value].o.obj) else None
  }

  lemma FamiliesStep(s: StoreState, s': StoreState, n: nat)
    requires s'.families == FamiliesAfter(s, n)
    requires s'.resolver == s.resolver && s'.keys == s.keys && s'.values == s.values
    ensures FamiliesAfterAdd(s') == FamiliesAfter(s, n + 1)
  {
  }

  lemma {:induction false} RunFamilies(lib: Library, states: seq<StoreState>, ops: seq<Op>)
    requires Run(lib, states, ops)
    ensures
      var first, last := states[0], states[|ops|];
      && last.families == FamiliesAfter(first, AddCount(ops))
      && last.headers == first.headers && last.resolver == first.resolver
      && last.keys == first.keys && last.values == first.values
    decreases |ops|
  {
    hide BlockRenders;
    if ops == [] {
      assert FamiliesAfter(states[0], 0) == states[0].families;
    } else {
      var n := |ops| - 1;
      assert Run(lib, states[..n + 1], ops[..n]);
      RunFamilies(lib, states[..n + 1], ops[..n]);
      assert Step(lib, states[n], ops[n], states[n + 1]);
      FamiliesStep(states[0], states[n], AddCount(ops[..n]));
    }
  }

  /** After any events, an object has an entry exactly when its last successful
      event added or updated it; and that entry is a rendering of that object
      under the labels accumulated by then. */
  lemma {:induction false} StoreRefinesFold(lib: Library, states: seq<StoreState>, ops: seq<Op>, uid: string)
    requires Run(lib, states, ops) && states[0].rows == map[]
    ensures uid in states[|ops|].rows <==> LastWrite(ops, uid).Some?
    ensures LastWrite(ops, uid).Some? ==>
              var j := LastWrite(ops, uid).value;
              BlockRenders(lib, FamiliesAfter(states[0], AddCount(ops[..j]) + 1), ops[j].o.obj, states[|ops|].rows[uid])
    decreases |ops|
  {
    hide BlockRenders;
    hide FamiliesAfter;
    if ops != [] {
      var n := |ops| - 1;
      var earlier := ops[..n];
      assert Run(lib, states[..n + 1], earlier);
      StoreRefinesFold(lib, states[..n + 1], earlier, uid);
      RunFamilies(lib, states[..n + 1], earlier);
      assert Step(lib, states[n], ops[n], states[n + 1]);
      FamiliesStep(states[0], states[n], AddCount(earlier));
      if LastWrite(earlier, uid).Some? {
        var j := LastWrite(earlier, uid).value;
        assert ops[..j] == earlier[..j] && ops[j] == earlier[j];
      }
    }
  }

  /** With nothing to hand down, each entry is a rendering of its object under one
      and the same configuration, so the history behind it cannot be seen. */
  lemma HistoryFreeRun(lib: Library, states: seq<StoreState>, ops: seq<Op>, uid: string)
    requires Run(lib, states, ops) && states[0].rows == map[]
    requires StoreAligned(states[0]) && HistoryFree(states[0])
    requires uid in states[|ops|].rows
    ensures LastWrite(ops, uid).Some?
    ensures BlockRenders(lib, FamiliesAfter(states[0], 1), ops[LastWrite(ops, uid).value].o.obj, states[|ops|].rows[uid])
  {
    hide BlockRenders;
    hide FamiliesAfter;
    StoreRefinesFold(lib, states, ops, uid);
    HistoryFreeExactly(states[0]);
    var n: nat := AddCount(ops[..LastWrite(ops, uid).value]) + 1;
    assert FamiliesAfter(states[0], n) == FamiliesAfter(states[0], 1);
  }

  // ---- What every event keeps ----

  ghost predicate BlockPrinted(families: seq<FamilyState>, block: Block) {
    && |block| == |families|
    && forall i, k :: 0 <= i < |families| && 0 <= k < |block[i]| && block[i][k].Some? ==>
         Printable(block[i][k].value) && block[i][k].value.family == families[i].name
  }

  /** Headers match families, and every entry has one well-formed row per header. */
  ghost predicate Printed(s: StoreState) {
    && |s.headers| == |s.families|
    && (forall i :: 0 <= i < |s.families| ==>
          s.headers[i] == RenderHeader(s.families[i].name, s.families[i].help))
    && forall u :: u in s.rows ==> BlockPrinted(s.families, s.rows[u])
  }

  lemma InitiallyPrinted(c: StoreConfig)
    ensures Printed(InitialState(c))
  {
  }

  lemma RenderedIsPrinted(lib: Library, families: seq<FamilyState>, obj: Object, block: Block)
    requires Tokens(lib) && BlockRenders(lib, families, obj, block)
    ensures BlockPrinted(families, block)
  {
    hide RendersUnder;
    hide Printable;
    forall i, k | 0 <= i < |families| && 0 <= k < |block[i]| && block[i][k].Some?
      ensures Printable(block[i][k].value) && block[i][k].value.family == families[i].name
    {
      var f := families[i];
      assert AllAligned(f) && RowRenders(lib, f, obj, block[i]);
      RenderedIsPrintable(lib, lib.sort, f.name, f.resolver, f.metrics[k], obj, block[i][k]);
    }
  }

  lemma StepKeepsPrinted(lib: Library, s: StoreState, op: Op, s': StoreState)
    requires Tokens(lib) && Printed(s) && Step(lib, s, op, s')
    ensures Printed(s')
  {
    hide Renders;
    hide Printable;
    hide RenderHeader;
    assert forall i :: 0 <= i < |s.families| ==>
      FamiliesAfterAdd(s)[i].name == s.families[i].name && FamiliesAfterAdd(s)[i].help == s.families[i].help;
    if Adds(op) {
      RenderedIsPrinted(lib, s'.families, op.o.obj, s'.rows[op.o.obj.uid]);
    }
  }

  lemma {:induction false} RunKeepsPrinted(lib: Library, states: seq<StoreState>, ops: seq<Op>)
    requires Tokens(lib) && Run(lib, states, ops) && Printed(states[0])
    ensures Printed(states[|ops|])
    decreases |ops|
  {
    hide Printed;
    hide Step;
    if ops != [] {
      var n := |ops| - 1;
      assert Run(lib, states[..n + 1], ops[..n]);
      RunKeepsPrinted(lib, states[..n + 1], ops[..n]);
      StepKeepsPrinted(lib, states[n], ops[n], states[n + 1]);
    }
  }

  /** The accumulation reaches the text: under the unstructured resolver, a sample
      of the n-th addition carries `|M| + n|F| + (1 + … + n)|S|` labels of its own. */
  lemma LabelsInTheText(lib: Library, s: StoreState, n: nat, obj: Object, block: Block, i: nat, k: nat)
    requires StoreAligned(s) && i < |s.families| && k < |s.families[i].metrics|
    requires BlockRenders(lib, FamiliesAfter(s, n), obj, block)
    requires k < |FamiliesAfter(s, n)[i].metrics| && k < |block[i]| && block[i][k].Some?
    requires EngineFor(FamiliesAfter(s, n)[i].metrics[k].resolver, FamiliesAfter(s, n)[i].resolver) == Some(Unstructured)
    ensures |block[i][k].value.labels|
         == |s.families[i].metrics[k].values| + n * |s.families[i].values| + Triangle(n) * |s.values|
  {
    hide Resolve;
    hide MetricLabels;
    hide Ordered;
    hide LabelsFrom;
    var f, g := s.families[i], FamiliesAfter(s, n)[i];
    LabelsAccumulate(f, s.resolver, s.keys, s.values, n);
    HandedDownLength(f.values, s.values, n);
    assert RowRenders(lib, g, obj, block[i]);
    UnstructuredLabelCount(lib, g.metrics[k], |g.metrics[k].values|, obj.fields);
    LabelsAreArranged(lib, lib.sort, Unstructured, g.metrics[k], obj.fields, block[i][k].value.labels);
    assert |multiset(block[i][k].value.labels)| == |block[i][k].value.labels|;
  }
}
