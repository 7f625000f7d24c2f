/** When adding an object again leaves a store as it is, and when its history
    cannot be seen. */
module Readding {
  import opened Text
  import opened Exposition
  import opened Labelset
  import opened Resolver
  import opened Family
  import opened Determinism
  import opened Store
  import opened StoreRuns

  /** Neither the order of ranging over composite results nor the sort can be seen:
      no key is given two values, or no result is composite, or the sort keeps equal
      keys in order and colliding entries agree. */
  ghost predicate OneRendering(lib: Library, resolver: string, metric: MetricState, obj: Object)
    requires Aligned(metric)
  {
    var engine := EngineFor(metric.resolver, resolver);
    engine.Some? ==>
      || Consistent(MetricLabels(lib, engine.value, metric, |metric.values|, obj.fields))
      || Scalars(lib, engine.value, metric, obj.fields)
      || (Stable(lib.sort) && EntriesAgree(lib, engine.value, metric, obj.fields))
  }

  lemma OneOutcome(lib: Library, name: string, resolver: string, metric: MetricState, obj: Object,
                   out: Option<Sample>, other: Option<Sample>)
    requires Aligned(metric) && OneRendering(lib, resolver, metric, obj)
    requires Renders(lib, name, resolver, metric, obj, out) && Renders(lib, name, resolver, metric, obj, other)
    ensures out == other
  {
    hide Resolve;
    hide LabelsFrom;
    hide MetricLabels;
    hide Consistent;
    hide Scalars;
    hide Stable;
    hide EntriesAgree;
    if out.Some? {
      var engine := EngineFor(metric.resolver, resolver).value;
      if Consistent(MetricLabels(lib, engine, metric, |metric.values|, obj.fields)) {
        RenderingDetermined(lib, name, resolver, metric, obj, out);
        assert RendersUnder(lib, lib.sort, name, resolver, metric, obj, other);
      } else if Scalars(lib, engine, metric, obj.fields) {
        ScalarRenderingDetermined(lib, name, resolver, metric, obj, out, other);
      } else {
        MapOrderDetermined(lib, name, resolver, metric, obj, out);
      }
    }
  }

  /** So it is for every metric of a store, as its first addition finds it. */
  ghost predicate Determined(lib: Library, s: StoreState, obj: Object)
    requires StoreAligned(s)
  {
    forall i, k :: 0 <= i < |s.families| && 0 <= k < |FamiliesAfter(s, 1)[i].metrics| ==>
      var g := FamiliesAfter(s, 1)[i];
      Aligned(g.metrics[k]) && OneRendering(lib, g.resolver, g.metrics[k], obj)
  }

  lemma OneBlock(lib: Library, s: StoreState, obj: Object, block: Block, other: Block)
    requires StoreAligned(s) && Determined(lib, s, obj)
    requires BlockRenders(lib, FamiliesAfter(s, 1), obj, block) && BlockRenders(lib, FamiliesAfter(s, 1), obj, other)
    ensures block == other
  {
    hide Renders;
    hide OneRendering;
    hide FamilyAfter;
    var families := FamiliesAfter(s, 1);
    forall i | 0 <= i < |families| ensures block[i] == other[i] {
      var g := families[i];
      assert RowRenders(lib, g, obj, block[i]) && RowRenders(lib, g, obj, other[i]);
      forall k | 0 <= k < |g.metrics| ensures block[i][k] == other[i][k] {
        OneOutcome(lib, g.name, g.resolver, g.metrics[k], obj, block[i][k], other[i][k]);
      }
    }
  }

  /** Without labels to hand down, a store is made by the objects last added to it:
      two runs that end with the same objects end with the same rows. */
  lemma {:induction false} SameObjectsSameRows(
    lib: Library, states: seq<StoreState>, ops: seq<Op>, others: seq<StoreState>, more: seq<Op>)
    requires StoreRuns.Run(lib, states, ops) && StoreRuns.Run(lib, others, more)
    requires states[0] == others[0] && states[0].rows == map[] && StoreAligned(states[0]) && HistoryFree(states[0])
    requires forall uid :: LastObject(ops, uid) == LastObject(more, uid)
    requires forall uid :: LastObject(ops, uid).Some? ==> Determined(lib, states[0], LastObject(ops, uid).value)
    ensures states[|ops|].rows == others[|more|].rows
  {
    hide BlockRenders;
    hide Determined;
    hide FamiliesAfter;
    hide Step;
    hide HistoryFree;
    var a, b := states[|ops|].rows, others[|more|].rows;
    forall uid ensures (uid in a <==> uid in b) && (uid in a ==> a[uid] == b[uid]) {
      StoreRefinesFold(lib, states, ops, uid);
      StoreRefinesFold(lib, others, more, uid);
      assert LastObject(ops, uid) == LastObject(more, uid);
      if uid in a {
        HistoryFreeRun(lib, states, ops, uid);
        HistoryFreeRun(lib, others, more, uid);
        OneBlock(lib, states[0], LastObject(ops, uid).value, a[uid], b[uid]);
      }
    }
  }

  /** After any events, adding or updating once more with the object that a UID
      already stands for leaves the store as it was, exactly when there is nothing
      to hand down. */
  lemma {:induction false} AddAgain(lib: Library, states: seq<StoreState>, ops: seq<Op>, op: Op, s': StoreState)
    requires StoreRuns.Run(lib, states, ops) && states[0].rows == map[] && StoreAligned(states[0])
    requires Adds(op) && LastObject(ops, op.o.obj.uid) == Some(op.o.obj) && Determined(lib, states[0], op.o.obj)
    requires Step(lib, states[|ops|], op, s')
    ensures s' == states[|ops|] <==> HistoryFree(states[0])
  {
    hide BlockRenders;
    hide Determined;
    hide FamiliesAfter;
    hide HistoryFree;
    var first, s, uid, n := states[0], states[|ops|], op.o.obj.uid, AddCount(ops);
    RunFamilies(lib, states, ops);
    FamiliesStep(first, s, n);
    assert s'.families == FamiliesAfter(first, n + 1);
    assert n > 0 by {
      AddCountGrows(ops, LastWrite(ops, uid).value, |ops|);
      assert ops[..|ops|] == ops;
    }
    if HistoryFree(first) {
      HistoryFreeExactly(first);
      assert FamiliesAfter(first, n + 1) == FamiliesAfter(first, 1) == FamiliesAfter(first, n);
      StoreRefinesFold(lib, states, ops, uid);
      HistoryFreeRun(lib, states, ops, uid);
      OneBlock(lib, first, op.o.obj, s.rows[uid], s'.rows[uid]);
      assert s.rows[uid := s.rows[uid]] == s.rows;
    } else {
      FamiliesDiffer(first, n);
    }
  }

  lemma FamiliesDiffer(s: StoreState, n: nat)
    requires StoreAligned(s) && !HistoryFree(s)
    ensures FamiliesAfter(s, n + 1) != FamiliesAfter(s, n)
  {
    var i :| 0 <= i < |s.families| && !(s.keys == [] && s.values == []
      && (s.families[i].metrics == [] || (s.families[i].keys == [] && s.families[i].values == [])));
    NextAddDiffers(s.families[i], s.resolver, s.keys, s.values, n);
    assert FamiliesAfter(s, n + 1)[i] != FamiliesAfter(s, n)[i];
  }
}
