/** Writing out every store of one resource: `internal/writer.go`. */
module Writer {
  import opened Text
  import opened Output
  import opened Family
  import opened Store
  import opened StoreRuns
  import opened Document

  lemma {:induction false} ConcatPrefix(parts: seq<string>, k: nat)
    requires k < |parts|
    ensures Concat(parts[..k]) + parts[k] == Concat(parts[..k + 1])
    ensures Concat(parts[..k + 1]) <= Concat(parts)
  {
    ConcatOne(parts[..k], parts[k]);
    assert parts[..k + 1] == parts[..k] + [parts[k]];
    ConcatAppend(parts[..k + 1], parts[k + 1..]);
    assert parts == parts[..k + 1] + parts[k + 1..];
  }

  /** One more part went out, or some prefix of it did. */
  lemma {:induction false} WriteStep(start: string, parts: seq<string>, k: nat, before: string, now: string, ok: bool)
    requires k < |parts| && before == start + Concat(parts[..k])
    requires if ok then now == before + parts[k] else before <= now <= before + parts[k]
    ensures if ok then now == start + Concat(parts[..k + 1]) else start <= now <= start + Concat(parts)
  {
    ConcatPrefix(parts, k);
    hide Concat;
    assert before + parts[k] == start + (Concat(parts[..k]) + parts[k]);
  }

  /** Go's `range` over a map: some order of its keys. */
  method MapKeys(m: map<string, seq<string>>) returns (order: seq<string>)
    ensures Enumerates(order, m.Keys)
  {
    order := [];
    var rest := m.Keys;
    while rest != {}
      invariant rest <= m.Keys && Enumerates(order, m.Keys - rest)
      decreases rest
    {
      var u :| u in rest;
      assert forall v :: v in order + [u] <==> v in order || v == u;
      order := order + [u];
      rest := rest - {u};
    }
  }

  class MetricsWriter {
    const stores: seq<StoreType>

    constructor (stores: seq<StoreType>)
      ensures this.stores == stores
    {
      this.stores := stores;
    }

    /** The stores of one resource, each with a lock of its own. */
    ghost predicate Distinct() {
      forall i, j :: 0 <= i < j < |stores| ==> stores[i] != stores[j] && stores[i].mutex != stores[j].mutex
    }

    ghost function Mutexes(): set<object> {
      set j | 0 <= j < |stores| :: stores[j].mutex
    }

    /** One pass over the store's map, for the header at `i`. */
    method WriteRows(w: ResponseWriter, s: StoreType, i: nat, keys: seq<string>) returns (ok: bool)
      requires s.Valid() && s.mutex.readers > 0 && i < |s.headers|
      requires Enumerates(keys, s.metrics.Keys)
      modifies w
      ensures Shaped(old(s.View())) && Held(old(s.View()), keys)
      ensures ok ==> w.contents == old(w.contents) + Concat(RowsTexts(old(s.View()), i, keys))
      ensures !ok ==> old(w.contents) <= w.contents <= old(w.contents) + Concat(RowsTexts(old(s.View()), i, keys))
    {
      hide RenderRow;
      hide StoreType.Valid;
      s.ValidIsShaped();
      ghost var view := s.View();
      OrderingIsHeld(view, keys);
      hide Enumerates;
      ghost var texts := RowsTexts(view, i, keys);
      assert Concat(texts[..0]) == "";
      hide Concat;
      ok := true;
      var k := 0;
      while k < |keys|
        invariant 0 <= k <= |keys| && ok
        invariant w.contents == old(w.contents) + Concat(texts[..k])
        invariant s.Valid() && s.View() == view
      {
        ghost var before := w.contents;
        s.RowText(keys[k], i);
        ok := w.Write(s.metrics[keys[k]][i]);
        s.Untouched();
        WriteStep(old(w.contents), texts, k, before, w.contents, ok);
        if !ok {
          return;
        }
        k := k + 1;
      }
      assert texts[..k] == texts;
    }

    method WriteFamily(w: ResponseWriter, s: StoreType, i: nat) returns (ok: bool, ghost order: seq<string>)
      requires s.Valid() && s.mutex.readers > 0 && i < |s.headers|
      modifies w
      ensures Shaped(old(s.View())) && Enumerates(order, old(s.View()).rows.Keys) && Held(old(s.View()), order)
      ensures ok ==> w.contents == old(w.contents) + FamilyText(old(s.View()), i, order)
      ensures !ok ==> old(w.contents) <= w.contents <= old(w.contents) + FamilyText(old(s.View()), i, order)
    {
      hide StoreType.Valid;
      hide Concat;
      s.ValidIsShaped();
      var keys := MapKeys(s.metrics);
      order := keys;
      OrderingIsHeld(s.View(), order);
      hide Enumerates;
      hide RowsTexts;
      var header := s.headers[i];
      if header != "" && header != "\n" {
        header := header + "\n";
      }
      ok := w.Write(header);
      s.Untouched();
      if ok {
        ok := WriteRows(w, s, i, keys);
      }
    }

    method WriteStore(w: ResponseWriter, s: StoreType) returns (ok: bool, ghost orders: seq<seq<string>>)
      requires s.Valid() && s.mutex.readers > 0
      modifies w
      ensures Shaped(old(s.View())) && StoreOrdering(old(s.View()), orders)
      ensures ok ==> w.contents == old(w.contents) + Concat(FamilyTexts(old(s.View()), orders))
      ensures !ok ==> old(w.contents) <= w.contents <= old(w.contents) + Concat(FamilyTexts(old(s.View()), orders))
    {
      hide FamilyText;
      ghost var view := s.View();
      orders := seq(|s.headers|, _ => AnyOrder(view.rows.Keys));
      ok := true;
      var i := 0;
      while i < |s.headers|
        invariant 0 <= i <= |s.headers| && ok
        invariant Shaped(view) && StoreOrdering(view, orders)
        invariant s.Valid() && s.View() == view
        invariant w.contents == old(w.contents) + Concat(FamilyTexts(view, orders)[..i])
      {
        ghost var order: seq<string>;
        ghost var start, before := w.contents, FamilyTexts(view, orders);
        ok, order := WriteFamily(w, s, i);
        s.Untouched();
        orders := orders[i := order];
        ghost var texts := FamilyTexts(view, orders);
        assert texts[..i] == before[..i];
        assert texts[i] == FamilyText(view, i, order);
        WriteStep(old(w.contents), texts, i, start, w.contents, ok);
        if !ok {
          return;
        }
        i := i + 1;
      }
      assert FamilyTexts(view, orders)[..i] == FamilyTexts(view, orders);
    }

    method LockAll()
      requires Distinct() && forall k :: 0 <= k < |stores| ==> !stores[k].mutex.writer
      modifies Mutexes()
      ensures forall k :: 0 <= k < |stores| ==>
                !stores[k].mutex.writer && stores[k].mutex.readers == old(stores[k].mutex.readers) + 1
    {
      var j := 0;
      while j < |stores|
        invariant 0 <= j <= |stores|
        invariant forall k :: 0 <= k < |stores| ==> !stores[k].mutex.writer
        invariant forall k :: 0 <= k < j ==> stores[k].mutex.readers == old(stores[k].mutex.readers) + 1
        invariant forall k :: j <= k < |stores| ==> stores[k].mutex.readers == old(stores[k].mutex.readers)
      {
        stores[j].mutex.RLock();
        j := j + 1;
      }
    }

    /** The deferred calls. */
    method UnlockAll()
      requires Distinct()
      requires forall k :: 0 <= k < |stores| ==> !stores[k].mutex.writer && stores[k].mutex.readers > 0
      modifies Mutexes()
      ensures forall k :: 0 <= k < |stores| ==>
                !stores[k].mutex.writer && stores[k].mutex.readers == old(stores[k].mutex.readers) - 1
    {
      var j := 0;
      while j < |stores|
        invariant 0 <= j <= |stores|
        invariant forall k :: 0 <= k < |stores| ==> !stores[k].mutex.writer
        invariant forall k :: 0 <= k < j ==> stores[k].mutex.readers == old(stores[k].mutex.readers) - 1
        invariant forall k :: j <= k < |stores| ==> stores[k].mutex.readers == old(stores[k].mutex.readers)
      {
        stores[j].mutex.RUnlock();
        j := j + 1;
      }
    }

    /** Takes every read lock, writes, and releases every lock on every path. */
    method WriteAllTo(w: ResponseWriter)
      returns (ok: bool, ghost views: seq<StoreState>, ghost orders: seq<seq<seq<string>>>)
      requires Distinct()
      requires forall j :: 0 <= j < |stores| ==> stores[j].Valid() && !stores[j].mutex.writer
      modifies w, Mutexes()
      ensures |views| == |stores|
      ensures forall j :: 0 <= j < |stores| ==>
                && stores[j].Valid() && stores[j].View() == views[j] == old(stores[j].View())
                && !stores[j].mutex.writer && stores[j].mutex.readers == old(stores[j].mutex.readers)
      ensures (forall j :: 0 <= j < |views| ==> Shaped(views[j])) && Ordering(views, orders)
      ensures ok ==> w.contents == old(w.contents) + DocumentText(views, orders)
      ensures !ok ==> old(w.contents) <= w.contents <= old(w.contents) + DocumentText(views, orders)
    {
      hide StoreType.Valid;
      hide StoreType.View;
      hide FamilyTexts;
      hide Shaped;
      views := seq(|stores|, j requires 0 <= j < |stores| reads * => stores[j].View());
      AllShaped(views);
      orders := seq(|stores|, j requires 0 <= j < |stores| =>
        seq(|views[j].headers|, _ => AnyOrder(views[j].rows.Keys)));
      ok := true;
      if |stores| == 0 {
        return;
      }
      LockAll();
      forall k | 0 <= k < |stores| ensures stores[k].Valid() && stores[k].View() == views[k] {
        stores[k].Untouched();
      }
      ok, orders := WriteStores(w, views, orders);
      UnlockAll();
      forall k | 0 <= k < |stores| ensures stores[k].Valid() && stores[k].View() == views[k] {
        stores[k].Untouched();
      }
    }

    lemma AllShaped(views: seq<StoreState>)
      requires |views| == |stores|
      requires forall j :: 0 <= j < |stores| ==> stores[j].Valid() && stores[j].View() == views[j]
      ensures forall j :: 0 <= j < |views| ==> Shaped(views[j])
    {
      hide StoreType.Valid;
      forall j | 0 <= j < |views| ensures Shaped(views[j]) {
        stores[j].ValidIsShaped();
      }
    }

    /** The outer loop, with every lock held. */
    method WriteStores(w: ResponseWriter, ghost views: seq<StoreState>, ghost defaults: seq<seq<seq<string>>>)
      returns (ok: bool, ghost orders: seq<seq<seq<string>>>)
      requires |views| == |stores| && Ordering(views, defaults)
      requires forall j :: 0 <= j < |stores| ==> stores[j].Valid() && stores[j].View() == views[j] && Shaped(views[j])
      requires forall j :: 0 <= j < |stores| ==> stores[j].mutex.readers > 0
      modifies w
      ensures Ordering(views, orders)
      ensures ok ==> w.contents == old(w.contents) + DocumentText(views, orders)
      ensures !ok ==> old(w.contents) <= w.contents <= old(w.contents) + DocumentText(views, orders)
    {
      hide StoreType.Valid;
      hide FamilyTexts;
      hide StoreOrdering;
      orders := defaults;
      assert Concat(StoreTexts(views, orders)[..0]) == "";
      ok := true;
      var j := 0;
      while j < |stores|
        invariant 0 <= j <= |stores| && ok && Ordering(views, orders)
        invariant w.contents == old(w.contents) + Concat(StoreTexts(views, orders)[..j])
        invariant forall k :: 0 <= k < |stores| ==> stores[k].Valid() && stores[k].View() == views[k]
      {
        ghost var order: seq<seq<string>>;
        ghost var start, before := w.contents, StoreTexts(views, orders);
        label turn:
        ok, order := WriteStore(w, stores[j]);
        forall k | 0 <= k < |stores| ensures stores[k].Valid() && stores[k].View() == views[k] {
          stores[k].Untouched@turn();
        }
        orders := orders[j := order];
        ghost var texts := StoreTexts(views, orders);
        assert texts[..j] == before[..j];
        WriteStep(old(w.contents), texts, j, start, w.contents, ok);
        if !ok {
          return;
        }
        j := j + 1;
      }
      assert StoreTexts(views, orders)[..j] == StoreTexts(views, orders);
    }
  }
}
