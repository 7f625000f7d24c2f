/** How a resource comes to be forgotten. Each of the first runs is orderly but for
    one kind of action, ends with nothing left to do for the resource, and leaves its
    stores or its conditions wrong. The last two show how the condition comes to lie
    for a while, and what an empty specification leaves behind. */
module Losing {
  import opened Text
  import opened Conditions
  import opened Reconcile
  import opened Installing
  import opened Converging
  import Store

  ghost predicate OrderlyBut(w: World, acts: seq<Action>, name: string, bad: Action) {
    forall i :: 0 <= i < |acts| ==> Orderly(Run(w, START, acts[..i]), acts[i], name) || acts[i] == bad
  }

  /** Nothing is left to do for the resource, and yet not all is well. */
  ghost predicate Forgotten(w: World, s: State, name: string) {
    && Current(s, name).Some? && Due(s, name) == 0 && !WorkingOn(s, name)
    && !Converged(w, s, Current(s, name).value)
  }

  lemma Extend(w: World, acts: seq<Action>, name: string, bad: Action, a: Action)
    requires OrderlyBut(w, acts, name, bad)
    requires Orderly(Run(w, START, acts), a, name) || a == bad
    ensures OrderlyBut(w, acts + [a], name, bad)
    ensures Run(w, START, acts + [a]) == Perform(w, Run(w, START, acts), a)
  {
    hide Orderly;
    hide Perform;
    var longer := acts + [a];
    assert longer[..|acts|] == acts;
    forall i | 0 <= i < |longer| ensures Orderly(Run(w, START, longer[..i]), longer[i], name) || longer[i] == bad {
      if i < |acts| {
        assert longer[..i] == acts[..i];
      }
    }
  }

  lemma WorkIsOrderly(s: State, name: string)
    ensures Orderly(s, Take, name) && Orderly(s, Handle(Answered), name)
  {
    hide Due;
  }

  predicate AsksForStores(w: World, spec: string) {
    spec != "" && w.parse(spec).Configuration? && w.parse(spec).stores != []
  }

  lemma NothingYet(w: World, name: string, bad: Action)
    ensures OrderlyBut(w, [], name, bad)
  {
  }

  /** A state in which the API server knows one name only. */
  function Only(name: string, log: seq<Option<Obj>>, seen: nat, owner: map<string, string>, queue: seq<Item>,
                worker: Worker, stores: map<string, seq<Store.StoreConfig>>): State
    requires seen < |log|
  {
    State(map[name := TrackData(log, seen)], owner, queue, false, worker, stores)
  }

  predicate EndsWith(log: seq<Option<Obj>>, o: Obj) {
    0 < |log| && log[|log| - 1] == Some(o) && o.version == |log| - 1
  }

  /** One more write: the log grows by an object of the same UID and specification. */
  predicate Grown(log: seq<Option<Obj>>, o: Obj, log': seq<Option<Obj>>, o': Obj) {
    log' == log + [Some(o')] && o'.version == |log| && o'.uid == o.uid && o'.spec == o.spec
  }

  lemma {:induction false} SameSpecs(log: seq<Option<Obj>>, spec: string, from: nat, end: nat)
    requires from <= end < |log|
    requires forall i :: from <= i <= end ==> log[i].Some? && log[i].value.spec == spec
    ensures Changes(log, from, end) == 0
    decreases end
  {
    if from < end {
      SameSpecs(log, spec, from, end - 1);
    }
  }

  function NewObj(uid: string, version: nat, spec: string): Obj {
    Obj(uid, version, 1, spec, map[], [])
  }

  /** The resource is made and the informer tells of it. */
  lemma Made(w: World, name: string, uid: string, spec: string, bad: Action) returns (acts: seq<Action>)
    ensures OrderlyBut(w, acts, name, bad)
    ensures Run(w, START, acts) ==
            Only(name, [None, Some(NewObj(uid, 1, spec))], 1, map[uid := name], [Item(name, AddEvent)], Idle, map[])
  {
    hide OrderlyBut;
    NothingYet(w, name, bad);
    acts := [];
    var create := Create(name, uid, spec, map[]);
    Extend(w, acts, name, bad, create);
    acts := acts + [create];
    assert [Option<Obj>.None] + [Some(NewObj(uid, 1, spec))] == [None, Some(NewObj(uid, 1, spec))];
    var deliver := Deliver(name, 1, false);
    Extend(w, acts, name, bad, deliver);
    acts := acts + [deliver];
  }

  /** One call of the worker that goes through. */
  lemma Called(
    w: World, acts: seq<Action>, name: string, bad: Action, log: seq<Option<Obj>>, seen: nat,
    owner: map<string, string>, item: Item, rest: seq<Item>, stores: map<string, seq<Store.StoreConfig>>,
    stage: Stage, m: Move)
    returns (acts': seq<Action>, log': seq<Option<Obj>>)
    requires OrderlyBut(w, acts, name, bad) && seen < |log| && item.name == name
    requires Run(w, START, acts) == Only(name, log, seen, owner, rest, On(item, stage), stores)
    requires m == Next(w, Run(w, START, acts), item, stage, Answered)
    ensures OrderlyBut(w, acts', name, bad)
    ensures log' == if m.write.Some? then log + [Some(m.write.value.(version := |log|))] else log
    ensures Run(w, START, acts') ==
            Only(name, log', seen, owner, rest, if m.next.Some? then On(item, m.next.value) else Idle,
                 if stage.Decide? then StoresAfter(w, stores, item.event, stage.resource) else stores)
  {
    hide OrderlyBut;
    hide Orderly;
    hide Run;
    hide Next;
    hide StoresAfter;
    WorkIsOrderly(Run(w, START, acts), name);
    Extend(w, acts, name, bad, Handle(Answered));
    acts' := acts + [Handle(Answered)];
    log' := if m.write.Some? then log + [Some(m.write.value.(version := |log|))] else log;
    SyncMoves(w, Run(w, START, acts), item, Answered);
    HandleShape(w, Run(w, START, acts), Answered);
  }

  lemma Taken(
    w: World, acts: seq<Action>, name: string, bad: Action, log: seq<Option<Obj>>, seen: nat,
    owner: map<string, string>, item: Item, rest: seq<Item>, stores: map<string, seq<Store.StoreConfig>>)
    returns (acts': seq<Action>)
    requires OrderlyBut(w, acts, name, bad) && seen < |log|
    requires Run(w, START, acts) == Only(name, log, seen, owner, [item] + rest, Idle, stores)
    ensures OrderlyBut(w, acts', name, bad)
    ensures Run(w, START, acts') == Only(name, log, seen, owner, rest, On(item, Sync), stores)
  {
    hide OrderlyBut;
    hide Orderly;
    hide Run;
    hide HandleStep;
    WorkIsOrderly(Run(w, START, acts), name);
    Extend(w, acts, name, bad, Take);
    acts' := acts + [Take];
  }

  /** The worker takes an item and labels the resource. */
  lemma Labelled(
    w: World, acts: seq<Action>, name: string, bad: Action, log: seq<Option<Obj>>, seen: nat,
    owner: map<string, string>, item: Item, rest: seq<Item>, stores: map<string, seq<Store.StoreConfig>>, o: Obj)
    returns (acts': seq<Action>, log': seq<Option<Obj>>, o': Obj)
    requires OrderlyBut(w, acts, name, bad) && seen < |log| && EndsWith(log, o) && item.name == name
    requires Run(w, START, acts) == Only(name, log, seen, owner, [item] + rest, Idle, stores)
    ensures OrderlyBut(w, acts', name, bad) && Grown(log, o, log', o')
    ensures Run(w, START, acts') == Only(name, log', seen, owner, rest, On(item, FalseGet), stores)
  {
    hide OrderlyBut;
    hide Orderly;
    hide Run;
    hide HandleStep;
    acts' := Taken(w, acts, name, bad, log, seen, owner, item, rest, stores);
    log' := log;
    acts', log' := Called(w, acts', name, bad, log', seen, owner, item, rest, stores, Sync, Move(None, Some(MetaGet)));
    acts', log' := Called(w, acts', name, bad, log', seen, owner, item, rest, stores, MetaGet,
                          Move(None, Some(MetaPut(o))));
    acts', log' := Called(w, acts', name, bad, log', seen, owner, item, rest, stores, MetaPut(o),
                          Move(Some(Stamp(w, o)), Some(FalseGet)));
    o' := Stamp(w, o).(version := |log|);
  }

  /** It reports that it got the event. */
  lemma Announced(
    w: World, acts: seq<Action>, name: string, bad: Action, log: seq<Option<Obj>>, seen: nat,
    owner: map<string, string>, item: Item, rest: seq<Item>, stores: map<string, seq<Store.StoreConfig>>, o: Obj)
    returns (acts': seq<Action>, log': seq<Option<Obj>>, o': Obj)
    requires OrderlyBut(w, acts, name, bad) && seen < |log| && EndsWith(log, o) && item.name == name
    requires Run(w, START, acts) == Only(name, log, seen, owner, rest, On(item, FalseGet), stores)
    ensures OrderlyBut(w, acts', name, bad) && Grown(log, o, log', o')
    ensures Run(w, START, acts') == Only(name, log', seen, owner, rest, On(item, Decide(o')), stores)
  {
    hide OrderlyBut;
    hide Run;
    hide Noted;
    acts', log' := Called(w, acts, name, bad, log, seen, owner, item, rest, stores, FalseGet,
                          Move(None, Some(FalsePut(o))));
    o' := Received(o, item.event).(version := |log|);
    acts', log' := Called(w, acts', name, bad, log', seen, owner, item, rest, stores, FalsePut(o),
                          Move(Some(Received(o, item.event)), Some(Decide(o'))));
    ReportsKeep(w, o, item.event);
  }

  /** It decides and reports success. */
  lemma Finished(
    w: World, acts: seq<Action>, name: string, bad: Action, log: seq<Option<Obj>>, seen: nat,
    owner: map<string, string>, item: Item, rest: seq<Item>, stores: map<string, seq<Store.StoreConfig>>, o: Obj)
    returns (acts': seq<Action>, log': seq<Option<Obj>>, o': Obj)
    requires OrderlyBut(w, acts, name, bad) && seen < |log| && EndsWith(log, o) && item.name == name
    requires AsksForStores(w, o.spec) && !item.event.Unknown?
    requires Run(w, START, acts) == Only(name, log, seen, owner, rest, On(item, Decide(o)), stores)
    ensures OrderlyBut(w, acts', name, bad) && Grown(log, o, log', o') && ShowsProcessed(o')
    ensures Run(w, START, acts') == Only(name, log', seen, owner, rest, Idle, StoresAfter(w, stores, item.event, o))
  {
    hide OrderlyBut;
    hide Run;
    hide StoresAfter;
    hide Noted;
    hide ShowsProcessed;
    var built := StoresAfter(w, stores, item.event, o);
    acts', log' := Called(w, acts, name, bad, log, seen, owner, item, rest, stores, Decide(o),
                          Move(None, Some(TrueGet(o))));
    acts', log' := Called(w, acts', name, bad, log', seen, owner, item, rest, built, TrueGet(o),
                          Move(None, Some(TruePut(o, o))));
    acts', log' := Called(w, acts', name, bad, log', seen, owner, item, rest, built, TruePut(o, o),
                          Move(Some(Succeeded(o, item.event)), None));
    o' := Succeeded(o, item.event).(version := |log|);
    ReportsKeep(w, o, item.event);
  }

  lemma ReportsKeep(w: World, o: Obj, e: Event)
    ensures Received(o, e).uid == o.uid && Received(o, e).spec == o.spec
    ensures Succeeded(o, e).uid == o.uid && Succeeded(o, e).spec == o.spec
    ensures forall v: nat :: ShowsProcessed(Succeeded(o, e).(version := v))
  {
    StatusAfterWrite(w, o, e, "");
  }

  /** A user edits the specification. */
  lemma Edited(w: World, acts: seq<Action>, name: string, bad: Action, log: seq<Option<Obj>>, seen: nat,
               owner: map<string, string>, worker: Worker, stores: map<string, seq<Store.StoreConfig>>,
               o: Obj, spec: string)
    returns (acts': seq<Action>, log': seq<Option<Obj>>, o': Obj)
    requires OrderlyBut(w, acts, name, bad) && seen < |log| && EndsWith(log, o) && spec != o.spec
    requires Run(w, START, acts) == Only(name, log, seen, owner, [], worker, stores)
    ensures OrderlyBut(w, acts', name, bad) && EndsWith(log', o') && log' == log + [Some(o')]
    ensures o'.uid == o.uid && o'.spec == spec && ShowsProcessed(o') == ShowsProcessed(o)
    ensures Run(w, START, acts') == Only(name, log', seen, owner, [], worker, stores)
  {
    hide OrderlyBut;
    hide Run;
    hide HandleStep;
    Extend(w, acts, name, bad, Edit(name, spec, map[]));
    acts' := acts + [Edit(name, spec, map[])];
    o' := o.(spec := spec, labels := map[], generation := o.generation + 1, version := |log|);
    log' := log + [Some(o')];
  }

  // ---- The runs ----

  /** The first call of a handling fails, and the event is not tried again. */
  lemma {:induction false} FailedCallForgets(w: World, name: string, uid: string, spec: string, fate: Fate)
    returns (acts: seq<Action>)
    requires AsksForStores(w, spec) && !fate.Answered?
    ensures OrderlyBut(w, acts, name, Handle(fate)) && Forgotten(w, Run(w, START, acts), name)
  {
    hide OrderlyBut;
    hide Orderly;
    hide Run;
    hide HandleStep;
    var bad := Handle(fate);
    var item, owner := Item(name, AddEvent), map[uid := name];
    var log: seq<Option<Obj>> := [None, Some(NewObj(uid, 1, spec))];
    acts := Made(w, name, uid, spec, bad);
    acts := Taken(w, acts, name, bad, log, 1, owner, item, [], map[]);
    acts, log := Called(w, acts, name, bad, log, 1, owner, item, [], map[], Sync, Move(None, Some(MetaGet)));
    Extend(w, acts, name, bad, bad);
    acts := GivenUp(w, acts, name, log, owner, item, fate);
    NothingBuilt(w, name, log, owner, spec);
  }

  lemma GivenUp(w: World, acts: seq<Action>, name: string, log: seq<Option<Obj>>, owner: map<string, string>, item: Item,
                fate: Fate)
    returns (acts': seq<Action>)
    requires 1 < |log| && item.name == name && !fate.Answered?
    requires Run(w, START, acts) == Only(name, log, 1, owner, [], On(item, MetaGet), map[])
    requires Run(w, START, acts + [Handle(fate)]) == Perform(w, Run(w, START, acts), Handle(fate))
    ensures acts' == acts + [Handle(fate)]
    ensures Run(w, START, acts') == Only(name, log, 1, owner, [], Idle, map[])
  {
    hide Run;
    acts' := acts + [Handle(fate)];
  }

  /** At rest, with no stores, a resource that asks for some is forgotten. */
  lemma NothingBuilt(w: World, name: string, log: seq<Option<Obj>>, owner: map<string, string>, spec: string)
    requires 1 < |log| && AsksForStores(w, spec)
    requires forall i :: 1 <= i < |log| ==> log[i].Some? && log[i].value.spec == spec
    ensures Forgotten(w, Only(name, log, 1, owner, [], Idle, map[]), name)
  {
    hide Changes;
    SameSpecs(log, spec, 1, |log| - 1);
  }

  /** Between the worker's reading the resource and writing its status, someone
      writes labels or status. The worker's write is refused. */
  lemma WrittenOver(w: World, acts: seq<Action>, name: string, bad: Action, log: seq<Option<Obj>>,
                    owner: map<string, string>, item: Item, o: Obj)
    returns (acts': seq<Action>, o': Obj)
    requires OrderlyBut(w, acts, name, bad) && 1 < |log| && EndsWith(log, o) && item.name == name
    requires bad.EditStatus? || (bad.Edit? && bad.spec == o.spec)
    requires bad.name == name
    requires Run(w, START, acts) == Only(name, log, 1, owner, [], On(item, FalseGet), map[])
    ensures OrderlyBut(w, acts', name, bad) && o'.spec == o.spec
    ensures Run(w, START, acts') == Only(name, log + [Some(o')], 1, owner, [], Idle, map[])
  {
    hide OrderlyBut;
    hide Orderly;
    hide Run;
    hide HandleStep;
    var log1;
    acts', log1 := Called(w, acts, name, bad, log, 1, owner, item, [], map[], FalseGet, Move(None, Some(FalsePut(o))));
    Extend(w, acts', name, bad, bad);
    acts' := acts' + [bad];
    o' := if bad.Edit? then o.(labels := bad.labels, version := |log|)
          else o.(conditions := bad.conditions, version := |log|);
    log1 := log + [Some(o')];
    assert Run(w, START, acts') == Only(name, log1, 1, owner, [], On(item, FalsePut(o)), map[]);
    acts', log1 := Called(w, acts', name, bad, log1, 1, owner, item, [], map[], FalsePut(o), GIVE_UP);
  }

  /** Someone relabels the resource between the worker's reading it and writing its
      status. The write is refused, and the informer's news of the labels ignored. */
  lemma {:induction false} RelabellingForgets(w: World, name: string, uid: string, spec: string, labels: map<string, string>)
    returns (acts: seq<Action>)
    requires AsksForStores(w, spec)
    ensures OrderlyBut(w, acts, name, Edit(name, spec, labels)) && Forgotten(w, Run(w, START, acts), name)
  {
    hide Forgotten;
    hide OrderlyBut;
    hide Run;
    acts := OverwrittenForgets(w, name, uid, spec, Edit(name, spec, labels));
  }

  lemma OverwrittenForgets(w: World, name: string, uid: string, spec: string, bad: Action) returns (acts: seq<Action>)
    requires AsksForStores(w, spec)
    requires (bad.EditStatus? || (bad.Edit? && bad.spec == spec)) && bad.name == name
    ensures OrderlyBut(w, acts, name, bad) && Forgotten(w, Run(w, START, acts), name)
  {
    hide Forgotten;
    hide OrderlyBut;
    hide Run;
    var item, owner := Item(name, AddEvent), map[uid := name];
    acts := Made(w, name, uid, spec, bad);
    var log: seq<Option<Obj>> := [None, Some(NewObj(uid, 1, spec))];
    assert [item] + [] == [item];
    var o: Obj;
    acts, log, o := Labelled(w, acts, name, bad, log, 1, owner, item, [], map[], NewObj(uid, 1, spec));
    var o';
    acts, o' := WrittenOver(w, acts, name, bad, log, owner, item, o);
    NothingBuilt(w, name, log + [Some(o')], owner, spec);
  }

  /** Or writes the status at that moment. */
  lemma {:induction false} StatusWriteForgets(w: World, name: string, uid: string, spec: string)
    returns (acts: seq<Action>)
    requires AsksForStores(w, spec)
    ensures OrderlyBut(w, acts, name, EditStatus(name, [])) && Forgotten(w, Run(w, START, acts), name)
  {
    hide Forgotten;
    hide OrderlyBut;
    hide Run;
    acts := OverwrittenForgets(w, name, uid, spec, EditStatus(name, []));
  }

  /** Or someone wipes out the worker's reports when it has done its work. */
  lemma {:induction false} WipingForgets(w: World, name: string, uid: string, spec: string)
    returns (acts: seq<Action>)
    requires AsksForStores(w, spec)
    ensures OrderlyBut(w, acts, name, EditStatus(name, [])) && Forgotten(w, Run(w, START, acts), name)
    ensures Entry(Run(w, START, acts), uid) == Some(w.parse(spec).stores)
  {
    hide OrderlyBut;
    hide Orderly;
    hide Run;
    hide HandleStep;
    var bad := EditStatus(name, []);
    var log: seq<Option<Obj>>, o: Obj;
    acts, log, o := InstalledFirst(w, name, uid, spec, bad);
    var stores := StoresAfter(w, map[], AddEvent, o);
    Extend(w, acts, name, bad, bad);
    acts := acts + [bad];
    log := log + [Some(o.(conditions := [], version := |log|))];
    assert Run(w, START, acts) == Only(name, log, 1, map[uid := name], [], Idle, stores);
    SameSpecs(log, spec, 1, |log| - 1);
  }

  /** The resource is made and deleted, and the informer tells of both. */
  lemma Unmade(w: World, name: string, uid: string, spec: string, bad: Action) returns (acts: seq<Action>)
    ensures OrderlyBut(w, acts, name, bad)
    ensures Run(w, START, acts) ==
            Only(name, [None, Some(NewObj(uid, 1, spec)), None], 2, map[uid := name],
                 [Item(name, AddEvent)] + [Item(name, DeleteEvent)], Idle, map[])
  {
    hide OrderlyBut;
    hide Run;
    hide HandleStep;
    acts := Made(w, name, uid, spec, bad);
    var log: seq<Option<Obj>> := [None, Some(NewObj(uid, 1, spec))];
    Extend(w, acts, name, bad, Remove(name));
    acts := acts + [Remove(name)];
    assert log + [None] == [None, Some(NewObj(uid, 1, spec)), None];
    Extend(w, acts, name, bad, Deliver(name, 2, false));
    acts := acts + [Deliver(name, 2, false)];
  }

  lemma Remade(w: World, name: string, uid: string, uid': string, spec: string) returns (acts: seq<Action>)
    requires uid != uid'
    ensures OrderlyBut(w, acts, name, Create(name, uid', spec, map[]))
    ensures Run(w, START, acts) ==
            Only(name, [None, Some(NewObj(uid, 1, spec)), None, Some(NewObj(uid', 3, spec))], 3,
                 map[uid := name, uid' := name], [Item(name, AddEvent)] + [Item(name, DeleteEvent)], Idle, map[])
  {
    hide OrderlyBut;
    hide Run;
    hide HandleStep;
    var bad := Create(name, uid', spec, map[]);
    acts := Unmade(w, name, uid, spec, bad);
    var log: seq<Option<Obj>> := [None, Some(NewObj(uid, 1, spec)), None];
    Extend(w, acts, name, bad, bad);
    acts := acts + [bad];
    assert log + [Some(NewObj(uid', 3, spec))]
        == [None, Some(NewObj(uid, 1, spec)), None, Some(NewObj(uid', 3, spec))];
    Extend(w, acts, name, bad, Deliver(name, 3, false));
    acts := acts + [Deliver(name, 3, false)];
  }

  /** The resource is deleted and made again before its first event is taken up. The
      new object's event merges with the old one's, and the deletion is handled
      last: it drops the new object's stores, and the resource shows as processed. */
  lemma {:induction false} RemakingForgets(w: World, name: string, uid: string, uid': string, spec: string)
    returns (acts: seq<Action>)
    requires AsksForStores(w, spec) && uid != uid'
    ensures OrderlyBut(w, acts, name, Create(name, uid', spec, map[])) && Forgotten(w, Run(w, START, acts), name)
    ensures ShowsProcessed(Current(Run(w, START, acts), name).value)
  {
    hide OrderlyBut;
    hide Run;
    hide Perform;
    var bad := Create(name, uid', spec, map[]);
    var add, delete := Item(name, AddEvent), Item(name, DeleteEvent);
    acts := Remade(w, name, uid, uid', spec);
    var o := NewObj(uid', 3, spec);
    var log: seq<Option<Obj>> := [None, Some(NewObj(uid, 1, spec)), None, Some(o)];
    var owner := map[uid := name, uid' := name];
    acts, log, o := Labelled(w, acts, name, bad, log, 3, owner, add, [delete], map[], o);
    acts, log, o := Announced(w, acts, name, bad, log, 3, owner, add, [delete], map[], o);
    var stores := StoresAfter(w, map[], AddEvent, o);
    acts, log, o := Finished(w, acts, name, bad, log, 3, owner, add, [delete], map[], o);
    assert [delete] + [] == [delete];
    acts, log, o := Labelled(w, acts, name, bad, log, 3, owner, delete, [], stores, o);
    acts, log, o := Announced(w, acts, name, bad, log, 3, owner, delete, [], stores, o);
    acts, log, o := Finished(w, acts, name, bad, log, 3, owner, delete, [], stores, o);
    SameSpecs(log, spec, 3, |log| - 1);
    assert uid' !in Run(w, START, acts).stores;
  }

  /** The worker takes the first event up, and then the specification is edited. */
  lemma EditedInTime(w: World, name: string, uid: string, spec: string, spec': string, bad: Action)
    returns (acts: seq<Action>, log: seq<Option<Obj>>, o: Obj)
    requires spec != spec'
    ensures OrderlyBut(w, acts, name, bad)
    ensures |log| == 4 && log[1] == Some(NewObj(uid, 1, spec)) && EndsWith(log, o) && o.uid == uid && o.spec == spec'
    ensures Run(w, START, acts) == Only(name, log, 1, map[uid := name], [], On(Item(name, AddEvent), FalseGet), map[])
  {
    hide OrderlyBut;
    hide Run;
    hide HandleStep;
    var item, owner := Item(name, AddEvent), map[uid := name];
    acts := Made(w, name, uid, spec, bad);
    log := [None, Some(NewObj(uid, 1, spec))];
    assert [item] + [] == [item];
    acts, log, o := Labelled(w, acts, name, bad, log, 1, owner, item, [], map[], NewObj(uid, 1, spec));
    acts, log, o := Edited(w, acts, name, bad, log, 1, owner, On(item, FalseGet), map[], o, spec');
  }

  /** The informer catches up with one notification. */
  lemma CaughtUp(
    w: World, acts: seq<Action>, name: string, bad: Action, log: seq<Option<Obj>>, seen: nat,
    owner: map<string, string>, stores: map<string, seq<Store.StoreConfig>>, from: Obj, o: Obj)
    returns (acts': seq<Action>)
    requires OrderlyBut(w, acts, name, bad) && seen < |log| - 1 && EndsWith(log, o)
    requires log[seen] == Some(from) && from.version == seen
    requires Run(w, START, acts) == Only(name, log, seen, owner, [], Idle, stores)
    requires var deliver := Deliver(name, |log| - 1, false);
             Orderly(Run(w, START, acts), deliver, name) || deliver == bad
    ensures OrderlyBut(w, acts', name, bad)
    ensures Run(w, START, acts') ==
            Only(name, log, |log| - 1, owner, if from.spec == o.spec then [] else [Item(name, UpdateEvent)], Idle, stores)
  {
    hide OrderlyBut;
    hide Orderly;
    hide Run;
    hide HandleStep;
    Extend(w, acts, name, bad, Deliver(name, |log| - 1, false));
    acts' := acts + [Deliver(name, |log| - 1, false)];
  }

  /** An edit is undone before the informer, which missed both, looks again. The
      worker, at work on an earlier event, has meanwhile built what the edit asked for. */
  lemma {:induction false} MergingForgets(w: World, name: string, uid: string, spec: string, spec': string)
    returns (acts: seq<Action>)
    requires AsksForStores(w, spec) && AsksForStores(w, spec') && w.parse(spec) != w.parse(spec')
    ensures OrderlyBut(w, acts, name, Deliver(name, 6, false)) && Forgotten(w, Run(w, START, acts), name)
    ensures ShowsProcessed(Current(Run(w, START, acts), name).value)
  {
    hide OrderlyBut;
    hide Run;
    hide Perform;
    var bad := Deliver(name, 6, false);
    var item, owner := Item(name, AddEvent), map[uid := name];
    var log: seq<Option<Obj>>, o: Obj;
    acts, log, o := EditedInTime(w, name, uid, spec, spec', bad);
    acts, log, o := Announced(w, acts, name, bad, log, 1, owner, item, [], map[], o);
    var stores := StoresAfter(w, map[], AddEvent, o);
    acts, log, o := Finished(w, acts, name, bad, log, 1, owner, item, [], map[], o);
    acts, log, o := Edited(w, acts, name, bad, log, 1, owner, Idle, stores, o, spec);
    acts := CaughtUp(w, acts, name, bad, log, 1, owner, stores, NewObj(uid, 1, spec), o);
    assert Entry(Run(w, START, acts), uid) == Some(w.parse(spec').stores);
  }

  /** The worker takes the first event up and builds the stores. */
  lemma BuiltFirst(w: World, name: string, uid: string, spec: string, bad: Action)
    returns (acts: seq<Action>, log: seq<Option<Obj>>, o: Obj)
    requires AsksForStores(w, spec)
    ensures OrderlyBut(w, acts, name, bad) && 1 < |log| && EndsWith(log, o) && o.uid == uid && o.spec == spec
    ensures Run(w, START, acts) ==
            Only(name, log, 1, map[uid := name], [], On(Item(name, AddEvent), TrueGet(o)), StoresAfter(w, map[], AddEvent, o))
  {
    hide OrderlyBut;
    hide Run;
    hide Perform;
    hide StoresAfter;
    var item, owner := Item(name, AddEvent), map[uid := name];
    acts := Made(w, name, uid, spec, bad);
    log := [None, Some(NewObj(uid, 1, spec))];
    assert [item] + [] == [item];
    acts, log, o := Labelled(w, acts, name, bad, log, 1, owner, item, [], map[], NewObj(uid, 1, spec));
    acts, log, o := Announced(w, acts, name, bad, log, 1, owner, item, [], map[], o);
    acts, log := Called(w, acts, name, bad, log, 1, owner, item, [], map[], Decide(o), Move(None, Some(TrueGet(o))));
  }

  /** The resource is deleted and made again while the worker finishes: the new
      object shows as processed though it has no stores yet. */
  lemma {:induction false} SuccessCrosses(w: World, name: string, uid: string, uid': string, spec: string)
    returns (acts: seq<Action>)
    requires AsksForStores(w, spec) && uid != uid'
    ensures OrderlyBut(w, acts, name, Create(name, uid', spec, map[]))
    ensures var s := Run(w, START, acts);
            && Current(s, name).Some? && Current(s, name).value.uid == uid' && Current(s, name).value.spec == spec
            && ShowsProcessed(Current(s, name).value) && Entry(s, uid').None?
  {
    hide OrderlyBut;
    hide Run;
    hide Perform;
    hide Noted;
    hide ShowsProcessed;
    var bad := Create(name, uid', spec, map[]);
    var item, owner := Item(name, AddEvent), map[uid := name];
    var log: seq<Option<Obj>>, o: Obj, o': Obj;
    acts, log, o := BuiltFirst(w, name, uid, spec, bad);
    var stores := StoresAfter(w, map[], AddEvent, o);
    acts, log, o' := Replaced(w, acts, name, bad, log, owner, item, o, stores);
    owner := owner[uid' := name];
    acts, log := Called(w, acts, name, bad, log, 1, owner, item, [], stores, TrueGet(o), Move(None, Some(TruePut(o, o'))));
    acts, log := Called(w, acts, name, bad, log, 1, owner, item, [], stores, TruePut(o, o'),
                        Move(Some(Succeeded(o', AddEvent)), None));
    ReportsKeep(w, o', AddEvent);
  }

  lemma Replaced(
    w: World, acts: seq<Action>, name: string, bad: Action, log: seq<Option<Obj>>,
    owner: map<string, string>, item: Item, o: Obj, stores: map<string, seq<Store.StoreConfig>>)
    returns (acts': seq<Action>, log': seq<Option<Obj>>, o': Obj)
    requires OrderlyBut(w, acts, name, bad) && 1 < |log| && EndsWith(log, o)
    requires bad.Create? && bad.name == name && bad.uid !in owner
    requires Run(w, START, acts) == Only(name, log, 1, owner, [], On(item, TrueGet(o)), stores)
    ensures OrderlyBut(w, acts', name, bad) && EndsWith(log', o') && o'.uid == bad.uid && o'.spec == bad.spec
    ensures |log'| > 1
    ensures Run(w, START, acts') == Only(name, log', 1, owner[bad.uid := name], [], On(item, TrueGet(o)), stores)
  {
    hide OrderlyBut;
    hide Run;
    hide HandleStep;
    Extend(w, acts, name, bad, Remove(name));
    acts' := acts + [Remove(name)];
    log' := log + [None];
    assert Run(w, START, acts') == Only(name, log', 1, owner, [], On(item, TrueGet(o)), stores);
    Extend(w, acts', name, bad, bad);
    acts' := acts' + [bad];
    o' := Obj(bad.uid, |log'|, 1, bad.spec, bad.labels, []);
    log' := log' + [Some(o')];
  }

  // ---- An empty specification ----

  /** In an orderly run a resource is installed and its specification then emptied.
      When nothing is left to do, the refusal is reported and the stores are still
      those of the specification before. */
  lemma {:induction false} EmptyingKeepsStores(w: World, name: string, uid: string, spec: string)
    returns (acts: seq<Action>)
    requires AsksForStores(w, spec)
    ensures OrderlyRun(w, START, acts, name)
    ensures var s := Run(w, START, acts);
            && Current(s, name).Some? && Current(s, name).value.spec == "" && Current(s, name).value.uid == uid
            && Due(s, name) == 0 && !WorkingOn(s, name)
            && Converged(w, s, Current(s, name).value) && Entry(s, uid) == Some(w.parse(spec).stores)
  {
    hide OrderlyBut;
    hide Orderly;
    hide Run;
    hide Perform;
    hide Converged;
    var item, owner := Item(name, UpdateEvent), map[uid := name];
    var log: seq<Option<Obj>>, o: Obj;
    acts, log, o := InstalledFirst(w, name, uid, spec, Take);
    var stores := StoresAfter(w, map[], AddEvent, o);
    acts, log, o := Emptied(w, acts, name, log, owner, stores, o);
    assert [item] + [] == [item];
    var seen := |log| - 1;
    acts, log, o := Labelled(w, acts, name, Take, log, seen, owner, item, [], stores, o);
    acts, log, o := Announced(w, acts, name, Take, log, seen, owner, item, [], stores, o);
    acts, log, o := TurnedDown(w, acts, name, log, seen, owner, item, stores, o);
    SameSpecs(log, "", seen, |log| - 1);
    NothingBad(w, acts, name);
    OrderlyRunsConverge(w, acts, name);
  }

  /** The specification is emptied, and the informer tells of it. */
  lemma Emptied(w: World, acts: seq<Action>, name: string, log: seq<Option<Obj>>, owner: map<string, string>,
                stores: map<string, seq<Store.StoreConfig>>, o: Obj)
    returns (acts': seq<Action>, log': seq<Option<Obj>>, o': Obj)
    requires OrderlyBut(w, acts, name, Take) && 1 < |log| && EndsWith(log, o) && o.spec != ""
    requires log[1].Some? && log[1].value.spec == o.spec && log[1].value.version == 1
    requires Run(w, START, acts) == Only(name, log, 1, owner, [], Idle, stores)
    ensures OrderlyBut(w, acts', name, Take) && |log'| > 1 && EndsWith(log', o') && o'.uid == o.uid && o'.spec == ""
    ensures Run(w, START, acts') == Only(name, log', |log'| - 1, owner, [Item(name, UpdateEvent)], Idle, stores)
  {
    hide OrderlyBut;
    hide Orderly;
    hide Run;
    hide Perform;
    acts', log', o' := Edited(w, acts, name, Take, log, 1, owner, Idle, stores, o, "");
    ToldIsOrderly(Run(w, START, acts'), name, |log'| - 1);
    acts' := CaughtUp(w, acts', name, Take, log', 1, owner, stores, log[1].value, o');
  }

  /** A notification that is queued hides nothing. */
  lemma ToldIsOrderly(s: State, name: string, upto: nat)
    requires var t := TrackOf(s, name); t.seen < upto < |t.log| && EventFor(t.log[t.seen], t.log[upto], false).Some?
    ensures Orderly(s, Deliver(name, upto, false), name)
  {
    hide Enqueue;
    hide Due;
    var t := TrackOf(s, name);
    var s1 := s.(tracks := s.tracks[name := TrackData(t.log, upto)]);
    var item := Item(name, EventFor(t.log[t.seen], t.log[upto], false).value);
    EnqueueAdds(s1, item, name);
    assert DeliverStep(s, name, upto, false) == Enqueue(s1, item);
  }

  /** The worker refuses an empty specification. */
  lemma TurnedDown(w: World, acts: seq<Action>, name: string, log: seq<Option<Obj>>, seen: nat, owner: map<string, string>,
                   item: Item, stores: map<string, seq<Store.StoreConfig>>, o: Obj)
    returns (acts': seq<Action>, log': seq<Option<Obj>>, o': Obj)
    requires OrderlyBut(w, acts, name, Take) && seen < |log| && EndsWith(log, o) && item.name == name && o.spec == ""
    requires Run(w, START, acts) == Only(name, log, seen, owner, [], On(item, Decide(o)), stores)
    ensures OrderlyBut(w, acts', name, Take) && Grown(log, o, log', o')
    ensures Run(w, START, acts') == Only(name, log', seen, owner, [], Idle, stores)
  {
    hide OrderlyBut;
    hide Run;
    hide Noted;
    var why := "Configuration YAML is empty";
    acts', log' := Called(w, acts, name, Take, log, seen, owner, item, [], stores, Decide(o), Move(None, Some(FailGet(why))));
    acts', log' := Called(w, acts', name, Take, log', seen, owner, item, [], stores, FailGet(why),
                          Move(None, Some(FailPut(why, o))));
    acts', log' := Called(w, acts', name, Take, log', seen, owner, item, [], stores, FailPut(why, o),
                          Move(Some(Failed(o, why)), None));
    o' := Failed(o, why).(version := |log|);
    ReportsShow(o, item.event, why);
  }

  lemma NothingBad(w: World, acts: seq<Action>, name: string)
    requires OrderlyBut(w, acts, name, Take)
    ensures OrderlyRun(w, START, acts, name)
  {
    hide Run;
    forall i | 0 <= i < |acts| ensures Orderly(Run(w, START, acts[..i]), acts[i], name) {
      WorkIsOrderly(Run(w, START, acts[..i]), name);
    }
  }

  lemma InstalledFirst(w: World, name: string, uid: string, spec: string, bad: Action)
    returns (acts: seq<Action>, log: seq<Option<Obj>>, o: Obj)
    requires AsksForStores(w, spec)
    ensures OrderlyBut(w, acts, name, bad) && 1 < |log| && EndsWith(log, o) && o.uid == uid && o.spec == spec
    ensures log[1].Some? && log[1].value.spec == spec && log[1].value.version == 1
    ensures forall i :: 1 <= i < |log| ==> log[i].Some? && log[i].value.spec == spec
    ensures Run(w, START, acts) == Only(name, log, 1, map[uid := name], [], Idle, StoresAfter(w, map[], AddEvent, o))
  {
    hide OrderlyBut;
    hide Orderly;
    hide Run;
    hide Perform;
    var item, owner := Item(name, AddEvent), map[uid := name];
    acts := Made(w, name, uid, spec, bad);
    log := [None, Some(NewObj(uid, 1, spec))];
    assert [item] + [] == [item];
    acts, log, o := Labelled(w, acts, name, bad, log, 1, owner, item, [], map[], NewObj(uid, 1, spec));
    acts, log, o := Announced(w, acts, name, bad, log, 1, owner, item, [], map[], o);
    acts, log, o := Finished(w, acts, name, bad, log, 1, owner, item, [], map[], o);
  }
}
