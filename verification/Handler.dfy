/** The code of `internal/controller.go`, `internal/events.go` and
    `internal/config.go`, proved to take only steps of the machine in `Reconcile`.
    What others do between two API calls, and which calls fail, is given from
    outside. */
module Handler {
  import opened Text
  import opened Conditions
  import opened Configuring
  import opened Reconcile
  import opened Installing
  import Store

  /** The API server: one log of versions a name. */
  class ApiServer {
    var tracks: map<string, Track>
    var owner: map<string, string>

    constructor ()
      ensures tracks == map[] && owner == map[]
    {
      tracks, owner := map[], map[];
    }

    function TrackAt(name: string): Track
      reads this
    {
      if name in tracks then tracks[name] else BLANK
    }

    function Find(name: string): Option<Obj>
      reads this
    {
      var log := TrackAt(name).log;
      log[|log| - 1]
    }

    method Write(name: string, o: Option<Obj>)
      modifies this`tracks
      ensures tracks == old(tracks)[name := TrackData(old(TrackAt(name)).log + [o], old(TrackAt(name)).seen)]
    {
      var t := TrackAt(name);
      tracks := tracks[name := TrackData(t.log + [o], t.seen)];
    }

    /** Stores the object as its next version. */
    method Save(name: string, o: Obj) returns (saved: Obj)
      modifies this`tracks
      ensures saved == o.(version := |old(TrackAt(name)).log|)
      ensures tracks == old(tracks)[name := TrackData(old(TrackAt(name)).log + [Some(saved)], old(TrackAt(name)).seen)]
    {
      saved := o.(version := |TrackAt(name).log|);
      Write(name, Some(saved));
    }
  }

  /** The map holds one store for each configured store, in order. */
  ghost predicate Made(stores: map<string, seq<Store.StoreType>>, configs: map<string, seq<Store.StoreConfig>>) {
    stores.Keys == configs.Keys && forall uid :: uid in stores ==> MadeEach(stores[uid], configs[uid])
  }

  ghost predicate MadeEach(stores: seq<Store.StoreType>, configs: seq<Store.StoreConfig>) {
    |stores| == |configs| && forall i :: 0 <= i < |stores| ==> MadeFor(stores[i], configs[i])
  }

  /** What users and the informer do among `acts`. */
  function Outside(acts: seq<Action>): seq<Action> {
    if acts == [] then []
    else
      var a := acts[|acts| - 1];
      Outside(acts[..|acts| - 1]) + if a.Take? || a.Handle? then [] else [a]
  }

  function Deciding(worker: Worker): seq<Action> {
    if worker.On? && worker.stage.Decide? then [Handle(Answered)] else []
  }

  /** What each of the two status writes reports. */
  predicate Reports(item: Item, stage: Stage, status: string, message: string) {
    if stage.FalseGet? then status == STATUS_FALSE && message == "Event handler received event: " + EventText(item.event)
    else stage.TrueGet? && status == STATUS_TRUE
         && message == "Event handler successfully processed event: " + EventText(item.event)
  }

  function Putting(stage: Stage, got: Obj): Stage {
    if stage.TrueGet? then TruePut(stage.resource, got) else FalsePut(got)
  }

  lemma ReportStage(item: Item, stage: Stage, status: string, message: string)
    requires Reports(item, stage, status, message)
    ensures stage.FalseGet? == (status == STATUS_FALSE) && (stage.FalseGet? || stage.TrueGet?)
  {
    assert STATUS_TRUE[0] != STATUS_FALSE[0];
  }

  lemma ReportMoves(w: World, s: State, item: Item, stage: Stage, status: string, message: string, fate: Fate)
    requires Reports(item, stage, status, message)
    ensures var current := Current(s, item.name);
            Next(w, s, item, stage, fate) ==
            if fate.Answered? && current.Some? then Move(None, Some(Putting(stage, current.value))) else GIVE_UP
  {
  }

  lemma PutMoves(w: World, s: State, item: Item, stage: Stage, status: string, message: string, fate: Fate, got: Obj)
    requires Reports(item, stage, status, message)
    ensures var o := Noted(got, PROCESSED, status, message);
            Next(w, s, item, Putting(stage, got), fate) ==
            if !Accepts(s, item.name, got, fate) then GIVE_UP
            else Move(Some(o), if stage.FalseGet? then IfAnswered(fate, Decide(Versioned(s, item.name, o))) else None)
  {
    hide Noted;
  }

  lemma MetaGets(w: World, s: State, item: Item, fate: Fate)
    ensures var current := Current(s, item.name);
            Next(w, s, item, MetaGet, fate) ==
            if fate.Answered? && current.Some? then Move(None, Some(MetaPut(current.value))) else GIVE_UP
  {
  }

  /** The write of the labels, served in a reachable state. */
  lemma MetaPuts(w: World, acts: seq<Action>, s: State, item: Item, got: Obj, o: Obj, fate: Fate)
    requires s == Run(w, START, acts) && s.worker == On(item, MetaPut(got)) && o == Stamp(w, got)
    ensures Next(w, s, item, MetaPut(got), fate) ==
            if Accepts(s, item.name, o, fate) then Move(Some(o), IfAnswered(fate, FalseGet)) else GIVE_UP
    ensures Accepts(s, item.name, o, fate) ==>
              var log := TrackOf(Reconcile.Save(s, item.name, o), item.name).log;
              && |log| > 1 && log[|log| - 2].Some? && log[|log| - 1].Some?
              && CarriesLabels(w, log[|log| - 2].value, log[|log| - 1].value)
  {
    hide Run;
    hide CarriesLabels;
    hide Stamp;
    StartIsHonest(w);
    RunKeepsConsistent(w, START, acts);
    ConsistentHere(s);
    if Accepts(s, item.name, o, fate) {
      SavedAfter(s, item.name, got, o, fate);
      StampLabels(w, got);
      VersionDoesNotMatter(w, got, |TrackOf(s, item.name).log|);
    }
  }

  lemma FailGets(w: World, s: State, item: Item, why: string, fate: Fate)
    ensures var current := Current(s, item.name);
            Next(w, s, item, FailGet(why), fate) ==
            if fate.Answered? && current.Some? then Move(None, Some(FailPut(why, current.value))) else GIVE_UP
  {
  }

  lemma FailPuts(w: World, s: State, item: Item, why: string, got: Obj, fate: Fate)
    ensures Next(w, s, item, FailPut(why, got), fate) ==
            if Accepts(s, item.name, got, fate) then Move(Some(Noted(got, FAILED, STATUS_TRUE, why)), None) else GIVE_UP
  {
    hide Noted;
  }

  class Controller {
    const w: World
    const api: ApiServer
    /** What users and the informer do before the worker's n-th call, and whether
        that call gets through. */
    const others: nat -> seq<Action>
    const fates: nat -> Fate
    var clock: nat
    /** The work queue: `again` is the processed item's dirty bit. */
    var queue: seq<Item>
    var again: bool
    var processing: Option<Item>
    var stores: map<string, seq<Store.StoreType>>
    /** What `stores` was made from. */
    ghost var configs: map<string, seq<Store.StoreConfig>>
    ghost var worker: Worker
    ghost var trace: seq<Action>

    constructor (w: World, others: nat -> seq<Action>, fates: nat -> Fate)
      ensures this.w == w && this.others == others && this.fates == fates
      ensures fresh(api) && OnScript() && worker.Idle?
    {
      this.w, this.others, this.fates := w, others, fates;
      api := new ApiServer();
      clock := 0;
      queue, again, processing, stores := [], false, None, map[];
      configs, worker, trace := map[], Idle, [];
    }

    ghost function View(): State
      reads this, api
    {
      State(api.tracks, api.owner, queue, again, worker, configs)
    }

    ghost predicate Synced()
      reads this
    {
      processing == (if worker.On? then Some(worker.item) else None) && Made(stores, configs)
    }

    /** The run of the machine in which the worker takes its steps as fast as the
        outside lets it: before its n-th call the others do `others(n)`, and the call
        gets through if `fates(n)`. Deciding takes no call. */
    ghost function Script(n: nat): seq<Action> {
      if n == 0 then []
      else
        var worker := Run(w, START, Script(n - 1)).worker;
        var called := Script(n - 1) + Outside(others(n - 1)) + [if worker.Idle? then Take else Handle(fates(n - 1))];
        called + Deciding(Run(w, START, called).worker)
    }

    ghost predicate Follows()
      reads this, api
    {
      Synced() && View() == Run(w, START, trace)
    }

    /** What has happened so far is the script. */
    ghost predicate OnScript()
      reads this, api
    {
      Follows() && trace + Deciding(worker) == Script(clock)
    }

    /** The same, but for the item's still being processed. */
    ghost predicate Returned(item: Item)
      reads this, api
    {
      && processing == Some(item) && Made(stores, configs)
      && Run(w, START, trace) == Return(View(), item) && trace == Script(clock)
    }

    /** The others have acted, and the worker's call is next. */
    ghost predicate Midway()
      reads this
    {
      && clock > 0 && trace == Script(clock - 1) + Outside(others(clock - 1))
      && Run(w, START, Script(clock - 1)).worker == worker
    }

    // ---- The informer's event handlers ----

    /** `workqueue.Add`. */
    method Add(item: Item)
      requires Synced()
      modifies this`queue, this`again
      ensures View() == Enqueue(old(View()), item)
    {
      if item in queue {
      } else if processing == Some(item) {
        again := true;
      } else {
        queue := queue + [item];
      }
    }

    method EnqueueCRDMetrics(name: string, event: Event)
      requires Synced()
      modifies this`queue, this`again
      ensures View() == Enqueue(old(View()), Item(name, event))
      ensures Item(name, event) in old(queue) || processing == Some(Item(name, event)) ==> queue == old(queue)
      ensures Item(name, event) !in old(queue) && processing != Some(Item(name, event)) ==>
                queue == old(queue) + [Item(name, event)]
      ensures again == (old(again) || (Item(name, event) !in old(queue) && processing == Some(Item(name, event))))
    {
      Add(Item(name, event));
    }

    /** `UpdateFunc`: only changes of the specification are queued. */
    method OnUpdate(name: string, before: Obj, after: Obj)
      requires Synced()
      modifies this`queue, this`again
      ensures View() == if before.version != after.version && before.spec != after.spec
                        then Enqueue(old(View()), Item(name, UpdateEvent)) else old(View())
    {
      if before.version == after.version || before.spec == after.spec {
        return;
      }
      EnqueueCRDMetrics(name, UpdateEvent);
    }

    method OnDelete(name: string, tombstone: bool)
      requires Synced()
      modifies this`queue, this`again
      ensures View() == if tombstone then old(View()) else Enqueue(old(View()), Item(name, DeleteEvent))
    {
      if !tombstone {
        EnqueueCRDMetrics(name, DeleteEvent);
      }
    }

    method Deliver(name: string, upto: nat, tombstone: bool)
      requires Synced()
      modifies this`queue, this`again, api`tracks
      ensures View() == DeliverStep(old(View()), name, upto, tombstone)
    {
      var t := api.TrackAt(name);
      if !(t.seen < upto < |t.log|) {
        return;
      }
      var before, after := t.log[t.seen], t.log[upto];
      api.tracks := api.tracks[name := TrackData(t.log, upto)];
      match (before, after) {
        case (None, None) =>
        case (None, Some(_)) => EnqueueCRDMetrics(name, AddEvent);
        case (Some(_), None) => OnDelete(name, tombstone);
        case (Some(x), Some(y)) => OnUpdate(name, x, y);
      }
    }

    // ---- Users ----

    method UserActs(a: Action)
      requires a.Create? || a.Edit? || a.EditStatus? || a.Remove?
      modifies api
      ensures View() == UserStep(old(View()), a)
    {
      var current := api.Find(a.name);
      match a
      case Create(name, uid, spec, labels) =>
        if current.None? && uid !in api.owner {
          var _ := api.Save(name, Obj(uid, 0, 1, spec, labels, []));
          api.owner := api.owner[uid := name];
        }
      case Edit(name, spec, labels) =>
        if current.Some? {
          var o := current.value;
          var _ := api.Save(name, o.(generation := if spec == o.spec then o.generation else o.generation + 1,
                                     spec := spec, labels := labels));
        }
      case EditStatus(name, conditions) =>
        if current.Some? {
          var _ := api.Save(name, current.value.(conditions := conditions));
        }
      case Remove(name) =>
        if current.Some? {
          api.Write(name, None);
        }
    }

    method Serve(a: Action)
      requires Follows() && !a.Take? && !a.Handle?
      modifies this`queue, this`again, this`trace, api
      ensures Follows() && trace == old(trace) + [a]
    {
      hide Run;
      hide Perform;
      hide UserStep;
      hide DeliverStep;
      OthersStep(w, View(), a);
      RunOne(w, START, trace, a);
      if a.Deliver? {
        Deliver(a.name, a.upto, a.tombstone);
      } else {
        UserActs(a);
      }
      trace := trace + [a];
    }

    /** All that others do before the next call. */
    method Others()
      requires OnScript() && Deciding(worker) == []
      modifies this`queue, this`again, this`clock, this`trace, api
      ensures Follows() && Midway() && clock == old(clock) + 1
    {
      hide Run;
      hide Script;
      var acts := others(clock);
      clock := clock + 1;
      ghost var start := trace;
      var i := 0;
      while i < |acts|
        invariant 0 <= i <= |acts| && clock == old(clock) + 1
        invariant Follows() && trace == start + Outside(acts[..i])
      {
        assert acts[..i + 1][..i] == acts[..i];
        if !acts[i].Take? && !acts[i].Handle? {
          Serve(acts[i]);
        }
        i := i + 1;
      }
      assert acts[..i] == acts && start + [] == start;
    }

    // ---- Calls to the API server ----

    method Get(name: string) returns (got: Option<Obj>)
      requires OnScript() && Deciding(worker) == []
      modifies this`queue, this`again, this`clock, this`trace, api
      ensures Follows() && Midway() && clock == old(clock) + 1
      ensures got == if fates(clock - 1).Answered? then Current(View(), name) else None
    {
      hide Run;
      hide Script;
      var fate := fates(clock);
      Others();
      got := if fate.Answered? then api.Find(name) else None;
    }

    /** `before` is the state in which the call is served. An accepted write whose
        answer is lost looks to the caller like one that failed. */
    method Put(name: string, o: Obj) returns (saved: Option<Obj>, ghost before: State)
      requires OnScript() && Deciding(worker) == []
      modifies this`queue, this`again, this`clock, this`trace, api
      ensures Synced() && before == Run(w, START, trace) && Midway() && clock == old(clock) + 1
      ensures before.worker == worker && before.stores == configs
      ensures var accepted := Accepts(before, name, o, fates(clock - 1));
              && saved == (if accepted && fates(clock - 1).Answered? then Some(Versioned(before, name, o)) else None)
              && View() == if accepted then Reconcile.Save(before, name, o) else before
    {
      hide Run;
      hide Script;
      var fate := fates(clock);
      Others();
      before := View();
      saved := None;
      var current := api.Find(name);
      if !fate.Lost? && current.Some? && current.value.version == o.version {
        var written := api.Save(name, o);
        saved := if fate.Answered? then Some(written) else None;
      }
    }

    /** `Status.Set` on a copy of the object. */
    method SetCondition(o: Obj, kind: string, status: string, message: string) returns (o': Obj)
      requires Known(kind)
      ensures o' == Noted(o, kind, status, message) && o' == o.(conditions := o'.conditions)
    {
      var st := new CRDMetricsResourceStatus(o.conditions);
      st.Set(o.generation, Conditions.Report(kind, status, message));
      o' := o.(conditions := st.conditions);
    }

    /** The same for the labels. */
    method SetLabels(o: Obj) returns (o': Obj)
      ensures o' == Stamp(w, o) && CarriesLabels(w, o, o')
    {
      var labels := o.labels["app.kubernetes.io/managed-by" := w.managedBy];
      if w.revision.Some? {
        labels := labels["app.kubernetes.io/version" := w.revision.value];
      }
      o' := o.(labels := labels);
      StampLabels(w, o);
    }

    // ---- Keeping account of the calls ----

    /** After a call that wrote nothing and ended the handling. */
    ghost method GiveUp(item: Item)
      requires Follows() && Midway() && worker.On? && worker.item == item
      requires !worker.stage.Sync? && !worker.stage.Decide?
      requires Next(w, View(), item, worker.stage, fates(clock - 1)) == GIVE_UP
      modifies this`trace, this`worker
      ensures Returned(item)
    {
      Account(item, View());
    }

    /** After a call that wrote nothing and led on. */
    ghost method GoOn(item: Item, next: Stage)
      requires Follows() && Midway() && worker.On? && worker.item == item
      requires !worker.stage.Decide? && Next(w, View(), item, worker.stage, fates(clock - 1)) == Move(None, Some(next))
      modifies this`trace, this`worker
      ensures OnScript() && worker == On(item, next)
    {
      Account(item, View());
    }

    lemma ScriptAfterCall(called: seq<Action>)
      requires Midway() && worker.On? && called == trace + [Handle(fates(clock - 1))]
      ensures Script(clock) == called + Deciding(Run(w, START, called).worker)
    {
      hide Run;
    }

    /** After a call served in `before`. */
    ghost method Account(item: Item, before: State)
      requires Synced() && Midway() && worker.On? && worker.item == item && before.worker == worker
      requires !worker.stage.Decide? && (worker.stage.Sync? ==> fates(clock - 1).Answered?)
      requires before == Run(w, START, trace)
      requires View() == Written(before, item.name, Next(w, before, item, worker.stage, fates(clock - 1)).write)
      modifies this`trace, this`worker
      ensures var m := Next(w, before, item, old(worker).stage, fates(clock - 1));
              if m.next.Some? then OnScript() && worker == On(item, m.next.value) else Returned(item)
    {
      hide TrackOf;
      hide Made;
      hide Next;
      hide Written;
      hide Run;
      hide Perform;
      hide Script;
      var fate := fates(clock - 1);
      ScriptAfterCall(trace + [Handle(fate)]);
      var m := Next(w, before, item, worker.stage, fate);
      SyncMoves(w, before, item, fate);
      Moved(w, before, item, worker.stage, fate, m);
      RunOne(w, START, trace, Handle(fate));
      trace := trace + [Handle(fate)];
      if m.next.Some? {
        worker := On(item, m.next.value);
      }
    }

    /** After the decision that was due in `before`. */
    ghost method Settle(item: Item, resource: Obj, before: State)
      requires Synced() && worker == On(item, Decide(resource)) && trace + Deciding(worker) == Script(clock)
      requires before == Run(w, START, trace) && before.worker == worker
      requires View() == before.(stores := StoresAfter(w, before.stores, item.event, resource))
      modifies this`trace, this`worker
      ensures OnScript() && worker == On(item, NextAfter(w, item.event, resource))
    {
      hide Run;
      hide Script;
      hide Perform;
      hide StoresAfter;
      Settled(w, before, item, resource);
      RunOne(w, START, trace, Handle(Answered));
      trace := trace + [Handle(Answered)];
      worker := On(item, NextAfter(w, item.event, resource));
    }

    // ---- The handler ----

    /** The poll makes one attempt: an error ends it. If it succeeds, the object last
        written is the one read with the program's labels on it. */
    method UpdateMetadata(item: Item) returns (err: bool)
      requires OnScript() && worker == On(item, MetaGet)
      modifies this`queue, this`again, this`clock, this`trace, this`worker, api
      ensures if err then Returned(item) else OnScript() && worker == On(item, FalseGet)
      ensures !err ==> LabelsSaved(item.name)
      ensures clock > old(clock)
    {
      hide Run;
      hide Script;
      hide Next;
      hide LabelsSaved;
      var got := Get(item.name);
      MetaGets(w, View(), item, fates(clock - 1));
      if got.None? {
        GiveUp(item);
        return true;
      }
      GoOn(item, MetaPut(got.value));
      err := SaveLabels(item, got.value);
    }

    ghost predicate LabelsSaved(name: string)
      reads api
    {
      var log := api.TrackAt(name).log;
      && |log| > 1 && log[|log| - 2].Some? && log[|log| - 1].Some?
      && CarriesLabels(w, log[|log| - 2].value, log[|log| - 1].value)
    }

    method SaveLabels(item: Item, got: Obj) returns (err: bool)
      requires OnScript() && worker == On(item, MetaPut(got))
      modifies this`queue, this`again, this`clock, this`trace, this`worker, api
      ensures if err then Returned(item) else OnScript() && worker == On(item, FalseGet)
      ensures !err ==> LabelsSaved(item.name)
      ensures clock > old(clock)
    {
      hide Run;
      hide Script;
      hide Next;
      hide Stamp;
      hide CarriesLabels;
      hide Accepts;
      var o := SetLabels(got);
      var saved;
      ghost var before;
      saved, before := Put(item.name, o);
      MetaPuts(w, trace, before, item, got, o, fates(clock - 1));
      Account(item, before);
      err := saved.None?;
    }

    /** Reads the resource whose status is to be written. */
    method Fetch(item: Item, status: string, message: string) returns (got: Option<Obj>)
      requires OnScript() && worker.On? && worker.item == item && Reports(item, worker.stage, status, message)
      modifies this`queue, this`again, this`clock, this`trace, this`worker, api
      ensures match got
              case None => Returned(item)
              case Some(o) => OnScript() && worker == On(item, Putting(old(worker).stage, o))
      ensures clock > old(clock)
    {
      hide Run;
      hide Script;
      hide Next;
      hide Reports;
      ghost var stage := worker.stage;
      ReportStage(item, stage, status, message);
      got := Get(item.name);
      ReportMoves(w, View(), item, stage, status, message, fates(clock - 1));
      if got.None? {
        GiveUp(item);
      } else {
        GoOn(item, Putting(stage, got.value));
      }
    }

    /** `emitSuccessOnResource`. The first call returns the resource for the rest of
        the handling to go by; the second ends the handling in any case. */
    method EmitSuccess(item: Item, status: string, message: string) returns (resource: Option<Obj>)
      requires OnScript() && worker.On? && worker.item == item && Reports(item, worker.stage, status, message)
      modifies this`queue, this`again, this`clock, this`trace, this`worker, api
      ensures match resource
              case None => Returned(item)
              case Some(o) => if status == STATUS_FALSE then OnScript() && worker == On(item, Decide(o)) else Returned(item)
      ensures clock > old(clock)
    {
      hide Run;
      hide Script;
      hide Noted;
      hide Next;
      hide Reports;
      ghost var stage := worker.stage;
      ReportStage(item, stage, status, message);
      var got := Fetch(item, status, message);
      if got.None? {
        return None;
      }
      var o := SetCondition(got.value, PROCESSED, status, message);
      ghost var before;
      resource, before := Put(item.name, o);
      PutMoves(w, before, item, stage, status, message, fates(clock - 1), got.value);
      Account(item, before);
    }

    method EmitFailure(item: Item, why: string)
      requires OnScript() && worker == On(item, FailGet(why))
      modifies this`queue, this`again, this`clock, this`trace, this`worker, api
      ensures Returned(item) && clock > old(clock)
    {
      hide Run;
      hide Script;
      hide Noted;
      hide Next;
      var got := Get(item.name);
      FailGets(w, View(), item, why, fates(clock - 1));
      if got.None? {
        GiveUp(item);
        return;
      }
      GoOn(item, FailPut(why, got.value));
      SaveFailure(item, why, got.value);
    }

    method SaveFailure(item: Item, why: string, got: Obj)
      requires OnScript() && worker == On(item, FailPut(why, got))
      modifies this`queue, this`again, this`clock, this`trace, this`worker, api
      ensures Returned(item) && clock > old(clock)
    {
      hide Run;
      hide Script;
      hide Noted;
      hide Next;
      var o := SetCondition(got, FAILED, STATUS_TRUE, why);
      var saved;
      ghost var before;
      saved, before := Put(item.name, o);
      FailPuts(w, before, item, why, got, fates(clock - 1));
      Account(item, before);
    }

    method DropStores(uid: string)
      modifies this`stores, this`configs
      ensures stores == old(stores) - {uid} && configs == old(configs) - {uid}
    {
      if uid in stores {
        stores := stores - {uid};
      }
      configs := configs - {uid};
    }

    /** What `handleEvent` does between its status writes. `why` is what is to be
        reported as a failure, if anything. Stores that are kept are the same
        objects; those put under the resource's UID have just been made. */
    method Rebuild(event: Event, resource: Obj) returns (why: Option<string>)
      requires Made(stores, configs)
      modifies this`stores, this`configs
      ensures Made(stores, configs) && configs == StoresAfter(w, old(configs), event, resource)
      ensures NextAfter(w, event, resource) == match why { case Some(y) => FailGet(y) case None => TrueGet(resource) }
      ensures forall uid :: uid in stores && uid != resource.uid ==> uid in old(stores) && stores[uid] == old(stores)[uid]
      ensures why.None? && resource.uid in stores ==>
                forall i :: 0 <= i < |stores[resource.uid]| ==>
                  fresh(stores[resource.uid][i]) && JustMade(stores[resource.uid][i], configs[resource.uid][i])
    {
      hide JustMade;
      hide MadeFor;
      if resource.spec == "" {
        return Some("Configuration YAML is empty");
      }
      if event.Unknown? {
        return Some("Unknown event type: " + event.text);
      }
      DropStores(resource.uid);
      if !event.DeleteEvent? {
        var configurer := new Configurer(resource);
        var err := configurer.Parse(w, resource.spec);
        if err.Some? {
          return Some("Failed to parse configuration YAML: " + err.value);
        }
        Install(configurer);
      }
      why := None;
    }

    /** The resource has no stores when they are built. */
    method Install(configurer: Configurer)
      requires Made(stores, configs) && configurer.resource.uid !in stores
      requires Decodes(configurer.configuration, configurer.configs)
      modifies this`stores, this`configs, FamiliesOf(configurer.configuration)
      ensures Made(stores, configs)
      ensures configs == if configurer.configs == [] then old(configs)
                         else old(configs)[configurer.resource.uid := configurer.configs]
      ensures forall uid :: uid in old(stores) ==> uid in stores && stores[uid] == old(stores)[uid]
      ensures configurer.resource.uid in stores ==>
                forall i :: 0 <= i < |stores[configurer.resource.uid]| ==>
                  && fresh(stores[configurer.resource.uid][i])
                  && JustMade(stores[configurer.resource.uid][i], configs[configurer.resource.uid][i])
    {
      hide MadeFor;
      hide Store.InitialState;
      var uid := configurer.resource.uid;
      var stores', built := configurer.Build(stores);
      MadeAfter(stores, configs, uid, built, configurer.configs);
      label made:
      hide Made;
      stores := stores';
      if built != [] {
        assert [] + built == built;
        configs := configs[uid := configurer.configs];
      }
      forall i | 0 <= i < |built| ensures JustMade(built[i], configurer.configs[i]) {
        built[i].Untouched@made();
      }
    }

    method HandleEvent(item: Item)
      requires OnScript() && worker == On(item, MetaGet)
      modifies this, api
      ensures Returned(item) && clock > old(clock)
    {
      hide Run;
      hide Script;
      var err := UpdateMetadata(item);
      if err {
        return;
      }
      var resource := EmitSuccess(item, STATUS_FALSE, "Event handler received event: " + EventText(item.event));
      if resource.None? {
        return;
      }
      ghost var before := View();
      var why := Rebuild(item.event, resource.value);
      Settle(item, resource.value, before);
      Conclude(item, resource.value, why);
    }

    method Conclude(item: Item, resource: Obj, why: Option<string>)
      requires OnScript()
      requires worker == On(item, match why { case Some(y) => FailGet(y) case None => TrueGet(resource) })
      modifies this`queue, this`again, this`clock, this`trace, this`worker, api
      ensures Returned(item) && clock > old(clock)
    {
      hide OnScript;
      hide Returned;
      if why.Some? {
        EmitFailure(item, why.value);
      } else {
        var _ := EmitSuccess(item, STATUS_TRUE,
                             "Event handler successfully processed event: " + EventText(item.event));
      }
    }

    // ---- The worker ----

    /** Fails only if the lister fails for another reason than not finding the
        object. Whether it finds it makes no difference: only the name is used. */
    method SyncHandler(item: Item) returns (err: bool)
      requires OnScript() && worker == On(item, Sync)
      modifies this, api
      ensures if err then Follows() && Midway() && !fates(clock - 1).Answered? && worker == On(item, Sync) else Returned(item)
      ensures clock > old(clock)
    {
      hide Run;
      hide Script;
      var fate := fates(clock);
      Others();
      if !fate.Answered? {
        return true;
      }
      GoOn(item, MetaGet);
      HandleEvent(item);
      err := false;
    }

    lemma ScriptAfterTake()
      requires clock > 0 && Run(w, START, Script(clock - 1)).worker.Idle?
      requires var called := Script(clock - 1) + Outside(others(clock - 1)) + [Take]; trace == called
      requires Deciding(Run(w, START, trace).worker) == []
      ensures trace == Script(clock)
    {
      hide Run;
    }

    /** `workqueue.Get`, which here does not wait for an item. */
    method TakeNext() returns (item: Option<Item>)
      requires Follows() && Midway() && worker.Idle?
      modifies this`queue, this`processing, this`worker, this`trace
      ensures OnScript()
      ensures item == if old(queue) == [] then None else Some(old(queue)[0])
      ensures worker == match item { case None => Idle case Some(i) => On(i, Sync) }
    {
      hide Run;
      hide Script;
      ghost var before := View();
      Taken(w, before);
      RunOne(w, START, trace, Take);
      trace := trace + [Take];
      ScriptAfterTake();
      item := None;
      if queue != [] {
        item := Some(queue[0]);
        queue, processing, worker := queue[1..], item, On(queue[0], Sync);
      }
    }

    /** `workqueue.AddRateLimited`, without the delay. */
    method AddRateLimited(item: Item)
      requires Follows() && Midway() && !fates(clock - 1).Answered? && worker == On(item, Sync)
      modifies this`again, this`trace
      ensures Returned(item)
    {
      hide Run;
      ghost var before, fate := View(), fates(clock - 1);
      RunOne(w, START, trace, Handle(fate));
      again := true;
      trace := trace + [Handle(fate)];
      assert Perform(w, before, Handle(fate)) == Return(View(), item);
    }

    method ProcessNextWorkItem()
      requires OnScript() && worker.Idle?
      modifies this, api
      ensures OnScript() && worker.Idle? && clock > old(clock)
    {
      hide Run;
      hide Script;
      Others();
      var item := TakeNext();
      if item.Some? {
        var err := SyncHandler(item.value);
        if err {
          AddRateLimited(item.value);
        }
        Done(item.value);
      }
    }

    /** `workqueue.Done`. */
    method Done(item: Item)
      requires Returned(item)
      modifies this`queue, this`again, this`processing, this`worker
      ensures OnScript() && worker.Idle?
    {
      hide Run;
      hide Script;
      if again {
        queue, again := queue + [item], false;
      }
      processing := None;
      worker := Idle;
    }

    /** The worker's loop. What it has done is the script, so that every property of
        the machine's runs is one of it; and what it keeps in `stores` follows its
        decisions. */
    method Work(rounds: nat)
      requires OnScript() && worker.Idle?
      modifies this, api
      ensures View() == Run(w, START, Script(clock)) && worker.Idle? && clock >= old(clock) + rounds
      ensures Consistent(View())
      ensures forall uid ::
                var h := Decisions(w, START, Script(clock));
                match if uid in h then Built(w, h[uid]) else None {
                  case Some(made) => uid in stores && MadeEach(stores[uid], made)
                  case None => uid !in stores
                }
    {
      hide Run;
      hide Built;
      hide Consistent;
      hide Script;
      hide MadeEach;
      var i := 0;
      while i < rounds
        invariant 0 <= i <= rounds
        invariant OnScript() && worker.Idle? && clock >= old(clock) + i
      {
        ProcessNextWorkItem();
        i := i + 1;
      }
      assert trace + [] == trace;
      StartIsHonest(w);
      RunKeepsConsistent(w, START, trace);
      forall uid ensures Entry(View(), uid) ==
                         if uid in Decisions(w, START, trace) then Built(w, Decisions(w, START, trace)[uid]) else None {
        StoresFollowDecisions(w, START, trace, uid);
      }
    }
  }

  lemma MadeAfter(stores: map<string, seq<Store.StoreType>>, configs: map<string, seq<Store.StoreConfig>>,
                  uid: string, built: seq<Store.StoreType>, made: seq<Store.StoreConfig>)
    requires Made(stores, configs) && |built| == |made| && forall i :: 0 <= i < |built| ==> MadeFor(built[i], made[i])
    ensures Made(stores[uid := built], configs[uid := made])
  {
    hide MadeFor;
  }

  lemma RunOne(w: World, s: State, acts: seq<Action>, a: Action)
    ensures Run(w, s, acts + [a]) == Perform(w, Run(w, s, acts), a)
  {
    hide Perform;
    assert (acts + [a])[..|acts|] == acts;
  }

  lemma Taken(w: World, s: State)
    requires s.worker.Idle?
    ensures Perform(w, s, Take) ==
            if s.queue == [] then s else s.(queue := s.queue[1..], worker := On(s.queue[0], Sync))
  {
  }

  lemma OthersStep(w: World, s: State, a: Action)
    requires !a.Take? && !a.Handle?
    ensures Perform(w, s, a) == if a.Deliver? then DeliverStep(s, a.name, a.upto, a.tombstone) else UserStep(s, a)
  {
    hide UserStep;
    hide DeliverStep;
  }

  lemma Moved(w: World, s: State, item: Item, stage: Stage, fate: Fate, m: Move)
    requires s.worker == On(item, stage) && m == Next(w, s, item, stage, fate)
    requires !stage.Decide? && (stage.Sync? ==> m.next.Some?)
    ensures var written := Written(s, item.name, m.write);
            Perform(w, s, Handle(fate)) == if m.next.Some? then At(written, item, m.next.value) else Return(written, item)
  {
    hide Next;
    hide Written;
  }

  lemma Settled(w: World, s: State, item: Item, resource: Obj)
    requires s.worker == On(item, Decide(resource))
    ensures Perform(w, s, Handle(Answered)) ==
            At(s.(stores := StoresAfter(w, s.stores, item.event, resource)), item, NextAfter(w, item.event, resource))
  {
    hide StoresAfter;
    hide NextAfter;
  }
}
