/** Reconciling managed resources: `internal/controller.go`, `internal/events.go`
    and `internal/config.go` as a machine. Its steps are those of users of the API
    server, of the informer, and of the one worker, between any two of whose API
    calls anything else may happen. */
module Reconcile {
  import opened Text
  import opened Conditions
  import Store

  // ---- The API server, as far as one resource name goes ----

  /** A managed resource. `version` is its `resourceVersion`. */
  datatype Obj = Obj(
    uid: string, version: nat, generation: nat, spec: string,
    labels: map<string, string>, conditions: seq<Condition>)

  /** All that a name has stood for, one entry a write, and how far the informer has
      got in telling of it. An object's version is the place of its entry. */
  datatype TrackData = TrackData(log: seq<Option<Obj>>, seen: nat)

  type Track = t: TrackData | t.seen < |t.log| witness TrackData([None], 0)

  const BLANK: Track := TrackData([None], 0)

  // ---- The controller ----

  datatype Event = AddEvent | UpdateEvent | DeleteEvent | Unknown(text: string)

  function EventText(e: Event): string {
    match e
    case AddEvent => "addEvent"
    case UpdateEvent => "updateEvent"
    case DeleteEvent => "deleteEvent"
    case Unknown(text) => text
  }

  datatype Item = Item(name: string, event: Event)

  /** Where the worker stands in handling an item. A `Get` precedes each `Put`, and
      `resource` is what the first status write returned. */
  datatype Stage =
    | Sync
    | MetaGet
    | MetaPut(got: Obj)
    | FalseGet
    | FalsePut(got: Obj)
    | Decide(resource: Obj)
    | FailGet(why: string)
    | FailPut(why: string, got: Obj)
    | TrueGet(resource: Obj)
    | TruePut(resource: Obj, got: Obj)

  datatype Worker = Idle | On(item: Item, stage: Stage)

  datatype Parsed = Malformed(why: string) | Configuration(stores: seq<Store.StoreConfig>)

  /** What the program was built with, and the YAML library. */
  datatype World = World(managedBy: string, revision: Option<string>, parse: string -> Parsed)

  /** `owner` is the API server's: a UID is given out once. `again` says that the
      item being handled was added to the queue meanwhile. */
  datatype State = State(
    tracks: map<string, Track>, owner: map<string, string>,
    queue: seq<Item>, again: bool, worker: Worker,
    stores: map<string, seq<Store.StoreConfig>>)

  const START := State(map[], map[], [], false, Idle, map[])

  /** What becomes of a call: it is served and answered; it is served, but the
      worker is told it failed; or it never arrives. */
  datatype Fate = Answered | Unanswered | Lost

  datatype Action =
    | Create(name: string, uid: string, spec: string, labels: map<string, string>)
    | Edit(name: string, spec: string, labels: map<string, string>)
    | EditStatus(name: string, conditions: seq<Condition>)
    | Remove(name: string)
    | Deliver(name: string, upto: nat, tombstone: bool)
    | Take
    | Handle(fate: Fate)

  function TrackOf(s: State, name: string): Track {
    if name in s.tracks then s.tracks[name] else BLANK
  }

  function Current(s: State, name: string): Option<Obj> {
    var log := TrackOf(s, name).log;
    log[|log| - 1]
  }

  function Append(s: State, name: string, o: Option<Obj>): State {
    var t := TrackOf(s, name);
    s.(tracks := s.tracks[name := TrackData(t.log + [o], t.seen)])
  }

  /** The object as its next version. */
  function Versioned(s: State, name: string, o: Obj): Obj {
    o.(version := |TrackOf(s, name).log|)
  }

  function Save(s: State, name: string, o: Obj): State {
    Append(s, name, Some(Versioned(s, name, o)))
  }

  // ---- Users ----

  function UserStep(s: State, a: Action): State
    requires a.Create? || a.Edit? || a.EditStatus? || a.Remove?
  {
    var current := Current(s, a.name);
    match a
    case Create(name, uid, spec, labels) =>
      if current.Some? || uid in s.owner then s
      else Save(s, name, Obj(uid, 0, 1, spec, labels, [])).(owner := s.owner[uid := name])
    case Edit(name, spec, labels) =>
      if current.None? then s
      else
        var o := current.value;
        Save(s, name, o.(generation := if spec == o.spec then o.generation else o.generation + 1,
                         spec := spec, labels := labels))
    case EditStatus(name, conditions) =>
      if current.None? then s else Save(s, name, current.value.(conditions := conditions))
    case Remove(name) =>
      if current.None? then s else Append(s, name, None)
  }

  // ---- The informer ----

  /** The event handlers of `NewController`. A deletion that was missed and found
      out later arrives as a tombstone, for which no key can be made. */
  function EventFor(before: Option<Obj>, after: Option<Obj>, tombstone: bool): Option<Event> {
    match (before, after)
    case (None, None) => None
    case (None, Some(_)) => Some(AddEvent)
    case (Some(_), None) => if tombstone then None else Some(DeleteEvent)
    case (Some(x), Some(y)) => if x.version == y.version || x.spec == y.spec then None else Some(UpdateEvent)
  }

  /** An appearance is told as an add, a disappearance as a deletion unless it was
      missed, and a change as an update only if it is one of the specification. */
  lemma EventsTold(before: Option<Obj>, after: Option<Obj>, tombstone: bool)
    ensures EventFor(before, after, tombstone) == Some(AddEvent) <==> before.None? && after.Some?
    ensures EventFor(before, after, tombstone) == Some(DeleteEvent) <==> before.Some? && after.None? && !tombstone
    ensures EventFor(before, after, tombstone) == Some(UpdateEvent) <==>
            before.Some? && after.Some?
            && before.value.version != after.value.version && before.value.spec != after.value.spec
    ensures EventFor(before, after, tombstone).Some? ==>
              EventFor(before, after, tombstone).value in {AddEvent, UpdateEvent, DeleteEvent}
  {
  }

  /** `workqueue.Add`. */
  function Enqueue(s: State, item: Item): State {
    if item in s.queue then s
    else if s.worker.On? && s.worker.item == item then s.(again := true)
    else s.(queue := s.queue + [item])
  }

  /** One notification. It may skip versions the informer never saw. */
  function DeliverStep(s: State, name: string, upto: nat, tombstone: bool): State {
    var t := TrackOf(s, name);
    if !(t.seen < upto < |t.log|) then s
    else
      var s1 := s.(tracks := s.tracks[name := TrackData(t.log, upto)]);
      match EventFor(t.log[t.seen], t.log[upto], tombstone)
      case None => s1
      case Some(event) => Enqueue(s1, Item(name, event))
  }

  // ---- The worker ----

  const MANAGED_BY := "app.kubernetes.io/managed-by"
  const VERSION := "app.kubernetes.io/version"

  function Stamp(w: World, o: Obj): (o': Obj)
    ensures o' == o.(labels := o'.labels)
  {
    var labels := o.labels[MANAGED_BY := w.managedBy];
    o.(labels := if w.revision.Some? then labels[VERSION := w.revision.value] else labels)
  }

  function Noted(o: Obj, kind: string, status: string, message: string): Obj
    requires Known(kind)
  {
    o.(conditions := Put(o.conditions, Dress(Call(o.generation, Conditions.Report(kind, status, message)))))
  }

  function Received(o: Obj, e: Event): Obj {
    Noted(o, PROCESSED, STATUS_FALSE, "Event handler received event: " + EventText(e))
  }

  function Succeeded(o: Obj, e: Event): Obj {
    Noted(o, PROCESSED, STATUS_TRUE, "Event handler successfully processed event: " + EventText(e))
  }

  function Failed(o: Obj, why: string): Obj {
    Noted(o, FAILED, STATUS_TRUE, why)
  }

  function At(s: State, item: Item, stage: Stage): State {
    s.(worker := On(item, stage))
  }

  /** The item is done with; if it was added meanwhile it goes back to the queue. */
  function Return(s: State, item: Item): State {
    s.(worker := Idle, queue := if s.again then s.queue + [item] else s.queue, again := false)
  }

  /** A write that arrives is accepted if nothing has been written since `got` was read. */
  predicate Accepts(s: State, name: string, got: Obj, fate: Fate) {
    !fate.Lost? && Current(s, name).Some? && Current(s, name).value.version == got.version
  }

  /** What an event makes of the stores: `handleEvent` between its status writes. */
  function StoresAfter(w: World, stores: map<string, seq<Store.StoreConfig>>, event: Event, resource: Obj)
    : map<string, seq<Store.StoreConfig>>
  {
    if resource.spec == "" || event.Unknown? then stores
    else
      var dropped := stores - {resource.uid};
      if event.DeleteEvent? then dropped
      else
        match w.parse(resource.spec)
        case Malformed(_) => dropped
        case Configuration(configs) => if configs == [] then dropped else dropped[resource.uid := configs]
  }

  function NextAfter(w: World, event: Event, resource: Obj): Stage {
    if resource.spec == "" then FailGet("Configuration YAML is empty")
    else if event.Unknown? then FailGet("Unknown event type: " + event.text)
    else if event.DeleteEvent? then TrueGet(resource)
    else
      match w.parse(resource.spec)
      case Malformed(why) => FailGet("Failed to parse configuration YAML: " + why)
      case Configuration(_) => TrueGet(resource)
  }

  /** One call: what it writes, and where the worker goes; `None` if it is through. */
  datatype Move = Move(write: Option<Obj>, next: Option<Stage>)

  const GIVE_UP := Move(None, None)

  function IfAnswered(fate: Fate, stage: Stage): Option<Stage> {
    if fate.Answered? then Some(stage) else None
  }

  function Next(w: World, s: State, item: Item, stage: Stage, fate: Fate): Move {
    var name := item.name;
    var current := Current(s, name);
    match stage
    case Sync => if fate.Answered? then Move(None, Some(MetaGet)) else GIVE_UP
    case MetaGet => if fate.Answered? && current.Some? then Move(None, Some(MetaPut(current.value))) else GIVE_UP
    case MetaPut(got) =>
      if Accepts(s, name, got, fate) then Move(Some(Stamp(w, got)), IfAnswered(fate, FalseGet)) else GIVE_UP
    case FalseGet => if fate.Answered? && current.Some? then Move(None, Some(FalsePut(current.value))) else GIVE_UP
    case FalsePut(got) =>
      var o := Received(got, item.event);
      if Accepts(s, name, got, fate) then Move(Some(o), IfAnswered(fate, Decide(Versioned(s, name, o))))
      else GIVE_UP
    case Decide(resource) => Move(None, Some(NextAfter(w, item.event, resource)))
    case FailGet(why) => if fate.Answered? && current.Some? then Move(None, Some(FailPut(why, current.value))) else GIVE_UP
    case FailPut(why, got) => if Accepts(s, name, got, fate) then Move(Some(Failed(got, why)), None) else GIVE_UP
    case TrueGet(resource) => if fate.Answered? && current.Some? then Move(None, Some(TruePut(resource, current.value))) else GIVE_UP
    case TruePut(_, got) => if Accepts(s, name, got, fate) then Move(Some(Succeeded(got, item.event)), None) else GIVE_UP
  }

  function Written(s: State, name: string, o: Option<Obj>): (s': State)
    ensures s' == s.(tracks := s'.tracks)
  {
    if o.Some? then Save(s, name, o.value) else s
  }

  /** The worker's next call, of the given fate. Only a failing lister makes
      it try the item again. */
  function HandleStep(w: World, s: State, item: Item, stage: Stage, fate: Fate): State {
    var move := Next(w, s, item, stage, fate);
    var written := Written(s, item.name, move.write);
    var done := if stage.Decide? then written.(stores := StoresAfter(w, s.stores, item.event, stage.resource)) else written;
    if move.next.Some? then At(done, item, move.next.value)
    else Return(if stage.Sync? then done.(again := true) else done, item)
  }

  function Perform(w: World, s: State, a: Action): State {
    match a
    case Create(_, _, _, _) => UserStep(s, a)
    case Edit(_, _, _) => UserStep(s, a)
    case EditStatus(_, _) => UserStep(s, a)
    case Remove(_) => UserStep(s, a)
    case Deliver(name, upto, tombstone) => DeliverStep(s, name, upto, tombstone)
    case Take =>
      if s.worker.On? || s.queue == [] then s
      else s.(queue := s.queue[1..], worker := On(s.queue[0], Sync))
    case Handle(fate) => if s.worker.Idle? then s else HandleStep(w, s, s.worker.item, s.worker.stage, fate)
  }

  function Run(w: World, s: State, acts: seq<Action>): State {
    if acts == [] then s else Perform(w, Run(w, s, acts[..|acts| - 1]), acts[|acts| - 1])
  }

  // ---- What always holds ----

  /** Versions are places in the log, and a UID belongs to one name. */
  ghost predicate TrackOk(s: State, name: string) {
    var log := TrackOf(s, name).log;
    forall i :: 0 <= i < |log| && log[i].Some? ==>
      log[i].value.version == i && log[i].value.uid in s.owner && s.owner[log[i].value.uid] == name
  }

  /** What the worker has read stands in the log. */
  ghost predicate Held(s: State, name: string, o: Obj) {
    var log := TrackOf(s, name).log;
    o.version < |log| && log[o.version] == Some(o)
  }

  ghost predicate StageOk(s: State, name: string, stage: Stage) {
    match stage
    case MetaPut(got) => Held(s, name, got)
    case FalsePut(got) => Held(s, name, got)
    case Decide(resource) => Held(s, name, resource)
    case FailPut(_, got) => Held(s, name, got)
    case TrueGet(resource) => Held(s, name, resource)
    case TruePut(resource, got) => Held(s, name, resource) && Held(s, name, got)
    case _ => true
  }

  ghost predicate Consistent(s: State) {
    && (forall name :: TrackOk(s, name))
    && (forall i :: 0 <= i < |s.queue| ==> !s.queue[i].event.Unknown?)
    && (s.again ==> s.worker.On?)
    && (s.worker.On? ==> !s.worker.item.event.Unknown? && StageOk(s, s.worker.item.name, s.worker.stage))
  }

  /** A write that is accepted is one to what was read. */
  lemma AcceptedIsCurrent(s: State, name: string, got: Obj, fate: Fate)
    requires TrackOk(s, name) && Held(s, name, got) && Accepts(s, name, got, fate)
    ensures Current(s, name) == Some(got)
  {
  }

  lemma AppendKeeps(s: State, name: string, o: Option<Obj>)
    requires Consistent(s)
    requires o.Some? ==>
               o.value.version == |TrackOf(s, name).log| && o.value.uid in s.owner && s.owner[o.value.uid] == name
    ensures Consistent(Append(s, name, o)) && Current(Append(s, name, o), name) == o
    ensures forall other :: other != name ==> TrackOf(Append(s, name, o), other) == TrackOf(s, other)
  {
    var s' := Append(s, name, o);
    forall other ensures TrackOk(s', other) {
      assert TrackOk(s, other);
    }
  }

  lemma SaveKeeps(s: State, name: string, o: Obj)
    requires Consistent(s) && o.uid in s.owner && s.owner[o.uid] == name
    ensures Consistent(Save(s, name, o)) && Held(Save(s, name, o), name, Versioned(s, name, o))
    ensures Current(Save(s, name, o), name) == Some(Versioned(s, name, o))
  {
    hide Consistent;
    AppendKeeps(s, name, Some(Versioned(s, name, o)));
  }

  lemma HeldIsOwned(s: State, name: string, o: Obj)
    requires TrackOk(s, name) && Held(s, name, o)
    ensures o.uid in s.owner && s.owner[o.uid] == name
  {
  }

  /** The worker's writes are to the current object, whose UID and specification
      they leave alone. */
  lemma WritesKeep(w: World, s: State, item: Item, stage: Stage, fate: Fate)
    requires TrackOk(s, item.name) && StageOk(s, item.name, stage)
    ensures var o := Next(w, s, item, stage, fate).write;
            o.Some? ==> Current(s, item.name).Some? && o.value.uid == Current(s, item.name).value.uid
                        && o.value.spec == Current(s, item.name).value.spec
                        && o.value.uid in s.owner && s.owner[o.value.uid] == item.name
  {
  }

  lemma ConsistentHere(s: State)
    requires Consistent(s) && s.worker.On?
    ensures TrackOk(s, s.worker.item.name) && StageOk(s, s.worker.item.name, s.worker.stage)
    ensures !s.worker.item.event.Unknown?
  {
  }

  lemma StagesHold(w: World, s: State, item: Item, stage: Stage, fate: Fate)
    requires Consistent(s) && s.worker == On(item, stage)
    ensures var m := Next(w, s, item, stage, fate);
            && Consistent(Written(s, item.name, m.write))
            && (m.next.Some? ==> StageOk(Written(s, item.name, m.write), item.name, m.next.value))
  {
    hide Stamp;
    hide Noted;
    hide Consistent;
    ConsistentHere(s);
    WritesKeep(w, s, item, stage, fate);
    var o := Next(w, s, item, stage, fate).write;
    if o.Some? {
      SaveKeeps(s, item.name, o.value);
    }
  }

  /** One call, taken apart. */
  lemma HandleShape(w: World, s: State, fate: Fate)
    requires s.worker.On?
    ensures var item, stage := s.worker.item, s.worker.stage;
            var m, s' := Next(w, s, item, stage, fate), Perform(w, s, Handle(fate));
            && s'.tracks == Written(s, item.name, m.write).tracks && s'.owner == s.owner
            && s'.worker == (if m.next.Some? then On(item, m.next.value) else Idle)
            && (m.next.Some? ==> s'.queue == s.queue && s'.again == s.again)
            && (m.next.None? ==>
                  s'.queue == (if s.again || stage.Sync? then s.queue + [item] else s.queue) && !s'.again)
            && s'.stores == if stage.Decide? then StoresAfter(w, s.stores, item.event, stage.resource) else s.stores
  {
    hide Next;
    hide StoresAfter;
    hide Written;
  }

  lemma HandleKeepsConsistent(w: World, s: State, fate: Fate)
    requires Consistent(s) && s.worker.On?
    ensures Consistent(Perform(w, s, Handle(fate)))
  {
    hide Next;
    hide StageOk;
    hide TrackOk;
    hide Perform;
    hide Written;
    hide StoresAfter;
    var item, stage := s.worker.item, s.worker.stage;
    HandleShape(w, s, fate);
    StagesHold(w, s, item, stage, fate);
    var m := Next(w, s, item, stage, fate);
    SameTracks(Written(s, item.name, m.write), Perform(w, s, Handle(fate)));
  }

  lemma SameTracks(s: State, s': State)
    requires s'.tracks == s.tracks
    requires forall u :: u in s.owner ==> u in s'.owner && s'.owner[u] == s.owner[u]
    ensures forall name :: TrackOk(s, name) ==> TrackOk(s', name)
    ensures forall name, stage :: StageOk(s, name, stage) == StageOk(s', name, stage)
  {
  }

  lemma SeenKeeps(s: State, name: string, upto: nat)
    requires Consistent(s) && upto < |TrackOf(s, name).log|
    ensures Consistent(s.(tracks := s.tracks[name := TrackData(TrackOf(s, name).log, upto)]))
  {
    var s' := s.(tracks := s.tracks[name := TrackData(TrackOf(s, name).log, upto)]);
    forall other ensures TrackOk(s', other) && TrackOf(s', other).log == TrackOf(s, other).log {
      assert TrackOk(s, other);
    }
  }

  /** Users and the informer leave the worker and the stores alone, and the informer
      the objects. */
  lemma OthersFrame(w: World, s: State, a: Action)
    requires !a.Handle? && !a.Take?
    ensures var s' := Perform(w, s, a);
            && s'.stores == s.stores && s'.worker == s.worker
            && (a.Deliver? ==> s'.owner == s.owner && forall name :: TrackOf(s', name).log == TrackOf(s, name).log)
            && (!a.Deliver? ==> s'.queue == s.queue && s'.again == s.again
                                && forall name :: name != a.name ==> TrackOf(s', name) == TrackOf(s, name))
            && (forall u :: u in s.owner ==> u in s'.owner && s'.owner[u] == s.owner[u])
  {
    hide HandleStep;
    hide UserStep;
    hide DeliverStep;
    if a.Deliver? {
      DeliverFrame(s, a.name, a.upto, a.tombstone);
    } else {
      UserFrame(s, a);
    }
  }

  lemma DeliverFrame(s: State, name: string, upto: nat, tombstone: bool)
    ensures var s' := DeliverStep(s, name, upto, tombstone);
            && s'.stores == s.stores && s'.worker == s.worker && s'.owner == s.owner
            && forall other :: TrackOf(s', other).log == TrackOf(s, other).log
  {
  }

  lemma UserFrame(s: State, a: Action)
    requires a.Create? || a.Edit? || a.EditStatus? || a.Remove?
    ensures var s' := UserStep(s, a);
            && s'.stores == s.stores && s'.worker == s.worker && s'.queue == s.queue && s'.again == s.again
            && (forall name :: name != a.name ==> TrackOf(s', name) == TrackOf(s, name))
            && (forall u :: u in s.owner ==> u in s'.owner && s'.owner[u] == s.owner[u])
  {
  }

  lemma EnqueueKeeps(s: State, item: Item)
    requires Consistent(s) && !item.event.Unknown?
    ensures Consistent(Enqueue(s, item))
  {
    hide StageOk;
    hide TrackOk;
    SameTracks(s, Enqueue(s, item));
  }

  lemma TakeKeeps(w: World, s: State)
    requires Consistent(s) && s.worker.Idle? && s.queue != []
    ensures Consistent(Perform(w, s, Take))
  {
    hide TrackOk;
    SameTracks(s, Perform(w, s, Take));
  }

  lemma UserKeepsConsistent(s: State, a: Action)
    requires Consistent(s) && (a.Create? || a.Edit? || a.EditStatus? || a.Remove?)
    ensures Consistent(UserStep(s, a))
  {
    hide StageOk;
    assert TrackOk(s, a.name);
    var current := Current(s, a.name);
    if a.Create? {
      if current.None? && a.uid !in s.owner {
        var s1 := s.(owner := s.owner[a.uid := a.name]);
        SameTracks(s, s1);
        SaveKeeps(s1, a.name, Obj(a.uid, 0, 1, a.spec, a.labels, []));
      }
    } else if current.Some? {
      var o := current.value;
      match a
      case Edit(name, spec, labels) =>
        SaveKeeps(s, name, o.(generation := if spec == o.spec then o.generation else o.generation + 1,
                              spec := spec, labels := labels));
      case EditStatus(name, conditions) => SaveKeeps(s, name, o.(conditions := conditions));
      case Remove(name) => AppendKeeps(s, name, None);
    }
  }

  lemma PerformKeepsConsistent(w: World, s: State, a: Action)
    requires Consistent(s)
    ensures Consistent(Perform(w, s, a))
  {
    hide StageOk;
    hide TrackOk;
    hide HandleStep;
    hide Enqueue;
    if a.Handle? && s.worker.On? {
      HandleKeepsConsistent(w, s, a.fate);
    } else if a.Deliver? && TrackOf(s, a.name).seen < a.upto < |TrackOf(s, a.name).log| {
      SeenKeeps(s, a.name, a.upto);
      var t := TrackOf(s, a.name);
      var event := EventFor(t.log[t.seen], t.log[a.upto], a.tombstone);
      if event.Some? {
        EnqueueKeeps(s.(tracks := s.tracks[a.name := TrackData(t.log, a.upto)]), Item(a.name, event.value));
      }
    } else if a.Take? && s.worker.Idle? && s.queue != [] {
      TakeKeeps(w, s);
    } else if !a.Handle? && !a.Deliver? && !a.Take? {
      hide UserStep;
      UserKeepsConsistent(s, a);
    }
  }

  lemma {:induction false} RunKeepsConsistent(w: World, s: State, acts: seq<Action>)
    requires Consistent(s)
    ensures Consistent(Run(w, s, acts))
  {
    hide Perform;
    if acts != [] {
      RunKeepsConsistent(w, s, acts[..|acts| - 1]);
      PerformKeepsConsistent(w, Run(w, s, acts[..|acts| - 1]), acts[|acts| - 1]);
    }
  }

  // ---- What the worker writes, spelled out ----

  /** `after` carries the program's labels and is otherwise as `before`. */
  ghost predicate CarriesLabels(w: World, before: Obj, after: Obj) {
    && after.uid == before.uid && after.generation == before.generation
    && after.spec == before.spec && after.conditions == before.conditions
    && after.labels.Keys == before.labels.Keys + {"app.kubernetes.io/managed-by"}
                            + (if w.revision.Some? then {"app.kubernetes.io/version"} else {})
    && after.labels["app.kubernetes.io/managed-by"] == w.managedBy
    && (w.revision.Some? ==> after.labels["app.kubernetes.io/version"] == w.revision.value)
    && forall key :: key in before.labels && key != "app.kubernetes.io/managed-by"
                     && (key == "app.kubernetes.io/version" ==> w.revision.None?) ==>
         after.labels[key] == before.labels[key]
  }

  lemma StampLabels(w: World, o: Obj)
    ensures CarriesLabels(w, o, Stamp(w, o))
  {
    assert "app.kubernetes.io/managed-by"[18] != "app.kubernetes.io/version"[18];
  }

  /** `after` shows `c` for its kind and is otherwise as `before`. */
  ghost predicate Reported(before: Obj, after: Obj, c: Condition) {
    && after.uid == before.uid && after.generation == before.generation
    && after.spec == before.spec && after.labels == before.labels
    && Lookup(after.conditions, c.kind) == Some(c)
    && forall kind :: kind != c.kind ==> Lookup(after.conditions, kind) == Lookup(before.conditions, kind)
  }

  /** What a status write reports, by the stage it is made in. */
  ghost predicate Says(stage: Stage, event: Event, generation: int, c: Condition) {
    var text := match event
      case AddEvent => "addEvent"
      case UpdateEvent => "updateEvent"
      case DeleteEvent => "deleteEvent"
      case Unknown(text) => text;
    match stage
    case FalsePut(_) =>
      c == Condition("Processed", "False", "EventHandlerRunning",
                     "Resource configuration is yet to be processed: " + ("Event handler received event: " + text),
                     generation)
    case TruePut(_, _) =>
      c == Condition("Processed", "True", "EventHandlerSucceeded",
                     "Resource configuration has been processed successfully: "
                     + ("Event handler successfully processed event: " + text), generation)
    case FailPut(why, _) =>
      c == Condition("Failed", "True", "EventHandlerFailed", "Resource failed to process: " + why, generation)
    case _ => false
  }

  lemma NotedReports(o: Obj, kind: string, status: string, message: string)
    requires Known(kind)
    ensures Reported(o, Noted(o, kind, status, message),
                     Dress(Call(o.generation, Conditions.Report(kind, status, message))))
  {
    hide Dress;
    hide Put;
    PutIsUpdate(o.conditions, Dress(Call(o.generation, Conditions.Report(kind, status, message))));
  }

  lemma ReportsSay(o: Obj, event: Event, why: string) returns (running: Condition, done: Condition, failed: Condition)
    ensures Reported(o, Received(o, event), running) && Says(FalsePut(o), event, o.generation, running)
    ensures Reported(o, Succeeded(o, event), done) && Says(TruePut(o, o), event, o.generation, done)
    ensures Reported(o, Failed(o, why), failed) && Says(FailPut(why, o), event, o.generation, failed)
  {
    hide Reported;
    hide Noted;
    hide ReasonFor;
    hide HintFor;
    assert "False"[0] != "True"[0];
    var text := EventText(event);
    var a := Conditions.Report(PROCESSED, STATUS_FALSE, "Event handler received event: " + text);
    var b := Conditions.Report(PROCESSED, STATUS_TRUE, "Event handler successfully processed event: " + text);
    var c := Conditions.Report(FAILED, STATUS_TRUE, why);
    running, done, failed := Dress(Call(o.generation, a)), Dress(Call(o.generation, b)), Dress(Call(o.generation, c));
    DressedAs(Call(o.generation, a));
    DressedAs(Call(o.generation, b));
    DressedAs(Call(o.generation, c));
    NotedReports(o, a.kind, a.status, a.message);
    NotedReports(o, b.kind, b.status, b.message);
    NotedReports(o, c.kind, c.status, c.message);
  }

  /** A stage that puts. */
  predicate Puts(stage: Stage) {
    stage.MetaPut? || stage.FalsePut? || stage.FailPut? || stage.TruePut?
  }

  ghost predicate PutAs(w: World, event: Event, stage: Stage, before: Obj, after: Obj)
    requires Puts(stage)
  {
    if stage.MetaPut? then CarriesLabels(w, before, after)
    else exists c :: Says(stage, event, before.generation, c) && Reported(before, after, c)
  }

  lemma AcceptedPut(w: World, s: State, item: Item, stage: Stage, fate: Fate)
    requires Puts(stage) && Accepts(s, item.name, stage.got, fate)
    ensures var o := Next(w, s, item, stage, fate).write;
            o.Some? && PutAs(w, item.event, stage, stage.got, Versioned(s, item.name, o.value))
  {
    hide Stamp;
    hide Received;
    hide Succeeded;
    hide Failed;
    hide CarriesLabels;
    hide Reported;
    hide Says;
    hide Accepts;
    var got, version := stage.got, |TrackOf(s, item.name).log|;
    StampLabels(w, got);
    VersionDoesNotMatter(w, got, version);
    var a, b, c := ReportsSay(got, item.event, if stage.FailPut? then stage.why else "");
    SaysByStage(got, stage, item.event);
  }

  lemma SaysByStage(got: Obj, stage: Stage, event: Event)
    ensures forall c :: stage.FalsePut? && Says(FalsePut(got), event, got.generation, c) ==>
                          Says(stage, event, got.generation, c)
    ensures forall c :: stage.TruePut? && Says(TruePut(got, got), event, got.generation, c) ==>
                          Says(stage, event, got.generation, c)
    ensures forall c :: stage.FailPut? && Says(FailPut(stage.why, got), event, got.generation, c) ==>
                          Says(stage, event, got.generation, c)
  {
  }

  lemma VersionDoesNotMatter(w: World, before: Obj, version: nat)
    ensures forall after :: CarriesLabels(w, before, after) ==> CarriesLabels(w, before, after.(version := version))
    ensures forall after, c :: Reported(before, after, c) ==> Reported(before, after.(version := version), c)
  {
  }

  /** The write that a `Put` which arrives makes: the object as it was, next version,
      with labels or a report as spelled out. */
  lemma {:induction false} PutWrites(w: World, s: State, fate: Fate)
    requires Consistent(s) && s.worker.On? && Puts(s.worker.stage)
    ensures
      var name, stage := s.worker.item.name, s.worker.stage;
      var log, log' := TrackOf(s, name).log, TrackOf(Perform(w, s, Handle(fate)), name).log;
      if !Accepts(s, name, stage.got, fate) then log' == log
      else
        && |log'| == |log| + 1 && log'[..|log|] == log && log'[|log|].Some? && log'[|log|].value.version == |log|
        && log[|log| - 1].Some? && PutAs(w, s.worker.item.event, stage, log[|log| - 1].value, log'[|log|].value)
  {
    hide Next;
    hide Perform;
    hide PutAs;
    hide Consistent;
    hide TrackOk;
    var item, stage := s.worker.item, s.worker.stage;
    ConsistentHere(s);
    HandleShape(w, s, fate);
    if Accepts(s, item.name, stage.got, fate) {
      AcceptedIsCurrent(s, item.name, stage.got, fate);
      AcceptedPut(w, s, item, stage, fate);
    } else {
      RefusedPut(w, s, item, stage, fate);
    }
  }

  lemma RefusedPut(w: World, s: State, item: Item, stage: Stage, fate: Fate)
    requires Puts(stage) && !Accepts(s, item.name, stage.got, fate)
    ensures Next(w, s, item, stage, fate) == GIVE_UP
  {
  }

  /** So it is in every run. */
  lemma {:induction false} RunWrites(w: World, s: State, acts: seq<Action>, fate: Fate)
    requires Consistent(s) && Run(w, s, acts).worker.On? && Puts(Run(w, s, acts).worker.stage)
    ensures
      var s' := Run(w, s, acts);
      var name, stage := s'.worker.item.name, s'.worker.stage;
      var log, log' := TrackOf(s', name).log, TrackOf(Run(w, s, acts + [Handle(fate)]), name).log;
      Accepts(s', name, stage.got, fate) ==>
        && |log'| == |log| + 1 && log[|log| - 1].Some? && log'[|log|].Some?
        && PutAs(w, s'.worker.item.event, stage, log[|log| - 1].value, log'[|log|].value)
  {
    hide Perform;
    hide Consistent;
    hide PutAs;
    RunKeepsConsistent(w, s, acts);
    PutWrites(w, Run(w, s, acts), fate);
    assert (acts + [Handle(fate)])[..|acts|] == acts;
  }

  /** An accepted write stands in the log after the object it was made from. */
  lemma SavedAfter(s: State, name: string, got: Obj, o: Obj, fate: Fate)
    requires TrackOk(s, name) && Held(s, name, got) && Accepts(s, name, got, fate)
    ensures var log := TrackOf(Save(s, name, o), name).log;
            |log| > 1 && log[|log| - 2] == Some(got) && log[|log| - 1] == Some(Versioned(s, name, o))
  {
    AcceptedIsCurrent(s, name, got, fate);
  }

  /** What a decision leads to. */
  lemma DecisionLeads(w: World, event: Event, resource: Obj)
    ensures
      var next := NextAfter(w, event, resource);
      if resource.spec == "" then next == FailGet("Configuration YAML is empty")
      else
        match event
        case Unknown(text) => next == FailGet("Unknown event type: " + text)
        case DeleteEvent => next == TrueGet(resource)
        case _ =>
          match w.parse(resource.spec)
          case Malformed(why) => next == FailGet("Failed to parse configuration YAML: " + why)
          case Configuration(_) => next == TrueGet(resource)
  {
  }

  // ---- How often a name is handled ----

  /** What the update filter looks at. */
  predicate Differ(before: Option<Obj>, after: Option<Obj>) {
    before.Some? != after.Some? || (before.Some? && before.value.spec != after.value.spec)
  }

  function Changes(log: seq<Option<Obj>>, from: nat, end: nat): nat
    requires from <= end < |log|
  {
    if from == end then 0 else Changes(log, from, end - 1) + if Differ(log[end - 1], log[end]) then 1 else 0
  }

  /** Changes that the informer has yet to tell. */
  function Untold(t: Track): nat {
    Changes(t.log, t.seen, |t.log| - 1)
  }

  function ItemsOf(queue: seq<Item>, name: string): nat {
    if queue == [] then 0 else (if queue[0].name == name then 1 else 0) + ItemsOf(queue[1..], name)
  }

  function Due(s: State, name: string): nat {
    Untold(TrackOf(s, name)) + ItemsOf(s.queue, name)
    + if s.again && s.worker.On? && s.worker.item.name == name then 1 else 0
  }

  /** Whether a step is a user's creating, deleting, or changing the specification
      of `name`, or the lister failing on it. */
  predicate Causes(s: State, a: Action, name: string) {
    match a
    case Create(n, uid, _, _) => n == name && Current(s, n).None? && uid !in s.owner
    case Edit(n, spec, _) => n == name && Current(s, n).Some? && Current(s, n).value.spec != spec
    case Remove(n) => n == name && Current(s, n).Some?
    case Handle(fate) => !fate.Answered? && s.worker.On? && s.worker.stage.Sync? && s.worker.item.name == name
    case _ => false
  }

  predicate Takes(s: State, a: Action, name: string) {
    a.Take? && s.worker.Idle? && s.queue != [] && s.queue[0].name == name
  }

  function CauseCount(w: World, s: State, acts: seq<Action>, name: string): nat {
    if acts == [] then 0
    else
      var front := acts[..|acts| - 1];
      CauseCount(w, s, front, name) + if Causes(Run(w, s, front), acts[|acts| - 1], name) then 1 else 0
  }

  function TakeCount(w: World, s: State, acts: seq<Action>, name: string): nat {
    if acts == [] then 0
    else
      var front := acts[..|acts| - 1];
      TakeCount(w, s, front, name) + if Takes(Run(w, s, front), acts[|acts| - 1], name) then 1 else 0
  }

  lemma {:induction false} ChangesSplit(log: seq<Option<Obj>>, from: nat, mid: nat, end: nat)
    requires from <= mid <= end < |log|
    ensures Changes(log, from, end) == Changes(log, from, mid) + Changes(log, mid, end)
    decreases end
  {
    if mid < end {
      ChangesSplit(log, from, mid, end - 1);
    }
  }

  /** No change on the way means none between the ends. */
  lemma {:induction false} NoChanges(log: seq<Option<Obj>>, from: nat, end: nat)
    requires from <= end < |log| && Changes(log, from, end) == 0
    ensures !Differ(log[from], log[end])
    decreases end
  {
    if from < end {
      NoChanges(log, from, end - 1);
    }
  }

  lemma {:induction false} ChangesOfPrefix(log: seq<Option<Obj>>, more: seq<Option<Obj>>, from: nat, end: nat)
    requires from <= end < |log|
    ensures Changes(log + more, from, end) == Changes(log, from, end)
    decreases end
  {
    if from < end {
      ChangesOfPrefix(log, more, from, end - 1);
    }
  }

  lemma {:induction false} ItemsOfAppend(queue: seq<Item>, item: Item, name: string)
    ensures ItemsOf(queue + [item], name) == ItemsOf(queue, name) + if item.name == name then 1 else 0
  {
    if queue == [] {
      assert queue + [item] == [item];
    } else {
      ItemsOfAppend(queue[1..], item, name);
      assert (queue + [item])[1..] == queue[1..] + [item];
    }
  }

  lemma UntoldAfterAppend(s: State, name: string, o: Option<Obj>, other: string)
    ensures Untold(TrackOf(Append(s, name, o), other))
         == Untold(TrackOf(s, other)) + if other == name && Differ(Current(s, name), o) then 1 else 0
  {
    var log := TrackOf(s, name).log;
    ChangesOfPrefix(log, [o], TrackOf(s, name).seen, |log| - 1);
  }

  lemma EnqueueAdds(s: State, item: Item, name: string)
    ensures Due(s, name) <= Due(Enqueue(s, item), name) <= Due(s, name) + if item.name == name then 1 else 0
    ensures item.name == name ==> Due(Enqueue(s, item), name) > 0
  {
    ItemsOfAppend(s.queue, item, name);
    if item in s.queue {
      QueuedIsCounted(s.queue, item);
    }
  }

  lemma {:induction false} QueuedIsCounted(queue: seq<Item>, item: Item)
    requires item in queue
    ensures ItemsOf(queue, item.name) > 0
  {
    if queue[0] != item {
      QueuedIsCounted(queue[1..], item);
    }
  }

  lemma DeliverPays(s: State, name: string, upto: nat, tombstone: bool, other: string)
    ensures Due(DeliverStep(s, name, upto, tombstone), other) <= Due(s, other)
  {
    hide Enqueue;
    var t := TrackOf(s, name);
    if t.seen < upto < |t.log| {
      var s1 := s.(tracks := s.tracks[name := TrackData(t.log, upto)]);
      ChangesSplit(t.log, t.seen, upto, |t.log| - 1);
      if Changes(t.log, t.seen, upto) == 0 {
        NoChanges(t.log, t.seen, upto);
      }
      var event := EventFor(t.log[t.seen], t.log[upto], tombstone);
      if event.Some? {
        EnqueueAdds(s1, Item(name, event.value), other);
      }
    }
  }

  lemma HandlePays(w: World, s: State, fate: Fate, name: string)
    requires Consistent(s) && s.worker.On?
    ensures Due(s, name) <= Due(Perform(w, s, Handle(fate)), name)
    ensures Due(Perform(w, s, Handle(fate)), name) <= Due(s, name) + if Causes(s, Handle(fate), name) then 1 else 0
  {
    hide Next;
    hide Perform;
    hide Consistent;
    hide Changes;
    var item, stage := s.worker.item, s.worker.stage;
    ConsistentHere(s);
    HandleShape(w, s, fate);
    WritesKeep(w, s, item, stage, fate);
    SyncMoves(w, s, item, fate);
    var o := Next(w, s, item, stage, fate).write;
    if o.Some? {
      UntoldAfterAppend(s, item.name, Some(Versioned(s, item.name, o.value)), name);
    }
    ItemsOfAppend(s.queue, item, name);
  }

  lemma SyncMoves(w: World, s: State, item: Item, fate: Fate)
    ensures Next(w, s, item, Sync, fate).next.None? <==> !fate.Answered?
  {
  }

  lemma UserPays(s: State, a: Action, name: string)
    requires a.Create? || a.Edit? || a.EditStatus? || a.Remove?
    ensures Due(UserStep(s, a), name) <= Due(s, name) + if Causes(s, a, name) then 1 else 0
  {
    hide Changes;
    forall o ensures Untold(TrackOf(Append(s, a.name, o), name))
         == Untold(TrackOf(s, name)) + if name == a.name && Differ(Current(s, a.name), o) then 1 else 0 {
      UntoldAfterAppend(s, a.name, o, name);
    }
  }

  /** No step but a cause makes more due, and each taking of an item makes less. */
  lemma StepPays(w: World, s: State, a: Action, name: string)
    requires Consistent(s)
    ensures Due(Perform(w, s, a), name) + (if Takes(s, a, name) then 1 else 0)
         <= Due(s, name) + if Causes(s, a, name) then 1 else 0
  {
    hide TrackOk;
    hide StageOk;
    hide HandleStep;
    hide UserStep;
    hide DeliverStep;
    if a.Handle? && s.worker.On? {
      HandlePays(w, s, a.fate, name);
    } else if a.Deliver? {
      DeliverPays(s, a.name, a.upto, a.tombstone, name);
    } else if !a.Handle? && !a.Take? {
      UserPays(s, a, name);
    }
  }

  /** A name is taken up no more often than users create it, delete it, or change
      its specification, and the lister fails on it: what the worker itself writes
      never brings a name back, however notifications are merged. */
  lemma {:induction false} HandlingsBounded(w: World, s: State, acts: seq<Action>, name: string)
    requires Consistent(s)
    ensures TakeCount(w, s, acts, name) + Due(Run(w, s, acts), name) <= Due(s, name) + CauseCount(w, s, acts, name)
  {
    hide Perform;
    hide Consistent;
    hide Due;
    if acts != [] {
      var front := acts[..|acts| - 1];
      HandlingsBounded(w, s, front, name);
      RunKeepsConsistent(w, s, front);
      StepPays(w, Run(w, s, front), acts[|acts| - 1], name);
    }
  }
}
