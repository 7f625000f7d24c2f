/** Whether the controller catches up with a resource. It does if nothing gets in
    its way; what gets in its way for good is shown by example. */
module Converging {
  import opened Text
  import opened Conditions
  import opened Reconcile
  import opened Installing
  import Store

  /** The conditions tell of a failure with the present specification, and of no
      success. */
  predicate ShowsFailed(o: Obj) {
    Failing(o.conditions) && Lookup(o.conditions, FAILED).value.generation == o.generation && !ShowsProcessed(o)
  }

  /** The stores and the conditions answer to the object as it is. An empty
      specification says nothing of the stores. */
  predicate Converged(w: World, s: State, o: Obj) {
    if o.spec == "" then ShowsFailed(o)
    else
      match w.parse(o.spec)
      case Malformed(_) => ShowsFailed(o) && Entry(s, o.uid).None?
      case Configuration(_) =>
        && ShowsProcessed(o) && Lookup(o.conditions, PROCESSED).value.generation == o.generation
        && Entry(s, o.uid) == Built(w, Decision(AddEvent, o.spec))
  }

  predicate WorkingOn(s: State, name: string) {
    s.worker.On? && s.worker.item.name == name
  }

  /** The worker has read the object and is about to write it. */
  predicate Between(s: State, name: string) {
    WorkingOn(s, name) &&
    (s.worker.stage.MetaPut? || s.worker.stage.FalsePut? || s.worker.stage.FailPut? || s.worker.stage.TruePut?)
  }

  predicate SameReports(cs: seq<Condition>, ds: seq<Condition>) {
    Lookup(cs, PROCESSED) == Lookup(ds, PROCESSED) && Lookup(cs, FAILED) == Lookup(ds, FAILED)
  }

  /** With respect to `name`: it is made once; and unless the informer or the queue
      has more of it in store, no edit that leaves the specification alone falls
      between the worker's reading and writing it, nobody else changes what the
      worker reports of it, no notification hides a change, and the calls the worker
      makes on its account are answered, the lister's excepted. */
  predicate Orderly(s: State, a: Action, name: string) {
    var t := TrackOf(s, name);
    var spare := Current(s, name).None? || Due(s, name) > 0;
    match a
    case Create(n, _, _, _) => n == name ==> |t.log| == 1
    case Edit(n, spec, _) => n == name ==> spare || spec != Current(s, name).value.spec || !Between(s, name)
    case EditStatus(n, conditions) =>
      n == name ==> spare || (SameReports(Current(s, name).value.conditions, conditions) && !Between(s, name))
    case Remove(_) => true
    case Deliver(n, upto, tombstone) =>
      n == name && t.seen < upto < |t.log| && Changes(t.log, t.seen, upto) > 0 ==>
        Current(s, name).None? || Due(DeliverStep(s, n, upto, tombstone), n) > 0
    case Take => true
    case Handle(fate) => WorkingOn(s, name) && !s.worker.stage.Sync? ==> spare || fate.Answered?
  }

  ghost predicate OrderlyRun(w: World, s: State, acts: seq<Action>, name: string) {
    forall i :: 0 <= i < |acts| ==> Orderly(Run(w, s, acts[..i]), acts[i], name)
  }

  /** What a worker that is not behind has yet to write. */
  predicate Underway(w: World, s: State, stage: Stage, o: Obj) {
    match stage
    case Sync => true
    case MetaGet => true
    case MetaPut(got) => got == o
    case FalseGet => true
    case FalsePut(got) => got == o
    case Decide(resource) => resource.uid == o.uid && resource.spec == o.spec && !ShowsProcessed(o)
    case FailGet(_) => Refused(w, s, o)
    case FailPut(_, got) => Refused(w, s, o) && got == o
    case TrueGet(_) => Accepted(w, s, o)
    case TruePut(_, got) => Accepted(w, s, o) && got == o
  }

  predicate Refused(w: World, s: State, o: Obj) {
    !ShowsProcessed(o) && (o.spec == "" || (w.parse(o.spec).Malformed? && Entry(s, o.uid).None?))
  }

  predicate Accepted(w: World, s: State, o: Obj) {
    o.spec != "" && w.parse(o.spec).Configuration? && Entry(s, o.uid) == Built(w, Decision(AddEvent, o.spec))
  }

  /** The name is made once, and its deletion told only when it is gone. */
  ghost predicate OneLife(s: State, name: string) {
    var log := TrackOf(s, name).log;
    && (forall i :: 0 < i < |log| - 1 ==> log[i].Some?)
    && (|log| == 1 ==> log[0].None?)
    && (Current(s, name).Some? ==>
          && Item(name, DeleteEvent) !in s.queue
          && (s.worker.On? ==> s.worker.item != Item(name, DeleteEvent)))
    && (Item(name, DeleteEvent) in s.queue || (s.worker.On? && s.worker.item == Item(name, DeleteEvent)) ==> |log| > 1)
  }

  /** Either more is to come for the name, or the worker is at it and up to date,
      or all is well. */
  ghost predicate CatchingUp(w: World, s: State, name: string) {
    Current(s, name).Some? ==>
      || Due(s, name) > 0
      || if WorkingOn(s, name) then Underway(w, s, s.worker.stage, Current(s, name).value)
         else Converged(w, s, Current(s, name).value)
  }

  // ---- Steps ----

  lemma HandleKeepsOneLife(w: World, s: State, fate: Fate, name: string)
    requires Consistent(s) && s.worker.On? && OneLife(s, name)
    ensures OneLife(Perform(w, s, Handle(fate)), name)
  {
    hide Next;
    hide Perform;
    hide Consistent;
    hide StoresAfter;
    var item, stage := s.worker.item, s.worker.stage;
    ConsistentHere(s);
    HandleShape(w, s, fate);
    WritesKeep(w, s, item, stage, fate);
  }

  lemma DeliverKeepsOneLife(s: State, name: string, upto: nat, tombstone: bool, other: string)
    requires OneLife(s, other)
    ensures OneLife(DeliverStep(s, name, upto, tombstone), other)
  {
  }

  lemma UserKeepsOneLife(s: State, a: Action, name: string)
    requires a.Create? || a.Edit? || a.EditStatus? || a.Remove?
    requires OneLife(s, name) && Orderly(s, a, name)
    ensures OneLife(UserStep(s, a), name)
  {
  }

  lemma StepKeepsOneLife(w: World, s: State, a: Action, name: string)
    requires Consistent(s) && OneLife(s, name) && Orderly(s, a, name)
    ensures OneLife(Perform(w, s, a), name)
  {
    hide Consistent;
    hide HandleStep;
    hide UserStep;
    hide DeliverStep;
    if a.Handle? && s.worker.On? {
      HandleKeepsOneLife(w, s, a.fate, name);
    } else if a.Deliver? {
      DeliverKeepsOneLife(s, a.name, a.upto, a.tombstone, name);
    } else if !a.Handle? && !a.Take? {
      UserKeepsOneLife(s, a, name);
    }
  }

  lemma ReportsShow(o: Obj, e: Event, why: string)
    ensures ShowsProcessed(Succeeded(o, e))
    ensures Lookup(Succeeded(o, e).conditions, PROCESSED).value.generation == o.generation
    ensures Succeeded(o, e) == o.(conditions := Succeeded(o, e).conditions)
    ensures Failed(o, why) == o.(conditions := Failed(o, why).conditions)
    ensures Failing(Failed(o, why).conditions)
    ensures Lookup(Failed(o, why).conditions, FAILED).value.generation == o.generation
  {
    hide ReasonFor;
    hide HintFor;
    hide Put;
    var success := Conditions.Report(PROCESSED, STATUS_TRUE, "Event handler successfully processed event: " + EventText(e));
    var failure := Conditions.Report(FAILED, STATUS_TRUE, why);
    var c1, c2 := Dress(Call(o.generation, success)), Dress(Call(o.generation, failure));
    PutIsUpdate(o.conditions, c1);
    PutIsUpdate(o.conditions, c2);
    assert Succeeded(o, e).conditions == Put(o.conditions, c1);
    assert Failed(o, why).conditions == Put(o.conditions, c2);
  }

  /** A worker that is not behind stays so, and ends up with all well. */
  lemma UnderwayMoves(w: World, s: State, fate: Fate)
    requires Consistent(s) && s.worker.On? && (fate.Answered? || s.worker.stage.Sync?)
    requires !s.worker.item.event.DeleteEvent?
    requires Current(s, s.worker.item.name).Some?
    requires Underway(w, s, s.worker.stage, Current(s, s.worker.item.name).value)
    ensures var s', name := Perform(w, s, Handle(fate)), s.worker.item.name;
            && Current(s', name).Some?
            && (s'.worker.On? ==> s'.worker.item == s.worker.item && Underway(w, s', s'.worker.stage, Current(s', name).value))
            && (s'.worker.Idle? && fate.Answered? ==> Converged(w, s', Current(s', name).value))
  {
    hide Consistent;
    hide TrackOk;
    hide Perform;
    hide Noted;
    hide Stamp;
    hide Received;
    hide Succeeded;
    hide Failed;
    hide Failing;
    hide ShowsProcessed;
    var item, stage := s.worker.item, s.worker.stage;
    ConsistentHere(s);
    HandleShape(w, s, fate);
    WritesKeep(w, s, item, stage, fate);
    WriteShows(w, s, item, stage, fate);
    if stage.FailPut? || stage.TruePut? {
      ReportsShow(stage.got, item.event, if stage.FailPut? then stage.why else "");
      VersionedShows(s, item.name, Succeeded(stage.got, item.event));
    }
  }

  /** Whether all is well depends on the object and its stores only. */
  lemma SameEntry(w: World, s: State, s': State, o: Obj)
    requires Entry(s, o.uid) == Entry(s', o.uid)
    ensures Converged(w, s', o) == Converged(w, s, o)
    ensures forall stage :: Underway(w, s', stage, o) == Underway(w, s, stage, o)
  {
    hide ShowsProcessed;
    hide Failing;
    hide Built;
    hide Entry;
  }

  /** Nor does it depend on labels, or on conditions other than the worker's. */
  lemma SameStanding(w: World, s: State, o: Obj, p: Obj)
    requires p.uid == o.uid && p.spec == o.spec && p.generation == o.generation
    requires SameReports(o.conditions, p.conditions)
    ensures Converged(w, s, p) == Converged(w, s, o)
    ensures forall stage: Stage :: !stage.MetaPut? && !stage.FalsePut? && !stage.FailPut? && !stage.TruePut? ==>
              Underway(w, s, stage, p) == Underway(w, s, stage, o)
  {
    hide Built;
    hide Entry;
    hide Lookup;
  }

  lemma HandleKeepsUp(w: World, s: State, fate: Fate, name: string)
    requires Consistent(s) && s.worker.On? && OneLife(s, name) && CatchingUp(w, s, name) && Orderly(s, Handle(fate), name)
    ensures CatchingUp(w, Perform(w, s, Handle(fate)), name)
  {
    hide Consistent;
    hide TrackOk;
    hide Perform;
    hide Next;
    hide Entry;
    hide Underway;
    hide Converged;
    hide Decides;
    hide Due;
    var item, stage := s.worker.item, s.worker.stage;
    var s' := Perform(w, s, Handle(fate));
    ConsistentHere(s);
    HandleShape(w, s, fate);
    HandlePays(w, s, fate, name);
    WritesKeep(w, s, item, stage, fate);
    if Current(s, name).Some? && Due(s, name) == 0 {
      var o := Current(s, name).value;
      if item.name == name {
        SyncMoves(w, s, item, fate);
        if fate.Answered? || !stage.Sync? {
          UnderwayMoves(w, s, fate);
        } else {
          RequeuedIsDue(s, s');
        }
      } else {
        assert TrackOf(s', name) == TrackOf(s, name) && Current(s', name) == Current(s, name);
        CurrentIsOwned(s);
        OtherStores(w, s, fate, o.uid);
        SameEntry(w, s, s', o);
      }
    }
  }

  lemma RequeuedIsDue(s: State, s': State)
    requires s.worker.On? && s'.queue == s.queue + [s.worker.item]
    ensures Due(s', s.worker.item.name) > 0
  {
    QueuedIsCounted(s'.queue, s.worker.item);
  }

  lemma OtherStores(w: World, s: State, fate: Fate, uid: string)
    requires Consistent(s) && s.worker.On? && uid in s.owner && s.owner[uid] != s.worker.item.name
    ensures Entry(Perform(w, s, Handle(fate)), uid) == Entry(s, uid)
  {
    hide Consistent;
    hide Perform;
    hide Entry;
    hide Built;
    StepStores(w, s, Handle(fate), uid);
    ConsistentHere(s);
    if s.worker.stage.Decide? {
      HeldIsOwned(s, s.worker.item.name, s.worker.stage.resource);
    }
  }

  lemma DeliverKeepsUp(w: World, s: State, name: string, upto: nat, tombstone: bool, other: string)
    requires Consistent(s) && CatchingUp(w, s, other) && Orderly(s, Deliver(name, upto, tombstone), other)
    ensures CatchingUp(w, DeliverStep(s, name, upto, tombstone), other)
  {
    hide Consistent;
    hide DeliverStep;
    hide Due;
    hide Underway;
    hide Converged;
    var s' := DeliverStep(s, name, upto, tombstone);
    DeliverFrame(s, name, upto, tombstone);
    DeliverDue(s, name, upto, tombstone, other);
    assert TrackOf(s', other).log == TrackOf(s, other).log;
    if Current(s, other).Some? {
      SameEntry(w, s, s', Current(s, other).value);
    }
  }

  /** A notification that hides no change leaves as much due as before. */
  lemma DeliverDue(s: State, name: string, upto: nat, tombstone: bool, other: string)
    ensures var t, s' := TrackOf(s, name), DeliverStep(s, name, upto, tombstone);
            name != other || !(t.seen < upto < |t.log|) || Changes(t.log, t.seen, upto) == 0 ==>
              Due(s, other) <= Due(s', other)
  {
    hide Enqueue;
    var t := TrackOf(s, name);
    if t.seen < upto < |t.log| {
      var s1 := s.(tracks := s.tracks[name := TrackData(t.log, upto)]);
      var event := EventFor(t.log[t.seen], t.log[upto], tombstone);
      if event.Some? {
        EnqueueAdds(s1, Item(name, event.value), other);
      }
      ChangesSplit(t.log, t.seen, upto, |t.log| - 1);
    }
  }

  lemma UserKeepsUp(w: World, s: State, a: Action, name: string)
    requires a.Create? || a.Edit? || a.EditStatus? || a.Remove?
    requires Consistent(s) && OneLife(s, name) && CatchingUp(w, s, name) && Orderly(s, a, name)
    ensures CatchingUp(w, Perform(w, s, a), name)
  {
    hide Consistent;
    hide TrackOk;
    hide Underway;
    hide Converged;
    hide SameReports;
    hide Changes;
    hide UserStep;
    var s' := Perform(w, s, a);
    OthersFrame(w, s, a);
    UserDue(w, s, a, name);
    var before, after := Current(s, name), Current(s', name);
    if before.Some? && after.Some? && Due(s', name) == 0 {
      SameEntry(w, s, s', before.value);
      SameEntry(w, s, s', after.value);
      if a.name == name {
        SameStanding(w, s, before.value, after.value);
      }
    }
  }

  /** What a user's step leaves due, and what it may change if that is nothing. */
  lemma OwnUserDue(w: World, s: State, a: Action, name: string)
    requires a.Create? || a.Edit? || a.EditStatus? || a.Remove?
    requires Orderly(s, a, name) && a.name == name
    ensures var s' := Perform(w, s, a);
            var before, after := Current(s, name), Current(s', name);
            && Due(s, name) <= Due(s', name)
            && (before.None? && after.Some? ==> Due(s', name) > 0)
            && (a.name != name ==> after == before)
            && (before.Some? && after.Some? && Due(s', name) == 0 && a.name == name ==>
                  && after.value.uid == before.value.uid && after.value.spec == before.value.spec
                  && after.value.generation == before.value.generation
                  && SameReports(before.value.conditions, after.value.conditions)
                  && (after == before || !Between(s, name)))
  {
    hide Changes;
    hide Lookup;
    hide HandleStep;
    hide DeliverStep;
    forall o ensures Untold(TrackOf(Append(s, name, o), name))
                  == Untold(TrackOf(s, name)) + if Differ(Current(s, name), o) then 1 else 0 {
      UntoldAfterAppend(s, name, o, name);
    }
  }

  lemma UserDue(w: World, s: State, a: Action, name: string)
    requires a.Create? || a.Edit? || a.EditStatus? || a.Remove?
    requires Orderly(s, a, name)
    ensures var s' := Perform(w, s, a);
            var before, after := Current(s, name), Current(s', name);
            && Due(s, name) <= Due(s', name)
            && (before.None? && after.Some? ==> Due(s', name) > 0)
            && (a.name != name ==> after == before)
            && (before.Some? && after.Some? && Due(s', name) == 0 && a.name == name ==>
                  && after.value.uid == before.value.uid && after.value.spec == before.value.spec
                  && after.value.generation == before.value.generation
                  && SameReports(before.value.conditions, after.value.conditions)
                  && (after == before || !Between(s, name)))
  {
    hide Orderly;
    hide Perform;
    hide Untold;
    hide Lookup;
    if a.name == name {
      OwnUserDue(w, s, a, name);
    } else {
      OthersFrame(w, s, a);
      assert TrackOf(Perform(w, s, a), name) == TrackOf(s, name);
    }
  }

  lemma StepKeepsUp(w: World, s: State, a: Action, name: string)
    requires Consistent(s) && OneLife(s, name) && CatchingUp(w, s, name) && Orderly(s, a, name)
    ensures CatchingUp(w, Perform(w, s, a), name)
  {
    hide TrackOk;
    hide StageOk;
    hide HandleStep;
    hide UserStep;
    hide DeliverStep;
    hide Converged;
    if a.Handle? && s.worker.On? {
      HandleKeepsUp(w, s, a.fate, name);
    } else if a.Deliver? {
      DeliverKeepsUp(w, s, a.name, a.upto, a.tombstone, name);
    } else if a.Take? && s.worker.Idle? && s.queue != [] {
      var s' := Perform(w, s, a);
      assert TrackOf(s', name) == TrackOf(s, name);
      if Current(s, name).Some? {
        SameEntry(w, s, s', Current(s, name).value);
      }
    } else if !a.Handle? && !a.Take? {
      UserKeepsUp(w, s, a, name);
    }
  }

  // ---- Runs ----

  lemma {:induction false} StaysCatchingUp(w: World, acts: seq<Action>, name: string)
    requires OrderlyRun(w, START, acts, name)
    ensures var s := Run(w, START, acts); Consistent(s) && OneLife(s, name) && CatchingUp(w, s, name)
  {
    hide Perform;
    hide Consistent;
    hide OneLife;
    hide CatchingUp;
    hide Orderly;
    if acts == [] {
      StartCatchesUp(w, name);
    } else {
      var front, a := acts[..|acts| - 1], acts[|acts| - 1];
      forall i | 0 <= i < |front| ensures Orderly(Run(w, START, front[..i]), front[i], name) {
        assert front[..i] == acts[..i];
      }
      StaysCatchingUp(w, front, name);
      var s := Run(w, START, front);
      PerformKeepsConsistent(w, s, a);
      StepKeepsOneLife(w, s, a, name);
      StepKeepsUp(w, s, a, name);
    }
  }

  lemma StartCatchesUp(w: World, name: string)
    ensures Consistent(START) && OneLife(START, name) && CatchingUp(w, START, name)
  {
  }

  /** After an orderly run, when nothing more is due for a resource, its stores are
      those its present specification asks for and its conditions say so. Of an empty
      specification only the conditions tell: the stores are those of the last
      decision. */
  lemma {:induction false} OrderlyRunsConverge(w: World, acts: seq<Action>, name: string)
    requires OrderlyRun(w, START, acts, name)
    requires var s := Run(w, START, acts);
             Current(s, name).Some? && Due(s, name) == 0 && !WorkingOn(s, name)
    ensures var s := Run(w, START, acts); Converged(w, s, Current(s, name).value)
    ensures var s, h := Run(w, START, acts), Decisions(w, START, acts);
            var uid := Current(s, name).value.uid;
            Entry(s, uid) == if uid in h then Built(w, h[uid]) else None
  {
    hide Run;
    hide Due;
    hide Built;
    StaysCatchingUp(w, acts, name);
    StoresFollowDecisions(w, START, acts, Current(Run(w, START, acts), name).value.uid);
  }
}
