/** What the UID-to-stores map holds over whole runs, and what a resource's
    conditions say about it. */
module Installing {
  import opened Text
  import opened Conditions
  import opened Reconcile
  import Store

  /** What the worker went by when it last rebuilt or dropped the stores of a UID. */
  datatype Decision = Decision(event: Event, spec: string)

  /** What a decision leaves under its UID. */
  function Built(w: World, d: Decision): Option<seq<Store.StoreConfig>> {
    if d.event.DeleteEvent? then None
    else
      match w.parse(d.spec)
      case Malformed(_) => None
      case Configuration(configs) => if configs == [] then None else Some(configs)
  }

  function Entry(s: State, uid: string): Option<seq<Store.StoreConfig>> {
    if uid in s.stores then Some(s.stores[uid]) else None
  }

  /** The worker gets past its metadata and status writes and the check for an
      empty configuration. */
  predicate Decides(s: State, a: Action) {
    a.Handle? && s.worker.On? && s.worker.stage.Decide? && s.worker.stage.resource.spec != ""
    && !s.worker.item.event.Unknown?
  }

  function Decided(s: State, a: Action, h: map<string, Decision>): map<string, Decision> {
    if Decides(s, a) then
      h[s.worker.stage.resource.uid := Decision(s.worker.item.event, s.worker.stage.resource.spec)]
    else h
  }

  /** The last decision of a run on each UID. */
  function Decisions(w: World, s: State, acts: seq<Action>): map<string, Decision> {
    if acts == [] then map[]
    else
      var front := acts[..|acts| - 1];
      Decided(Run(w, s, front), acts[|acts| - 1], Decisions(w, s, front))
  }

  lemma StepStores(w: World, s: State, a: Action, uid: string)
    ensures Entry(Perform(w, s, a), uid) ==
            if Decides(s, a) && s.worker.stage.resource.uid == uid
            then Built(w, Decision(s.worker.item.event, s.worker.stage.resource.spec))
            else Entry(s, uid)
  {
    hide Next;
    hide HandleStep;
    if a.Handle? && s.worker.On? {
      HandleShape(w, s, a.fate);
    }
  }

  /** After any run the stores of a UID are those of the last decision on it, and
      untouched if there was none: handlings that fail before that, and handlings
      of other resources, change nothing. */
  lemma {:induction false} StoresFollowDecisions(w: World, s: State, acts: seq<Action>, uid: string)
    ensures Entry(Run(w, s, acts), uid) ==
            if uid in Decisions(w, s, acts) then Built(w, Decisions(w, s, acts)[uid]) else Entry(s, uid)
  {
    hide Perform;
    hide Entry;
    hide Built;
    hide Decides;
    if acts != [] {
      var front := acts[..|acts| - 1];
      StoresFollowDecisions(w, s, front, uid);
      StepStores(w, Run(w, s, front), acts[|acts| - 1], uid);
    }
  }

  // ---- Stores of objects that are gone ----

  /** `uid` was given out, no object has it any more, and the worker is not about
      to decide on it. */
  ghost predicate Gone(s: State, uid: string) {
    && uid in s.owner
    && (Current(s, s.owner[uid]).Some? ==> Current(s, s.owner[uid]).value.uid != uid)
    && (s.worker.On? && s.worker.stage.Decide? ==> s.worker.stage.resource.uid != uid)
  }

  lemma HandleKeepsGone(w: World, s: State, fate: Fate, uid: string)
    requires Consistent(s) && s.worker.On? && Gone(s, uid)
    ensures Gone(Perform(w, s, Handle(fate)), uid)
  {
    hide Next;
    hide Perform;
    hide Consistent;
    hide StoresAfter;
    var item, stage := s.worker.item, s.worker.stage;
    ConsistentHere(s);
    HandleShape(w, s, fate);
    WritesKeep(w, s, item, stage, fate);
    DecidesOnWritten(w, s, item, stage, fate);
  }

  lemma DecidesOnWritten(w: World, s: State, item: Item, stage: Stage, fate: Fate)
    ensures var m := Next(w, s, item, stage, fate);
            m.next.Some? && m.next.value.Decide? ==>
              m.write.Some? && m.next.value.resource == Versioned(s, item.name, m.write.value)
  {
  }

  /** Nothing drops the stores of an object that is gone: a delete event's handling
      ends at its first call, for want of an object. */
  lemma {:induction false} StoresOutliveTheirObject(w: World, s: State, acts: seq<Action>, uid: string)
    requires Consistent(s) && Gone(s, uid)
    ensures Gone(Run(w, s, acts), uid) && Entry(Run(w, s, acts), uid) == Entry(s, uid)
  {
    hide HandleStep;
    hide Consistent;
    if acts != [] {
      var front, a := acts[..|acts| - 1], acts[|acts| - 1];
      StoresOutliveTheirObject(w, s, front, uid);
      RunKeepsConsistent(w, s, front);
      GoneStays(w, Run(w, s, front), a, uid);
    }
  }

  lemma GoneStays(w: World, s: State, a: Action, uid: string)
    requires Consistent(s) && Gone(s, uid)
    ensures Gone(Perform(w, s, a), uid) && Entry(Perform(w, s, a), uid) == Entry(s, uid)
  {
    hide HandleStep;
    hide UserStep;
    hide DeliverStep;
    hide Consistent;
    StepStores(w, s, a, uid);
    if a.Handle? && s.worker.On? {
      HandleKeepsGone(w, s, a.fate, uid);
    } else if !a.Handle? && !a.Take? {
      OthersFrame(w, s, a);
      if !a.Deliver? {
        UserKeepsGone(s, a, uid);
      }
    }
  }

  lemma UserKeepsGone(s: State, a: Action, uid: string)
    requires a.Create? || a.Edit? || a.EditStatus? || a.Remove?
    requires Gone(s, uid)
    ensures Gone(UserStep(s, a), uid)
  {
  }

  // ---- What Processed means ----

  predicate ShowsProcessed(o: Obj) {
    Lookup(o.conditions, PROCESSED).Some? && Lookup(o.conditions, PROCESSED).value.status == STATUS_TRUE
  }

  /** The decision went through to the end. */
  predicate Sound(w: World, d: Decision) {
    d.event.DeleteEvent? || w.parse(d.spec).Configuration?
  }

  predicate Installed(w: World, h: map<string, Decision>, uid: string) {
    uid in h && Sound(w, h[uid])
  }

  /** Every resource that shows as processed has been decided on soundly. */
  ghost predicate Honest(w: World, s: State, h: map<string, Decision>) {
    forall name :: Current(s, name).Some? && ShowsProcessed(Current(s, name).value) ==>
      Installed(w, h, Current(s, name).value.uid)
  }

  ghost predicate WorkerHonest(w: World, s: State, h: map<string, Decision>) {
    s.worker.On? ==>
      match s.worker.stage
      case Decide(resource) =>
        var current := Current(s, s.worker.item.name);
        current.Some? && current.value.uid == resource.uid ==> !ShowsProcessed(current.value)
      case TrueGet(resource) => Installed(w, h, resource.uid)
      case TruePut(resource, _) => Installed(w, h, resource.uid)
      case _ => true
  }

  /** Someone else reports the resource as processed. */
  predicate Forges(s: State, a: Action) {
    a.EditStatus? && Current(s, a.name).Some? && ShowsProcessed(Current(s, a.name).value.(conditions := a.conditions))
  }

  /** Success on one object is written to another, made under its name meanwhile. */
  predicate Crosses(s: State, a: Action) {
    a.Handle? && s.worker.On? && s.worker.stage.TruePut?
    && Accepts(s, s.worker.item.name, s.worker.stage.got, a.fate)
    && s.worker.stage.got.uid != s.worker.stage.resource.uid
  }

  lemma StatusAfterWrite(w: World, o: Obj, e: Event, why: string)
    ensures !ShowsProcessed(Received(o, e)) && ShowsProcessed(Succeeded(o, e))
    ensures ShowsProcessed(Failed(o, why)) == ShowsProcessed(o)
    ensures ShowsProcessed(Stamp(w, o)) == ShowsProcessed(o)
  {
    var kept, holds, failed := Received(o, e), Succeeded(o, e), Failed(o, why);
    hide ReasonFor;
    hide HintFor;
    hide Put;
    var received := Conditions.Report(PROCESSED, STATUS_FALSE, "Event handler received event: " + EventText(e));
    var success := Conditions.Report(PROCESSED, STATUS_TRUE, "Event handler successfully processed event: " + EventText(e));
    var failure := Conditions.Report(FAILED, STATUS_TRUE, why);
    var c0, c1 := Dress(Call(o.generation, received)), Dress(Call(o.generation, success));
    var c2 := Dress(Call(o.generation, failure));
    PutIsUpdate(o.conditions, c0);
    PutIsUpdate(o.conditions, c1);
    PutIsUpdate(o.conditions, c2);
    assert kept.conditions == Put(o.conditions, c0) && holds.conditions == Put(o.conditions, c1);
    assert failed.conditions == Put(o.conditions, c2);
  }

  lemma VersionedShows(s: State, name: string, o: Obj)
    ensures ShowsProcessed(Versioned(s, name, o)) == ShowsProcessed(o)
  {
  }

  lemma CurrentIsOwned(s: State)
    requires Consistent(s)
    ensures forall name :: Current(s, name).Some? ==>
              Current(s, name).value.uid in s.owner && s.owner[Current(s, name).value.uid] == name
  {
    forall name | Current(s, name).Some?
      ensures Current(s, name).value.uid in s.owner && s.owner[Current(s, name).value.uid] == name {
      assert TrackOk(s, name);
    }
  }

  /** Whatever a decision leads to, the resource is then settled, and only soundly
      so if success is about to be reported. */
  lemma DecisionSettles(w: World, s: State, fate: Fate, h: map<string, Decision>)
    requires s.worker.On? && s.worker.stage.Decide? && !s.worker.item.event.Unknown?
    ensures var h', item, resource := Decided(s, Handle(fate), h), s.worker.item, s.worker.stage.resource;
            && Next(w, s, item, s.worker.stage, fate) == Move(None, Some(NextAfter(w, item.event, resource)))
            && (NextAfter(w, item.event, resource) == TrueGet(resource) ==> Installed(w, h', resource.uid))
            && (NextAfter(w, item.event, resource) == TrueGet(resource) || NextAfter(w, item.event, resource).FailGet?)
            && forall u :: u != resource.uid ==> Installed(w, h', u) == Installed(w, h, u)
  {
  }

  /** What a write does to the condition of the current object. */
  lemma WriteShows(w: World, s: State, item: Item, stage: Stage, fate: Fate)
    requires TrackOk(s, item.name) && StageOk(s, item.name, stage)
    ensures var m := Next(w, s, item, stage, fate);
            && (m.write.Some? ==>
                  && Current(s, item.name).Some?
                  && var v := Versioned(s, item.name, m.write.value);
                     && v.uid == Current(s, item.name).value.uid
                     && (stage.FalsePut? ==> !ShowsProcessed(v))
                     && (stage.TruePut? ==> Accepts(s, item.name, stage.got, fate) && v.uid == stage.got.uid)
                     && (!stage.FalsePut? && !stage.TruePut? ==>
                           ShowsProcessed(v) == ShowsProcessed(Current(s, item.name).value)))
            && (m.next.Some? && m.next.value.Decide? ==>
                  stage.FalsePut? && m.write.Some? && m.next.value.resource == Versioned(s, item.name, m.write.value))
            && (m.next.Some? && m.next.value.TrueGet? ==> stage.Decide? && m.next.value.resource == stage.resource)
            && (m.next.Some? && m.next.value.TruePut? ==> stage.TrueGet? && m.next.value.resource == stage.resource)
  {
    hide Stamp;
    hide Noted;
    hide ShowsProcessed;
    hide Received;
    hide Succeeded;
    hide Failed;
    WritesKeep(w, s, item, stage, fate);
    var m := Next(w, s, item, stage, fate);
    if m.write.Some? {
      VersionedShows(s, item.name, m.write.value);
      AcceptedIsCurrent(s, item.name, stage.got, fate);
      StatusAfterWrite(w, stage.got, item.event, if stage.FailPut? then stage.why else "");
    }
  }

  lemma HandleKeepsHonest(w: World, s: State, fate: Fate, h: map<string, Decision>)
    requires Consistent(s) && s.worker.On? && Honest(w, s, h) && WorkerHonest(w, s, h)
    requires !Crosses(s, Handle(fate))
    ensures var s', h' := Perform(w, s, Handle(fate)), Decided(s, Handle(fate), h);
            Honest(w, s', h') && WorkerHonest(w, s', h')
  {
    hide Next;
    hide NextAfter;
    hide Perform;
    hide Consistent;
    hide TrackOk;
    hide StoresAfter;
    hide ShowsProcessed;
    hide Installed;
    var item, stage := s.worker.item, s.worker.stage;
    ConsistentHere(s);
    HandleShape(w, s, fate);
    WriteShows(w, s, item, stage, fate);
    CurrentIsOwned(s);
    if stage.Decide? {
      DecisionSettles(w, s, fate, h);
      HeldIsOwned(s, item.name, stage.resource);
    }
    var s', o := Perform(w, s, Handle(fate)), Next(w, s, item, stage, fate).write;
    forall name
      ensures Current(s', name) ==
              if name == item.name && o.Some? then Some(Versioned(s, name, o.value)) else Current(s, name) {
    }
  }

  lemma OthersKeepHonest(w: World, s: State, a: Action, h: map<string, Decision>)
    requires Consistent(s) && Honest(w, s, h) && WorkerHonest(w, s, h)
    requires !a.Handle? && !Forges(s, a)
    ensures Honest(w, Perform(w, s, a), h) && WorkerHonest(w, Perform(w, s, a), h)
  {
    hide HandleStep;
    hide DeliverStep;
    hide Installed;
    hide ShowsProcessed;
    if a.Deliver? {
      OthersFrame(w, s, a);
      var s' := Perform(w, s, a);
      forall name ensures Current(s', name) == Current(s, name) {
        assert TrackOf(s', name).log == TrackOf(s, name).log;
      }
    } else if a.Take? {
      forall name ensures Current(Perform(w, s, a), name) == Current(s, name) {
      }
    } else {
      hide Perform;
      hide Current;
      OthersFrame(w, s, a);
      UserShows(w, s, a);
    }
  }

  /** What users do to the condition of an object. */
  lemma UserShows(w: World, s: State, a: Action)
    requires a.Create? || a.Edit? || a.EditStatus? || a.Remove?
    requires !Forges(s, a)
    ensures var before, after := Current(s, a.name), Current(Perform(w, s, a), a.name);
            after.Some? && ShowsProcessed(after.value) ==>
              before.Some? && ShowsProcessed(before.value) && after.value.uid == before.value.uid
    ensures forall name :: name != a.name ==> Current(Perform(w, s, a), name) == Current(s, name)
  {
  }

  /** No one forges the condition, and no success crosses to another object. */
  ghost predicate Undisturbed(w: World, s: State, acts: seq<Action>) {
    forall i :: 0 <= i < |acts| ==>
      !Forges(Run(w, s, acts[..i]), acts[i]) && !Crosses(Run(w, s, acts[..i]), acts[i])
  }

  lemma {:induction false} StaysHonest(w: World, acts: seq<Action>)
    requires Undisturbed(w, START, acts)
    ensures var s, h := Run(w, START, acts), Decisions(w, START, acts);
            Consistent(s) && Honest(w, s, h) && WorkerHonest(w, s, h)
  {
    hide Perform;
    hide Consistent;
    hide Honest;
    hide WorkerHonest;
    hide Forges;
    hide Crosses;
    hide Decided;
    if acts == [] {
      StartIsHonest(w);
    } else {
      var front, a := acts[..|acts| - 1], acts[|acts| - 1];
      forall i | 0 <= i < |front|
        ensures !Forges(Run(w, START, front[..i]), front[i]) && !Crosses(Run(w, START, front[..i]), front[i]) {
        assert front[..i] == acts[..i];
      }
      StaysHonest(w, front);
      PerformKeepsConsistent(w, Run(w, START, front), a);
      StepKeepsHonest(w, Run(w, START, front), a, Decisions(w, START, front));
    }
  }

  lemma StartIsHonest(w: World)
    ensures Consistent(START) && Honest(w, START, map[]) && WorkerHonest(w, START, map[])
  {
  }

  lemma StepKeepsHonest(w: World, s: State, a: Action, h: map<string, Decision>)
    requires Consistent(s) && Honest(w, s, h) && WorkerHonest(w, s, h) && !Forges(s, a) && !Crosses(s, a)
    ensures Honest(w, Perform(w, s, a), Decided(s, a, h)) && WorkerHonest(w, Perform(w, s, a), Decided(s, a, h))
  {
    hide Consistent;
    hide Honest;
    hide WorkerHonest;
    hide Forges;
    hide Crosses;
    hide HandleStep;
    if !a.Handle? {
      OthersKeepHonest(w, s, a, h);
    } else if s.worker.On? {
      HandleKeepsHonest(w, s, a.fate, h);
    }
  }

  /** If undisturbed, a resource that shows as processed has exactly the stores that
      the last decision on it built, and that decision was sound. */
  lemma {:induction false} ProcessedMeansInstalled(w: World, acts: seq<Action>, name: string)
    requires Undisturbed(w, START, acts)
    ensures var s, h := Run(w, START, acts), Decisions(w, START, acts);
            Current(s, name).Some? && ShowsProcessed(Current(s, name).value) ==>
              var uid := Current(s, name).value.uid;
              uid in h && Sound(w, h[uid]) && Entry(s, uid) == Built(w, h[uid])
  {
    hide Perform;
    hide Consistent;
    hide ShowsProcessed;
    hide Sound;
    hide Built;
    hide Entry;
    StaysHonest(w, acts);
    var s := Run(w, START, acts);
    if Current(s, name).Some? {
      StoresFollowDecisions(w, START, acts, Current(s, name).value.uid);
      assert Entry(START, Current(s, name).value.uid).None? by {
        NothingAtStart(Current(s, name).value.uid);
      }
    }
  }

  lemma NothingAtStart(uid: string)
    ensures Entry(START, uid).None?
  {
  }

  /** The exact case in which reporting success is honest: it goes to the object
      decided on, or to one that was soundly decided on itself. */
  lemma SuccessIsHonestExactly(w: World, s: State, h: map<string, Decision>, fate: Fate)
    requires Consistent(s) && Honest(w, s, h) && WorkerHonest(w, s, h)
    requires s.worker.On? && s.worker.stage.TruePut? && Accepts(s, s.worker.item.name, s.worker.stage.got, fate)
    ensures Honest(w, Perform(w, s, Handle(fate)), h) <==>
            s.worker.stage.got.uid == s.worker.stage.resource.uid || Installed(w, h, s.worker.stage.got.uid)
  {
    hide Perform;
    hide Consistent;
    hide Honest;
    hide Installed;
    WriteLies(w, s, fate, h);
  }

  // ---- Exactly when runs are honest ----

  /** Someone reports as processed what was not soundly decided on. */
  predicate ForgesFalsely(w: World, s: State, a: Action, h: map<string, Decision>) {
    Forges(s, a) && !Installed(w, h, Current(s, a.name).value.uid)
  }

  /** Success arrives at an object that was not soundly decided on. */
  predicate SucceedsFalsely(w: World, s: State, a: Action, h: map<string, Decision>) {
    a.Handle? && s.worker.On? && s.worker.stage.TruePut?
    && Accepts(s, s.worker.item.name, s.worker.stage.got, a.fate) && !Installed(w, h, s.worker.stage.got.uid)
  }

  /** A decision fails on an object that shows as processed at that moment. */
  predicate FailsShown(w: World, s: State, a: Action) {
    Decides(s, a) && !Sound(w, Decision(s.worker.item.event, s.worker.stage.resource.spec))
    && var current := Current(s, s.worker.item.name);
       current.Some? && current.value.uid == s.worker.stage.resource.uid && ShowsProcessed(current.value)
  }

  predicate Lies(w: World, s: State, a: Action, h: map<string, Decision>) {
    ForgesFalsely(w, s, a, h) || SucceedsFalsely(w, s, a, h) || FailsShown(w, s, a)
  }

  /** What a user's step shows: only a forged status shows what was not shown. */
  lemma UserLies(w: World, s: State, a: Action, h: map<string, Decision>)
    requires (a.Create? || a.Edit? || a.EditStatus? || a.Remove?) && Honest(w, s, h)
    ensures Honest(w, Perform(w, s, a), h) <==> !ForgesFalsely(w, s, a, h)
  {
    hide HandleStep;
    hide DeliverStep;
    hide Installed;
    var s' := Perform(w, s, a);
    if Forges(s, a) {
      hide ShowsProcessed;
      var forged := Versioned(s, a.name, Current(s, a.name).value.(conditions := a.conditions));
      VersionedShows(s, a.name, Current(s, a.name).value.(conditions := a.conditions));
      forall name ensures Current(s', name) == if name == a.name then Some(forged) else Current(s, name) {
      }
    } else {
      UserShows(w, s, a);
      hide Perform;
      hide Current;
    }
  }

  lemma SameObjects(w: World, s: State, s': State, h: map<string, Decision>)
    requires forall name :: Current(s', name) == Current(s, name)
    ensures Honest(w, s', h) <==> Honest(w, s, h)
  {
    hide Current;
  }

  lemma WriteLies(w: World, s: State, fate: Fate, h: map<string, Decision>)
    requires Consistent(s) && s.worker.On? && !s.worker.stage.Decide? && Honest(w, s, h)
    ensures Honest(w, Perform(w, s, Handle(fate)), h) <==> !SucceedsFalsely(w, s, Handle(fate), h)
  {
    hide Next;
    hide Perform;
    hide Consistent;
    hide TrackOk;
    hide ShowsProcessed;
    hide Installed;
    var item, stage := s.worker.item, s.worker.stage;
    ConsistentHere(s);
    HandleShape(w, s, fate);
    WriteShows(w, s, item, stage, fate);
    var s', o := Perform(w, s, Handle(fate)), Next(w, s, item, stage, fate).write;
    forall name
      ensures Current(s', name) ==
              if name == item.name && o.Some? then Some(Versioned(s, name, o.value)) else Current(s, name) {
    }
    if stage.TruePut? && Accepts(s, item.name, stage.got, fate) {
      SuccessWrites(w, s, item, stage, fate);
    }
  }

  lemma SuccessWrites(w: World, s: State, item: Item, stage: Stage, fate: Fate)
    requires stage.TruePut? && Accepts(s, item.name, stage.got, fate)
    ensures var o := Next(w, s, item, stage, fate).write;
            o.Some? && ShowsProcessed(Versioned(s, item.name, o.value))
  {
    hide ShowsProcessed;
    hide Succeeded;
    StatusAfterWrite(w, stage.got, item.event, "");
    VersionedShows(s, item.name, Succeeded(stage.got, item.event));
  }

  lemma DecisionLies(w: World, s: State, fate: Fate, h: map<string, Decision>)
    requires Consistent(s) && s.worker.On? && s.worker.stage.Decide? && Honest(w, s, h)
    ensures Honest(w, Perform(w, s, Handle(fate)), Decided(s, Handle(fate), h)) <==> !FailsShown(w, s, Handle(fate))
  {
    hide Next;
    hide Perform;
    hide Consistent;
    hide TrackOk;
    hide StoresAfter;
    hide ShowsProcessed;
    hide Sound;
    var item, resource, h' := s.worker.item, s.worker.stage.resource, Decided(s, Handle(fate), h);
    var s' := Perform(w, s, Handle(fate));
    ConsistentHere(s);
    HandleShape(w, s, fate);
    DecisionWritesNothing(w, s, item, resource, fate);
    CurrentIsOwned(s);
    HeldIsOwned(s, item.name, resource);
    forall name ensures Current(s', name) == Current(s, name) {
    }
    if FailsShown(w, s, Handle(fate)) {
      assert !Installed(w, h', resource.uid);
    }
  }

  lemma DecisionWritesNothing(w: World, s: State, item: Item, resource: Obj, fate: Fate)
    ensures Next(w, s, item, Decide(resource), fate).write.None?
  {
  }

  lemma {:induction false} StepLies(w: World, s: State, a: Action, h: map<string, Decision>)
    requires Consistent(s) && Honest(w, s, h)
    ensures Honest(w, Perform(w, s, a), Decided(s, a, h)) <==> !Lies(w, s, a, h)
  {
    hide Consistent;
    hide Honest;
    hide ShowsProcessed;
    hide Installed;
    hide HandleStep;
    hide UserStep;
    hide DeliverStep;
    if a.Handle? && s.worker.On? {
      if s.worker.stage.Decide? {
        DecisionLies(w, s, a.fate, h);
      } else {
        WriteLies(w, s, a.fate, h);
      }
    } else if a.Handle? || a.Take? || a.Deliver? {
      ObjectsStay(w, s, a);
      SameObjects(w, s, Perform(w, s, a), h);
    } else {
      UserLies(w, s, a, h);
    }
  }

  lemma ObjectsStay(w: World, s: State, a: Action)
    requires a.Take? || a.Deliver? || (a.Handle? && s.worker.Idle?)
    ensures forall name :: Current(Perform(w, s, a), name) == Current(s, name)
  {
    hide DeliverStep;
    if a.Deliver? {
      DeliverFrame(s, a.name, a.upto, a.tombstone);
      forall name ensures Current(Perform(w, s, a), name) == Current(s, name) {
        assert TrackOf(Perform(w, s, a), name).log == TrackOf(s, name).log;
      }
    }
  }

  ghost predicate HonestAfter(w: World, acts: seq<Action>) {
    Honest(w, Run(w, START, acts), Decisions(w, START, acts))
  }

  /** The step `a` after `acts`. */
  predicate LiesAfter(w: World, acts: seq<Action>, a: Action) {
    Lies(w, Run(w, START, acts), a, Decisions(w, START, acts))
  }

  lemma LastLies(w: World, front: seq<Action>, a: Action)
    requires HonestAfter(w, front)
    ensures HonestAfter(w, front + [a]) <==> !LiesAfter(w, front, a)
  {
    hide Perform;
    hide Honest;
    hide Lies;
    hide Decided;
    hide Consistent;
    var acts := front + [a];
    assert acts[..|acts| - 1] == front && acts[|acts| - 1] == a;
    StartIsHonest(w);
    RunKeepsConsistent(w, START, front);
    StepLies(w, Run(w, START, front), a, Decisions(w, START, front));
  }

  lemma FirstIsHonest(w: World)
    ensures HonestAfter(w, [])
  {
    StartIsHonest(w);
  }

  /** All along a run every resource that shows as processed has been soundly decided
      on, exactly when no step of the run lies: when no such status is forged, no
      success arrives at such an object, and no decision fails on one that shows as
      processed. */
  lemma {:induction false} HonestExactly(w: World, acts: seq<Action>)
    ensures (forall i :: 0 <= i <= |acts| ==> HonestAfter(w, acts[..i]))
       <==> (forall i :: 0 <= i < |acts| ==> !LiesAfter(w, acts[..i], acts[i]))
  {
    hide HonestAfter;
    hide LiesAfter;
    if acts == [] {
      FirstIsHonest(w);
      assert acts[..0] == [];
    } else {
      var n := |acts| - 1;
      var front, a := acts[..n], acts[n];
      HonestExactly(w, front);
      assert acts[..|acts|] == acts == front + [a];
      assert forall i :: 0 <= i <= n ==> front[..i] == acts[..i];
      if HonestAfter(w, front) {
        LastLies(w, front, a);
      }
    }
  }
}
