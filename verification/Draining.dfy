/** The queue drains: with finitely many user changes and lister failures, the
    controller comes to rest, although its writes keep waking the informer. */
module Draining {
  import opened Text
  import opened Reconcile

  ghost function Backlog(tracks: map<string, Track>): nat {
    if tracks == map[] then 0
    else var name :| name in tracks; Untold(tracks[name]) + Backlog(tracks - {name})
  }

  function Left(worker: Worker): nat {
    match worker
    case Idle => 0
    case On(_, stage) =>
      match stage
      case Sync => 8
      case MetaGet => 7
      case MetaPut(_) => 6
      case FalseGet => 5
      case FalsePut(_) => 4
      case Decide(_) => 3
      case FailGet(_) => 2
      case TrueGet(_) => 2
      case FailPut(_, _) => 1
      case TruePut(_, _) => 1
  }

  /** What is left to do: a change to tell weighs more than an item to handle, and
      an item more than the calls that handling it takes. */
  ghost function Measure(s: State): nat {
    11 * Backlog(s.tracks) + 10 * (|s.queue| + if s.again then 1 else 0) + Left(s.worker)
  }

  /** Work the step does: taking an item, a call of the worker, telling a change. */
  predicate Effective(s: State, a: Action) {
    match a
    case Take => s.worker.Idle? && s.queue != []
    case Handle(_) => s.worker.On?
    case Deliver(name, upto, _) =>
      var t := TrackOf(s, name);
      t.seen < upto < |t.log| && Changes(t.log, t.seen, upto) > 0
    case _ => false
  }

  predicate Caused(s: State, a: Action) {
    match a
    case Take => false
    case Handle(_) => s.worker.On? && Causes(s, a, s.worker.item.name)
    case Deliver(_, _, _) => false
    case _ => Causes(s, a, a.name)
  }

  ghost predicate Quiet(s: State) {
    s.worker.Idle? && s.queue == [] && forall name :: Untold(TrackOf(s, name)) == 0
  }

  // ---- The measure ----

  lemma {:induction false} BacklogAt(tracks: map<string, Track>, name: string)
    requires name in tracks
    ensures Backlog(tracks) == Untold(tracks[name]) + Backlog(tracks - {name})
    decreases |tracks|
  {
    var first :| first in tracks && Backlog(tracks) == Untold(tracks[first]) + Backlog(tracks - {first});
    if first != name {
      var rest := tracks - {first};
      assert |tracks.Keys - {first}| < |tracks.Keys|;
      assert rest.Keys == tracks.Keys - {first};
      BacklogAt(rest, name);
      var rest' := tracks - {name};
      assert rest'.Keys == tracks.Keys - {name};
      assert |tracks.Keys - {name}| < |tracks.Keys|;
      BacklogAt(rest', first);
      assert rest - {name} == rest' - {first};
    }
  }

  lemma BacklogAfter(tracks: map<string, Track>, name: string, t: Track)
    ensures Backlog(tracks[name := t]) + (if name in tracks then Untold(tracks[name]) else 0)
         == Backlog(tracks) + Untold(t)
  {
    BacklogAt(tracks[name := t], name);
    if name in tracks {
      BacklogAt(tracks, name);
      assert tracks[name := t] - {name} == tracks - {name};
    } else {
      assert tracks[name := t] - {name} == tracks;
    }
  }

  lemma BacklogAfterAppend(s: State, name: string, o: Option<Obj>)
    ensures Backlog(Append(s, name, o).tracks) == Backlog(s.tracks) + if Differ(Current(s, name), o) then 1 else 0
  {
    UntoldAfterAppend(s, name, o, name);
    BacklogAfter(s.tracks, name, TrackOf(Append(s, name, o), name));
  }

  lemma DeliverDrains(s: State, name: string, upto: nat, tombstone: bool)
    ensures Measure(DeliverStep(s, name, upto, tombstone)) <= Measure(s)
    ensures Effective(s, Deliver(name, upto, tombstone)) ==>
              Measure(DeliverStep(s, name, upto, tombstone)) < Measure(s)
  {
    hide Backlog;
    hide Left;
    var t := TrackOf(s, name);
    if t.seen < upto < |t.log| {
      BacklogAfter(s.tracks, name, TrackData(t.log, upto));
      ChangesSplit(t.log, t.seen, upto, |t.log| - 1);
      if Changes(t.log, t.seen, upto) == 0 {
        NoChanges(t.log, t.seen, upto);
      }
    }
  }

  lemma NextIsNearer(w: World, s: State, item: Item, stage: Stage, fate: Fate)
    ensures var m := Next(w, s, item, stage, fate);
            m.next.Some? ==> Left(On(item, m.next.value)) < Left(On(item, stage))
    ensures Left(On(item, stage)) > 0
  {
  }

  lemma HandleDrains(w: World, s: State, fate: Fate)
    requires Consistent(s) && s.worker.On? && !Caused(s, Handle(fate))
    ensures Measure(Perform(w, s, Handle(fate))) < Measure(s)
  {
    hide Backlog;
    hide Left;
    hide Next;
    hide Perform;
    hide Consistent;
    var item, stage := s.worker.item, s.worker.stage;
    ConsistentHere(s);
    HandleShape(w, s, fate);
    WritesKeep(w, s, item, stage, fate);
    SyncMoves(w, s, item, fate);
    NextIsNearer(w, s, item, stage, fate);
    assert Left(Idle) == 0 by {
      LeftIdle();
    }
    var o := Next(w, s, item, stage, fate).write;
    if o.Some? {
      BacklogAfterAppend(s, item.name, Some(Versioned(s, item.name, o.value)));
    }
  }

  lemma LeftIdle()
    ensures Left(Idle) == 0
  {
  }

  lemma UserDrains(s: State, a: Action)
    requires (a.Create? || a.Edit? || a.EditStatus? || a.Remove?) && !Causes(s, a, a.name)
    ensures Measure(UserStep(s, a)) <= Measure(s)
  {
    hide Backlog;
    hide Left;
    forall o ensures Backlog(Append(s, a.name, o).tracks)
                  == Backlog(s.tracks) + if Differ(Current(s, a.name), o) then 1 else 0 {
      BacklogAfterAppend(s, a.name, o);
    }
  }

  /** Unless a user or the lister causes work, every step leaves at most as much to
      do, and every effective one leaves less. */
  lemma StepDrains(w: World, s: State, a: Action)
    requires Consistent(s) && !Caused(s, a)
    ensures Measure(Perform(w, s, a)) <= Measure(s)
    ensures Effective(s, a) ==> Measure(Perform(w, s, a)) < Measure(s)
  {
    hide HandleStep;
    hide UserStep;
    hide DeliverStep;
    hide TrackOk;
    hide StageOk;
    hide Backlog;
    if a.Handle? && s.worker.On? {
      HandleDrains(w, s, a.fate);
    } else if a.Deliver? {
      DeliverDrains(s, a.name, a.upto, a.tombstone);
    } else if !a.Handle? && !a.Take? {
      UserDrains(s, a);
    }
  }

  lemma {:induction false} NoBacklog(tracks: map<string, Track>)
    ensures Backlog(tracks) == 0 <==> forall name :: name in tracks ==> Untold(tracks[name]) == 0
    decreases |tracks|
  {
    if name :| name in tracks {
      BacklogAt(tracks, name);
      assert (tracks - {name}).Keys == tracks.Keys - {name};
      assert |tracks.Keys - {name}| < |tracks.Keys|;
      NoBacklog(tracks - {name});
      forall other | other in tracks && other != name ensures (tracks - {name})[other] == tracks[other] {
      }
    }
  }

  lemma QuietIsZero(s: State)
    requires Consistent(s)
    ensures Quiet(s) <==> Measure(s) == 0
  {
    hide TrackOk;
    hide StageOk;
    NoBacklog(s.tracks);
    if Quiet(s) {
      forall name | name in s.tracks ensures Untold(s.tracks[name]) == 0 {
        assert TrackOf(s, name) == s.tracks[name];
      }
    }
  }

  /** Rest is the only state in which there is nothing to do. */
  lemma WorkCanProceed(s: State) returns (a: Action)
    requires Consistent(s)
    ensures Quiet(s) <==> !exists b :: Effective(s, b)
    ensures !Quiet(s) ==> Effective(s, a) && !Caused(s, a)
  {
    hide TrackOk;
    hide StageOk;
    a := Take;
    if s.worker.On? {
      a := Handle(Answered);
    } else if s.queue == [] && exists name :: Untold(TrackOf(s, name)) > 0 {
      var name :| Untold(TrackOf(s, name)) > 0;
      a := Deliver(name, |TrackOf(s, name).log| - 1, false);
    }
    assert Quiet(s) || Effective(s, a);
    if b :| Quiet(s) && Effective(s, b) {
      var t := TrackOf(s, b.name);
      ChangesSplit(t.log, t.seen, b.upto, |t.log| - 1);
      assert false;
    }
  }

  // ---- Whole behaviours ----

  ghost predicate Behaviour(w: World, states: nat -> State, acts: nat -> Action) {
    && Consistent(states(0))
    && forall i: nat :: states(i + 1) == Perform(w, states(i), acts(i))
  }

  /** Neither the worker nor the informer stops for good while there is work. */
  ghost predicate Fair(states: nat -> State, acts: nat -> Action) {
    forall i: nat :: !Quiet(states(i)) ==> exists j: nat :: j >= i && Effective(states(j), acts(j))
  }

  ghost predicate CalmFrom(states: nat -> State, acts: nat -> Action, k: nat) {
    forall i: nat :: i >= k ==> !Caused(states(i), acts(i))
  }

  lemma {:induction false} StaysConsistent(w: World, states: nat -> State, acts: nat -> Action, i: nat)
    requires Behaviour(w, states, acts)
    ensures Consistent(states(i))
  {
    hide Perform;
    hide Consistent;
    if i > 0 {
      StaysConsistent(w, states, acts, i - 1);
      PerformKeepsConsistent(w, states(i - 1), acts(i - 1));
      assert states(i - 1 + 1) == Perform(w, states(i - 1), acts(i - 1));
    }
  }

  lemma {:induction false} NeverMore(w: World, states: nat -> State, acts: nat -> Action, k: nat, i: nat, j: nat)
    requires Behaviour(w, states, acts) && CalmFrom(states, acts, k) && k <= i <= j
    ensures Measure(states(j)) <= Measure(states(i))
    decreases j
  {
    hide Perform;
    hide Consistent;
    hide Measure;
    hide Caused;
    if i < j {
      NeverMore(w, states, acts, k, i, j - 1);
      StaysConsistent(w, states, acts, j - 1);
      StepDrains(w, states(j - 1), acts(j - 1));
      assert states(j - 1 + 1) == Perform(w, states(j - 1), acts(j - 1));
    }
  }

  lemma {:induction false} Drains(w: World, states: nat -> State, acts: nat -> Action, k: nat, i: nat)
    returns (end: nat)
    requires Behaviour(w, states, acts) && CalmFrom(states, acts, k) && Fair(states, acts) && k <= i
    ensures end >= i && Quiet(states(end))
    decreases Measure(states(i))
  {
    hide Perform;
    hide Consistent;
    hide Measure;
    hide Caused;
    hide Effective;
    hide Quiet;
    end := i;
    if !Quiet(states(i)) {
      var j: nat :| j >= i && Effective(states(j), acts(j));
      NeverMore(w, states, acts, k, i, j);
      StaysConsistent(w, states, acts, j);
      StepDrains(w, states(j), acts(j));
      assert states(j + 1) == Perform(w, states(j), acts(j));
      end := Drains(w, states, acts, k, j + 1);
    }
  }

  /** Once users and the lister stop causing work, any fair behaviour comes to rest
      and stays at rest. */
  lemma EventuallyQuiet(w: World, states: nat -> State, acts: nat -> Action, k: nat) returns (end: nat)
    requires Behaviour(w, states, acts) && CalmFrom(states, acts, k) && Fair(states, acts)
    ensures end >= k && forall i: nat :: i >= end ==> Quiet(states(i))
  {
    hide Consistent;
    hide Quiet;
    hide Measure;
    end := Drains(w, states, acts, k, k);
    forall i: nat | i >= end ensures Quiet(states(i)) {
      NeverMore(w, states, acts, k, end, i);
      StaysConsistent(w, states, acts, end);
      StaysConsistent(w, states, acts, i);
      QuietIsZero(states(end));
      QuietIsZero(states(i));
    }
  }
}
