/** Scrapes and reflectors sharing stores: the locking of `internal/writer.go` and
    `internal/store.go` as a machine whose steps interleave freely.

    A lock follows Go's `sync.RWMutex`: a writer first announces itself, which
    keeps new readers out, and proceeds when the readers inside have left. */
module Scrape {
  import opened Text
  import opened Exposition
  import opened Resolver
  import opened Family
  import opened Store
  import opened StoreRuns
  import opened Document
  import opened Writer

  datatype WriterSlot = Free | Announced(t: nat) | Owned(t: nat)

  datatype Lock = Lock(readers: set<nat>, writer: WriterSlot)

  /** How far a scrape's writing has come: the orders of finished stores, of the
      finished families of the current store, and of the current family's rows. */
  datatype Position = Position(
    done: seq<seq<seq<string>>>, row: seq<seq<string>>, current: Option<seq<string>>, p: nat)

  /** In `Locking(k)` and `Unlocking(k)` the first `k` locks of the plan are held. */
  datatype Phase = Locking(k: nat) | Writing(at: Position) | Unlocking(k: nat, ok: bool) | Finished(ok: bool)

  /** One call of `writeAllTo`. `snapshot` and `orders` are history: what the
      stores held when the last lock was taken, and the orders the ranges took. */
  datatype ScrapeThread = ScrapeThread(
    plan: seq<nat>, phase: Phase, text: string,
    snapshot: seq<StoreState>, orders: seq<seq<seq<string>>>)

  /** One call of a store method. */
  datatype WriterPhase = Idle | Waiting | Active | Applied | Done

  datatype WriterThread = WriterThread(store: nat, op: Op, phase: WriterPhase)

  datatype State = State(
    stores: seq<StoreState>, locks: seq<Lock>, scrapes: seq<ScrapeThread>, writers: seq<WriterThread>)

  datatype Action =
    | RLock(c: nat)
    | Begin(c: nat)
    | WriteHeader(c: nat, order: seq<string>)
    | WriteRow(c: nat)
    | EndFamily(c: nat)
    | EndStore(c: nat)
    | EndWrite(c: nat)
    | WriteFails(c: nat, part: string)
    | RUnlock(c: nat)
    | Finish(c: nat)
    | Announce(t: nat)
    | Acquire(t: nat)
    | Apply(t: nat)
    | Release(t: nat)

  predicate OfScrape(a: Action) {
    !a.Announce? && !a.Acquire? && !a.Apply? && !a.Release?
  }

  /** Stores are numbered in the order they were made, and a resource lists its
      own in that order. */
  predicate PlansInOrder(s: State) {
    forall c :: 0 <= c < |s.scrapes| ==> Ascending(s.scrapes[c].plan, |s.stores|)
  }

  predicate Ascending(plan: seq<nat>, n: nat) {
    && (forall i :: 0 <= i < |plan| ==> plan[i] < n)
    && (forall i, j :: 0 <= i < j < |plan| ==> plan[i] < plan[j])
  }

  predicate WellFormed(s: State) {
    && |s.locks| == |s.stores| && PlansInOrder(s)
    && forall t :: 0 <= t < |s.writers| ==> s.writers[t].store < |s.stores|
  }

  ghost predicate Init(s: State) {
    && WellFormed(s)
    && (forall l :: 0 <= l < |s.stores| ==>
          Printed(s.stores[l]) && StoreAligned(s.stores[l]) && s.locks[l] == Lock({}, Free))
    && (forall c :: 0 <= c < |s.scrapes| ==> s.scrapes[c].phase == Locking(0) && s.scrapes[c].text == "")
    && (forall t :: 0 <= t < |s.writers| ==> s.writers[t].phase == Idle)
  }

  // ---- Steps ----

  ghost function Contents(s: State, plan: seq<nat>): (r: seq<StoreState>)
    requires Ascending(plan, |s.stores|)
    ensures |r| == |plan|
  {
    seq(|plan|, i requires 0 <= i < |plan| => s.stores[plan[i]])
  }

  /** What a scrape does to itself while it writes; each read is of the store as it
      is at that moment. */
  ghost predicate Writes(s: State, th: ScrapeThread, a: Action, th': ScrapeThread)
    requires Ascending(th.plan, |s.stores|) && th.phase.Writing?
  {
    var at := th.phase.at;
    var j, i := |at.done|, |at.row|;
    if a.EndWrite? then
      j == |th.plan| && at.row == [] && th' == th.(phase := Unlocking(|th.plan|, true), orders := at.done)
    else if a.WriteFails? then
      th' == th.(phase := Unlocking(|th.plan|, false), text := th.text + a.part)
    else if j >= |th.plan| then false
    else
      var store := s.stores[th.plan[j]];
      match a
      case WriteHeader(_, order) =>
        && at.current.None? && i < |store.headers| && Enumerates(order, store.rows.Keys)
        && th' == th.(text := th.text + HeaderText(store.headers[i]),
                      phase := Writing(at.(current := Some(order), p := 0)))
      case WriteRow(_) =>
        && at.current.Some? && at.p < |at.current.value|
        && var uid := at.current.value[at.p];
           uid in store.rows && i < |store.rows[uid]|
           && th' == th.(text := th.text + RenderRow(store.rows[uid][i]), phase := Writing(at.(p := at.p + 1)))
      case EndFamily(_) =>
        && at.current.Some? && at.p == |at.current.value|
        && th' == th.(phase := Writing(at.(row := at.row + [at.current.value], current := None, p := 0)))
      case EndStore(_) =>
        && at.current.None? && i == |store.headers|
        && th' == th.(phase := Writing(Position(at.done + [at.row], [], None, 0)))
      case _ => false
  }

  ghost predicate ScrapeStep(s: State, a: Action, s': State)
    requires WellFormed(s) && OfScrape(a) && a.c < |s.scrapes|
  {
    var th := s.scrapes[a.c];
    match a
    case RLock(c) =>
      && th.phase.Locking? && th.phase.k < |th.plan|
      && var l := th.plan[th.phase.k];
         && s.locks[l].writer.Free?
         && s' == s.(locks := s.locks[l := s.locks[l].(readers := s.locks[l].readers + {c})],
                     scrapes := s.scrapes[c := th.(phase := Locking(th.phase.k + 1))])
    case Begin(c) =>
      && th.phase == Locking(|th.plan|)
      && s' == s.(scrapes := s.scrapes[c := th.(phase := Writing(Position([], [], None, 0)),
                                                snapshot := Contents(s, th.plan))])
    case RUnlock(c) =>
      && th.phase.Unlocking? && 0 < th.phase.k <= |th.plan|
      && var l := th.plan[th.phase.k - 1];
         s' == s.(locks := s.locks[l := s.locks[l].(readers := s.locks[l].readers - {c})],
                  scrapes := s.scrapes[c := th.(phase := Unlocking(th.phase.k - 1, th.phase.ok))])
    case Finish(c) =>
      && th.phase.Unlocking? && th.phase.k == 0
      && s' == s.(scrapes := s.scrapes[c := th.(phase := Finished(th.phase.ok))])
    case WriteHeader(_, _) | WriteRow(_) | EndFamily(_) | EndStore(_) | EndWrite(_) | WriteFails(_, _) =>
      && th.phase.Writing? && |s'.scrapes| == |s.scrapes|
      && Writes(s, th, a, s'.scrapes[a.c])
      && s' == s.(scrapes := s.scrapes[a.c := s'.scrapes[a.c]])
  }

  ghost predicate WriterStep(lib: Library, s: State, a: Action, s': State)
    requires WellFormed(s) && !OfScrape(a) && a.t < |s.writers|
  {
    var t := a.t;
    var w := s.writers[t];
    var lock := s.locks[w.store];
    match a
    case Announce(_) =>
      && w.phase == Idle && lock.writer == Free
      && s' == s.(locks := s.locks[w.store := lock.(writer := Announced(t))],
                  writers := s.writers[t := w.(phase := Waiting)])
    case Acquire(_) =>
      && w.phase == Waiting && lock.readers == {}
      && s' == s.(locks := s.locks[w.store := lock.(writer := Owned(t))],
                  writers := s.writers[t := w.(phase := Active)])
    case Apply(_) =>
      && w.phase == Active && |s'.stores| == |s.stores|
      && Step(lib, s.stores[w.store], w.op, s'.stores[w.store])
      && s' == s.(stores := s.stores[w.store := s'.stores[w.store]],
                  writers := s.writers[t := w.(phase := Applied)])
    case Release(_) =>
      && w.phase == Applied
      && s' == s.(locks := s.locks[w.store := lock.(writer := Free)],
                  writers := s.writers[t := w.(phase := Done)])
  }

  ghost predicate Next(lib: Library, s: State, a: Action, s': State)
    requires WellFormed(s)
  {
    if OfScrape(a) then a.c < |s.scrapes| && ScrapeStep(s, a, s')
    else a.t < |s.writers| && WriterStep(lib, s, a, s')
  }

  // ---- Who holds what ----

  function HeldCount(th: ScrapeThread): nat {
    match th.phase
    case Locking(k) => k
    case Writing(_) => |th.plan|
    case Unlocking(k, _) => k
    case Finished(_) => 0
  }

  ghost predicate Holds(th: ScrapeThread, l: nat) {
    exists i :: 0 <= i < HeldCount(th) && i < |th.plan| && th.plan[i] == l
  }

  ghost predicate InCritical(w: WriterThread) {
    w.phase == Active || w.phase == Applied
  }

  /** The readers inside a lock are the scrapes that hold it. */
  ghost predicate ReadersMatch(s: State, l: nat)
    requires l < |s.locks|
  {
    forall c: nat :: c in s.locks[l].readers <==> c < |s.scrapes| && Holds(s.scrapes[c], l)
  }

  ghost predicate SlotMatches(s: State, l: nat)
    requires l < |s.locks|
  {
    match s.locks[l].writer
    case Free => true
    case Announced(t) => t < |s.writers| && s.writers[t].store == l && s.writers[t].phase == Waiting
    case Owned(t) =>
      t < |s.writers| && s.writers[t].store == l && InCritical(s.writers[t]) && s.locks[l].readers == {}
  }

  ghost predicate WriterMatches(s: State, t: nat)
    requires WellFormed(s) && t < |s.writers|
  {
    var w := s.writers[t];
    && (w.phase == Waiting ==> s.locks[w.store].writer == Announced(t))
    && (InCritical(w) ==> s.locks[w.store].writer == Owned(t))
  }

  ghost predicate LocksInv(s: State)
    requires WellFormed(s)
  {
    && (forall c :: 0 <= c < |s.scrapes| ==> HeldCount(s.scrapes[c]) <= |s.scrapes[c].plan|)
    && (forall l :: 0 <= l < |s.locks| ==> ReadersMatch(s, l))
    && (forall l :: 0 <= l < |s.locks| ==> SlotMatches(s, l))
    && (forall t :: 0 <= t < |s.writers| ==> WriterMatches(s, t))
  }

  lemma TakesLock(th: ScrapeThread, th': ScrapeThread, l: nat)
    requires HeldCount(th) < |th.plan| && th'.plan == th.plan && HeldCount(th') == HeldCount(th) + 1
    ensures Holds(th', l) <==> Holds(th, l) || l == th.plan[HeldCount(th)]
  {
  }

  lemma KeepsLocks(th: ScrapeThread, th': ScrapeThread, l: nat)
    requires th'.plan == th.plan && HeldCount(th') == HeldCount(th)
    ensures Holds(th', l) <==> Holds(th, l)
  {
  }

  lemma DropsLock(th: ScrapeThread, th': ScrapeThread, l: nat, n: nat)
    requires Ascending(th.plan, n)
    requires 0 < HeldCount(th) <= |th.plan| && th'.plan == th.plan && HeldCount(th') == HeldCount(th) - 1
    ensures Holds(th', l) <==> Holds(th, l) && l != th.plan[HeldCount(th) - 1]
  {
  }

  /** A scrape's writing steps neither take nor drop a lock. */
  lemma WritesKeepLocks(s: State, th: ScrapeThread, a: Action, th': ScrapeThread)
    requires Ascending(th.plan, |s.stores|) && th.phase.Writing? && Writes(s, th, a, th')
    ensures th'.plan == th.plan && th'.snapshot == th.snapshot && HeldCount(th') == HeldCount(th)
  {
    hide Enumerates;
    hide RenderRow;
    hide HeaderText;
  }

  /** A scrape changes itself, and at most its own membership of one lock. */
  lemma ScrapeStepFrame(s: State, a: Action, s': State)
    requires WellFormed(s) && OfScrape(a) && a.c < |s.scrapes| && ScrapeStep(s, a, s')
    ensures s'.stores == s.stores && s'.writers == s.writers
    ensures |s'.locks| == |s.locks| && |s'.scrapes| == |s.scrapes|
    ensures s'.scrapes == s.scrapes[a.c := s'.scrapes[a.c]] && s'.scrapes[a.c].plan == s.scrapes[a.c].plan
    ensures !a.RLock? && !a.RUnlock? ==>
              s'.locks == s.locks && HeldCount(s'.scrapes[a.c]) == HeldCount(s.scrapes[a.c])
  {
    hide Writes;
    if s.scrapes[a.c].phase.Writing? {
      WritesKeepLocks(s, s.scrapes[a.c], a, s'.scrapes[a.c]);
    }
  }

  lemma ScrapeStepLocks(s: State, a: Action, s': State)
    requires WellFormed(s) && LocksInv(s) && OfScrape(a) && a.c < |s.scrapes| && ScrapeStep(s, a, s')
    ensures WellFormed(s') && LocksInv(s')
  {
    hide Writes;
    hide Holds;
    hide Ascending;
    ScrapeStepFrame(s, a, s');
    var th, th' := s.scrapes[a.c], s'.scrapes[a.c];
    assert Ascending(th.plan, |s.stores|);
    forall l | 0 <= l < |s'.locks| ensures ReadersMatch(s', l) && SlotMatches(s', l) {
      assert ReadersMatch(s, l) && SlotMatches(s, l);
      if a.RLock? {
        TakesLock(th, th', l);
      } else if a.RUnlock? {
        DropsLock(th, th', l, |s.stores|);
      } else {
        KeepsLocks(th, th', l);
      }
    }
    forall t | 0 <= t < |s'.writers| ensures WriterMatches(s', t) {
      assert WriterMatches(s, t);
    }
  }

  lemma WriterStepLocks(lib: Library, s: State, a: Action, s': State)
    requires WellFormed(s) && LocksInv(s) && !OfScrape(a) && a.t < |s.writers| && WriterStep(lib, s, a, s')
    ensures WellFormed(s') && LocksInv(s')
  {
    hide Step;
    hide Holds;
    hide Ascending;
    var t := a.t;
    assert WriterMatches(s, t) && SlotMatches(s, s.writers[t].store);
    forall l | 0 <= l < |s'.locks| ensures ReadersMatch(s', l) && SlotMatches(s', l) {
      assert ReadersMatch(s, l) && SlotMatches(s, l);
    }
    forall u | 0 <= u < |s'.writers| ensures WriterMatches(s', u) {
      assert WriterMatches(s, u);
    }
  }

  // ---- What a scrape has written ----

  ghost predicate AllShaped(snap: seq<StoreState>) {
    forall k :: 0 <= k < |snap| ==> Shaped(snap[k])
  }

  ghost predicate CurrentOk(store: StoreState, at: Position)
    requires Shaped(store)
  {
    && PartialOrdering(store, at.row)
    && (at.current.Some? ==>
          |at.row| < |store.headers| && Enumerates(at.current.value, store.rows.Keys)
          && at.p <= |at.current.value|)
  }

  ghost predicate PositionOk(snap: seq<StoreState>, at: Position) {
    && AllShaped(snap) && |at.done| <= |snap| && Ordering(snap[..|at.done|], at.done)
    && if |at.done| < |snap| then CurrentOk(snap[|at.done|], at) else at.row == [] && at.current == None
  }

  ghost function CurrentText(store: StoreState, at: Position): string
    requires Shaped(store) && CurrentOk(store, at)
  {
    Concat(FamilyTexts(store, at.row)) +
    match at.current
    case None => ""
    case Some(order) =>
      OrderingIsHeld(store, order);
      HeaderText(store.headers[|at.row|]) + Concat(RowsTexts(store, |at.row|, order)[..at.p])
  }

  /** The part of the document that stands before a position. */
  ghost function Written(snap: seq<StoreState>, at: Position): string
    requires PositionOk(snap, at)
  {
    Concat(StoreTexts(snap[..|at.done|], at.done)) +
    if |at.done| < |snap| then CurrentText(snap[|at.done|], at) else ""
  }

  lemma HeaderWritten(store: StoreState, at: Position, order: seq<string>)
    requires Shaped(store) && CurrentOk(store, at)
    requires at.current.None? && |at.row| < |store.headers| && Enumerates(order, store.rows.Keys)
    ensures CurrentOk(store, at.(current := Some(order), p := 0))
    ensures CurrentText(store, at.(current := Some(order), p := 0))
         == CurrentText(store, at) + HeaderText(store.headers[|at.row|])
  {
    hide FamilyTexts;
    hide HeaderText;
    var text := HeaderText(store.headers[|at.row|]);
    OrderingIsHeld(store, order);
    assert RowsTexts(store, |at.row|, order)[..0] == [];
    assert text + "" == text && Concat(FamilyTexts(store, at.row)) + "" == Concat(FamilyTexts(store, at.row));
  }

  lemma RowWritten(store: StoreState, at: Position)
    requires Shaped(store) && CurrentOk(store, at) && at.current.Some? && at.p < |at.current.value|
    ensures var uid := at.current.value[at.p];
            uid in store.rows && |at.row| < |store.rows[uid]|
    ensures CurrentOk(store, at.(p := at.p + 1))
    ensures CurrentText(store, at.(p := at.p + 1))
         == CurrentText(store, at) + RenderRow(store.rows[at.current.value[at.p]][|at.row|])
  {
    hide FamilyTexts;
    hide HeaderText;
    hide RenderRow;
    var order := at.current.value;
    OrderingIsHeld(store, order);
    var parts := RowsTexts(store, |at.row|, order);
    assert order[at.p] in store.rows;
    ConcatOne(parts[..at.p], parts[at.p]);
    assert parts[..at.p + 1] == parts[..at.p] + [parts[at.p]];
    var families, header := Concat(FamilyTexts(store, at.row)), HeaderText(store.headers[|at.row|]);
    assert families + (header + (Concat(parts[..at.p]) + parts[at.p]))
        == families + (header + Concat(parts[..at.p])) + parts[at.p];
  }

  lemma FamilyEnded(store: StoreState, at: Position)
    requires Shaped(store) && CurrentOk(store, at) && at.current.Some? && at.p == |at.current.value|
    ensures CurrentOk(store, at.(row := at.row + [at.current.value], current := None, p := 0))
    ensures CurrentText(store, at.(row := at.row + [at.current.value], current := None, p := 0))
         == CurrentText(store, at)
  {
    hide HeaderText;
    hide Enumerates;
    var order := at.current.value;
    var row := at.row + [order];
    OrderingIsHeld(store, order);
    assert RowsTexts(store, |at.row|, order)[..at.p] == RowsTexts(store, |at.row|, order);
    assert PartialOrdering(store, row);
    assert FamilyTexts(store, row) == FamilyTexts(store, at.row) + [FamilyText(store, |at.row|, order)];
    ConcatOne(FamilyTexts(store, at.row), FamilyText(store, |at.row|, order));
    assert Concat(FamilyTexts(store, row)) + "" == Concat(FamilyTexts(store, row));
  }

  lemma StoreEnded(snap: seq<StoreState>, at: Position)
    requires PositionOk(snap, at) && |at.done| < |snap|
    requires at.current.None? && |at.row| == |snap[|at.done|].headers|
    ensures PositionOk(snap, Position(at.done + [at.row], [], None, 0))
    ensures Written(snap, Position(at.done + [at.row], [], None, 0)) == Written(snap, at)
  {
    hide FamilyTexts;
    hide Enumerates;
    hide Shaped;
    var j := |at.done|;
    var done := at.done + [at.row];
    assert snap[..j + 1] == snap[..j] + [snap[j]];
    assert Ordering(snap[..j + 1], done);
    var text := Concat(FamilyTexts(snap[j], at.row));
    assert StoreTexts(snap[..j + 1], done) == StoreTexts(snap[..j], at.done) + [text];
    ConcatOne(StoreTexts(snap[..j], at.done), text);
    if j + 1 < |snap| {
      NothingWritten(snap[j + 1]);
    }
    assert text + "" == text;
  }

  lemma NothingWritten(store: StoreState)
    requires Shaped(store)
    ensures forall done ::
              CurrentOk(store, Position(done, [], None, 0)) && CurrentText(store, Position(done, [], None, 0)) == ""
  {
  }

  // ---- The invariant ----

  ghost predicate SnapshotOk(th: ScrapeThread) {
    |th.snapshot| == |th.plan| && forall k :: 0 <= k < |th.snapshot| ==> Printed(th.snapshot[k])
  }

  /** While a scrape writes, its stores hold what they held when it took the last
      lock; when it has written without error, it has written all of that. */
  ghost predicate ScrapeInv(s: State, th: ScrapeThread)
    requires Ascending(th.plan, |s.stores|)
  {
    match th.phase
    case Locking(_) => th.text == ""
    case Writing(at) =>
      SnapshotOk(th) && Contents(s, th.plan) == th.snapshot
      && PositionOk(th.snapshot, at) && th.text == Written(th.snapshot, at)
    case Unlocking(_, ok) => SnapshotOk(th) && (ok ==> WroteAll(th.snapshot, th.orders, th.text))
    case Finished(ok) => SnapshotOk(th) && (ok ==> WroteAll(th.snapshot, th.orders, th.text))
  }

  ghost predicate WroteAll(snap: seq<StoreState>, orders: seq<seq<seq<string>>>, text: string) {
    AllShaped(snap) && Ordering(snap, orders) && text == DocumentText(snap, orders)
  }

  ghost predicate Inv(s: State) {
    && WellFormed(s) && LocksInv(s)
    && (forall l :: 0 <= l < |s.stores| ==> Printed(s.stores[l]) && StoreAligned(s.stores[l]))
    && (forall c :: 0 <= c < |s.scrapes| ==> ScrapeInv(s, s.scrapes[c]))
  }

  lemma WritesKeepInv(s: State, th: ScrapeThread, a: Action, th': ScrapeThread)
    requires Ascending(th.plan, |s.stores|) && th.phase.Writing?
    requires ScrapeInv(s, th) && Writes(s, th, a, th')
    ensures ScrapeInv(s, th')
  {
    hide CurrentOk;
    hide CurrentText;
    hide Printed;
    hide RenderRow;
    hide HeaderText;
    hide Enumerates;
    hide Ordering;
    WritesKeepLocks(s, th, a, th');
    var at, snap := th.phase.at, th.snapshot;
    var j := |at.done|;
    if j < |th.plan| {
      assert s.stores[th.plan[j]] == Contents(s, th.plan)[j] == snap[j];
    }
    if a.EndWrite? {
      assert snap[..j] == snap;
      assert Written(snap, at) == Concat(StoreTexts(snap, at.done));
    } else if a.WriteHeader? {
      HeaderWritten(snap[j], at, a.order);
    } else if a.WriteRow? {
      RowWritten(snap[j], at);
    } else if a.EndFamily? {
      FamilyEnded(snap[j], at);
    } else if a.EndStore? {
      StoreEnded(snap, at);
    }
  }

  lemma BeginsWriting(s: State, th: ScrapeThread)
    requires Ascending(th.plan, |s.stores|) && forall l :: 0 <= l < |s.stores| ==> Printed(s.stores[l])
    requires ScrapeInv(s, th) && th.phase.Locking?
    ensures ScrapeInv(s, th.(phase := Writing(Position([], [], None, 0)), snapshot := Contents(s, th.plan)))
  {
    hide CurrentOk;
    hide CurrentText;
    hide Printed;
    var snap := Contents(s, th.plan);
    forall k | 0 <= k < |snap| ensures Printed(snap[k]) && Shaped(snap[k]) {
      PrintedIsShaped(snap[k]);
    }
    if snap != [] {
      NothingWritten(snap[0]);
    }
    assert snap[..0] == [];
    assert StoreTexts([], []) == [];
  }

  lemma ScrapeStepKeepsInv(s: State, a: Action, s': State)
    requires Inv(s) && OfScrape(a) && a.c < |s.scrapes| && ScrapeStep(s, a, s')
    ensures Inv(s')
  {
    hide LocksInv;
    hide Writes;
    hide Printed;
    hide PositionOk;
    hide Written;
    hide WroteAll;
    ScrapeStepLocks(s, a, s');
    ScrapeStepFrame(s, a, s');
    var th := s.scrapes[a.c];
    if th.phase.Writing? {
      WritesKeepInv(s, th, a, s'.scrapes[a.c]);
    } else if a.Begin? {
      BeginsWriting(s, th);
    }
    forall c | 0 <= c < |s'.scrapes| ensures ScrapeInv(s', s'.scrapes[c]) {
      assert ScrapeInv(s, s.scrapes[c]);
    }
  }

  /** Whoever may change a store is alone with it. */
  lemma WriterIsAlone(s: State, t: nat, c: nat)
    requires WellFormed(s) && LocksInv(s) && t < |s.writers| && InCritical(s.writers[t])
    requires c < |s.scrapes| && s.scrapes[c].phase.Writing?
    ensures forall i :: 0 <= i < |s.scrapes[c].plan| ==> s.scrapes[c].plan[i] != s.writers[t].store
  {
    var l := s.writers[t].store;
    assert WriterMatches(s, t) && SlotMatches(s, l) && ReadersMatch(s, l);
    assert c !in s.locks[l].readers;
    forall i | 0 <= i < |s.scrapes[c].plan| && s.scrapes[c].plan[i] == l ensures false {
      assert Holds(s.scrapes[c], l);
    }
  }

  lemma WriterStepKeepsInv(lib: Library, s: State, a: Action, s': State)
    requires Tokens(lib) && Inv(s) && !OfScrape(a) && a.t < |s.writers| && WriterStep(lib, s, a, s')
    ensures Inv(s')
  {
    hide LocksInv;
    hide Step;
    hide Printed;
    hide PositionOk;
    hide Written;
    hide WroteAll;
    WriterStepLocks(lib, s, a, s');
    if a.Apply? {
      var l := s.writers[a.t].store;
      StepKeepsPrinted(lib, s.stores[l], s.writers[a.t].op, s'.stores[l]);
      StepStaysAligned(lib, s.stores[l], s.writers[a.t].op, s'.stores[l]);
    }
    forall c | 0 <= c < |s'.scrapes| ensures ScrapeInv(s', s'.scrapes[c]) {
      assert ScrapeInv(s, s.scrapes[c]);
      if a.Apply? && s.scrapes[c].phase.Writing? {
        WriterIsAlone(s, a.t, c);
        assert Contents(s', s.scrapes[c].plan) == Contents(s, s.scrapes[c].plan);
      }
    }
  }

  lemma NextKeepsInv(lib: Library, s: State, a: Action, s': State)
    requires Tokens(lib) && Inv(s) && Next(lib, s, a, s')
    ensures Inv(s')
  {
    hide Inv;
    hide ScrapeStep;
    hide WriterStep;
    if OfScrape(a) {
      ScrapeStepKeepsInv(s, a, s');
    } else {
      WriterStepKeepsInv(lib, s, a, s');
    }
  }

  lemma InitInv(s: State)
    requires Init(s)
    ensures Inv(s)
  {
    hide Printed;
    hide Ascending;
    forall l | 0 <= l < |s.locks| ensures ReadersMatch(s, l) && SlotMatches(s, l) {
      assert s.locks[l] == Lock({}, Free);
      forall c: nat | c < |s.scrapes| ensures !Holds(s.scrapes[c], l) {
        assert s.scrapes[c].phase == Locking(0);
      }
    }
  }

  // ---- Runs ----

  ghost predicate Run(lib: Library, states: seq<State>, actions: seq<Action>) {
    && |states| == |actions| + 1 && Init(states[0])
    && forall i :: 0 <= i < |actions| ==> WellFormed(states[i]) && Next(lib, states[i], actions[i], states[i + 1])
  }

  lemma {:induction false} RunKeepsInv(lib: Library, states: seq<State>, actions: seq<Action>, n: nat)
    requires Tokens(lib) && Run(lib, states, actions) && n <= |actions|
    ensures Inv(states[n])
  {
    hide Inv;
    hide Next;
    hide Init;
    if n == 0 {
      InitInv(states[0]);
    } else {
      RunKeepsInv(lib, states, actions, n - 1);
      NextKeepsInv(lib, states[n - 1], actions[n - 1], states[n]);
    }
  }

  /** At this moment the scrape holds every lock, and its stores hold `snap`. */
  ghost predicate Moment(s: State, c: nat, plan: seq<nat>, snap: seq<StoreState>) {
    && WellFormed(s) && c < |s.scrapes| && s.scrapes[c].plan == plan
    && s.scrapes[c].phase == Locking(|plan|) && Contents(s, plan) == snap
  }

  lemma NextSnapshot(lib: Library, s: State, a: Action, s': State, c: nat)
    requires Inv(s) && Inv(s') && Next(lib, s, a, s') && c < |s'.scrapes| && !s'.scrapes[c].phase.Locking?
    ensures c < |s.scrapes|
    ensures s'.scrapes[c].plan == s.scrapes[c].plan
    ensures if s.scrapes[c].phase.Locking? then Moment(s, c, s.scrapes[c].plan, s'.scrapes[c].snapshot)
            else s'.scrapes[c].snapshot == s.scrapes[c].snapshot
  {
    hide LocksInv;
    hide Writes;
    hide Step;
    hide Printed;
    hide ScrapeInv;
    if OfScrape(a) {
      ScrapeStepFrame(s, a, s');
      if s.scrapes[a.c].phase.Writing? {
        WritesKeepLocks(s, s.scrapes[a.c], a, s'.scrapes[a.c]);
      }
    }
  }

  lemma {:induction false} SnapshotWasTaken(lib: Library, states: seq<State>, actions: seq<Action>, n: nat, c: nat)
    requires Tokens(lib) && Run(lib, states, actions) && n <= |actions|
    requires c < |states[n].scrapes| && !states[n].scrapes[c].phase.Locking?
    ensures exists m :: 0 <= m < n && Moment(states[m], c, states[n].scrapes[c].plan, states[n].scrapes[c].snapshot)
  {
    hide Inv;
    hide Next;
    hide Moment;
    if n > 0 {
      RunKeepsInv(lib, states, actions, n - 1);
      RunKeepsInv(lib, states, actions, n);
      NextSnapshot(lib, states[n - 1], actions[n - 1], states[n], c);
      if !states[n - 1].scrapes[c].phase.Locking? {
        SnapshotWasTaken(lib, states, actions, n - 1, c);
      }
    }
  }

  /** A scrape that finishes without error has written the contents its stores all
      had at one moment, however other scrapes and reflectors interleaved with it;
      and a reader gets back exactly those contents, if the format allows them. */
  lemma ScrapeIsAtomic(lib: Library, states: seq<State>, actions: seq<Action>, n: nat, c: nat)
    requires Tokens(lib) && Run(lib, states, actions) && n <= |actions|
    requires c < |states[n].scrapes| && states[n].scrapes[c].phase == Finished(true)
    ensures
      var th := states[n].scrapes[c];
      && AllShaped(th.snapshot) && Ordering(th.snapshot, th.orders)
      && (exists m :: 0 <= m < n && Moment(states[m], c, th.plan, th.snapshot))
      && th.text == DocumentText(th.snapshot, th.orders)
      && (ParseDocument(th.text) == Some(DocumentItems(th.snapshot, th.orders)) <==> DocumentValid(th.snapshot))
  {
    hide LocksInv;
    hide Printed;
    hide Shaped;
    hide Moment;
    hide Next;
    hide Ordering;
    RunKeepsInv(lib, states, actions, n);
    SnapshotWasTaken(lib, states, actions, n, c);
    var th := states[n].scrapes[c];
    assert ScrapeInv(states[n], th);
    DocumentRoundTrip(th.snapshot, th.orders);
  }

  // ---- No deadlock ----

  predicate ScrapeUnfinished(s: State, c: nat) {
    c < |s.scrapes| && !s.scrapes[c].phase.Finished?
  }

  predicate WriterUnfinished(s: State, t: nat) {
    t < |s.writers| && s.writers[t].phase != Done
  }

  /** Waiting for a read lock that is not to be had now. */
  predicate ScrapeBlocked(s: State, c: nat)
    requires WellFormed(s) && c < |s.scrapes|
  {
    var th := s.scrapes[c];
    th.phase.Locking? && th.phase.k < |th.plan| && s.locks[th.plan[th.phase.k]].writer != Free
  }

  predicate WriterBlocked(s: State, t: nat)
    requires WellFormed(s) && t < |s.writers|
  {
    var w := s.writers[t];
    || (w.phase == Idle && s.locks[w.store].writer != Free)
    || (w.phase == Waiting && s.locks[w.store].readers != {})
  }

  ghost predicate AllBlocked(s: State)
    requires WellFormed(s)
  {
    && (forall c: nat :: ScrapeUnfinished(s, c) ==> ScrapeBlocked(s, c))
    && (forall t: nat :: WriterUnfinished(s, t) ==> WriterBlocked(s, t))
  }

  /** A lock that is not free is held up by a scrape that is inside it and itself
      waits for a later lock. */
  lemma SomeReaderInside(s: State, l: nat) returns (c: nat)
    requires WellFormed(s) && LocksInv(s) && AllBlocked(s)
    requires l < |s.locks| && s.locks[l].writer != Free
    ensures c < |s.scrapes| && ScrapeUnfinished(s, c) && ScrapeBlocked(s, c) && Holds(s.scrapes[c], l)
  {
    assert SlotMatches(s, l) && ReadersMatch(s, l);
    match s.locks[l].writer {
      case Owned(t) =>
        assert WriterUnfinished(s, t);
        assert false;
      case Announced(t) =>
        assert WriterUnfinished(s, t);
        c :| c in s.locks[l].readers;
    }
  }

  lemma {:induction false} NoScrapeBlocked(s: State, c: nat)
    requires WellFormed(s) && LocksInv(s) && AllBlocked(s)
    ensures !ScrapeUnfinished(s, c)
    decreases if ScrapeUnfinished(s, c) && ScrapeBlocked(s, c)
              then |s.stores| - s.scrapes[c].plan[s.scrapes[c].phase.k] else 0
  {
    if ScrapeUnfinished(s, c) {
      var th := s.scrapes[c];
      var l := th.plan[th.phase.k];
      assert Ascending(th.plan, |s.stores|);
      var d := SomeReaderInside(s, l);
      var other := s.scrapes[d];
      assert Ascending(other.plan, |s.stores|);
      var i :| 0 <= i < HeldCount(other) && i < |other.plan| && other.plan[i] == l;
      assert other.plan[other.phase.k] > l;
      NoScrapeBlocked(s, d);
      assert false;
    }
  }

  /** In every reachable state with work left, some thread with work left is not
      waiting for a lock. */
  lemma NoDeadlock(s: State)
    requires Inv(s) && AllBlocked(s)
    ensures forall c: nat :: !ScrapeUnfinished(s, c)
    ensures forall t: nat :: !WriterUnfinished(s, t)
  {
    hide Printed;
    hide ScrapeInv;
    forall c: nat ensures !ScrapeUnfinished(s, c) {
      NoScrapeBlocked(s, c);
    }
    forall t: nat | WriterUnfinished(s, t) ensures false {
      var w := s.writers[t];
      var l := w.store;
      assert WriterMatches(s, t);
      var c := SomeReaderInside(s, l);
      NoScrapeBlocked(s, c);
    }
  }

  /** A scrape that does not wait for a lock can take its next step. While it
      writes, the row it reads next is there and long enough. */
  lemma ScrapeCanStep(s: State, c: nat) returns (a: Action, s': State)
    requires Inv(s) && ScrapeUnfinished(s, c) && !ScrapeBlocked(s, c)
    ensures OfScrape(a) && a.c == c && ScrapeStep(s, a, s')
  {
    hide Printed;
    hide Ascending;
    hide Written;
    hide WroteAll;
    var th := s.scrapes[c];
    assert ScrapeInv(s, th) && Ascending(th.plan, |s.stores|) && HeldCount(th) <= |th.plan|;
    match th.phase {
      case Locking(k) =>
        if k < |th.plan| {
          PlanInBounds(s, c, k);
          var l := th.plan[k];
          a := RLock(c);
          s' := s.(locks := s.locks[l := s.locks[l].(readers := s.locks[l].readers + {c})],
                   scrapes := s.scrapes[c := th.(phase := Locking(k + 1))]);
        } else {
          a := Begin(c);
          s' := s.(scrapes := s.scrapes[c := th.(phase := Writing(Position([], [], None, 0)),
                                                 snapshot := Contents(s, th.plan))]);
        }
      case Writing(at) =>
        var th';
        a, th' := WriterCanWrite(s, c);
        s' := s.(scrapes := s.scrapes[c := th']);
      case Unlocking(k, ok) =>
        if k > 0 {
          PlanInBounds(s, c, k - 1);
          var l := th.plan[k - 1];
          a := RUnlock(c);
          s' := s.(locks := s.locks[l := s.locks[l].(readers := s.locks[l].readers - {c})],
                   scrapes := s.scrapes[c := th.(phase := Unlocking(k - 1, ok))]);
        } else {
          a := Finish(c);
          s' := s.(scrapes := s.scrapes[c := th.(phase := Finished(ok))]);
        }
    }
  }

  lemma PlanInBounds(s: State, c: nat, k: nat)
    requires WellFormed(s) && c < |s.scrapes| && k < |s.scrapes[c].plan|
    ensures s.scrapes[c].plan[k] < |s.stores|
  {
  }

  lemma WriterCanWrite(s: State, c: nat) returns (a: Action, th': ScrapeThread)
    requires Inv(s) && c < |s.scrapes| && s.scrapes[c].phase.Writing?
    ensures OfScrape(a) && !a.RLock? && !a.Begin? && !a.RUnlock? && !a.Finish? && a.c == c
    ensures Ascending(s.scrapes[c].plan, |s.stores|) && Writes(s, s.scrapes[c], a, th')
  {
    hide Printed;
    hide Written;
    hide HeaderText;
    hide RenderRow;
    var th := s.scrapes[c];
    assert ScrapeInv(s, th) && Ascending(th.plan, |s.stores|);
    var at, j, i := th.phase.at, |th.phase.at.done|, |th.phase.at.row|;
    if j == |th.plan| {
      a := EndWrite(c);
      th' := th.(phase := Unlocking(|th.plan|, true), orders := at.done);
    } else {
      var store := s.stores[th.plan[j]];
      assert store == Contents(s, th.plan)[j] == th.snapshot[j];
      match at.current {
        case None =>
          if i == |store.headers| {
            a := EndStore(c);
            th' := th.(phase := Writing(Position(at.done + [at.row], [], None, 0)));
          } else {
            var order := AnyOrder(store.rows.Keys);
            a := WriteHeader(c, order);
            th' := th.(text := th.text + HeaderText(store.headers[i]),
                       phase := Writing(at.(current := Some(order), p := 0)));
          }
        case Some(order) =>
          if at.p == |order| {
            a := EndFamily(c);
            th' := th.(phase := Writing(at.(row := at.row + [order], current := None, p := 0)));
          } else {
            assert order[at.p] in store.rows.Keys;
            a := WriteRow(c);
            th' := th.(text := th.text + RenderRow(store.rows[order[at.p]][i]), phase := Writing(at.(p := at.p + 1)));
          }
      }
    }
  }

  lemma WriterCanStep(lib: Library, s: State, t: nat) returns (a: Action, s': State)
    requires Inv(s) && WriterUnfinished(s, t) && !WriterBlocked(s, t)
    ensures !OfScrape(a) && a.t == t && WriterStep(lib, s, a, s')
  {
    hide Step;
    hide Printed;
    hide LocksInv;
    hide ScrapeInv;
    var w := s.writers[t];
    var lock := s.locks[w.store];
    match w.phase {
      case Idle =>
        a := Announce(t);
        s' := s.(locks := s.locks[w.store := lock.(writer := Announced(t))],
                 writers := s.writers[t := w.(phase := Waiting)]);
      case Waiting =>
        a := Acquire(t);
        s' := s.(locks := s.locks[w.store := lock.(writer := Owned(t))],
                 writers := s.writers[t := w.(phase := Active)]);
      case Active =>
        a := Apply(t);
        var store := StepExists(lib, s.stores[w.store], w.op);
        s' := s.(stores := s.stores[w.store := store], writers := s.writers[t := w.(phase := Applied)]);
      case Applied =>
        a := Release(t);
        s' := s.(locks := s.locks[w.store := lock.(writer := Free)],
                 writers := s.writers[t := w.(phase := Done)]);
    }
  }

  /** In every reachable state, either all scrapes and store calls have finished or
      some step is possible: nothing deadlocks, and no read is out of bounds. */
  lemma NeverStuck(lib: Library, states: seq<State>, actions: seq<Action>, n: nat)
    requires Tokens(lib) && Run(lib, states, actions) && n <= |actions|
    ensures WellFormed(states[n])
    ensures (exists c: nat :: ScrapeUnfinished(states[n], c)) || (exists t: nat :: WriterUnfinished(states[n], t)) ==>
              exists a, s' :: Next(lib, states[n], a, s')
  {
    hide LocksInv;
    hide Printed;
    hide ScrapeInv;
    hide ScrapeStep;
    hide WriterStep;
    hide ScrapeBlocked;
    hide WriterBlocked;
    RunKeepsInv(lib, states, actions, n);
    var s := states[n];
    if AllBlocked(s) {
      NoDeadlock(s);
    } else if c: nat :| ScrapeUnfinished(s, c) && !ScrapeBlocked(s, c) {
      var a, s' := ScrapeCanStep(s, c);
      assert Next(lib, s, a, s');
    } else {
      var t: nat :| WriterUnfinished(s, t) && !WriterBlocked(s, t);
      var a, s' := WriterCanStep(lib, s, t);
      assert Next(lib, s, a, s');
    }
  }

  // ---- What the code may write, the machine does ----

  /** The position is on the way through the given orders. */
  predicate Along(at: Position, orders: seq<seq<seq<string>>>) {
    var j, i := |at.done|, |at.row|;
    && at.done <= orders
    && if j < |orders| then
         at.row <= orders[j] && (at.current.Some? ==> i < |orders[j]| && at.current.value == orders[j][i])
       else at.row == [] && at.current.None?
  }

  /** Steps of one scrape only. */
  ghost predicate Path(c: nat, states: seq<State>, actions: seq<Action>) {
    && |states| == |actions| + 1
    && forall i :: 0 <= i < |actions| ==>
         && WellFormed(states[i]) && OfScrape(actions[i]) && actions[i].c == c && c < |states[i].scrapes|
         && ScrapeStep(states[i], actions[i], states[i + 1])
  }

  /** The step that goes on along the orders. */
  lemma StepAlong(s: State, c: nat, orders: seq<seq<seq<string>>>) returns (a: Action, th': ScrapeThread)
    requires Inv(s) && c < |s.scrapes| && s.scrapes[c].phase.Writing?
    requires Ordering(s.scrapes[c].snapshot, orders) && Along(s.scrapes[c].phase.at, orders)
    ensures OfScrape(a) && !a.RLock? && !a.Begin? && !a.RUnlock? && !a.Finish? && a.c == c
    ensures Ascending(s.scrapes[c].plan, |s.stores|) && Writes(s, s.scrapes[c], a, th')
    ensures
      var th := s.scrapes[c];
      var at := th.phase.at;
      if |at.done| == |orders| then th'.phase == Unlocking(|th.plan|, true) && th'.orders == orders
      else
        && th'.phase.Writing? && Along(th'.phase.at, orders)
        && var at' := th'.phase.at;
           || |at'.done| > |at.done|
           || (|at'.done| == |at.done| && |at'.row| > |at.row|)
           || (at'.done == at.done && at'.row == at.row && at.current.None? && at'.current.Some?)
           || (at'.done == at.done && at'.row == at.row && at'.current == at.current && at.current.Some?
               && at.p < at'.p <= |at.current.value|)
  {
    hide Printed;
    hide Written;
    hide HeaderText;
    hide RenderRow;
    hide LocksInv;
    var th := s.scrapes[c];
    assert ScrapeInv(s, th) && Ascending(th.plan, |s.stores|);
    var at, j, i := th.phase.at, |th.phase.at.done|, |th.phase.at.row|;
    if j == |th.plan| {
      a := EndWrite(c);
      th' := th.(phase := Unlocking(|th.plan|, true), orders := at.done);
    } else {
      var store := s.stores[th.plan[j]];
      assert store == Contents(s, th.plan)[j] == th.snapshot[j];
      assert StoreOrdering(store, orders[j]);
      match at.current {
        case None =>
          if i == |store.headers| {
            a := EndStore(c);
            th' := th.(phase := Writing(Position(at.done + [at.row], [], None, 0)));
            assert at.row == orders[j];
          } else {
            a := WriteHeader(c, orders[j][i]);
            th' := th.(text := th.text + HeaderText(store.headers[i]),
                       phase := Writing(at.(current := Some(orders[j][i]), p := 0)));
          }
        case Some(order) =>
          if at.p == |order| {
            a := EndFamily(c);
            th' := th.(phase := Writing(at.(row := at.row + [order], current := None, p := 0)));
          } else {
            assert order[at.p] in store.rows.Keys;
            a := WriteRow(c);
            th' := th.(text := th.text + RenderRow(store.rows[order[at.p]][i]), phase := Writing(at.(p := at.p + 1)));
          }
      }
    }
  }

  lemma {:induction false} GoesAlong(s: State, c: nat, orders: seq<seq<seq<string>>>)
    returns (states: seq<State>, actions: seq<Action>)
    requires Inv(s) && c < |s.scrapes| && s.scrapes[c].phase.Writing?
    requires Ordering(s.scrapes[c].snapshot, orders) && Along(s.scrapes[c].phase.at, orders)
    ensures Path(c, states, actions) && states[0] == s
    ensures
      var s', th := states[|actions|], s.scrapes[c];
      && Inv(s') && c < |s'.scrapes| && s' == s.(scrapes := s.scrapes[c := s'.scrapes[c]])
      && s'.scrapes[c].phase == Unlocking(|th.plan|, true)
      && s'.scrapes[c].orders == orders && s'.scrapes[c].snapshot == th.snapshot
    decreases
      var at := s.scrapes[c].phase.at;
      |orders| - |at.done|,
      var at := s.scrapes[c].phase.at;
      if |at.done| < |orders| then |orders[|at.done|]| - |at.row| else 0,
      s.scrapes[c].phase.at.current.None?,
      var at := s.scrapes[c].phase.at;
      if at.current.Some? then |at.current.value| - at.p else 0
  {
    hide Inv;
    hide Writes;
    hide Ordering;
    var a, th' := StepAlong(s, c, orders);
    InvIsWellFormed(s);
    var next := s.(scrapes := s.scrapes[c := th']);
    assert ScrapeStep(s, a, next);
    ScrapeStepKeepsInv(s, a, next);
    WritesKeepLocks(s, s.scrapes[c], a, th');
    if th'.phase.Writing? {
      var more, moves := GoesAlong(next, c, orders);
      states, actions := [s] + more, [a] + moves;
    } else {
      states, actions := [s, next], [a];
    }
  }

  lemma InvIsWellFormed(s: State)
    requires Inv(s)
    ensures WellFormed(s)
  {
  }

  /** A scrape that holds all its locks can, on its own, write the document of what
      its stores hold in any orders: every outcome that `MetricsWriter.WriteAllTo`
      promises is one of the machine. */
  lemma {:induction false} AnyDocumentWritten(s: State, c: nat, orders: seq<seq<seq<string>>>)
    returns (states: seq<State>, actions: seq<Action>)
    requires Inv(s) && c < |s.scrapes| && s.scrapes[c].phase == Locking(|s.scrapes[c].plan|)
    requires Ordering(Contents(s, s.scrapes[c].plan), orders)
    ensures Path(c, states, actions) && states[0] == s && c < |states[|actions|].scrapes|
    ensures
      var th, th' := s.scrapes[c], states[|actions|].scrapes[c];
      && th'.phase == Unlocking(|th.plan|, true) && th'.snapshot == Contents(s, th.plan)
      && AllShaped(th'.snapshot) && th'.text == DocumentText(th'.snapshot, orders)
  {
    hide LocksInv;
    hide Ordering;
    hide Printed;
    var th := s.scrapes[c];
    var next := s.(scrapes := s.scrapes[c := th.(phase := Writing(Position([], [], None, 0)),
                                                 snapshot := Contents(s, th.plan))]);
    assert ScrapeStep(s, Begin(c), next);
    ScrapeStepKeepsInv(s, Begin(c), next);
    OrderingLength(Contents(s, th.plan), orders);
    var more, moves := GoesAlong(next, c, orders);
    states, actions := [s] + more, [Begin(c)] + moves;
    assert ScrapeInv(more[|moves|], more[|moves|].scrapes[c]);
  }

  lemma OrderingLength(stores: seq<StoreState>, orders: seq<seq<seq<string>>>)
    requires Ordering(stores, orders)
    ensures |orders| == |stores|
  {
  }
}
