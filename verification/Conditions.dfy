/** The status conditions of a managed resource: `CRDMetricsResourceStatus` in
    `pkg/apis/crdmetrics/v1alpha1/types.go`. */
module Conditions {
  import opened Text

  const PROCESSED := "Processed"
  const FAILED := "Failed"
  const STATUS_TRUE := "True"
  const STATUS_FALSE := "False"

  datatype Condition = Condition(kind: string, status: string, reason: string, message: string, generation: int)

  /** What a caller of `Set` fills in. */
  datatype Report = Report(kind: string, status: string, message: string)

  /** One call of `Set`, on a resource of the given generation. */
  datatype Call = Call(generation: int, report: Report)

  predicate Known(kind: string) {
    kind == PROCESSED || kind == FAILED
  }

  function ReasonFor(kind: string, holds: bool): string
    requires Known(kind)
  {
    if kind == PROCESSED then (if holds then "EventHandlerSucceeded" else "EventHandlerRunning")
    else (if holds then "EventHandlerFailed" else "N/A")
  }

  function HintFor(kind: string, holds: bool): string
    requires Known(kind)
  {
    if kind == PROCESSED then
      (if holds then "Resource configuration has been processed successfully"
       else "Resource configuration is yet to be processed")
    else (if holds then "Resource failed to process" else "N/A")
  }

  /** A report as it ends up in the list. Any status but "True" counts as not holding. */
  function Dress(call: Call): Condition
    requires Known(call.report.kind)
  {
    var r := call.report;
    var holds := r.status == STATUS_TRUE;
    Condition(r.kind, r.status, ReasonFor(r.kind, holds), HintFor(r.kind, holds) + ": " + r.message, call.generation)
  }

  /** What a report reads like. */
  lemma DressedAs(call: Call)
    requires Known(call.report.kind)
    ensures
      var r, c := call.report, Dress(call);
      && c.kind == r.kind && c.status == r.status && c.generation == call.generation
      && (r.kind == "Processed" && r.status == "True" ==>
            c.reason == "EventHandlerSucceeded"
            && c.message == "Resource configuration has been processed successfully: " + r.message)
      && (r.kind == "Processed" && r.status != "True" ==>
            c.reason == "EventHandlerRunning"
            && c.message == "Resource configuration is yet to be processed: " + r.message)
      && (r.kind == "Failed" && r.status == "True" ==>
            c.reason == "EventHandlerFailed" && c.message == "Resource failed to process: " + r.message)
      && (r.kind == "Failed" && r.status != "True" ==> c.reason == "N/A" && c.message == "N/A: " + r.message)
  {
    assert PROCESSED[0] != FAILED[0];
    assert "Resource configuration has been processed successfully" + ": "
        == "Resource configuration has been processed successfully: ";
    assert "Resource configuration is yet to be processed" + ": " == "Resource configuration is yet to be processed: ";
    assert "Resource failed to process" + ": " == "Resource failed to process: ";
    assert "N/A" + ": " == "N/A: ";
  }

  /** The list as a map: the first entry of a kind. */
  function Lookup(cs: seq<Condition>, kind: string): Option<Condition> {
    if cs == [] then None
    else if cs[0].kind == kind then Some(cs[0])
    else Lookup(cs[1..], kind)
  }

  function Put(cs: seq<Condition>, c: Condition): seq<Condition> {
    if cs == [] then [c]
    else if cs[0].kind == c.kind then [c] + cs[1..]
    else [cs[0]] + Put(cs[1..], c)
  }

  class CRDMetricsResourceStatus {
    var conditions: seq<Condition>

    constructor (conditions: seq<Condition>)
      ensures this.conditions == conditions
    {
      this.conditions := conditions;
    }

    /** Reason and message prefix, by the tables. */
    static method Prefixes(report: Report) returns (reason: string, hint: string)
      requires Known(report.kind)
      ensures reason == ReasonFor(report.kind, report.status == STATUS_TRUE)
      ensures hint == HintFor(report.kind, report.status == STATUS_TRUE)
    {
      var index := if report.kind == PROCESSED then 0 else 1;
      if report.status == STATUS_TRUE {
        reason := ["EventHandlerSucceeded", "EventHandlerFailed"][index];
        hint := ["Resource configuration has been processed successfully", "Resource failed to process"][index];
      } else {
        reason := ["EventHandlerRunning", "N/A"][index];
        hint := ["Resource configuration is yet to be processed", "N/A"][index];
      }
    }

    /** An unknown kind would index the tables with -1. */
    method Set(generation: int, report: Report)
      requires Known(report.kind)
      modifies this
      ensures conditions == Put(old(conditions), Dress(Call(generation, report)))
    {
      hide ReasonFor;
      hide HintFor;
      var reason, hint := Prefixes(report);
      var condition := Condition(report.kind, report.status, reason, hint + ": " + report.message, generation);
      var i := 0;
      while i < |conditions|
        invariant 0 <= i <= |conditions| && conditions == old(conditions)
        invariant Put(conditions, condition) == conditions[..i] + Put(conditions[i..], condition)
      {
        ghost var rest := conditions[i..];
        if conditions[i].kind == condition.kind {
          conditions := conditions[i := condition];
          assert rest[1..] == old(conditions)[i + 1..];
          return;
        }
        assert rest[1..] == conditions[i + 1..];
        i := i + 1;
      }
      conditions := conditions + [condition];
    }
  }

  // ---- Any number of calls ----

  ghost predicate DistinctKinds(cs: seq<Condition>) {
    forall i, j :: 0 <= i < j < |cs| ==> cs[i].kind != cs[j].kind
  }

  function AfterCalls(cs: seq<Condition>, calls: seq<Call>): seq<Condition>
    requires forall i :: 0 <= i < |calls| ==> Known(calls[i].report.kind)
  {
    if calls == [] then cs
    else Put(AfterCalls(cs, calls[..|calls| - 1]), Dress(calls[|calls| - 1]))
  }

  function LastCall(calls: seq<Call>, kind: string): (r: Option<Call>)
    ensures r.Some? ==> r.value in calls && r.value.report.kind == kind
  {
    if calls == [] then None
    else
      var last := calls[|calls| - 1];
      if last.report.kind == kind then Some(last) else LastCall(calls[..|calls| - 1], kind)
  }

  lemma {:induction false} PutIsUpdate(cs: seq<Condition>, c: Condition)
    ensures forall kind :: Lookup(Put(cs, c), kind) == if kind == c.kind then Some(c) else Lookup(cs, kind)
    ensures |cs| <= |Put(cs, c)| <= |cs| + 1
    ensures forall i :: 0 <= i < |cs| ==> Put(cs, c)[i].kind == cs[i].kind
    ensures forall i :: 0 <= i < |cs| && cs[i].kind != c.kind ==> Put(cs, c)[i] == cs[i]
    ensures |Put(cs, c)| > |cs| ==> Put(cs, c)[|cs|] == c && forall i :: 0 <= i < |cs| ==> cs[i].kind != c.kind
  {
    if cs != [] && cs[0].kind != c.kind {
      PutIsUpdate(cs[1..], c);
      assert Put(cs, c)[1..] == Put(cs[1..], c);
    } else if cs != [] {
      assert Put(cs, c)[1..] == cs[1..];
    } else {
      assert Put(cs, c)[1..] == [];
    }
  }

  /** Whatever the calls, the list stays a map: kinds stay distinct, entries keep
      their place, and each kind shows the last report made of it. */
  lemma {:induction false} ConditionsAreAMap(cs: seq<Condition>, calls: seq<Call>)
    requires DistinctKinds(cs)
    requires forall i :: 0 <= i < |calls| ==> Known(calls[i].report.kind)
    ensures DistinctKinds(AfterCalls(cs, calls))
    ensures |cs| <= |AfterCalls(cs, calls)|
    ensures forall i :: 0 <= i < |cs| ==> AfterCalls(cs, calls)[i].kind == cs[i].kind
    ensures forall i :: 0 <= i < |cs| && LastCall(calls, cs[i].kind).None? ==> AfterCalls(cs, calls)[i] == cs[i]
    ensures forall kind ::
              Lookup(AfterCalls(cs, calls), kind) ==
              match LastCall(calls, kind) { case Some(call) => Some(Dress(call)) case None => Lookup(cs, kind) }
  {
    if calls != [] {
      hide Dress;
      var front, last := calls[..|calls| - 1], calls[|calls| - 1];
      ConditionsAreAMap(cs, front);
      PutIsUpdate(AfterCalls(cs, front), Dress(last));
    }
  }

  predicate Failing(cs: seq<Condition>) {
    Lookup(cs, FAILED).Some? && Lookup(cs, FAILED).value.status == STATUS_TRUE
  }

  /** The program only ever reports "Failed" as true, so a resource reads as failed
      exactly if it once failed, whatever succeeded later. */
  lemma {:induction false} FailureSticks(cs: seq<Condition>, calls: seq<Call>)
    requires forall i :: 0 <= i < |calls| ==> Known(calls[i].report.kind)
    requires forall i :: 0 <= i < |calls| && calls[i].report.kind == FAILED ==> calls[i].report.status == STATUS_TRUE
    ensures Failing(AfterCalls(cs, calls)) <==>
            Failing(cs) || exists i :: 0 <= i < |calls| && calls[i].report.kind == FAILED
  {
    hide Put;
    hide ReasonFor;
    hide HintFor;
    if calls != [] {
      var front, last := calls[..|calls| - 1], calls[|calls| - 1];
      FailureSticks(cs, front);
      PutIsUpdate(AfterCalls(cs, front), Dress(last));
      if exists i :: 0 <= i < |calls| && calls[i].report.kind == FAILED {
        var i :| 0 <= i < |calls| && calls[i].report.kind == FAILED;
        assert i < |front| ==> front[i].report.kind == FAILED;
      }
    }
  }
}
