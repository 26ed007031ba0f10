/**
 What a row of the keeper's log says about the event it was made for: the bridge's table against the vocabulary of the
 packages that publish (core/pkg/auditsubscriber/topics.go, core/pkg/auditsubscriber/handlers.go).
 */
module AuditRows {
  import opened Messages
  import opened BusModel
  import opened AuditBridge
  import opened AuditTheorems
  import opened AuditOnce
  import opened Options

  // ---------------------------------------------------------------- what is published where

  /** The audited events, as their own packages publish them. */
  datatype Emission =
    | SourceSynced | SourceFailed | ToolShadowed
    | ToolProposed | ToolApproved | ToolRejected | DryRunExecuted
    | LocalPatchApplied | HostedToolExported | ToolShareProposed | ToolSharePROpened

  /** The topic constant of the publishing package. */
  function Topic(e: Emission): string {
    match e
    case SourceSynced => "toolregistry.source_synced"
    case SourceFailed => "toolregistry.source_failed"
    case ToolShadowed => "toolregistry.tool_shadowed"
    case ToolProposed => "approval.tool_proposed"
    case ToolApproved => "approval.tool_approved"
    case ToolRejected => "approval.tool_rejected"
    case DryRunExecuted => "approval.tool_dry_run_executed"
    case LocalPatchApplied => "localpatch.local_patch_applied"
    case HostedToolExported => "hostedexport.hosted_tool_exported"
    case ToolShareProposed => "toolshare.tool_share_proposed"
    case ToolSharePROpened => "toolshare.tool_share_pr_opened"
  }

  /** The Go type of what is published there. */
  function TypeName(e: Emission): string {
    match e
    case SourceSynced => "toolregistry.SourceSynced"
    case SourceFailed => "toolregistry.SourceFailed"
    case ToolShadowed => "toolregistry.ToolShadowed"
    case ToolProposed => "approval.ToolProposed"
    case ToolApproved => "approval.ToolApproved"
    case ToolRejected => "approval.ToolRejected"
    case DryRunExecuted => "approval.DryRunExecuted"
    case LocalPatchApplied => "localpatch.LocalPatchApplied"
    case HostedToolExported => "hostedexport.HostedToolExported"
    case ToolShareProposed => "toolshare.ToolShareProposed"
    case ToolSharePROpened => "toolshare.ToolSharePROpened"
  }

  /** The event type that the keeper's log knows it by. */
  function EventType(e: Emission): string {
    match e
    case SourceSynced => "source_synced"
    case SourceFailed => "source_failed"
    case ToolShadowed => "tool_shadowed"
    case ToolProposed => "tool_proposed"
    case ToolApproved => "tool_approved"
    case ToolRejected => "tool_rejected"
    case DryRunExecuted => "tool_dry_run_executed"
    case LocalPatchApplied => "local_patch_applied"
    case HostedToolExported => "hosted_tool_exported"
    case ToolShareProposed => "tool_share_proposed"
    case ToolSharePROpened => "tool_share_pr_opened"
  }

  function BindingFor(e: Emission): (k: nat)
    ensures k < N
  {
    match e
    case SourceSynced => 0
    case SourceFailed => 1
    case ToolShadowed => 2
    case ToolProposed => 3
    case ToolApproved => 4
    case ToolRejected => 5
    case DryRunExecuted => 6
    case LocalPatchApplied => 7
    case HostedToolExported => 8
    case ToolShareProposed => 9
    case ToolSharePROpened => 10
  }

  /** Every audited event has its binding: on the topic it is published on, for the type it is published as, under the
      event type it is known by. */
  lemma EveryEmissionIsBound(e: Emission)
    ensures BINDINGS[BindingFor(e)] == Binding(Topic(e), EventType(e), TypeName(e))
  {
  }

  /** ... and every binding is for one of them. */
  lemma EveryBindingHasAnEmission(k: nat) returns (e: Emission)
    requires k < N
    ensures BindingFor(e) == k
  {
    e :=
      if k == 0 then SourceSynced else if k == 1 then SourceFailed else if k == 2 then ToolShadowed
      else if k == 3 then ToolProposed else if k == 4 then ToolApproved else if k == 5 then ToolRejected
      else if k == 6 then DryRunExecuted else if k == 7 then LocalPatchApplied else if k == 8 then HostedToolExported
      else if k == 9 then ToolShareProposed else ToolSharePROpened;
  }

  lemma DecisionWords(e: Emission)
    ensures EventType(e) == "tool_approved" <==> e == ToolApproved
    ensures EventType(e) == "tool_rejected" <==> e == ToolRejected
  {
  }

  // ---------------------------------------------------------------- rows against events

  /** A struct of the published type, or a pointer to one; a nil pointer, or anything else, is none. */
  predicate Carries(event: Event, e: Emission, body: Body) {
    (event == Value(body) || event == Pointer(body)) && body.typeName == TypeName(e)
  }

  /** The row made for an event: its event type, the struct itself, and the struct's own correlation id. */
  predicate RowOf(row: Row, event: Event, e: Emission) {
    Carries(event, e, row.payload) && row.eventType == EventType(e) && row.correlation == row.payload.correlation
  }

  /** `places` are the events that have a row, in order; the others are not structs of the published type. */
  ghost predicate Matched(rows: seq<Row>, envs: seq<Envelope>, e: Emission, places: seq<nat>) {
    && |places| == |rows|
    && (forall i, j :: 0 <= i < j < |places| ==> places[i] < places[j])
    && (forall j :: 0 <= j < |places| ==> places[j] < |envs| && RowOf(rows[j], envs[places[j]].event, e))
    && (forall i: nat, body :: i < |envs| && Carries(envs[i].event, e, body) ==> i in places)
  }

  lemma OneMoreEvent(rows: seq<Row>, envs: seq<Envelope>, e: Emission, places: seq<nat>, env: Envelope, row: Option<Row>)
    requires Matched(rows, envs, e, places)
    requires row.Some? ==> RowOf(row.value, env.event, e)
    requires row.None? ==> forall body :: !Carries(env.event, e, body)
    ensures Matched(if row.Some? then rows + [row.value] else rows, envs + [env], e,
                    if row.Some? then places + [|envs|] else places)
  {
    var places' := if row.Some? then places + [|envs|] else places;
    forall i: nat, body | i < |envs + [env]| && Carries((envs + [env])[i].event, e, body)
      ensures i in places'
    {
      if i < |envs| {
        assert i in places;
      } else {
        assert row.Some? && places'[|places|] == i;
      }
    }
  }

  /** The rows of a binding are, in order, one for each struct of its type among the events its handler was given,
      whether it was published by value or through a pointer, and none for anything else. */
  lemma {:induction false} RowsMatchEvents(e: Emission, envs: seq<Envelope>) returns (places: seq<nat>)
    ensures Matched(Attempts(BindingFor(e), envs), envs, e, places)
  {
    if envs == [] {
      places := [];
    } else {
      var n := |envs| - 1;
      var k, env := BindingFor(e), envs[n];
      var front := RowsMatchEvents(e, envs[..n]);
      EveryEmissionIsBound(e);
      var row := match Extract(k, env.event)
        case None => None
        case Some(body) => Some(Row(BINDINGS[k].eventType, body, body.correlation));
      OneMoreEvent(Attempts(k, envs[..n]), envs[..n], e, front, env, row);
      places := if row.Some? then front + [n] else front;
      assert envs[..n] + [env] == envs;
    }
  }

  /** An event published through a pointer is audited as the struct it points to. */
  lemma {:induction false} PointersAreDereferenced(e: Emission, envs: seq<Envelope>, i: nat, body: Body)
    requires i < |envs| && envs[i].event == Pointer(body)
    ensures Attempts(BindingFor(e), envs) == Attempts(BindingFor(e), envs[i := envs[i].(event := Value(body))])
  {
    var n := |envs| - 1;
    var valued := envs[i := envs[i].(event := Value(body))];
    if i < n {
      PointersAreDereferenced(e, envs[..n], i, body);
      assert valued[..n] == envs[..n][i := envs[i].(event := Value(body))];
    } else {
      assert valued[..n] == envs[..n];
    }
  }

  /** In any attainable state: a row of any binding, on any topic, was made for an event that was enqueued on the topic
      where such events are published, and says what that event is. */
  lemma EveryRowHasItsEvent(s: Sys, e: Emission, t: Tid, j: nat) returns (i: nat)
    requires Attainable(s) && t < |s.bus.ts| && j < |Rows(BindingFor(e), s.bus.ts[t])|
    ensures s.bus.ts[t].name == Topic(e) && i < |s.bus.ts[t].enqueued|
    ensures RowOf(Rows(BindingFor(e), s.bus.ts[t])[j], s.bus.ts[t].enqueued[i].event, e)
  {
    var k := BindingFor(e);
    EveryEmissionIsBound(e);
    if s.bus.ts[t].name != TopicName(k) { RowsOnlyFromOwnTopic(s, k, t); }
    HandledOnce(s, k, t);
    var envs := HandledBy(s.bus.ts[t].delivered, k);
    var places := RowsMatchEvents(e, envs);
    assert envs[places[j]] in s.bus.ts[t].enqueued;
    i :| 0 <= i < |s.bus.ts[t].enqueued| && s.bus.ts[t].enqueued[i] == envs[places[j]];
  }

  /** A row that says approved or rejected names the binding that made it and the struct it holds. */
  lemma DecisionRowsAreNamed(s: Sys, k: nat, t: Tid, j: nat)
    requires Attainable(s) && k < N && t < |s.bus.ts| && j < |Rows(k, s.bus.ts[t])|
    ensures var row := Rows(k, s.bus.ts[t])[j];
      && (row.eventType == "tool_approved" ==> k == BindingFor(ToolApproved) && row.payload.typeName == TypeName(ToolApproved))
      && (row.eventType == "tool_rejected" ==> k == BindingFor(ToolRejected) && row.payload.typeName == TypeName(ToolRejected))
  {
    var e := EveryBindingHasAnEmission(k);
    var i := EveryRowHasItsEvent(s, e, t, j);
    DecisionWords(e);
  }

  /** The bridge starts before the first event on a topic and Close returns; then Stop and anything else may happen.
      The rows are one for each struct published there, in the order of publication, each saying what was published. */
  lemma EveryPublicationIsAudited(s0: Sys, before: seq<Action>, after: seq<Action>, e: Emission, t: Tid)
    returns (places: seq<nat>)
    requires StartedFirst(s0, BindingFor(e)) && Run(s0, before).Some?
    requires Run(s0, before).value.phase.Running? && Run(s0, before).value.bus.closer == CloseReturned
    requires Run(Run(s0, before).value, after).Some?
    requires var s := Run(Run(s0, before).value, after).value; t < |s.bus.ts| && s.bus.ts[t].name == Topic(e)
    ensures var x := Run(Run(s0, before).value, after).value.bus.ts[t];
      Matched(Rows(BindingFor(e), x), x.enqueued, e, places)
  {
    EveryEmissionIsBound(e);
    EveryEventIsAudited(s0, before, after, BindingFor(e), t);
    places := RowsMatchEvents(e, Run(Run(s0, before).value, after).value.bus.ts[t].enqueued);
  }
}
