/**
 The parts of a trace that attest where it comes from: its trial, the values that
 lifecycle events bind, the official contract and its response identifiers, and
 the independent replays.
 */
module TraceAttestation {
  import opened Wrappers
  import opened RunStore
  import opened Texts
  import opened Sequences
  import opened TraceVerifier

  const TRACE_SCHEMA := "egoagentos.agentteams-trace/v1"
  const TRACE_SOURCE := "AgentTeams"
  const REAL_MODE := "real-agentteams"
  const OFFICIAL_REPOSITORY := "https://github.com/agentscope-ai/AgentTeams"

  /** The benchmark trial that a trace is verified for. */
  datatype Trial = Trial(scenario: string, seed: int)

  // ---------------------------------------------------------------- header

  predicate HeaderOk(trace: Trace, trial: Trial) {
    && trace.header.schema == TRACE_SCHEMA && trace.header.source == TRACE_SOURCE && trace.header.mode == REAL_MODE
    && trace.header.scenario == trial.scenario && trace.header.seed == trial.seed
  }

  predicate IdentityTexts(i: Identity) {
    IsText(i.task) && IsText(i.project) && IsText(i.trace) && IsText(i.correlation) && i.contextVersion >= 1
  }

  // ---------------------------------------------------------------- bound values

  /** Some event of the type carries the value. */
  ghost predicate Binds(events: seq<TraceEvent>, kind: string, value: string) {
    exists i :: 0 <= i < |events| && events[i].kind == kind && value in events[i].payload.values
  }

  predicate RxpTexts(rxp: Rxp) {
    && IsTaggedDigest(rxp.intent) && IsText(rxp.grant) && IsTaggedDigest(rxp.receipt) && IsTaggedDigest(rxp.evidence)
    && IsText(rxp.matrixRoot)
  }

  /** The lifecycle events bind every value; the matrix root thus occurs in some payload. */
  ghost predicate RxpBound(events: seq<TraceEvent>, rxp: Rxp) {
    && Binds(events, CREATED, rxp.intent) && Binds(events, CREATED, rxp.matrixRoot)
    && Binds(events, APPROVED, rxp.grant) && Binds(events, APPROVED, rxp.receipt)
    && Binds(events, REVIEWED, rxp.evidence) && Binds(events, DECIDED, rxp.evidence)
  }

  ghost predicate RxpOk(trace: Trace) {
    RxpTexts(trace.rxp) && RxpBound(trace.events, trace.rxp)
  }

  method RequireEventBinding(events: seq<TraceEvent>, kind: string, value: string) returns (bound: bool)
    ensures bound <==> Binds(events, kind, value)
  {
    for i := 0 to |events|
      invariant !Binds(events[..i], kind, value)
    {
      if events[i].kind == kind && value in events[i].payload.values { return true; }
      assert events[..i + 1] == events[..i] + [events[i]];
    }
    assert events[..|events|] == events;
    bound := false;
  }

  method CheckRxp(trace: Trace) returns (error: Option<TraceError>)
    ensures error.None? <==> RxpOk(trace)
  {
    hide Binds, RxpTexts;
    var rxp := trace.rxp;
    if !RxpTexts(rxp) { return Some(BadRxp); }
    var intent := RequireEventBinding(trace.events, CREATED, rxp.intent);
    if !intent { return Some(ValueNotBound); }
    var root := RequireEventBinding(trace.events, CREATED, rxp.matrixRoot);
    if !root { return Some(ValueNotBound); }
    var grant := RequireEventBinding(trace.events, APPROVED, rxp.grant);
    if !grant { return Some(ValueNotBound); }
    var receipt := RequireEventBinding(trace.events, APPROVED, rxp.receipt);
    if !receipt { return Some(ValueNotBound); }
    var reviewed := RequireEventBinding(trace.events, REVIEWED, rxp.evidence);
    if !reviewed { return Some(ValueNotBound); }
    var decided := RequireEventBinding(trace.events, DECIDED, rxp.evidence);
    error := if decided then None else Some(ValueNotBound);
  }

  // ---------------------------------------------------------------- the official contract

  predicate ContractOk(trace: Trace) {
    && IsText(trace.bridge.apiVersion) && IsText(trace.bridge.endpoint) && IsText(trace.run)
    && trace.contract.repository == OFFICIAL_REPOSITORY && IsCommit(trace.contract.mainCommit)
    && IsText(trace.contract.apiVersion) && IsText(trace.contract.controller)
  }

  ghost predicate AllDigests(values: seq<string>) {
    forall i :: 0 <= i < |values| ==> IsDigest(values[i])
  }

  /** The identifiers name this project and matrix root; the snapshots are exactly the responses they list. */
  ghost predicate IdentifiersOk(trace: Trace) {
    var ids := trace.identifiers;
    && ids.project == trace.identity.project && IsDigest(ids.projectCreate) && ids.matrixRoot == trace.rxp.matrixRoot
    && IsText(ids.approvalEvent) && ids.workflows != [] && AllDigests(ids.workflows)
    && trace.snapshots == ids.workflows
  }

  method DigestsOk(values: seq<string>) returns (all: bool)
    ensures all <==> AllDigests(values)
  {
    for i := 0 to |values|
      invariant AllDigests(values[..i])
    {
      if !IsDigest(values[i]) { return false; }
    }
    all := true;
  }

  method CheckOfficial(trace: Trace) returns (error: Option<TraceError>)
    ensures error.None? <==> ContractOk(trace) && IdentifiersOk(trace) && trace.originUnverified
  {
    hide AllDigests, ContractOk;
    if !ContractOk(trace) { return Some(WrongContract); }
    var ids := trace.identifiers;
    if ids.project != trace.identity.project || !IsDigest(ids.projectCreate) || ids.matrixRoot != trace.rxp.matrixRoot
      || !IsText(ids.approvalEvent) { return Some(WrongIdentifiers); }
    var listed := DigestsOk(ids.workflows);
    if !listed || ids.workflows == [] { return Some(WrongIdentifiers); }
    var shown := DigestsOk(trace.snapshots);
    if !shown || trace.snapshots != ids.workflows { return Some(SnapshotMismatch); }
    error := if trace.originUnverified then None else Some(OriginClaimed);
  }

  // ---------------------------------------------------------------- independent replays

  ghost predicate AllTexts(values: seq<string>) {
    forall i :: 0 <= i < |values| ==> IsText(values[i])
  }

  ghost predicate AllSame(values: seq<string>) {
    forall i, j :: 0 <= i < |values| && 0 <= j < |values| ==> values[i] == values[j]
  }

  /** At least two different runs replayed the trial, and all reported one digest. */
  ghost predicate ReplayOk(replay: Replay) {
    && |replay.runs| >= 2 && |replay.runs| == |replay.digests| && AllTexts(replay.runs) && AllDigests(replay.digests)
    && Distinct(replay.runs) && AllSame(replay.digests)
  }

  /** One different element: all are the same. */
  lemma {:induction false} OneElementMeansSame(values: seq<string>)
    requires values != []
    ensures |Elements(values)| == 1 <==> AllSame(values)
  {
    var x := values[0];
    assert x in Elements(values);
    if AllSame(values) {
      assert Elements(values) == {x};
    }
    if |Elements(values)| == 1 {
      forall i | 0 <= i < |values| ensures values[i] == x {
        assert values[i] in Elements(values);
        SingletonHasOne(Elements(values), x, values[i]);
      }
    }
  }

  lemma SingletonHasOne(s: set<string>, x: string, y: string)
    requires |s| == 1 && x in s && y in s
    ensures x == y
  {
    assert |s - {x}| == 0;
  }

  method TextsOk(values: seq<string>) returns (all: bool)
    ensures all <==> AllTexts(values)
  {
    for i := 0 to |values|
      invariant AllTexts(values[..i])
    {
      if !IsText(values[i]) { return false; }
    }
    all := true;
  }

  /** All attested values are texts: for the digests, where only the pattern is compared, the pattern says so. */
  lemma AttestedValuesAreTexts(trace: Trace)
    requires RxpTexts(trace.rxp) && ContractOk(trace) && IdentifiersOk(trace) && ReplayOk(trace.replay)
    ensures IsText(trace.rxp.intent) && IsText(trace.rxp.grant) && IsText(trace.rxp.receipt) && IsText(trace.rxp.evidence)
    ensures IsText(trace.contract.mainCommit) && IsText(trace.identifiers.projectCreate)
    ensures AllTexts(trace.identifiers.workflows) && AllTexts(trace.replay.digests)
  {
    hide IsText, IsDigest, IsCommit, IsTaggedDigest, Distinct, AllSame;
    DigestsAreTexts(trace.rxp.intent);
    DigestsAreTexts(trace.rxp.receipt);
    DigestsAreTexts(trace.rxp.evidence);
    DigestsAreTexts(trace.contract.mainCommit);
    RawDigestsAreTexts([trace.identifiers.projectCreate]);
    assert IsText([trace.identifiers.projectCreate][0]);
    RawDigestsAreTexts(trace.identifiers.workflows);
    RawDigestsAreTexts(trace.replay.digests);
  }

  lemma {:induction false} RawDigestsAreTexts(values: seq<string>)
    requires AllDigests(values)
    ensures AllTexts(values)
  {
    hide IsText, IsDigest;
    forall i | 0 <= i < |values| ensures IsText(values[i]) {
      assert IsTaggedDigest(values[i]);
      DigestsAreTexts(values[i]);
    }
  }

  method CheckReplay(replay: Replay) returns (error: Option<TraceError>)
    ensures error.None? <==> ReplayOk(replay)
  {
    hide AllTexts, AllDigests, Distinct, AllSame, Elements;
    var texts := TextsOk(replay.runs);
    var digests := DigestsOk(replay.digests);
    if !texts || !digests { return Some(BadText); }
    CountMeansDistinct(replay.runs);
    if |replay.runs| < 2 || |replay.runs| != |replay.digests| || |Elements(replay.runs)| != |replay.runs| {
      return Some(ReplayMismatch);
    }
    OneElementMeansSame(replay.digests);
    error := if |Elements(replay.digests)| == 1 then None else Some(ReplayMismatch);
  }
}
