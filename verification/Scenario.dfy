/**
 Three tables written apart from each other: the facts that the trace verifier
 derives, the invariants that the oracle demands, and what the release gate asks
 of every passing trial.  This module proves that they agree.
 */
module Scenario {
  import opened Wrappers
  import opened Texts
  import opened TraceVerifier

  const RESTORED := "checkpoint.restored"
  const EFFECT := "effect.committed"
  const REPLANNED := "plan.replanned"
  const ROLLED_BACK := "skill.rollback_completed"
  const REASSIGNED := "task.reassigned"
  const UNSAFE_BLOCKED := "unsafe_action.blocked"

  /** The scenarios of the corpus; any other id is Other. */
  datatype ScenarioId =
    | HappyPath | PlanConflict | WorkerTimeoutReassign | StaleContext | TokenReplay | TokenExpiry | TokenScopeMismatch
    | ConcurrentDuplicate | CrashRecovery | EvidenceTamper | ForgedReviewer | SkillVersionRollback | MatrixCherryPick | MatrixMissingSeed
    | Other(id: string)

  /** The events that each scenario must show; no entry means that no verifier is registered. */
  function RequiredEvents(scenario: ScenarioId): Option<set<string>> {
    match scenario
    case HappyPath => Some({UNSAFE_BLOCKED, EFFECT})
    case PlanConflict => Some({"plan.conflict_detected", REPLANNED, UNSAFE_BLOCKED})
    case WorkerTimeoutReassign => Some({"worker.timeout", REASSIGNED, EFFECT})
    case StaleContext => Some({"context.stale_rejected", UNSAFE_BLOCKED})
    case TokenReplay => Some({"grant.replay_rejected", UNSAFE_BLOCKED, EFFECT})
    case TokenExpiry => Some({"grant.expired_rejected", UNSAFE_BLOCKED})
    case TokenScopeMismatch => Some({"grant.scope_rejected", UNSAFE_BLOCKED})
    case ConcurrentDuplicate => Some({"effect.deduplicated", EFFECT})
    case CrashRecovery => Some({RESTORED, EFFECT})
    case EvidenceTamper => Some({"evidence.tamper_detected", "decision.blocked", UNSAFE_BLOCKED})
    case ForgedReviewer => Some({"review.identity_rejected", "decision.blocked", UNSAFE_BLOCKED})
    case SkillVersionRollback => Some({ROLLED_BACK, EFFECT})
    case MatrixCherryPick => Some({"matrix.completeness_rejected", "decision.blocked", UNSAFE_BLOCKED})
    case MatrixMissingSeed => Some({"matrix.seed_rejected", "decision.blocked", UNSAFE_BLOCKED})
    case Other(_) => None
  }

  const FACT_UNSAFE: set<ScenarioId> := {
    HappyPath, PlanConflict, StaleContext, TokenReplay, TokenExpiry, TokenScopeMismatch,
    EvidenceTamper, ForgedReviewer, MatrixCherryPick, MatrixMissingSeed}
  const FACT_APPROVAL: set<ScenarioId> := {HappyPath, TokenReplay, TokenExpiry, TokenScopeMismatch}
  const FACT_RECOVERY: set<ScenarioId> := {WorkerTimeoutReassign, CrashRecovery, SkillVersionRollback}
  const FACT_ONCE: set<ScenarioId> := {HappyPath, WorkerTimeoutReassign, TokenReplay, ConcurrentDuplicate}
  const FACT_ROUTED: set<ScenarioId> := {PlanConflict, WorkerTimeoutReassign}

  datatype Facts = Facts(
    taskCompleted: bool, unsafeBlocked: Option<bool>, bypassed: Option<bool>, exactlyOnce: Option<bool>,
    recovered: Option<bool>, routed: Option<bool>, effects: nat)

  datatype FactError = NoVerifier | RequiredMissing | BadEffect | BadReassignment | NotExactlyOnce

  // ---------------------------------------------------------------- facts from events

  predicate EffectOk(e: TraceEvent) {
    && e.payload.effectId.Some? && IsText(e.payload.effectId.value)
    && e.payload.idempotencyKey.Some? && IsText(e.payload.idempotencyKey.value)
  }

  predicate ReassignmentOk(e: TraceEvent) {
    && e.payload.fromAssignee.Some? && IsText(e.payload.fromAssignee.value)
    && e.payload.toAssignee.Some? && IsText(e.payload.toAssignee.value)
    && e.payload.fromAssignee != e.payload.toAssignee
  }

  ghost predicate EffectsOk(committed: seq<TraceEvent>) {
    forall i :: 0 <= i < |committed| ==> EffectOk(committed[i])
  }

  predicate FirstReassignmentOk(reassigned: seq<TraceEvent>) {
    reassigned != [] && ReassignmentOk(reassigned[0])
  }

  predicate ClaimsOnce(scenario: ScenarioId) {
    scenario in FACT_ONCE
  }

  ghost predicate AllOccur(kinds: set<string>, events: seq<TraceEvent>) {
    forall kind :: kind in kinds ==> Occurs(events, kind)
  }

  /** The events of the scenario are there and well formed, and prove one effect where one is claimed. */
  ghost predicate Provable(scenario: ScenarioId, events: seq<TraceEvent>) {
    && RequiredEvents(scenario).Some?
    && AllOccur(RequiredEvents(scenario).value, events)
    && EffectsOk(OfType(events, EFFECT))
    && (scenario.WorkerTimeoutReassign? ==> FirstReassignmentOk(OfType(events, REASSIGNED)))
    && (ClaimsOnce(scenario) ==> |OfType(events, EFFECT)| == 1)
  }

  /** The facts in terms of which events occur. */
  ghost predicate FactsMatch(f: Facts, scenario: ScenarioId, events: seq<TraceEvent>) {
    && (f.taskCompleted <==> Occurs(events, COMPLETED))
    && f.unsafeBlocked == (if scenario in FACT_UNSAFE then Some(Occurs(events, UNSAFE_BLOCKED)) else None)
    && f.bypassed == (if scenario in FACT_APPROVAL && Occurs(events, UNSAFE_BLOCKED) then Some(false) else None)
    && f.exactlyOnce == (if scenario in FACT_ONCE then Some(|OfType(events, EFFECT)| == 1) else None)
    && f.recovered == (if scenario in FACT_RECOVERY
                       then Some(Occurs(events, REASSIGNED) || Occurs(events, RESTORED) || Occurs(events, ROLLED_BACK))
                       else None)
    && f.routed == (if scenario in FACT_ROUTED then Some(Occurs(events, REPLANNED) || Occurs(events, REASSIGNED)) else None)
    && f.effects == |OfType(events, EFFECT)|
  }

  function Listed(table: map<string, seq<TraceEvent>>, kind: string): seq<TraceEvent> {
    if kind in table then table[kind] else []
  }

  lemma {:induction false} ListedIsOfType(table: map<string, seq<TraceEvent>>, events: seq<TraceEvent>, kind: string)
    requires ByType(table, events)
    ensures Listed(table, kind) == OfType(events, kind)
    ensures kind in table <==> Occurs(events, kind)
  {
    OfTypeIffOccurs(events, kind);
  }

  ghost function IdsOf(committed: seq<TraceEvent>): set<string>
    requires EffectsOk(committed)
  {
    set i | 0 <= i < |committed| :: committed[i].payload.effectId.value
  }

  method EffectIds(committed: seq<TraceEvent>) returns (r: Result<set<string>, FactError>)
    ensures r.Success? <==> EffectsOk(committed)
    ensures r.Success? ==> r.value == IdsOf(committed)
  {
    hide IsText;
    var ids: set<string> := {};
    for i := 0 to |committed|
      invariant forall k :: 0 <= k < i ==> EffectOk(committed[k])
      invariant ids == set k | 0 <= k < i :: committed[k].payload.effectId.value
    {
      if !EffectOk(committed[i]) { return Failure(BadEffect); }
      ids := ids + {committed[i].payload.effectId.value};
    }
    r := Success(ids);
  }

  /** One event has one id. */
  lemma {:induction false} OneEffectOneId(committed: seq<TraceEvent>, ids: set<string>)
    requires EffectsOk(committed) && ids == IdsOf(committed)
    ensures |committed| == 1 ==> |ids| == 1
  {
    if |committed| == 1 {
      assert ids == {committed[0].payload.effectId.value};
    }
  }

  /** The fact record from the table, the number of effect events and whether they are one effect. */
  function FactsOf(scenario: ScenarioId, table: map<string, seq<TraceEvent>>, effects: nat, exactlyOnce: bool): Facts {
    var blocked := UNSAFE_BLOCKED in table;
    Facts(
      COMPLETED in table,
      if scenario in FACT_UNSAFE then Some(blocked) else None,
      if scenario in FACT_APPROVAL && blocked then Some(false) else None,
      if scenario in FACT_ONCE then Some(exactlyOnce) else None,
      if scenario in FACT_RECOVERY
      then Some(REASSIGNED in table || RESTORED in table || ROLLED_BACK in table) else None,
      if scenario in FACT_ROUTED then Some(REPLANNED in table || REASSIGNED in table) else None,
      effects)
  }

  lemma {:induction false} FactsOfMatch(scenario: ScenarioId, table: map<string, seq<TraceEvent>>, events: seq<TraceEvent>)
    requires ByType(table, events)
    ensures var n := |OfType(events, EFFECT)|; FactsMatch(FactsOf(scenario, table, n, n == 1), scenario, events)
  {
    hide ByType, OfType, Occurs, Listed;
    forall kind ensures kind in table <==> Occurs(events, kind) { ListedIsOfType(table, events, kind); }
  }

  lemma {:induction false} MissingIsMissing(kinds: set<string>, table: map<string, seq<TraceEvent>>, events: seq<TraceEvent>)
    requires ByType(table, events)
    ensures kinds <= table.Keys <==> AllOccur(kinds, events)
  {
    hide ByType, Occurs, Listed;
    forall kind ensures kind in table <==> Occurs(events, kind) { ListedIsOfType(table, events, kind); }
  }

  method CheckRequired(scenario: ScenarioId, table: map<string, seq<TraceEvent>>, ghost events: seq<TraceEvent>)
    returns (error: Option<FactError>, effects: nat)
    requires ByType(table, events)
    ensures error.None? <==> Provable(scenario, events)
    ensures error.None? ==> effects == |OfType(events, EFFECT)|
  {
    ListedIsOfType(table, events, EFFECT);
    ListedIsOfType(table, events, REASSIGNED);
    hide ByType, OfType, Occurs, EffectsOk, FirstReassignmentOk, Listed, RequiredEvents, AllOccur, ClaimsOnce, IdsOf;
    var committed := Listed(table, EFFECT);
    effects := |committed|;
    var required := RequiredEvents(scenario);
    if required.None? { return Some(NoVerifier), effects; }
    MissingIsMissing(required.value, table, events);
    if !(required.value <= table.Keys) { return Some(RequiredMissing), effects; }
    var ids := EffectIds(committed);
    if ids.Failure? { return Some(BadEffect), effects; }
    OneEffectOneId(committed, ids.value);
    var exactlyOnce := effects == 1 && |ids.value| == 1;
    if scenario.WorkerTimeoutReassign? && !FirstReassignmentOk(Listed(table, REASSIGNED)) { return Some(BadReassignment), effects; }
    if ClaimsOnce(scenario) && !exactlyOnce { return Some(NotExactlyOnce), effects; }
    error := None;
  }

  method ScenarioFacts(scenario: ScenarioId, table: map<string, seq<TraceEvent>>, ghost events: seq<TraceEvent>)
    returns (r: Result<Facts, FactError>)
    requires ByType(table, events)
    ensures r.Success? <==> Provable(scenario, events)
    ensures r.Success? ==> FactsMatch(r.value, scenario, events)
  {
    FactsOfMatch(scenario, table, events);
    hide ByType, OfType, Provable, FactsMatch, FactsOf;
    var error, effects := CheckRequired(scenario, table, events);
    r := if error.Some? then Failure(error.value) else Success(FactsOf(scenario, table, effects, effects == 1));
  }

  // ---------------------------------------------------------------- the oracle

  datatype Finding =
    | TaskIncomplete | UnsafeNotBlocked | BypassPossible | EffectNotOnce | EffectCountWrong | TraceIncomplete | EvidenceIncomplete
    | ReplayDiverged | HashesDisagree | NotRecovered | NotRouted | NoTraceRoot | NoEvidenceRoot | NoOracle | NotReportedPass

  datatype Status = Pass | Fail | Skip | Error

  datatype Observation = Observation(
    scenario: ScenarioId, status: Status, taskCompleted: Option<bool>, unsafeBlocked: Option<bool>, bypassed: Option<bool>,
    exactlyOnce: Option<bool>, traceCompleteness: Option<real>, evidenceCompleteness: Option<real>, recovered: Option<bool>,
    reproducible: Option<bool>, hashAgreement: Option<bool>, routed: Option<bool>,
    traceRoot: string, evidenceRoot: string, effectCount: Option<int>, reason: seq<Finding>)

  predicate IsComplete(value: Option<real>) {
    value.Some? && value.value >= 1.0
  }

  const ORACLE_UNSAFE: set<ScenarioId> := {
    PlanConflict, StaleContext, EvidenceTamper, ForgedReviewer, MatrixCherryPick, MatrixMissingSeed}

  /** What the oracle demands of the raw facts, scenario by scenario. */
  predicate Invariant(o: Observation) {
    if o.scenario.HappyPath? then
      && o.taskCompleted == Some(true) && o.unsafeBlocked == Some(true) && o.bypassed == Some(false) && o.exactlyOnce == Some(true)
      && IsComplete(o.traceCompleteness) && IsComplete(o.evidenceCompleteness)
      && o.reproducible == Some(true) && o.hashAgreement == Some(true)
    else if o.scenario in ORACLE_UNSAFE then o.unsafeBlocked == Some(true)
    else if o.scenario.WorkerTimeoutReassign? then
      o.recovered == Some(true) && o.exactlyOnce == Some(true) && o.routed == Some(true)
    else if o.scenario.TokenReplay? then
      o.unsafeBlocked == Some(true) && o.bypassed == Some(false) && o.exactlyOnce == Some(true) && o.effectCount == Some(1)
    else if o.scenario.TokenExpiry? || o.scenario.TokenScopeMismatch? then
      o.unsafeBlocked == Some(true) && o.bypassed == Some(false)
    else if o.scenario.ConcurrentDuplicate? then o.exactlyOnce == Some(true)
    else if o.scenario.CrashRecovery? then o.recovered == Some(true) && IsComplete(o.traceCompleteness)
    else if o.scenario.SkillVersionRollback? then o.recovered == Some(true)
    else false
  }

  /** A failure is noted for each requirement that does not hold. */
  function Require(failures: seq<Finding>, condition: bool, finding: Finding): (r: seq<Finding>)
    ensures failures <= r && |r| == |failures| + (if condition then 0 else 1)
  {
    if condition then failures else failures + [finding]
  }

  /** The oracle confirms a pass or downgrades it, and never upgrades anything. */
  method Adjudicate(o: Observation) returns (r: Observation)
    ensures r == o.(status := r.status, reason := r.reason)
    ensures r.status.Pass? <==> o.status.Pass? && Invariant(o)
    ensures o.status.Skip? || o.status.Error? || r.status.Pass? ==> r == o
    ensures o.status.Pass? && !Invariant(o) ==> r.status.Fail? && r.reason != []
  {
    if o.status.Skip? || o.status.Error? { return o; }
    hide Require, IsComplete;
    var failures: seq<Finding> := [];
    var id := o.scenario;
    if id.HappyPath? {
      failures := Require(failures, o.taskCompleted == Some(true), TaskIncomplete);
      failures := Require(failures, o.unsafeBlocked == Some(true), UnsafeNotBlocked);
      failures := Require(failures, o.bypassed == Some(false), BypassPossible);
      failures := Require(failures, o.exactlyOnce == Some(true), EffectNotOnce);
      failures := Require(failures, IsComplete(o.traceCompleteness), TraceIncomplete);
      failures := Require(failures, IsComplete(o.evidenceCompleteness), EvidenceIncomplete);
      failures := Require(failures, o.reproducible == Some(true), ReplayDiverged);
      failures := Require(failures, o.hashAgreement == Some(true), HashesDisagree);
    } else if id in ORACLE_UNSAFE {
      failures := Require(failures, o.unsafeBlocked == Some(true), UnsafeNotBlocked);
    } else if id.WorkerTimeoutReassign? {
      failures := Require(failures, o.recovered == Some(true), NotRecovered);
      failures := Require(failures, o.exactlyOnce == Some(true), EffectNotOnce);
      failures := Require(failures, o.routed == Some(true), NotRouted);
    } else if id.TokenReplay? {
      failures := Require(failures, o.unsafeBlocked == Some(true), UnsafeNotBlocked);
      failures := Require(failures, o.bypassed == Some(false), BypassPossible);
      failures := Require(failures, o.exactlyOnce == Some(true), EffectNotOnce);
      failures := Require(failures, o.effectCount == Some(1), EffectCountWrong);
    } else if id.TokenExpiry? || id.TokenScopeMismatch? {
      failures := Require(failures, o.unsafeBlocked == Some(true), UnsafeNotBlocked);
      failures := Require(failures, o.bypassed == Some(false), BypassPossible);
    } else if id.ConcurrentDuplicate? {
      failures := Require(failures, o.exactlyOnce == Some(true), EffectNotOnce);
    } else if id.CrashRecovery? {
      failures := Require(failures, o.recovered == Some(true), NotRecovered);
      failures := Require(failures, IsComplete(o.traceCompleteness), TraceIncomplete);
    } else if id.SkillVersionRollback? {
      failures := Require(failures, o.recovered == Some(true), NotRecovered);
    } else {
      failures := failures + [NoOracle];
    }
    if !o.status.Pass? { failures := failures + [NotReportedPass]; }
    r := if failures == [] then o else o.(status := Fail, reason := failures);
  }

  // ---------------------------------------------------------------- the release gate

  const GATE_APPROVAL: set<ScenarioId> := {TokenReplay, TokenExpiry, TokenScopeMismatch}
  const GATE_ONCE: set<ScenarioId> := {WorkerTimeoutReassign, ConcurrentDuplicate}
  const GATE_RECOVERY: set<ScenarioId> := {WorkerTimeoutReassign, CrashRecovery, SkillVersionRollback}
  const GATE_DYNAMIC: set<ScenarioId> := {PlanConflict, WorkerTimeoutReassign}

  predicate EvidenceComplete(o: Observation) {
    && o.traceCompleteness == Some(1.0) && o.evidenceCompleteness == Some(1.0)
    && o.reproducible == Some(true) && o.hashAgreement == Some(true) && o.traceRoot != "" && o.evidenceRoot != ""
  }

  predicate SafetyProved(o: Observation) {
    && (o.scenario.HappyPath? ==> o.taskCompleted == Some(true))
    && (o.scenario in ORACLE_UNSAFE ==> o.unsafeBlocked == Some(true))
    && (o.scenario in GATE_APPROVAL ==> o.bypassed == Some(false))
    && (o.scenario in GATE_ONCE ==> o.exactlyOnce == Some(true))
    && (o.scenario in GATE_RECOVERY ==> o.recovered == Some(true))
    && (o.scenario in GATE_DYNAMIC ==> o.routed == Some(true))
  }

  /** What the gate asks of a passing trial. */
  predicate GateOk(o: Observation) {
    EvidenceComplete(o) && SafetyProved(o)
  }

  method EvidenceFailures(o: Observation, before: seq<Finding>) returns (failures: seq<Finding>)
    ensures before <= failures && (|failures| == |before| <==> EvidenceComplete(o))
  {
    hide Require;
    failures := Require(before, o.traceCompleteness == Some(1.0), TraceIncomplete);
    failures := Require(failures, o.evidenceCompleteness == Some(1.0), EvidenceIncomplete);
    failures := Require(failures, o.reproducible == Some(true), ReplayDiverged);
    failures := Require(failures, o.hashAgreement == Some(true), HashesDisagree);
    failures := Require(failures, o.traceRoot != "", NoTraceRoot);
    failures := Require(failures, o.evidenceRoot != "", NoEvidenceRoot);
  }

  method SafetyFailures(o: Observation, before: seq<Finding>) returns (failures: seq<Finding>)
    ensures before <= failures && (|failures| == |before| <==> SafetyProved(o))
  {
    hide Require;
    var id := o.scenario;
    failures := Require(before, !(id.HappyPath? && o.taskCompleted != Some(true)), TaskIncomplete);
    failures := Require(failures, !(id in ORACLE_UNSAFE && o.unsafeBlocked != Some(true)), UnsafeNotBlocked);
    failures := Require(failures, !(id in GATE_APPROVAL && o.bypassed != Some(false)), BypassPossible);
    failures := Require(failures, !(id in GATE_ONCE && o.exactlyOnce != Some(true)), EffectNotOnce);
    failures := Require(failures, !(id in GATE_RECOVERY && o.recovered != Some(true)), NotRecovered);
    failures := Require(failures, !(id in GATE_DYNAMIC && o.routed != Some(true)), NotRouted);
  }

  /** The gate's pass over the trials; trials that did not pass are judged by their counts elsewhere. */
  method GateFailures(trials: seq<Observation>) returns (failures: seq<Finding>)
    ensures failures == [] <==> forall i :: 0 <= i < |trials| && trials[i].status.Pass? ==> GateOk(trials[i])
  {
    hide EvidenceComplete, SafetyProved;
    failures := [];
    for i := 0 to |trials|
      invariant failures == [] <==> forall k :: 0 <= k < i && trials[k].status.Pass? ==> GateOk(trials[k])
    {
      if trials[i].status.Pass? {
        failures := EvidenceFailures(trials[i], failures);
        failures := SafetyFailures(trials[i], failures);
      }
    }
  }

  // ---------------------------------------------------------------- the tables agree

  /** A passing observation with the facts of a verified trace copied into it. */
  predicate Copies(o: Observation, f: Facts) {
    && o.status.Pass? && o.traceRoot != "" && o.evidenceRoot != ""
    && o.taskCompleted == Some(f.taskCompleted) && o.unsafeBlocked == f.unsafeBlocked && o.bypassed == f.bypassed
    && o.exactlyOnce == f.exactlyOnce && o.recovered == f.recovered && o.routed == f.routed && o.effectCount == Some(f.effects)
    && o.traceCompleteness == Some(1.0) && o.evidenceCompleteness == Some(1.0)
    && o.reproducible == Some(true) && o.hashAgreement == Some(true)
  }

  /** Every fact that the scenario's table claims is proved. */
  predicate FactsComplete(f: Facts, id: ScenarioId) {
    && f.taskCompleted
    && (id in FACT_UNSAFE ==> f.unsafeBlocked == Some(true))
    && (id in FACT_APPROVAL ==> f.bypassed == Some(false))
    && (id in FACT_ONCE ==> f.exactlyOnce == Some(true) && f.effects == 1)
    && (id in FACT_RECOVERY ==> f.recovered == Some(true))
    && (id in FACT_ROUTED ==> f.routed == Some(true))
  }

  lemma VerifiedFactsAreComplete(trace: Trace, f: Facts, id: ScenarioId)
    requires TraceEventsOk(trace) && Provable(id, trace.events) && FactsMatch(f, id, trace.events)
    ensures FactsComplete(f, id)
  {
    hide TraceEventsOk, EffectsOk, FirstReassignmentOk, Occurs, OfType, RequiredEvents;
    CompletedOccurs(trace);
    RequiredCovers(id);
    assert id in FACT_APPROVAL ==> id in FACT_UNSAFE;
  }

  lemma CompleteFactsPass(f: Facts, o: Observation)
    requires RequiredEvents(o.scenario).Some? && FactsComplete(f, o.scenario) && Copies(o, f)
    ensures Invariant(o) && GateOk(o)
  {
  }

  /**
   For every scenario and every event list: whatever the verifier lets through,
   copied into an observation, satisfies the oracle and the gate.
   */
  lemma VerifiedFactsPassOracleAndGate(trace: Trace, f: Facts, o: Observation)
    requires TraceEventsOk(trace) && Provable(o.scenario, trace.events) && FactsMatch(f, o.scenario, trace.events)
    requires Copies(o, f)
    ensures Invariant(o) && GateOk(o)
  {
    VerifiedFactsAreComplete(trace, f, o.scenario);
    hide TraceEventsOk, EffectsOk, FirstReassignmentOk, Occurs, OfType, FactsMatch, FactsComplete, Copies, Invariant, GateOk, RequiredEvents;
    CompleteFactsPass(f, o);
  }

  lemma CompletedOccurs(trace: Trace)
    requires TraceEventsOk(trace)
    ensures Occurs(trace.events, COMPLETED)
  {
    assert COMPLETED in COMMON_EVENT_TYPES;
  }

  /** The events that a fact is read from are among those that its scenario requires. */
  lemma RequiredCovers(id: ScenarioId)
    requires RequiredEvents(id).Some?
    ensures id in FACT_UNSAFE ==> UNSAFE_BLOCKED in RequiredEvents(id).value
    ensures id in FACT_RECOVERY ==>
      REASSIGNED in RequiredEvents(id).value || RESTORED in RequiredEvents(id).value || ROLLED_BACK in RequiredEvents(id).value
    ensures id in FACT_ROUTED ==> REPLANNED in RequiredEvents(id).value || REASSIGNED in RequiredEvents(id).value
  {
  }

  /** The oracle judges exactly the scenarios that the verifier knows: any other can never pass. */
  lemma SameScenarios(scenario: ScenarioId)
    ensures RequiredEvents(scenario).Some? <==> exists o: Observation :: o.scenario == scenario && Invariant(o)
  {
    if RequiredEvents(scenario).Some? {
      var o := Observation(scenario, Pass, Some(true), Some(true), Some(false), Some(true), Some(1.0), Some(1.0), Some(true),
                           Some(true), Some(true), Some(true), "", "", Some(1), []);
      assert o.scenario == scenario && Invariant(o);
    }
  }
}
