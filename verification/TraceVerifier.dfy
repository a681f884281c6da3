/**
 The verifier of an adapter trace: who took part, in which order, in which role,
 and which ledger item stands behind each lifecycle event.
 */
module TraceVerifier {
  import opened Wrappers
  import opened HashChain
  import opened RunStore
  import opened Texts
  import opened LedgerVerifier

  datatype Agent = Agent(id: string, role: string, matrixId: string, source: string)

  datatype Principal = Principal(id: string, kind: string, source: string)

  /** The fields of a skill call. */
  datatype SkillCall = SkillCall(
    tool: Option<string>, session: Option<string>, messageSeq: Option<int>, endpoint: Option<string>, response: Option<string>)

  /** The payload fields that the verifier reads; `values` holds every key and every leaf text of the payload. */
  datatype EventPayload = EventPayload(
    values: set<string>, assignee: Option<string>, skill: SkillCall,
    bridgeEventId: Option<string>, bridgeEventHash: Option<Hash<EventFields>>,
    effectId: Option<string>, idempotencyKey: Option<string>, fromAssignee: Option<string>, toAssignee: Option<string>)

  datatype TraceEvent = TraceEvent(sequence: int, kind: string, actor: string, task: string, correlation: string, payload: EventPayload)

  /** What the trace says it is. */
  datatype TraceHeader = TraceHeader(schema: string, source: string, mode: string, scenario: string, seed: int)

  /** The values that lifecycle events must bind. */
  datatype Rxp = Rxp(intent: string, grant: string, receipt: string, evidence: string, matrixRoot: string)

  datatype Bridge = Bridge(apiVersion: string, endpoint: string)

  datatype OfficialContract = OfficialContract(repository: string, mainCommit: string, apiVersion: string, controller: string)

  datatype Identifiers = Identifiers(
    project: string, projectCreate: string, matrixRoot: string, approvalEvent: string, workflows: seq<string>)

  datatype Replay = Replay(runs: seq<string>, digests: seq<string>)

  datatype Trace = Trace(
    header: TraceHeader, agents: seq<Agent>, principals: seq<Principal>, events: seq<TraceEvent>,
    rxp: Rxp, bridge: Bridge, contract: OfficialContract, identifiers: Identifiers, snapshots: seq<string>,
    originUnverified: bool, chain: Chain, run: string, identity: Identity, truthBoundary: string, replay: Replay)

  datatype TraceError =
    | TooFewAgents | BadText | AliasReused | TooFewRoles | PrincipalReused | PrincipalMissing | NoEvents | EventSequence
    | UnknownActor | ForeignEvent | LifecycleMissing | OutOfOrder | ReviewTooLate | BadAssignee | NoSkillAgent | BadSkill
    | WrongRole | ReviewerNotIndependent | BadLedger(error: LedgerError) | HalfBinding | UnboundLifecycle | UnknownItem
    | ItemReused | UnexpectedBinding | WrongKind | WrongTrial | BadIdentity | BadRxp | ValueNotBound | WrongContract
    | WrongIdentifiers | SnapshotMismatch | OriginClaimed | ReplayMismatch

  const CREATED := "task.created"
  const DELEGATED := "task.delegated"
  const ACCEPTED := "task.accepted"
  const INVOKED := "skill.invoked"
  const APPROVED := "human.approved"
  const COMPLETED := "task.completed"
  const REVIEWED := "independent_review.passed"
  const DECIDED := "decision.committed"

  const COMMON_EVENT_TYPES: set<string> := {CREATED, DELEGATED, ACCEPTED, INVOKED, APPROVED, COMPLETED, REVIEWED, DECIDED}

  /** The ledger kind that each bound lifecycle event must cite. */
  function BoundKind(kind: string): Option<Kind> {
    if kind == CREATED then Some(TaskRequest)
    else if kind == DELEGATED then Some(TaskUpdate)
    else if kind == ACCEPTED then Some(ArtifactAccepted)
    else if kind == APPROVED then Some(ApprovalGranted)
    else if kind == COMPLETED then Some(Kind.Terminal)
    else None
  }

  // ---------------------------------------------------------------- agents and principals

  function RolesOf(agents: seq<Agent>): set<string> {
    set a | a in agents :: a.role
  }

  predicate AgentTexts(a: Agent) {
    IsText(a.id) && IsText(a.role) && IsText(a.matrixId) && IsText(a.source)
  }

  /** The agent answers to this name. */
  predicate Answers(a: Agent, name: string) {
    name == a.id || name == a.matrixId
  }

  /** Every name belongs to one agent only, and an agent's two names differ. */
  ghost predicate NamesDistinct(agents: seq<Agent>) {
    && (forall i :: 0 <= i < |agents| ==> agents[i].id != agents[i].matrixId)
    && (forall i, j :: 0 <= i < j < |agents| ==>
          !Answers(agents[i], agents[j].id) && !Answers(agents[i], agents[j].matrixId))
  }

  ghost predicate AgentsOk(agents: seq<Agent>) {
    && |agents| >= 3 && |RolesOf(agents)| >= 3
    && (forall i :: 0 <= i < |agents| ==> AgentTexts(agents[i]))
    && NamesDistinct(agents)
  }

  /** The alias table: every name of every agent, and nothing else, mapped to the agent's id. */
  ghost predicate IsAliasTable(aliases: map<string, string>, agents: seq<Agent>) {
    && (forall i, name :: 0 <= i < |agents| && Answers(agents[i], name) ==> name in aliases && aliases[name] == agents[i].id)
    && (forall name :: name in aliases ==> exists i :: 0 <= i < |agents| && Answers(agents[i], name))
  }

  lemma {:induction false} NamesSnoc(aliases: map<string, string>, agents: seq<Agent>, a: Agent)
    requires IsAliasTable(aliases, agents) && NamesDistinct(agents)
    ensures NamesDistinct(agents + [a]) <==> a.id !in aliases && a.matrixId !in aliases && a.id != a.matrixId
  {
    var more := agents + [a];
    assert more[|agents|] == a;
    AliasMeansAgent(aliases, agents, a.id);
    AliasMeansAgent(aliases, agents, a.matrixId);
    hide IsAliasTable, Answers;
    forall i | 0 <= i < |agents| ensures more[i] == agents[i] {}
  }

  lemma {:induction false} AliasTableSnoc(aliases: map<string, string>, agents: seq<Agent>, a: Agent)
    requires IsAliasTable(aliases, agents) && a.id !in aliases && a.matrixId !in aliases
    ensures IsAliasTable(aliases[a.id := a.id][a.matrixId := a.id], agents + [a])
  {
    var more := agents + [a];
    var aliases' := aliases[a.id := a.id][a.matrixId := a.id];
    forall i, name | 0 <= i < |more| && Answers(more[i], name) ensures name in aliases' && aliases'[name] == more[i].id {
      if i < |agents| { assert Answers(agents[i], name); }
    }
    forall name | name in aliases' ensures exists i :: 0 <= i < |more| && Answers(more[i], name) {
      if name in aliases {
        var i :| 0 <= i < |agents| && Answers(agents[i], name);
        assert Answers(more[i], name);
      } else {
        assert Answers(more[|agents|], name);
      }
    }
  }

  lemma {:induction false} NamesPrefix(agents: seq<Agent>, n: nat)
    requires NamesDistinct(agents) && n <= |agents|
    ensures NamesDistinct(agents[..n])
  {
  }

  ghost predicate AgentsSoFar(agents: seq<Agent>, aliases: map<string, string>, roles: set<string>) {
    && (forall i :: 0 <= i < |agents| ==> AgentTexts(agents[i]))
    && NamesDistinct(agents) && IsAliasTable(aliases, agents) && roles == RolesOf(agents)
  }

  function AgentError(a: Agent, aliases: map<string, string>): Option<TraceError> {
    if !AgentTexts(a) then Some(BadText)
    else if a.id in aliases || a.matrixId in aliases || a.id == a.matrixId then Some(AliasReused)
    else None
  }

  lemma {:induction false} AgentOn(agents: seq<Agent>, i: nat, aliases: map<string, string>, roles: set<string>)
    requires i < |agents| && AgentsSoFar(agents[..i], aliases, roles)
    ensures AgentError(agents[i], aliases).Some? ==> !AgentsOk(agents)
    ensures AgentError(agents[i], aliases).None? ==>
      var a := agents[i];
      AgentsSoFar(agents[..i + 1], aliases[a.id := a.id][a.matrixId := a.id], roles + {a.role})
  {
    hide NamesDistinct, IsAliasTable, RolesOf, AgentTexts;
    var a := agents[i];
    NamesSnoc(aliases, agents[..i], a);
    if AgentError(a, aliases).None? { AliasTableSnoc(aliases, agents[..i], a); }
    RolesSnoc(agents[..i], a);
    assert agents[..i + 1] == agents[..i] + [a];
    if NamesDistinct(agents) { NamesPrefix(agents, i + 1); }
  }

  lemma NoAgents()
    ensures AgentsSoFar([], map[], {})
  {
  }

  method CollectAgents(agents: seq<Agent>) returns (r: Result<map<string, string>, TraceError>)
    ensures r.Success? <==> AgentsOk(agents)
    ensures r.Success? ==> IsAliasTable(r.value, agents)
  {
    if |agents| < 3 { return Failure(TooFewAgents); }
    var aliases: map<string, string> := map[];
    var roles: set<string> := {};
    NoAgents();
    hide AgentError;
    for i := 0 to |agents|
      invariant AgentsSoFar(agents[..i], aliases, roles)
    {
      hide AgentsSoFar, AgentsOk;
      AgentOn(agents, i, aliases, roles);
      var error := AgentError(agents[i], aliases);
      if error.Some? { return Failure(error.value); }
      aliases := aliases[agents[i].id := agents[i].id][agents[i].matrixId := agents[i].id];
      roles := roles + {agents[i].role};
    }
    assert agents[..|agents|] == agents;
    hide NamesDistinct, IsAliasTable, RolesOf, AgentTexts;
    if |roles| < 3 { return Failure(TooFewRoles); }
    r := Success(aliases);
  }

  lemma {:induction false} RolesSnoc(agents: seq<Agent>, a: Agent)
    ensures RolesOf(agents + [a]) == RolesOf(agents) + {a.role}
  {
    var more := agents + [a];
    forall role | role in RolesOf(agents) + {a.role} ensures role in RolesOf(more) {
      if role in RolesOf(agents) {
        var x :| x in agents && x.role == role;
        assert x in more;
      } else {
        assert a in more;
      }
    }
  }

  predicate PrincipalTexts(p: Principal) {
    IsText(p.id) && IsText(p.kind) && IsText(p.source)
  }

  ghost predicate HasPrincipal(principals: seq<Principal>, kind: string) {
    exists i :: 0 <= i < |principals| && principals[i].kind == kind
  }

  ghost predicate PrincipalsOk(principals: seq<Principal>, agents: seq<Agent>) {
    && (forall i :: 0 <= i < |principals| ==> PrincipalTexts(principals[i]))
    && (forall i, j :: 0 <= i < j < |principals| ==> principals[i].id != principals[j].id)
    && (forall i, j :: 0 <= i < |principals| && 0 <= j < |agents| ==> !Answers(agents[j], principals[i].id))
    && HasPrincipal(principals, "human") && HasPrincipal(principals, "bridge") && HasPrincipal(principals, "ego")
  }

  ghost predicate IsKindTable(kinds: map<string, string>, principals: seq<Principal>) {
    && (forall i :: 0 <= i < |principals| ==> principals[i].id in kinds && kinds[principals[i].id] == principals[i].kind)
    && (forall id :: id in kinds ==> exists i :: 0 <= i < |principals| && principals[i].id == id)
  }

  lemma {:induction false} KindsSnoc(kinds: map<string, string>, principals: seq<Principal>, p: Principal)
    requires IsKindTable(kinds, principals) && p.id !in kinds
    ensures IsKindTable(kinds[p.id := p.kind], principals + [p])
  {
    var more := principals + [p];
    var kinds' := kinds[p.id := p.kind];
    forall id | id in kinds' ensures exists i :: 0 <= i < |more| && more[i].id == id {
      if id in kinds {
        var i :| 0 <= i < |principals| && principals[i].id == id;
        assert more[i].id == id;
      } else {
        assert more[|principals|].id == id;
      }
    }
  }

  lemma {:induction false} KindValues(kinds: map<string, string>, principals: seq<Principal>, kind: string)
    requires IsKindTable(kinds, principals)
    ensures kind in kinds.Values <==> HasPrincipal(principals, kind)
  {
    if HasPrincipal(principals, kind) {
      var i :| 0 <= i < |principals| && principals[i].kind == kind;
      assert principals[i].id in kinds.Keys && kinds[principals[i].id] == kind;
    }
  }

  /** A name is an alias exactly when some agent answers to it. */
  lemma {:induction false} AliasMeansAgent(aliases: map<string, string>, agents: seq<Agent>, name: string)
    requires IsAliasTable(aliases, agents)
    ensures name in aliases <==> exists j :: 0 <= j < |agents| && Answers(agents[j], name)
  {
  }

  ghost predicate PrincipalsSoFar(principals: seq<Principal>, agents: seq<Agent>, kinds: map<string, string>) {
    && (forall i :: 0 <= i < |principals| ==> PrincipalTexts(principals[i]))
    && (forall i, j :: 0 <= i < j < |principals| ==> principals[i].id != principals[j].id)
    && (forall i, j :: 0 <= i < |principals| && 0 <= j < |agents| ==> !Answers(agents[j], principals[i].id))
    && IsKindTable(kinds, principals)
  }

  function PrincipalError(p: Principal, aliases: map<string, string>, kinds: map<string, string>): Option<TraceError> {
    if !PrincipalTexts(p) then Some(BadText) else if p.id in kinds || p.id in aliases then Some(PrincipalReused) else None
  }

  lemma {:induction false} PrincipalOn(principals: seq<Principal>, i: nat, agents: seq<Agent>, aliases: map<string, string>, kinds: map<string, string>)
    requires i < |principals| && IsAliasTable(aliases, agents) && PrincipalsSoFar(principals[..i], agents, kinds)
    ensures PrincipalError(principals[i], aliases, kinds).Some? ==> !PrincipalsOk(principals, agents)
    ensures PrincipalError(principals[i], aliases, kinds).None? ==>
      PrincipalsSoFar(principals[..i + 1], agents, kinds[principals[i].id := principals[i].kind])
  {
    hide PrincipalTexts, Answers, HasPrincipal, IsAliasTable;
    var p, before := principals[i], principals[..i];
    AliasMeansAgent(aliases, agents, p.id);
    assert principals[..i + 1] == before + [p];
    if p.id in kinds {
      var k :| 0 <= k < |before| && before[k].id == p.id;
      assert principals[k].id == p.id;
    } else {
      KindsSnoc(kinds, before, p);
    }
  }

  method CollectPrincipals(principals: seq<Principal>, aliases: map<string, string>, ghost agents: seq<Agent>)
    returns (r: Result<map<string, string>, TraceError>)
    requires IsAliasTable(aliases, agents)
    ensures r.Success? <==> PrincipalsOk(principals, agents)
    ensures r.Success? ==> IsKindTable(r.value, principals)
  {
    hide IsAliasTable, PrincipalError, HasPrincipal, Answers;
    var kinds: map<string, string> := map[];
    for i := 0 to |principals|
      invariant PrincipalsSoFar(principals[..i], agents, kinds)
    {
      hide PrincipalsSoFar, PrincipalsOk;
      PrincipalOn(principals, i, agents, aliases, kinds);
      var error := PrincipalError(principals[i], aliases, kinds);
      if error.Some? { return Failure(error.value); }
      kinds := kinds[principals[i].id := principals[i].kind];
    }
    assert principals[..|principals|] == principals;
    KindValues(kinds, principals, "human");
    KindValues(kinds, principals, "bridge");
    KindValues(kinds, principals, "ego");
    hide IsKindTable;
    if "human" !in kinds.Values || "bridge" !in kinds.Values || "ego" !in kinds.Values { return Failure(PrincipalMissing); }
    r := Success(kinds);
  }

  // ---------------------------------------------------------------- events by type

  /** The events of one type, in order. */
  function OfType(events: seq<TraceEvent>, kind: string): seq<TraceEvent> {
    if events == [] then []
    else OfType(events[..|events| - 1], kind) + (if events[|events| - 1].kind == kind then [events[|events| - 1]] else [])
  }

  lemma {:induction false} InOfType(events: seq<TraceEvent>, kind: string, e: TraceEvent)
    ensures e in OfType(events, kind) <==> e in events && e.kind == kind
  {
    if events != [] {
      InOfType(events[..|events| - 1], kind, e);
      assert events == events[..|events| - 1] + [events[|events| - 1]];
    }
  }

  lemma {:induction false} OfTypeIffOccurs(events: seq<TraceEvent>, kind: string)
    ensures OfType(events, kind) != [] <==> Occurs(events, kind)
  {
    if events != [] {
      var n := |events| - 1;
      OfTypeIffOccurs(events[..n], kind);
      if Occurs(events[..n], kind) {
        var i :| 0 <= i < n && events[..n][i].kind == kind;
        assert events[i].kind == kind;
      }
      if Occurs(events, kind) && events[n].kind != kind {
        var i :| 0 <= i < |events| && events[i].kind == kind;
        assert events[..n][i].kind == kind;
      }
    }
  }

  /** The position of the first event of a type, or the length if there is none. */
  function FirstAt(events: seq<TraceEvent>, kind: string): (r: nat)
    ensures r <= |events|
  {
    if events == [] then 0
    else
      var n := |events| - 1;
      var r := FirstAt(events[..n], kind);
      if r < n then r else if events[n].kind == kind then n else |events|
  }

  /** The position of the last event of a type, or -1 if there is none. */
  function LastAt(events: seq<TraceEvent>, kind: string): (r: int)
    ensures -1 <= r < |events|
  {
    if events == [] then -1
    else if events[|events| - 1].kind == kind then |events| - 1
    else LastAt(events[..|events| - 1], kind)
  }

  /** FirstAt and LastAt bound the positions of all events of the type, and are reached. */
  lemma {:induction false} FirstAndLast(events: seq<TraceEvent>, kind: string, i: nat)
    requires i < |events| && events[i].kind == kind
    ensures FirstAt(events, kind) <= i <= LastAt(events, kind)
    ensures events[FirstAt(events, kind)].kind == kind && events[LastAt(events, kind)].kind == kind
  {
    var n := |events| - 1;
    if i < n {
      FirstAndLast(events[..n], kind, i);
    } else if FirstAt(events[..n], kind) < n {
      FirstIsOfType(events[..n], kind);
    }
  }

  lemma {:induction false} FirstIsOfType(events: seq<TraceEvent>, kind: string)
    requires FirstAt(events, kind) < |events|
    ensures events[FirstAt(events, kind)].kind == kind
  {
    var n := |events| - 1;
    if FirstAt(events[..n], kind) < n {
      FirstIsOfType(events[..n], kind);
    }
  }

  ghost predicate Numbered(events: seq<TraceEvent>) {
    forall i :: 0 <= i < |events| ==> events[i].sequence == i + 1
  }

  /** The first and the last entry of a type's list are the first and the last event of that type. */
  lemma {:induction false} EndsOfType(events: seq<TraceEvent>, kind: string)
    requires Numbered(events)
    ensures var list := OfType(events, kind);
      && (list == [] ==> FirstAt(events, kind) == |events|)
      && (list != [] ==> FirstAt(events, kind) < |events| && list[0].sequence == FirstAt(events, kind) + 1
                         && list[|list| - 1].sequence == LastAt(events, kind) + 1)
  {
    if events != [] {
      var n := |events| - 1;
      assert Numbered(events[..n]);
      EndsOfType(events[..n], kind);
      assert events[n].sequence == n + 1;
      hide Numbered;
    }
  }

  ghost predicate Occurs(events: seq<TraceEvent>, kind: string) {
    exists i :: 0 <= i < |events| && events[i].kind == kind
  }

  ghost predicate ByType(table: map<string, seq<TraceEvent>>, events: seq<TraceEvent>) {
    forall kind :: (kind in table <==> OfType(events, kind) != []) && (kind in table ==> table[kind] == OfType(events, kind))
  }

  lemma {:induction false} ByTypeSnoc(table: map<string, seq<TraceEvent>>, events: seq<TraceEvent>, e: TraceEvent)
    requires ByType(table, events)
    ensures ByType(table[e.kind := (if e.kind in table then table[e.kind] else []) + [e]], events + [e])
  {
    var more := events + [e];
    assert more[..|events|] == events;
    assert forall kind :: OfType(more, kind) == OfType(events, kind) + (if e.kind == kind then [e] else []);
  }

  /** The actor is an agent under one of its names, or a principal. */
  ghost predicate KnownActor(actor: string, agents: seq<Agent>, principals: seq<Principal>) {
    || (exists i :: 0 <= i < |agents| && Answers(agents[i], actor))
    || (exists i :: 0 <= i < |principals| && principals[i].id == actor)
  }

  ghost predicate TraceEventOk(e: TraceEvent, trace: Trace) {
    && IsText(e.kind) && IsText(e.actor) && KnownActor(e.actor, trace.agents, trace.principals)
    && e.task == trace.identity.task && e.correlation == trace.identity.correlation
  }

  ghost predicate TraceEventsOk(trace: Trace) {
    && trace.events != [] && Numbered(trace.events)
    && (forall i :: 0 <= i < |trace.events| ==> TraceEventOk(trace.events[i], trace))
    && (forall kind :: kind in COMMON_EVENT_TYPES ==> Occurs(trace.events, kind))
  }

  ghost predicate EventsSoFar(trace: Trace, n: nat, table: map<string, seq<TraceEvent>>)
    requires n <= |trace.events|
  {
    && ByType(table, trace.events[..n])
    && forall k :: 0 <= k < n ==> trace.events[k].sequence == k + 1 && TraceEventOk(trace.events[k], trace)
  }

  function EventError(e: TraceEvent, i: nat, trace: Trace, aliases: map<string, string>, kinds: map<string, string>): Option<TraceError> {
    if e.sequence != i + 1 then Some(EventSequence)
    else if !IsText(e.kind) || !IsText(e.actor) then Some(BadText)
    else if e.actor !in aliases && e.actor !in kinds then Some(UnknownActor)
    else if e.task != trace.identity.task || e.correlation != trace.identity.correlation then Some(ForeignEvent)
    else None
  }

  lemma ActorLookup(actor: string, trace: Trace, aliases: map<string, string>, kinds: map<string, string>)
    requires IsAliasTable(aliases, trace.agents) && IsKindTable(kinds, trace.principals)
    ensures KnownActor(actor, trace.agents, trace.principals) <==> actor in aliases || actor in kinds
  {
    AliasMeansAgent(aliases, trace.agents, actor);
  }

  lemma {:induction false} EventOn(trace: Trace, i: nat, table: map<string, seq<TraceEvent>>, aliases: map<string, string>, kinds: map<string, string>)
    requires i < |trace.events| && EventsSoFar(trace, i, table)
    requires IsAliasTable(aliases, trace.agents) && IsKindTable(kinds, trace.principals)
    ensures EventError(trace.events[i], i, trace, aliases, kinds).Some? ==> !TraceEventsOk(trace)
    ensures EventError(trace.events[i], i, trace, aliases, kinds).None? ==>
      var e := trace.events[i];
      EventsSoFar(trace, i + 1, table[e.kind := (if e.kind in table then table[e.kind] else []) + [e]])
  {
    hide IsText, IsAliasTable, IsKindTable, KnownActor, ByType, Occurs;
    ActorLookup(trace.events[i].actor, trace, aliases, kinds);
    ByTypeSnoc(table, trace.events[..i], trace.events[i]);
    assert trace.events[..i + 1] == trace.events[..i] + [trace.events[i]];
  }

  lemma {:induction false} MissingLifecycle(table: map<string, seq<TraceEvent>>, events: seq<TraceEvent>)
    requires ByType(table, events)
    ensures forall kind :: kind in table <==> Occurs(events, kind)
  {
    forall kind ensures kind in table <==> Occurs(events, kind) { OfTypeIffOccurs(events, kind); }
  }

  method CollectEvents(trace: Trace, aliases: map<string, string>, kinds: map<string, string>)
    returns (r: Result<map<string, seq<TraceEvent>>, TraceError>)
    requires IsAliasTable(aliases, trace.agents) && IsKindTable(kinds, trace.principals)
    ensures r.Success? <==> TraceEventsOk(trace)
    ensures r.Success? ==> ByType(r.value, trace.events)
  {
    hide IsAliasTable, IsKindTable, EventError, TraceEventOk, Occurs, OfType;
    var events := trace.events;
    if events == [] { return Failure(NoEvents); }
    var table: map<string, seq<TraceEvent>> := map[];
    NoEventsYet(trace);
    for i := 0 to |events|
      invariant EventsSoFar(trace, i, table)
    {
      hide EventsSoFar, TraceEventsOk;
      EventOn(trace, i, table, aliases, kinds);
      var error := EventError(events[i], i, trace, aliases, kinds);
      if error.Some? { return Failure(error.value); }
      table := table[events[i].kind := (if events[i].kind in table then table[events[i].kind] else []) + [events[i]]];
    }
    assert events[..|events|] == events;
    MissingLifecycle(table, events);
    hide ByType;
    if exists kind :: kind in COMMON_EVENT_TYPES && kind !in table { return Failure(LifecycleMissing); }
    r := Success(table);
  }

  lemma NoEventsYet(trace: Trace)
    ensures EventsSoFar(trace, 0, map[])
  {
    assert forall kind :: OfType([], kind) == [];
  }

  // ---------------------------------------------------------------- order

  ghost predicate OrderOk(events: seq<TraceEvent>) {
    && FirstAt(events, CREATED) < FirstAt(events, DELEGATED) < FirstAt(events, ACCEPTED)
    && FirstAt(events, ACCEPTED) < LastAt(events, COMPLETED) < LastAt(events, DECIDED)
    && LastAt(events, REVIEWED) < LastAt(events, DECIDED)
  }

  /** Every lifecycle type has a list, whose ends are the first and the last event of the type. */
  lemma {:induction false} TableEnds(table: map<string, seq<TraceEvent>>, trace: Trace, kind: string)
    requires ByType(table, trace.events) && TraceEventsOk(trace) && kind in COMMON_EVENT_TYPES
    ensures kind in table && table[kind] != [] && table[kind] == OfType(trace.events, kind)
    ensures table[kind][0].sequence == FirstAt(trace.events, kind) + 1
    ensures table[kind][|table[kind]| - 1].sequence == LastAt(trace.events, kind) + 1
  {
    hide TraceEventOk;
    assert Occurs(trace.events, kind);
    OfTypeIffOccurs(trace.events, kind);
    EndsOfType(trace.events, kind);
  }

  lemma {:induction false} TableList(table: map<string, seq<TraceEvent>>, trace: Trace, kind: string)
    requires ByType(table, trace.events) && TraceEventsOk(trace) && kind in COMMON_EVENT_TYPES
    ensures kind in table && table[kind] == OfType(trace.events, kind)
  {
    hide ByType, TraceEventsOk, OfType;
    TableEnds(table, trace, kind);
  }

  method CheckOrder(table: map<string, seq<TraceEvent>>, ghost trace: Trace) returns (error: Option<TraceError>)
    requires ByType(table, trace.events) && TraceEventsOk(trace)
    ensures error.None? <==> OrderOk(trace.events)
  {
    hide ByType, TraceEventsOk, OfType;
    TableEnds(table, trace, CREATED);
    TableEnds(table, trace, DELEGATED);
    TableEnds(table, trace, ACCEPTED);
    TableEnds(table, trace, COMPLETED);
    TableEnds(table, trace, REVIEWED);
    TableEnds(table, trace, DECIDED);
    var created, delegated, accepted := table[CREATED][0].sequence, table[DELEGATED][0].sequence, table[ACCEPTED][0].sequence;
    var completed := table[COMPLETED][|table[COMPLETED]| - 1].sequence;
    var review := table[REVIEWED][|table[REVIEWED]| - 1].sequence;
    var decision := table[DECIDED][|table[DECIDED]| - 1].sequence;
    if !(created < delegated < accepted < completed < decision) { return Some(OutOfOrder); }
    if review >= decision { return Some(ReviewTooLate); }
    error := None;
  }

  // ---------------------------------------------------------------- roles

  ghost predicate ByAgent(name: string, agents: seq<Agent>) {
    exists j :: 0 <= j < |agents| && Answers(agents[j], name)
  }

  ghost predicate ByPrincipal(actor: string, trace: Trace, kind: string) {
    && !ByAgent(actor, trace.agents)
    && exists i :: 0 <= i < |trace.principals| && trace.principals[i].id == actor && trace.principals[i].kind == kind
  }

  ghost predicate AssigneeOk(e: TraceEvent, agents: seq<Agent>) {
    e.payload.assignee.Some? && IsText(e.payload.assignee.value) && ByAgent(e.payload.assignee.value, agents)
  }

  ghost predicate DelegationsOk(trace: Trace) {
    forall e :: e in trace.events && e.kind == DELEGATED ==> AssigneeOk(e, trace.agents)
  }

  predicate TextField(field: Option<string>) {
    field.Some? && IsText(field.value)
  }

  predicate SkillCallOk(e: TraceEvent) {
    var call := e.payload.skill;
    && TextField(call.tool) && TextField(call.session) && TextField(call.endpoint)
    && call.messageSeq.Some? && call.messageSeq.value >= 1
    && call.response.Some? && IsDigest(call.response.value)
  }

  ghost predicate SkillCallsOk(trace: Trace) {
    forall e :: e in trace.events && e.kind == INVOKED ==> SkillCallOk(e)
  }

  /** Every event of the type is by a principal of the kind. */
  ghost predicate OnlyBy(trace: Trace, kind: string, role: string) {
    forall e :: e in trace.events && e.kind == kind ==> ByPrincipal(e.actor, trace, role)
  }

  ghost predicate ReviewsByAgents(trace: Trace) {
    forall e :: e in trace.events && e.kind == REVIEWED ==> ByAgent(e.actor, trace.agents)
  }

  /** One agent acted under both names. */
  ghost predicate SameAgent(a: string, b: string, agents: seq<Agent>) {
    exists j :: 0 <= j < |agents| && Answers(agents[j], a) && Answers(agents[j], b)
  }

  ghost predicate SkillByAgent(trace: Trace) {
    exists e :: e in trace.events && e.kind == INVOKED && ByAgent(e.actor, trace.agents)
  }

  ghost predicate Independent(trace: Trace) {
    forall e, f :: e in trace.events && f in trace.events && e.kind == INVOKED && f.kind == REVIEWED ==>
      !SameAgent(e.actor, f.actor, trace.agents)
  }

  ghost predicate RolesOk(trace: Trace) {
    && DelegationsOk(trace) && SkillByAgent(trace) && SkillCallsOk(trace)
    && OnlyBy(trace, APPROVED, "human") && OnlyBy(trace, ACCEPTED, "bridge") && OnlyBy(trace, DECIDED, "ego")
    && ReviewsByAgents(trace) && Independent(trace)
  }

  /** The ids of the agents behind a list of events; principals do not count. */
  function AgentIds(list: seq<TraceEvent>, aliases: map<string, string>): set<string> {
    set e | e in list && e.actor in aliases :: aliases[e.actor]
  }

  lemma {:induction false} SameIdSameAgent(aliases: map<string, string>, agents: seq<Agent>, a: string, b: string)
    requires IsAliasTable(aliases, agents) && NamesDistinct(agents) && a in aliases && b in aliases
    ensures aliases[a] == aliases[b] <==> SameAgent(a, b, agents)
  {
    var i :| 0 <= i < |agents| && Answers(agents[i], a);
    var j :| 0 <= j < |agents| && Answers(agents[j], b);
    assert aliases[a] == agents[i].id && aliases[b] == agents[j].id;
    if i < j {
      assert !Answers(agents[i], agents[j].id) && !Answers(agents[i], agents[j].matrixId);
    } else if j < i {
      assert !Answers(agents[j], agents[i].id) && !Answers(agents[j], agents[i].matrixId);
    }
    if SameAgent(a, b, agents) {
      var k :| 0 <= k < |agents| && Answers(agents[k], a) && Answers(agents[k], b);
      assert aliases[a] == agents[k].id && aliases[b] == agents[k].id;
    }
  }

  /** Disjoint id sets mean that no agent both executes and reviews, whichever of its names it uses. */
  lemma DisjointMeansIndependent(trace: Trace, aliases: map<string, string>)
    requires IsAliasTable(aliases, trace.agents) && NamesDistinct(trace.agents)
    ensures AgentIds(OfType(trace.events, INVOKED), aliases) !! AgentIds(OfType(trace.events, REVIEWED), aliases) <==> Independent(trace)
  {
    hide NamesDistinct, OfType;
    var skills, reviews := OfType(trace.events, INVOKED), OfType(trace.events, REVIEWED);
    if Independent(trace) {
      forall id | id in AgentIds(skills, aliases) && id in AgentIds(reviews, aliases) ensures false {
        var e :| e in skills && e.actor in aliases && aliases[e.actor] == id;
        var f :| f in reviews && f.actor in aliases && aliases[f.actor] == id;
        InOfType(trace.events, INVOKED, e);
        InOfType(trace.events, REVIEWED, f);
        SameIdSameAgent(aliases, trace.agents, e.actor, f.actor);
      }
    }
    if !Independent(trace) {
      var e, f :| e in trace.events && f in trace.events && e.kind == INVOKED && f.kind == REVIEWED && SameAgent(e.actor, f.actor, trace.agents);
      InOfType(trace.events, INVOKED, e);
      InOfType(trace.events, REVIEWED, f);
      SameIdSameAgent(aliases, trace.agents, e.actor, f.actor);
      assert aliases[e.actor] in AgentIds(skills, aliases) && aliases[f.actor] in AgentIds(reviews, aliases);
    }
  }

  // The checks over one type's list.

  ghost predicate AllAliases(list: seq<TraceEvent>, aliases: map<string, string>) {
    forall e :: e in list ==> e.actor in aliases
  }

  ghost predicate AllBy(list: seq<TraceEvent>, role: string, aliases: map<string, string>, kinds: map<string, string>) {
    forall e :: e in list ==> e.actor !in aliases && e.actor in kinds && kinds[e.actor] == role
  }

  ghost predicate AllAssigned(list: seq<TraceEvent>, aliases: map<string, string>) {
    forall e :: e in list ==>
      e.payload.assignee.Some? && IsText(e.payload.assignee.value) && e.payload.assignee.value in aliases
  }

  ghost predicate AllSkillFields(list: seq<TraceEvent>) {
    forall e :: e in list ==> SkillCallOk(e)
  }

  method CollectAgentIds(list: seq<TraceEvent>, aliases: map<string, string>) returns (ids: set<string>, all: bool)
    ensures ids == AgentIds(list, aliases)
    ensures all <==> AllAliases(list, aliases)
  {
    ids, all := {}, true;
    for i := 0 to |list|
      invariant ids == AgentIds(list[..i], aliases)
      invariant all <==> AllAliases(list[..i], aliases)
    {
      assert list[..i + 1] == list[..i] + [list[i]];
      if list[i].actor in aliases {
        ids := ids + {aliases[list[i].actor]};
      } else {
        all := false;
      }
    }
    assert list[..|list|] == list;
  }

  method AllByPrincipal(list: seq<TraceEvent>, role: string, aliases: map<string, string>, kinds: map<string, string>)
    returns (all: bool)
    ensures all <==> AllBy(list, role, aliases, kinds)
  {
    for i := 0 to |list|
      invariant forall k :: 0 <= k < i ==> list[k].actor !in aliases && list[k].actor in kinds && kinds[list[k].actor] == role
    {
      var actor := list[i].actor;
      if actor in aliases || actor !in kinds || kinds[actor] != role {
        assert list[i] in list;
        return false;
      }
    }
    all := true;
  }

  method AssigneesOk(list: seq<TraceEvent>, aliases: map<string, string>) returns (all: bool)
    ensures all <==> AllAssigned(list, aliases)
  {
    for i := 0 to |list|
      invariant forall k :: 0 <= k < i ==>
        list[k].payload.assignee.Some? && IsText(list[k].payload.assignee.value) && list[k].payload.assignee.value in aliases
    {
      var assignee := list[i].payload.assignee;
      if assignee.None? || !IsText(assignee.value) || assignee.value !in aliases {
        assert list[i] in list;
        return false;
      }
    }
    all := true;
  }

  method SkillFieldsOk(list: seq<TraceEvent>) returns (all: bool)
    ensures all <==> AllSkillFields(list)
  {
    hide SkillCallOk;
    for i := 0 to |list|
      invariant forall k :: 0 <= k < i ==> SkillCallOk(list[k])
    {
      if !SkillCallOk(list[i]) {
        assert list[i] in list;
        return false;
      }
    }
    all := true;
  }

  // What each check over a type's list says about the events of the trace.

  lemma DelegationsMean(trace: Trace, aliases: map<string, string>)
    requires IsAliasTable(aliases, trace.agents)
    ensures AllAssigned(OfType(trace.events, DELEGATED), aliases) <==> DelegationsOk(trace)
  {
    hide IsText, OfType, IsAliasTable;
    forall e ensures e in OfType(trace.events, DELEGATED) <==> e in trace.events && e.kind == DELEGATED {
      InOfType(trace.events, DELEGATED, e);
    }
    forall name ensures name in aliases <==> ByAgent(name, trace.agents) {
      AliasMeansAgent(aliases, trace.agents, name);
    }
  }

  lemma PrincipalsMean(trace: Trace, aliases: map<string, string>, kinds: map<string, string>, kind: string, role: string)
    requires IsAliasTable(aliases, trace.agents) && IsKindTable(kinds, trace.principals)
    ensures AllBy(OfType(trace.events, kind), role, aliases, kinds) <==> OnlyBy(trace, kind, role)
  {
    hide OfType, IsAliasTable;
    forall e ensures e in OfType(trace.events, kind) <==> e in trace.events && e.kind == kind {
      InOfType(trace.events, kind, e);
    }
    forall name ensures name !in aliases && name in kinds && kinds[name] == role <==> ByPrincipal(name, trace, role) {
      AliasMeansAgent(aliases, trace.agents, name);
    }
  }

  lemma ReviewsMean(trace: Trace, aliases: map<string, string>)
    requires IsAliasTable(aliases, trace.agents)
    ensures AllAliases(OfType(trace.events, REVIEWED), aliases) <==> ReviewsByAgents(trace)
  {
    hide OfType, IsAliasTable;
    forall e ensures e in OfType(trace.events, REVIEWED) <==> e in trace.events && e.kind == REVIEWED {
      InOfType(trace.events, REVIEWED, e);
    }
    forall name ensures name in aliases <==> ByAgent(name, trace.agents) {
      AliasMeansAgent(aliases, trace.agents, name);
    }
  }

  lemma SkillsMean(trace: Trace, aliases: map<string, string>)
    requires IsAliasTable(aliases, trace.agents)
    ensures AgentIds(OfType(trace.events, INVOKED), aliases) == {} <==> !SkillByAgent(trace)
    ensures AllSkillFields(OfType(trace.events, INVOKED)) <==> SkillCallsOk(trace)
  {
    hide OfType, IsAliasTable, SkillCallOk;
    forall e ensures e in OfType(trace.events, INVOKED) <==> e in trace.events && e.kind == INVOKED {
      InOfType(trace.events, INVOKED, e);
    }
    forall name ensures name in aliases <==> ByAgent(name, trace.agents) {
      AliasMeansAgent(aliases, trace.agents, name);
    }
    if SkillByAgent(trace) {
      var e :| e in trace.events && e.kind == INVOKED && ByAgent(e.actor, trace.agents);
      assert aliases[e.actor] in AgentIds(OfType(trace.events, INVOKED), aliases);
    }
  }

  method CheckRoles(table: map<string, seq<TraceEvent>>, aliases: map<string, string>, kinds: map<string, string>, ghost trace: Trace)
    returns (error: Option<TraceError>)
    requires ByType(table, trace.events) && TraceEventsOk(trace) && AgentsOk(trace.agents)
    requires IsAliasTable(aliases, trace.agents) && IsKindTable(kinds, trace.principals)
    ensures error.None? <==> RolesOk(trace)
  {
    assert NamesDistinct(trace.agents);
    hide ByType, TraceEventsOk, AgentsOk, OfType, IsAliasTable, IsKindTable, NamesDistinct, AgentIds, DelegationsOk, SkillByAgent,
      SkillCallsOk, OnlyBy, ReviewsByAgents, Independent, AllAliases, AllBy, AllAssigned, AllSkillFields;
    TableList(table, trace, DELEGATED);
    TableList(table, trace, INVOKED);
    TableList(table, trace, APPROVED);
    TableList(table, trace, ACCEPTED);
    TableList(table, trace, REVIEWED);
    TableList(table, trace, DECIDED);
    DelegationsMean(trace, aliases);
    ReviewsMean(trace, aliases);
    SkillsMean(trace, aliases);
    PrincipalsMean(trace, aliases, kinds, APPROVED, "human");
    PrincipalsMean(trace, aliases, kinds, ACCEPTED, "bridge");
    PrincipalsMean(trace, aliases, kinds, DECIDED, "ego");
    DisjointMeansIndependent(trace, aliases);
    var assignees := AssigneesOk(table[DELEGATED], aliases);
    if !assignees { return Some(BadAssignee); }
    var skillAgents, _ := CollectAgentIds(table[INVOKED], aliases);
    if skillAgents == {} { return Some(NoSkillAgent); }
    var fields := SkillFieldsOk(table[INVOKED]);
    if !fields { return Some(BadSkill); }
    var approved := AllByPrincipal(table[APPROVED], "human", aliases, kinds);
    if !approved { return Some(WrongRole); }
    var accepted := AllByPrincipal(table[ACCEPTED], "bridge", aliases, kinds);
    if !accepted { return Some(WrongRole); }
    var reviewAgents, reviewed := CollectAgentIds(table[REVIEWED], aliases);
    if !reviewed { return Some(WrongRole); }
    if !(reviewAgents !! skillAgents) { return Some(ReviewerNotIndependent); }
    var decided := AllByPrincipal(table[DECIDED], "ego", aliases, kinds);
    error := if decided then None else Some(WrongRole);
  }
}
