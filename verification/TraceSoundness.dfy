/**
 Bindings of trace events to ledger items, the whole trace verifier, and what an
 accepted trace proves about the run behind it.
 */
module TraceSoundness {
  import opened Wrappers
  import opened HashChain
  import opened RunStore
  import opened Texts
  import opened LedgerVerifier
  import opened TraceVerifier
  import opened TraceAttestation

  // ---------------------------------------------------------------- bindings

  /** Item j of the ledger is the one that the event cites, under its id, its digest and the kind its type requires. */
  ghost predicate CitesItem(e: TraceEvent, items: seq<Item>, j: nat) {
    && j < |items| && e.payload.bridgeEventId == Some(items[j].row.fields.eventId)
    && e.payload.bridgeEventHash == Some(items[j].row.hash)
    && BoundKind(e.kind) == Some(items[j].row.fields.kind)
  }

  ghost predicate HasItem(e: TraceEvent, items: seq<Item>) {
    exists j: nat :: CitesItem(e, items, j)
  }

  /** Exactly the events of a bound type carry a binding, and it holds. */
  ghost predicate BindingOk(e: TraceEvent, items: seq<Item>) {
    if BoundKind(e.kind).Some? then e.payload.bridgeEventId.Some? && IsText(e.payload.bridgeEventId.value) && HasItem(e, items)
    else e.payload.bridgeEventId.None? && e.payload.bridgeEventHash.None?
  }

  ghost predicate NoItemTwice(events: seq<TraceEvent>) {
    forall i, j :: 0 <= i < j < |events| && events[i].payload.bridgeEventId.Some? ==>
      events[i].payload.bridgeEventId != events[j].payload.bridgeEventId
  }

  ghost predicate BindingsOk(events: seq<TraceEvent>, items: seq<Item>) {
    (forall i :: 0 <= i < |events| ==> BindingOk(events[i], items)) && NoItemTwice(events)
  }

  /** The kind of the first item with an id. */
  function ItemKind(items: seq<Item>, id: string): Option<Kind> {
    if items == [] then None
    else if items[0].row.fields.eventId == id then Some(items[0].row.fields.kind)
    else ItemKind(items[1..], id)
  }

  lemma {:induction false} ItemKindAt(items: seq<Item>, j: nat)
    requires DistinctEvents(items) && j < |items|
    ensures ItemKind(items, items[j].row.fields.eventId) == Some(items[j].row.fields.kind)
  {
    if j > 0 {
      assert items[0].row.fields.eventId != items[j].row.fields.eventId;
      ItemKindAt(items[1..], j - 1);
    }
  }

  function BindingError(e: TraceEvent, ledger: Ledger, items: seq<Item>, bound: set<string>): Option<TraceError> {
    var id, hash := e.payload.bridgeEventId, e.payload.bridgeEventHash;
    if id.Some? != hash.Some? then Some(HalfBinding)
    else if BoundKind(e.kind).Some? && id.None? then Some(UnboundLifecycle)
    else if id.None? then None
    else if !IsText(id.value) then Some(BadText)
    else if id.value !in ledger.hashes || ledger.hashes[id.value] != hash.value then Some(UnknownItem)
    else if id.value in bound then Some(ItemReused)
    else if BoundKind(e.kind).None? then Some(UnexpectedBinding)
    else if ItemKind(items, id.value) != BoundKind(e.kind) then Some(WrongKind)
    else None
  }

  /** The checks of one event amount to its binding, and to its item being new. */
  lemma {:induction false} BindingErrorMeans(e: TraceEvent, ledger: Ledger, items: seq<Item>, bound: set<string>)
    requires HashesOf(ledger.hashes, items) && DistinctEvents(items)
    ensures BindingError(e, ledger, items, bound).None? <==>
      BindingOk(e, items) && (e.payload.bridgeEventId.Some? ==> e.payload.bridgeEventId.value !in bound)
  {
    hide IsText;
    var id := e.payload.bridgeEventId;
    CitedIsListed(e, ledger, items);
    if id.Some? && id.value in ledger.hashes {
      var j :| 0 <= j < |items| && items[j].row.fields.eventId == id.value;
      ItemKindAt(items, j);
      if CitesItem(e, items, j) { assert HasItem(e, items); }
      if HasItem(e, items) {
        var k: nat :| CitesItem(e, items, k);
        SameIdSameItem(items, j, k);
      }
    }
  }

  lemma {:induction false} SameIdSameItem(items: seq<Item>, j: nat, k: nat)
    requires DistinctEvents(items) && j < |items| && k < |items|
    requires items[j].row.fields.eventId == items[k].row.fields.eventId
    ensures j == k
  {
  }

  lemma {:induction false} CitedIsListed(e: TraceEvent, ledger: Ledger, items: seq<Item>)
    requires HashesOf(ledger.hashes, items)
    ensures HasItem(e, items) ==> e.payload.bridgeEventId.Some? && e.payload.bridgeEventId.value in ledger.hashes
  {
  }

  /** The ids that the events so far cite. */
  ghost predicate BoundIds(bound: set<string>, events: seq<TraceEvent>) {
    && (forall i :: 0 <= i < |events| && events[i].payload.bridgeEventId.Some? ==> events[i].payload.bridgeEventId.value in bound)
    && (forall id :: id in bound ==> exists i :: 0 <= i < |events| && events[i].payload.bridgeEventId == Some(id))
  }

  lemma {:induction false} BindingOn(events: seq<TraceEvent>, i: nat, items: seq<Item>, ledger: Ledger, bound: set<string>)
    requires i < |events| && BindingsOk(events[..i], items) && BoundIds(bound, events[..i])
    requires HashesOf(ledger.hashes, items) && DistinctEvents(items)
    ensures BindingError(events[i], ledger, items, bound).Some? ==> !BindingsOk(events, items)
    ensures BindingError(events[i], ledger, items, bound).None? ==>
      var id := events[i].payload.bridgeEventId;
      BindingsOk(events[..i + 1], items) && BoundIds(if id.Some? then bound + {id.value} else bound, events[..i + 1])
  {
    hide BindingOk, HashesOf, DistinctEvents, BindingError;
    BindingErrorMeans(events[i], ledger, items, bound);
    var id, before, more := events[i].payload.bridgeEventId, events[..i], events[..i + 1];
    assert more == before + [events[i]];
    if id.Some? && id.value in bound {
      var k :| 0 <= k < |before| && before[k].payload.bridgeEventId == Some(id.value);
      assert events[k].payload.bridgeEventId == events[i].payload.bridgeEventId;
    } else if BindingError(events[i], ledger, items, bound).None? {
      var bound' := if id.Some? then bound + {id.value} else bound;
      forall x | x in bound' ensures exists k :: 0 <= k < |more| && more[k].payload.bridgeEventId == Some(x) {
        if x in bound {
          var k :| 0 <= k < |before| && before[k].payload.bridgeEventId == Some(x);
          assert more[k].payload.bridgeEventId == Some(x);
        } else {
          assert more[i].payload.bridgeEventId == Some(x);
        }
      }
    }
  }

  method CheckBindings(events: seq<TraceEvent>, items: seq<Item>, ledger: Ledger) returns (error: Option<TraceError>)
    requires HashesOf(ledger.hashes, items) && DistinctEvents(items)
    ensures error.None? <==> BindingsOk(events, items)
  {
    var bound: set<string> := {};
    assert BindingsOk(events[..0], items) && BoundIds(bound, events[..0]);
    hide BindingsOk, BoundIds, HashesOf, DistinctEvents, BindingError;
    for i := 0 to |events|
      invariant BindingsOk(events[..i], items) && BoundIds(bound, events[..i])
    {
      BindingOn(events, i, items, ledger, bound);
      error := BindingError(events[i], ledger, items, bound);
      if error.Some? { return; }
      if events[i].payload.bridgeEventId.Some? {
        bound := bound + {events[i].payload.bridgeEventId.value};
      }
    }
    assert events[..|events|] == events;
    error := None;
  }

  // ---------------------------------------------------------------- the verifier

  ghost predicate TraceOk(trace: Trace, trial: Trial, secretFree: Envelope -> bool) {
    && HeaderOk(trace, trial) && IdentityTexts(trace.identity)
    && AgentsOk(trace.agents) && PrincipalsOk(trace.principals, trace.agents)
    && TraceEventsOk(trace) && OrderOk(trace.events) && RolesOk(trace)
    && RxpOk(trace) && ContractOk(trace) && IdentifiersOk(trace) && trace.originUnverified
    && Accepts(trace.chain, trace.run, trace.identity, secretFree)
    && BindingsOk(trace.events, trace.chain.items)
    && IsText(trace.truthBoundary) && ReplayOk(trace.replay)
  }

  lemma AcceptedItemsDistinct(chain: Chain, run: string, identity: Identity, secretFree: Envelope -> bool)
    requires Accepts(chain, run, identity, secretFree)
    ensures DistinctEvents(chain.items)
  {
  }

  method VerifyTrace(trace: Trace, trial: Trial, secretFree: Envelope -> bool) returns (r: Result<Ledger, TraceError>)
    ensures r.Success? <==> TraceOk(trace, trial, secretFree)
    ensures r.Success? ==> r.value.head == trace.chain.head && r.value.total == |trace.chain.items|
  {
    hide HeaderOk, IdentityTexts, RxpOk, ContractOk, IdentifiersOk, ReplayOk, AgentsOk, PrincipalsOk, TraceEventsOk,
      OrderOk, RolesOk, Accepts, BindingsOk, IsAliasTable, IsKindTable, ByType, HashesOf, DistinctEvents;
    if !HeaderOk(trace, trial) { return Failure(WrongTrial); }
    if !IdentityTexts(trace.identity) { return Failure(BadIdentity); }
    var aliases := CollectAgents(trace.agents);
    if aliases.Failure? { return Failure(aliases.error); }
    var kinds := CollectPrincipals(trace.principals, aliases.value, trace.agents);
    if kinds.Failure? { return Failure(kinds.error); }
    var table := CollectEvents(trace, aliases.value, kinds.value);
    if table.Failure? { return Failure(table.error); }
    var order := CheckOrder(table.value, trace);
    if order.Some? { return Failure(order.value); }
    var roles := CheckRoles(table.value, aliases.value, kinds.value, trace);
    if roles.Some? { return Failure(roles.value); }
    var rxp := CheckRxp(trace);
    if rxp.Some? { return Failure(rxp.value); }
    var official := CheckOfficial(trace);
    if official.Some? { return Failure(official.value); }
    var ledger := VerifyBridgeEventChain(trace.chain, trace.run, trace.identity, secretFree);
    if ledger.Failure? { return Failure(BadLedger(ledger.error)); }
    AcceptedItemsDistinct(trace.chain, trace.run, trace.identity, secretFree);
    var bindings := CheckBindings(trace.events, trace.chain.items, ledger.value);
    if bindings.Some? { return Failure(bindings.value); }
    if !IsText(trace.truthBoundary) { return Failure(BadText); }
    var replay := CheckReplay(trace.replay);
    if replay.Some? { return Failure(replay.value); }
    r := Success(ledger.value);
  }

  // ---------------------------------------------------------------- what an accepted trace proves

  /** The ledger item behind an event, or -1 for an event without a binding. */
  ghost function ItemBehind(e: TraceEvent, items: seq<Item>): (j: int)
    requires BindingOk(e, items)
    ensures if BoundKind(e.kind).Some? then 0 <= j && CitesItem(e, items, j) else j == -1
  {
    if BoundKind(e.kind).None? then -1
    else
      assert HasItem(e, items);
      var k: nat :| CitesItem(e, items, k);
      k
  }

  /**
   The lifecycle events of the five bound types map injectively to ledger items
   of the required kinds, under the digests that the verifier recomputed, and no
   other event carries a binding.
   */
  lemma {:induction false} LifecycleMapsInjectively(trace: Trace, trial: Trial, secretFree: Envelope -> bool) returns (at: seq<int>)
    requires TraceOk(trace, trial, secretFree)
    ensures |at| == |trace.events|
    ensures forall i :: 0 <= i < |at| && BoundKind(trace.events[i].kind).Some? ==>
      0 <= at[i] && CitesItem(trace.events[i], trace.chain.items, at[i])
    ensures forall i :: 0 <= i < |at| && BoundKind(trace.events[i].kind).None? ==>
      at[i] == -1 && trace.events[i].payload.bridgeEventId.None? && trace.events[i].payload.bridgeEventHash.None?
    ensures forall i, j :: 0 <= i < j < |at| && at[i] >= 0 ==> at[i] != at[j]
  {
    var events, items := trace.events, trace.chain.items;
    hide HeaderOk, IdentityTexts, RxpOk, ContractOk, IdentifiersOk, ReplayOk, AgentsOk, PrincipalsOk, TraceEventsOk,
      OrderOk, RolesOk, Accepts, IsText;
    at := seq(|events|, i requires 0 <= i < |events| => ItemBehind(events[i], items));
    forall i, j | 0 <= i < j < |at| && at[i] >= 0 ensures at[i] != at[j] {
      assert events[i].payload.bridgeEventId.Some?;
      assert events[i].payload.bridgeEventId != events[j].payload.bridgeEventId;
    }
  }

  /** Under whichever of its names an agent acts, it never both executes a skill and reviews. */
  lemma ExecutorsNeverReview(trace: Trace, trial: Trial, secretFree: Envelope -> bool, k: nat, i: nat, j: nat)
    requires TraceOk(trace, trial, secretFree) && k < |trace.agents| && i < |trace.events| && j < |trace.events|
    requires trace.events[i].kind == INVOKED && trace.events[j].kind == REVIEWED
    ensures !(Answers(trace.agents[k], trace.events[i].actor) && Answers(trace.agents[k], trace.events[j].actor))
  {
    hide HeaderOk, IdentityTexts, RxpOk, ContractOk, IdentifiersOk, ReplayOk, AgentsOk, PrincipalsOk, TraceEventsOk,
      OrderOk, Accepts, BindingsOk;
    assert Independent(trace);
    assert !SameAgent(trace.events[i].actor, trace.events[j].actor, trace.agents);
  }

  /**
   The evidence that a decision binds was bound by a review of an agent that
   executed no skill under either of its names, and two different replays of the
   trial reported one digest.
   */
  lemma DecisionRestsOnIndependentReview(trace: Trace, trial: Trial, secretFree: Envelope -> bool) returns (k: nat, i: nat, d: nat)
    requires TraceOk(trace, trial, secretFree)
    ensures i < |trace.events| && trace.events[i].kind == REVIEWED && trace.rxp.evidence in trace.events[i].payload.values
    ensures d < |trace.events| && trace.events[d].kind == DECIDED && trace.rxp.evidence in trace.events[d].payload.values
    ensures k < |trace.agents| && Answers(trace.agents[k], trace.events[i].actor)
    ensures forall j :: 0 <= j < |trace.events| && trace.events[j].kind == INVOKED ==>
      !Answers(trace.agents[k], trace.events[j].actor)
    ensures trace.replay.runs[0] != trace.replay.runs[1] && trace.replay.digests[0] == trace.replay.digests[1]
  {
    hide HeaderOk, IdentityTexts, ContractOk, IdentifiersOk, AgentsOk, PrincipalsOk, TraceEventsOk, OrderOk, Accepts, BindingsOk, RxpOk,
      RolesOk, ReplayOk, Answers, ByAgent, Binds, RxpTexts;
    EvidenceIsBound(trace);
    i := BoundAt(trace.events, REVIEWED, trace.rxp.evidence);
    d := BoundAt(trace.events, DECIDED, trace.rxp.evidence);
    k := ReviewingAgent(trace, i);
    forall j | 0 <= j < |trace.events| && trace.events[j].kind == INVOKED ensures !Answers(trace.agents[k], trace.events[j].actor) {
      ExecutorsNeverReview(trace, trial, secretFree, k, j, i);
    }
    ReplaysAgree(trace.replay);
  }

  lemma EvidenceIsBound(trace: Trace)
    requires RxpOk(trace)
    ensures Binds(trace.events, REVIEWED, trace.rxp.evidence) && Binds(trace.events, DECIDED, trace.rxp.evidence)
  {
    hide Binds;
  }

  lemma {:induction false} BoundAt(events: seq<TraceEvent>, kind: string, value: string) returns (i: nat)
    requires Binds(events, kind, value)
    ensures i < |events| && events[i].kind == kind && value in events[i].payload.values
  {
    i :| 0 <= i < |events| && events[i].kind == kind && value in events[i].payload.values;
  }

  lemma ReviewingAgent(trace: Trace, i: nat) returns (k: nat)
    requires RolesOk(trace) && i < |trace.events| && trace.events[i].kind == REVIEWED
    ensures k < |trace.agents| && Answers(trace.agents[k], trace.events[i].actor)
  {
    hide DelegationsOk, SkillByAgent, SkillCallsOk, OnlyBy, Independent, Answers;
    assert trace.events[i] in trace.events;
    assert ByAgent(trace.events[i].actor, trace.agents);
    k :| 0 <= k < |trace.agents| && Answers(trace.agents[k], trace.events[i].actor);
  }

  lemma ReplaysAgree(replay: Replay)
    requires ReplayOk(replay)
    ensures |replay.runs| >= 2 && |replay.digests| >= 2
    ensures replay.runs[0] != replay.runs[1] && replay.digests[0] == replay.digests[1]
  {
    hide AllTexts, AllDigests;
  }

  /** Index i of an event of the given type. */
  ghost predicate HasKindAt(events: seq<TraceEvent>, kind: string, i: nat) {
    i < |events| && events[i].kind == kind
  }

  lemma EndsAreReached(trace: Trace, kind: string)
    requires TraceEventsOk(trace) && kind in COMMON_EVENT_TYPES
    ensures HasKindAt(trace.events, kind, FirstAt(trace.events, kind))
    ensures LastAt(trace.events, kind) >= 0 && HasKindAt(trace.events, kind, LastAt(trace.events, kind))
  {
    assert Occurs(trace.events, kind);
    var i :| 0 <= i < |trace.events| && trace.events[i].kind == kind;
    FirstAndLast(trace.events, kind, i);
  }

  /**
   The order of an accepted trace: some creation comes before every delegation
   and every acceptance, every acceptance list begins after a delegation, and the
   last decision comes after every completion and every review.
   */
  lemma LifecycleInOrder(trace: Trace, trial: Trial, secretFree: Envelope -> bool) returns (created: nat, delegated: nat, decided: nat)
    requires TraceOk(trace, trial, secretFree)
    ensures HasKindAt(trace.events, CREATED, created) && HasKindAt(trace.events, DELEGATED, delegated) && HasKindAt(trace.events, DECIDED, decided)
    ensures forall i: nat :: HasKindAt(trace.events, DELEGATED, i) ==> created < i
    ensures forall i: nat :: HasKindAt(trace.events, ACCEPTED, i) ==> created < delegated < i
    ensures forall i: nat :: HasKindAt(trace.events, COMPLETED, i) || HasKindAt(trace.events, REVIEWED, i) ==> i < decided
    ensures exists i: nat, j: nat :: HasKindAt(trace.events, ACCEPTED, i) && HasKindAt(trace.events, COMPLETED, j) && i < j
  {
    hide HeaderOk, IdentityTexts, RxpOk, ContractOk, IdentifiersOk, ReplayOk, AgentsOk, PrincipalsOk, RolesOk,
      Accepts, BindingsOk;
    var events := trace.events;
    EndsAreReached(trace, CREATED);
    EndsAreReached(trace, DELEGATED);
    EndsAreReached(trace, ACCEPTED);
    EndsAreReached(trace, COMPLETED);
    EndsAreReached(trace, DECIDED);
    hide TraceEventsOk;
    created, delegated, decided := FirstAt(events, CREATED), FirstAt(events, DELEGATED), LastAt(events, DECIDED);
    forall i: nat | HasKindAt(events, DELEGATED, i) ensures created < i { FirstAndLast(events, DELEGATED, i); }
    forall i: nat | HasKindAt(events, ACCEPTED, i) ensures created < delegated < i { FirstAndLast(events, ACCEPTED, i); }
    forall i: nat | HasKindAt(events, COMPLETED, i) || HasKindAt(events, REVIEWED, i) ensures i < decided {
      FirstAndLast(events, events[i].kind, i);
    }
  }

  /**
   Nothing can be changed behind an accepted trace: two accepted traces that
   report the same ledger head carry the same ledger, item by item.
   */
  lemma SameHeadSameLedger(a: Trace, b: Trace, trial: Trial, trial': Trial, secretFree: Envelope -> bool)
    requires TraceOk(a, trial, secretFree) && TraceOk(b, trial', secretFree)
    ensures a.chain.head == b.chain.head <==> a.chain == b.chain
    ensures a.chain.head == b.chain.head ==> a.run == b.run && a.identity == b.identity
  {
    hide HeaderOk, IdentityTexts, RxpOk, ContractOk, IdentifiersOk, ReplayOk, AgentsOk, PrincipalsOk, TraceEventsOk,
      OrderOk, RolesOk, Accepts, BindingsOk;
    HeadCommits(a.chain, b.chain, a.run, b.run, a.identity, b.identity, secretFree);
  }
}
