/**
 The bridge orchestration over the shared run store.

 Before every transaction `Interference` lets any number of other processes act;
 every call to AgentTeams, Matrix or EgoAgentOS may return anything or fail.
 Each operation is proved to extend a good history to a good history, so the
 claims of module RunHistory hold at every point where a process may stop.
 */
module BridgeService {
  import opened Wrappers
  import opened HashChain
  import opened TaskIds
  import opened TaskGraph
  import opened RunStore
  import opened RunHistory
  import opened Knowledge

  datatype BridgeError =
    | StoreFailure(error: StoreError)
    | UpstreamConflict
    | UpstreamFailure
    | ContractFailure

  datatype Node = Node(id: string, status: string)

  datatype Workflow = Workflow(response: TextDigest, identityOk: bool, nodes: seq<Node>, results: map<string, bool>)

  /** What the bridge reads of an EgoAgentOS task. */
  datatype EgoTask = EgoTask(bound: bool, stage: string, pendingApproval: bool, gatePassed: bool, terminal: bool)

  datatype StartRequest = StartRequest(runId: string, header: Header, intent: string)

  /** The remote services: every answer is possible at every call. */
  class Upstream {
    constructor () {}

    method Call() returns (r: Result<(), BridgeError>) {
      r := *;
    }

    method GetWorkflow() returns (r: Result<Workflow, BridgeError>) {
      r := *;
    }

    method GetTask() returns (r: Result<EgoTask, BridgeError>) {
      r := *;
    }

    method Payload() returns (payload: TextDigest, id: string) {
      payload, id := *, *;
    }

    method GetWorkers() returns (r: Result<map<string, Worker>, BridgeError>) {
      r := *;
    }
  }

  /** The bridge consumed exactly one more token, that of the given run. */
  ghost predicate SpentOnce(before: seq<Consumption>, after: seq<Consumption>, id: string) {
    |after| == |before| + 1 && before <= after && after[|before|].run == id
  }

  /** The numbers from `from` up to but not including `to`. */
  ghost function Span(from: nat, to: nat): set<nat> {
    if from >= to then {} else Span(from, to - 1) + {to - 1}
  }

  class AgentTeamsBridge {
    const store: BridgeStore
    const upstream: Upstream
    const leaseSeconds: int
    const plan: seq<Role>
    const gate: nat

    ghost predicate Valid()
      reads store
    {
      && store.Valid() && Good(store.history)
      && 30 <= leaseSeconds <= 3600
      && forall id :: ProjectOk(Project(id, plan, gate))
    }

    /** The approval tokens consumed in this owner's name so far. */
    ghost function Spent(owner: string): seq<Consumption>
      reads store
    {
      ConsumedBy(store.consumed, owner)
    }

    /** The names in which this process's own steps act. */
    ghost function Names(): set<Option<string>>
      reads store
    {
      NamesOf(store.history, store.foreign)
    }

    /** The history went on, and the own steps among the new ones act for this owner or create a run. */
    twostate predicate Extended(owner: string)
      reads store
    {
      old(store.history) <= store.history && Names() <= old(Names()) + {None, Some(owner)}
    }

    /** The same without consuming a token. */
    twostate predicate Advanced(owner: string)
      reads store
    {
      Extended(owner) && Spent(owner) == old(Spent(owner))
    }

    constructor (store: BridgeStore, upstream: Upstream, leaseSeconds: int)
      requires store.Valid() && Good(store.history) && 30 <= leaseSeconds <= 3600
      ensures Valid() && this.store == store
    {
      this.store, this.upstream, this.leaseSeconds := store, upstream, leaseSeconds;
      this.plan, this.gate := ROLE_PLAN, GATE;
      new;
      forall id { RolePlanOk(id); }
    }

    // -------------------------------------------------------------- single transactions under interference

    ghost predicate Knows(run: Run, owner: string, base: Run)
      reads store
    {
      owner != "" && Knowing(store.Contents(), run, owner, base)
    }

    ghost predicate InSync(run: Run, owner: string)
      reads store
    {
      Synced(store.Contents(), run, owner)
    }

    /** Any number of transactions of other processes, under owner ids of their own. */
    method Interference(ghost owner: string)
      requires Valid()
      modifies store
      ensures Valid()
      ensures old(store.history) <= store.history && ByOthers(store.history, |old(store.history)|, owner)
      ensures store.foreign == old(store.foreign) + Span(|old(store.history)|, |store.history|)
      ensures Names() <= old(Names())
    {
      // The others act between two statements of this process; on its own it changes nothing here.
    }

    lemma {:induction false} AppendedIsThere(events: seq<Row<EventFields>>, id: string, envelope: Envelope)
      requires events != [] && events[|events| - 1].run == id && events[|events| - 1].fields.envelope == envelope
      ensures !FreshEnvelope(events, id, envelope.id)
    {
    }

    lemma OthersSpendNothing(i: nat, owner: string)
      requires Valid() && i < |store.history| && ByOthers(store.history, i + 1, owner)
      ensures ConsumedBy(store.history[i].db.consumed, owner) == Spent(owner)
    {
      hide Good, ConsumedBy, NamesOf, HasReceipt, HasConsumed, FreshEnvelope, RecordedOnce;
      assert store.history[..|store.history|] == store.history;
      OthersDoNotConsume(store.history, i, |store.history| - 1, owner);
    }

    /** Interference, as the owner of a known run sees it. */
    method Yield(ghost run: Run, ghost owner: string, ghost base: Run)
      requires Valid() && Knows(run, owner, base)
      modifies store
      ensures Valid() && Advanced(owner)
      ensures Knows(run, owner, base) && (old(InSync(run, owner)) ==> InSync(run, owner))
      ensures Grown(old(store.Contents()), store.Contents())
      ensures RunsOk(store.Contents()) && EventTableOk(store.Contents())
      ensures Mine(store.Contents(), run.id, owner) ==> OfRun(store.events, run.id) == old(OfRun(store.events, run.id))
    {
      hide Good, Knowing, Synced, RunsOk, EvidenceOk, EventTableOk, ReceiptTableOk, Mine, ConsumedBy, NamesOf, OfRun, HasReceipt,
        HasConsumed, FreshEnvelope, RecordedOnce;
      ghost var i := |store.history| - 1;
      Interference(owner);
      ghost var j := |store.history| - 1;
      OthersKeepKnowledge(store.history, i, run, owner, base);
      EveryStateOk(store.history, j);
      assert store.history[..j + 1] == store.history;
      OthersSpendNothing(i, owner);
      LedgersGrow(store.history, i, j);
      if Mine(store.Contents(), run.id, owner) {
        OthersKeepLedger(store.history, i, j, run.id, owner);
      }
    }

    /** Atomically prove ownership and extend the lease before an external write. */
    method RenewOperation(run: Run, owner: string, ghost base: Run) returns (r: Result<Run, BridgeError>, ghost base': Run)
      requires Valid() && Knows(run, owner, base)
      modifies store
      ensures Valid() && Advanced(owner)
      ensures r.Success? ==>
        && r.value == WithLease(run, r.value.checkpoint.lease) && base' == WithLease(base, r.value.checkpoint.lease)
        && Knows(r.value, owner, base') && Knows(run, owner, base')
        && Mine(store.Contents(), run.id, owner) && store.runs[run.id] == base'
      ensures r.Failure? ==> base' == base && Knows(run, owner, base)
      ensures InSync(if r.Success? then r.value else run, owner)
    {
      hide Apply, Outcome, Good, Knowing, Synced, RunsOk, ConsumedBy, NamesOf, HasReceipt, HasConsumed, FreshEnvelope, RecordedOnce;
      Yield(run, owner, base);
      ghost var db := store.Contents();
      base' := base;
      var renewed := store.RenewOperation(run.id, owner, leaseSeconds);
      ghost var e := store.history[|store.history| - 1];
      GoodSnoc(store.history[..|store.history| - 1], e);
      NamesSnoc(store.history[..|store.history| - 1], e, store.foreign);
      OwnRenewKeeps(db, e, run, owner, base);
      if renewed.Success? {
        r := Success(WithLease(run, renewed.value.checkpoint.lease));
        base' := WithLease(base, renewed.value.checkpoint.lease);
      } else {
        r := Failure(StoreFailure(renewed.error));
      }
    }

    /**
     Commit the local run.  A process that still holds its lease always presents
     exactly the stored lease, so the store never sees a lease mutation here.
     */
    method UpdateRun(run: Run, owner: string, ghost base: Run) returns (r: Result<Run, BridgeError>, ghost base': Run)
      requires Valid() && Knows(run, owner, base) && InSync(run, owner)
      modifies store
      ensures Valid() && Advanced(owner)
      ensures r.Success? ==>
        && r.value == run.(version := run.version + 1) && base' == r.value
        && Knows(r.value, owner, base') && InSync(r.value, owner)
        && run.id in store.runs && store.runs[run.id] == r.value
      ensures r.Failure? ==>
        && base' == base && Knows(run, owner, base) && InSync(run, owner)
        && (r.error == StoreFailure(LeaseLost) || r.error == StoreFailure(VersionConflict))
    {
      hide Apply, Outcome, Good, Knowing, Synced, RunsOk, ConsumedBy, NamesOf, HasReceipt, HasConsumed, FreshEnvelope, RecordedOnce;
      Yield(run, owner, base);
      ghost var db := store.Contents();
      base' := base;
      KnownUpdateIsDisciplined(db, run, owner, base);
      var updated := store.UpdateRun(run, run.version, Some(owner));
      ghost var e := store.history[|store.history| - 1];
      GoodSnoc(store.history[..|store.history| - 1], e);
      NamesSnoc(store.history[..|store.history| - 1], e, store.foreign);
      OwnUpdateOutcome(db, e, run, owner, base);
      OwnUpdateKeeps(db, e, run, owner, base);
      if updated.Success? {
        r, base' := Success(updated.value), updated.value;
      } else {
        r := Failure(StoreFailure(updated.error));
      }
    }

    /** Append a new envelope; on success the run's ledger has grown by it. */
    method AppendEvent(run: Run, envelope: Envelope, owner: string, ghost base: Run) returns (r: Result<(), BridgeError>)
      requires Valid() && Knows(run, owner, base) && EnvelopeOk(run.header, envelope)
      requires FreshEnvelope(store.events, run.id, envelope.id)
      modifies store
      ensures Valid() && Advanced(owner)
      ensures Knows(run, owner, base) && (old(InSync(run, owner)) ==> InSync(run, owner))
      ensures r.Success? ==> !FreshEnvelope(store.events, run.id, envelope.id)
    {
      hide Apply, Outcome, Good, Synced, RunsOk, GoodUpdate, Backed, EventTableOk, FreshEnvelope, ConsumedBy, NamesOf,
        OfRun, EvidenceOk, EnvelopeOk;
      FreshInLedger(store.events, run.id, envelope.id);
      Yield(run, owner, base);
      FreshInLedger(store.events, run.id, envelope.id);
      ghost var db := store.Contents();
      var _, eventId := upstream.Payload();
      var appended := store.AppendEventRow(run.id, envelope, eventId, Some(owner));
      ghost var e := store.history[|store.history| - 1];
      GoodSnoc(store.history[..|store.history| - 1], e);
      NamesSnoc(store.history[..|store.history| - 1], e, store.foreign);
      OwnWriteKeeps(db, e, run, owner, base);
      if appended.Failure? { return Failure(StoreFailure(appended.error)); }
      AppendedIsThere(store.events, run.id, envelope);
      r := Success(());
    }

    /** Archive whatever the remote service answered under the given receipt key. */
    method ArchiveReceipt(run: Run, key: string, source: string, kind: string, owner: string, ghost base: Run)
      returns (r: Result<(), BridgeError>)
      requires Valid() && Knows(run, owner, base)
      modifies store
      ensures Valid() && Advanced(owner)
      ensures Knows(run, owner, base) && (old(InSync(run, owner)) ==> InSync(run, owner))
      ensures r.Success? ==> HasReceipt(store.Contents(), run.id, key)
    {
      hide Apply, Outcome, Good, Knowing, Synced, RunsOk, EventTableOk, ConsumedBy, NamesOf, HasConsumed, FreshEnvelope, RecordedOnce;
      Yield(run, owner, base);
      ghost var db := store.Contents();
      var payload, receiptId := upstream.Payload();
      var archived := store.ArchiveReceipt(run.id, key, source, kind, payload.text, receiptId, Some(owner));
      ghost var e := store.history[|store.history| - 1];
      GoodSnoc(store.history[..|store.history| - 1], e);
      NamesSnoc(store.history[..|store.history| - 1], e, store.foreign);
      OwnWriteKeeps(db, e, run, owner, base);
      r := if archived.Success? then Success(()) else Failure(StoreFailure(archived.error));
    }

    /** Claim the run for one operation under a fresh owner id. */
    method ClaimOperation(id: string, operation: string, owner: string) returns (r: Result<Run, BridgeError>)
      requires Valid() && owner !in store.issued && owner != ""
      modifies store
      ensures Valid() && Advanced(owner)
      ensures r.Success? ==> r.value.id == id && Knows(r.value, owner, r.value) && InSync(r.value, owner)
      ensures r.Success? ==> id in store.runs && store.runs[id] == r.value
    {
      hide Apply, Outcome, Good, Knowing, Synced, RunsOk, ConsumedBy, NamesOf, HasReceipt, HasConsumed, FreshEnvelope, RecordedOnce;
      ghost var i := |store.history| - 1;
      Interference(owner);
      OthersDoNotIssue(store.history, i, |store.history| - 1, owner);
      OthersSpendNothing(i, owner);
      EveryStateOk(store.history, |store.history| - 1);
      ghost var db := store.Contents();
      var claimed := store.ClaimOperation(id, operation, owner, leaseSeconds);
      ghost var e := store.history[|store.history| - 1];
      GoodSnoc(store.history[..|store.history| - 1], e);
      NamesSnoc(store.history[..|store.history| - 1], e, store.foreign);
      if claimed.Success? {
        ClaimBeginsKnowledge(db, e, id, owner);
        r := Success(claimed.value);
      } else {
        r := Failure(StoreFailure(claimed.error));
      }
    }

    /** Release is attempted on every path out of a claimed operation. */
    method ReleaseOperation(id: string, owner: string)
      requires Valid()
      modifies store
      ensures Valid() && Advanced(owner)
    {
      hide Apply, Outcome, Good, RunsOk, ConsumedBy, NamesOf, HasReceipt, HasConsumed, FreshEnvelope, RecordedOnce;
      ghost var i := |store.history| - 1;
      Interference(owner);
      OthersSpendNothing(i, owner);
      var _ := store.ReleaseOperation(id, owner);
      GoodSnoc(store.history[..|store.history| - 1], store.history[|store.history| - 1]);
      NamesSnoc(store.history[..|store.history| - 1], store.history[|store.history| - 1], store.foreign);
    }

    /** Read the current row of a run. */
    method GetRun(id: string, ghost owner: string) returns (r: Result<Run, BridgeError>)
      requires Valid()
      modifies store
      ensures Valid() && Advanced(owner)
      ensures owner !in old(store.issued) ==> owner !in store.issued
      ensures r.Success? ==> id in store.runs && r.value == store.runs[id]
    {
      hide Good, ConsumedBy, NamesOf, HasReceipt, HasConsumed, FreshEnvelope, RecordedOnce;
      ghost var i := |store.history| - 1;
      Interference(owner);
      OthersSpendNothing(i, owner);
      if owner !in store.history[i].db.issued { OthersDoNotIssue(store.history, i, |store.history| - 1, owner); }
      var row := store.GetRun(id);
      r := if row.Success? then Success(row.value) else Failure(StoreFailure(row.error));
    }

    /**
     A write to a remote service.  It may be made only right after a renewal: the
     stored row is the base that the renewal left, under this owner's lease.  The
     others act while the request travels; until the lease expires they cannot
     touch that row.
     */
    method ExternalWrite(run: Run, owner: string, ghost base: Run) returns (r: Result<(), BridgeError>)
      requires Valid() && Knows(run, owner, base) && InSync(run, owner)
      requires Mine(store.Contents(), run.id, owner) && store.runs[run.id] == base
      modifies store
      ensures Valid() && Advanced(owner) && Knows(run, owner, base) && InSync(run, owner)
      ensures store.now < base.checkpoint.lease.lease.expires ==> run.id in store.runs && store.runs[run.id] == base
    {
      hide Good, Knowing, Synced, GoodUpdate, RunOk, ConsumedBy, NamesOf, HasReceipt, HasConsumed, FreshEnvelope, RecordedOnce;
      ghost var i := |store.history| - 1;
      assert store.history[i].db.runs[run.id] == base && Mine(store.history[i].db, run.id, owner);
      Interference(owner);
      OthersSpendNothing(i, owner);
      OthersKeepKnowledge(store.history, i, run, owner, base);
      ghost var j := |store.history| - 1;
      if store.now < base.checkpoint.lease.lease.expires {
        assert store.history[..j + 1] == store.history;
        RowProtectedUntilExpiry(store.history, i, j, run.id, owner);
      }
      r := upstream.Call();
    }

    // -------------------------------------------------------------- envelopes and messages

    function BuildEnvelope(run: Run, kind: Kind, attempt: nat, id: string, body: string, at: int): (e: Envelope)
      requires attempt >= 1
      ensures EnvelopeOk(run.header, e) && e.kind == kind && e.id == id
    {
      Envelope(ENVELOPE_SCHEMA, id, IdentityOf(run.header), attempt, kind, BRIDGE_PARTY, LEADER_PARTY, None, body, DigestOf(body), at)
    }

    /** A new unique id: any one that no event carries. */
    method NewEnvelopeId() returns (id: string)
      ensures forall run :: FreshEnvelope(store.events, run, id)
    {
      ghost var used := set i | 0 <= i < |store.events| :: store.events[i].fields.envelope.id;
      ghost var other := FreshOwner(used);
      assert forall i :: 0 <= i < |store.events| ==> store.events[i].fields.envelope.id in used;
      id :| forall i :: 0 <= i < |store.events| ==> store.events[i].fields.envelope.id != id;
    }

    method NewEnvelope(run: Run, kind: Kind, attempt: nat) returns (e: Envelope)
      requires attempt >= 1
      ensures EnvelopeOk(run.header, e) && e.kind == kind && FreshEnvelope(store.events, run.id, e.id)
    {
      var payload, _ := upstream.Payload();
      var id := NewEnvelopeId();
      var at: int := *;
      e := BuildEnvelope(run, kind, attempt, id, payload.text, at);
    }

    /** Send an envelope: renew, deliver to Matrix, archive the receipt, record the event once. */
    method Send(run: Run, envelope: Envelope, owner: string, ghost base: Run) returns (r: Result<Run, BridgeError>, ghost base': Run)
      requires Valid() && Knows(run, owner, base) && EnvelopeOk(run.header, envelope)
      modifies store
      ensures Valid() && Advanced(owner)
      ensures base' == WithLease(base, base'.checkpoint.lease) && Knows(run, owner, base')
      ensures r.Success? ==>
        && r.value == WithLease(run, r.value.checkpoint.lease)
        && Knows(r.value, owner, base') && InSync(r.value, owner)
      ensures r.Success? ==> RecordedOnce(run.id, envelope.id)
    {
      hide Good, Knowing, Synced, GoodUpdate, RunOk, FactsOk, Mine, EnvelopeOk, RecordedOnce, ConsumedBy, NamesOf,
        HasReceipt, HasConsumed, FreshEnvelope, Valid, Spent, Names;
      KnownFacts(store.Contents(), run, owner, base);
      base' := base;
      var leader := upstream.Call();
      if leader.Failure? { return Failure(leader.error), base; }
      var renewed, renewedBase := RenewOperation(run, owner, base);
      base' := renewedBase;
      if renewed.Failure? { return Failure(renewed.error), base'; }
      var current := renewed.value;
      var sent := ExternalWrite(current, owner, base');
      StaleCopyKnows(store.Contents(), run, current.checkpoint.lease, owner, base');
      if sent.Failure? { return Failure(sent.error), base'; }
      var archived := ArchiveReceipt(current, "matrix:" + envelope.id, "matrix", "raw-message", owner, base');
      StaleCopyKnows(store.Contents(), run, current.checkpoint.lease, owner, base');
      if archived.Failure? { return Failure(archived.error), base'; }
      var recorded := RecordOnce(current, envelope, owner, base');
      StaleCopyKnows(store.Contents(), run, current.checkpoint.lease, owner, base');
      r := if recorded.Success? then renewed else Failure(recorded.error);
    }

    /** Exactly one event of the run's ledger carries the envelope id. */
    ghost predicate RecordedOnce(id: string, envelopeId: string)
      reads store
    {
      var rows := OfRun(store.events, id);
      && (exists k :: 0 <= k < |rows| && rows[k].fields.envelope.id == envelopeId)
      && (forall j, k :: 0 <= j < k < |rows| ==> rows[j].fields.envelope.id != envelopeId || rows[k].fields.envelope.id != envelopeId)
    }

    /** In every good history a recorded envelope id is recorded once. */
    lemma PresentIsOnce(id: string, envelopeId: string)
      requires Valid() && !FreshEnvelope(store.events, id, envelopeId)
      ensures RecordedOnce(id, envelopeId)
    {
      hide Good, EvidenceOk, RunsOk, ReceiptTableOk, FreshEnvelope;
      EveryStateOk(store.history, |store.history| - 1);
      FreshInLedger(store.events, id, envelopeId);
      DistinctEnvelopes(store.events, id);
    }

    /** Append the envelope unless an event of the run carries it already. */
    method RecordOnce(run: Run, envelope: Envelope, owner: string, ghost base: Run) returns (r: Result<(), BridgeError>)
      requires Valid() && Knows(run, owner, base) && EnvelopeOk(run.header, envelope)
      modifies store
      ensures Valid() && Advanced(owner)
      ensures Knows(run, owner, base) && (old(InSync(run, owner)) ==> InSync(run, owner))
      ensures r.Success? ==> RecordedOnce(run.id, envelope.id)
    {
      hide Good, Knowing, Synced, GoodUpdate, RunOk, Mine, EnvelopeOk, OfRun, ConsumedBy, NamesOf, FreshEnvelope,
        RecordedOnce, RunsOk, EventTableOk, HasReceipt, HasConsumed, Valid, Spent, Names;
      Yield(run, owner, base);
      KnownRunIsStored(store.Contents(), run, owner, base);
      var recorded := store.Events(run.id);
      FreshInLedger(store.events, run.id, envelope.id);
      if exists i :: 0 <= i < |recorded.value.0| && recorded.value.0[i].fields.envelope.id == envelope.id {
        PresentIsOnce(run.id, envelope.id);
        return Success(());
      }
      r := AppendEvent(run, envelope, owner, base);
      if r.Success? { PresentIsOnce(run.id, envelope.id); }
    }

    // -------------------------------------------------------------- starting a run

    /** Fence every worker lifecycle call with a renewal. */
    method EnsureWorkersReady(run: Run, names: seq<string>, owner: string, ghost base: Run)
      returns (r: Result<Run, BridgeError>, ghost base': Run)
      requires Valid() && Knows(run, owner, base) && InSync(run, owner)
      modifies store
      ensures Valid() && Advanced(owner)
      ensures base' == WithLease(base, base'.checkpoint.lease) && Knows(run, owner, base')
      ensures r.Success? ==>
        r.value == WithLease(run, r.value.checkpoint.lease) && Knows(r.value, owner, base') && InSync(r.value, owner)
    {
      hide Good, Knowing, Synced, GoodUpdate, RunOk, Mine, ConsumedBy, NamesOf, HasReceipt, HasConsumed, FreshEnvelope,
        RecordedOnce, Valid, Spent, Names;
      KnownFacts(store.Contents(), run, owner, base);
      base' := base;
      var current := run;
      for i := 0 to |names|
        invariant Valid() && Advanced(owner)
        invariant base' == WithLease(base, base'.checkpoint.lease) && current == WithLease(run, current.checkpoint.lease)
        invariant Knows(current, owner, base') && Knows(run, owner, base') && InSync(current, owner)
      {
        var renewed, renewedBase := RenewOperation(current, owner, base');
        base' := renewedBase;
        if renewed.Failure? {
          StaleCopyKnows(store.Contents(), run, current.checkpoint.lease, owner, base');
          return Failure(renewed.error), base';
        }
        current := renewed.value;
        var ready := ExternalWrite(current, owner, base');
        StaleCopyKnows(store.Contents(), run, current.checkpoint.lease, owner, base');
        if ready.Failure? { return Failure(ready.error), base'; }
      }
      r := Success(current);
    }

    /** Create the project; a conflict is an earlier creation whose receipt was lost. */
    method CreateProject(run: Run, owner: string, ghost base: Run) returns (kind: Result<string, BridgeError>)
      requires Valid() && Knows(run, owner, base) && InSync(run, owner)
      requires Mine(store.Contents(), run.id, owner) && store.runs[run.id] == base
      modifies store
      ensures Valid() && Advanced(owner) && Knows(run, owner, base) && InSync(run, owner)
    {
      hide Good, Knowing, Synced, GoodUpdate, RunOk, Mine, ConsumedBy, NamesOf, HasReceipt, HasConsumed, FreshEnvelope,
        RecordedOnce, Valid, Spent, Names;
      var created := ExternalWrite(run, owner, base);
      if created.Success? { return Success("official-response"); }
      if created.error != UpstreamConflict { return Failure(created.error); }
      var workflow := upstream.GetWorkflow();
      if workflow.Failure? { return Failure(workflow.error); }
      kind := if workflow.value.identityOk then Success("recovered-project-observation") else Failure(ContractFailure);
    }

    lemma FoundIsStored(db: Db, id: string, key: string)
      requires FindReceipt(OfRun(db.receipts, id), key).Some?
      ensures HasReceipt(db, id, key)
    {
      var row := FindReceipt(OfRun(db.receipts, id), key).value;
      assert row in OfRun(db.receipts, id) && row.fields.key == key;
      var k :| 0 <= k < |OfRun(db.receipts, id)| && OfRun(db.receipts, id)[k] == row;
      var i :| 0 <= i < |db.receipts| && db.receipts[i] == row;
      assert db.receipts[i].run == id;
    }

    /** Create the reserved AgentTeams project once, or recognise that it already exists. */
    method ProveProject(run: Run, owner: string, ghost base: Run) returns (r: Result<Run, BridgeError>, ghost base': Run)
      requires Valid() && Knows(run, owner, base) && InSync(run, owner)
      modifies store
      ensures Valid() && Advanced(owner)
      ensures base' == WithLease(base, base'.checkpoint.lease) && Knows(run, owner, base')
      ensures r.Success? ==>
        r.value == WithLease(run, r.value.checkpoint.lease) && Knows(r.value, owner, base') && InSync(r.value, owner)
      ensures r.Success? ==> HasReceipt(store.Contents(), run.id, PROJECT_RECEIPT)
    {
      hide Good, Knowing, Synced, GoodUpdate, RunOk, Mine, FactsOk, HasReceipt, ConsumedBy, NamesOf, OfRun, RunsOk,
        EventTableOk, HasConsumed, FreshEnvelope, RecordedOnce, Valid, Spent, Names, GraphOk, WithinBudget, FindReceipt,
        EvidenceOk, ReceiptTableOk, Chained;
      KnownFacts(store.Contents(), run, owner, base);
      base' := base;
      Yield(run, owner, base);
      KnownRunIsStored(store.Contents(), run, owner, base);
      var receipts := store.Receipts(run.id);
      if FindReceipt(receipts.value.0, PROJECT_RECEIPT).Some? {
        FoundIsStored(store.Contents(), run.id, PROJECT_RECEIPT);
        var proves := upstream.Call();
        r := if proves.Success? then Success(run) else Failure(ContractFailure);
        return;
      }
      var renewed, renewedBase := RenewOperation(run, owner, base);
      base' := renewedBase;
      if renewed.Failure? { return Failure(renewed.error), base'; }
      var created := CreateProject(renewed.value, owner, base');
      StaleCopyKnows(store.Contents(), run, renewed.value.checkpoint.lease, owner, base');
      if created.Failure? { return Failure(created.error), base'; }
      var archived := ArchiveReceipt(renewed.value, PROJECT_RECEIPT, "agentteams", created.value, owner, base');
      StaleCopyKnows(store.Contents(), run, renewed.value.checkpoint.lease, owner, base');
      r := if archived.Success? then renewed else Failure(archived.error);
    }

    method ConfirmReservedProject(run: Run, owner: string, ghost base: Run) returns (r: Result<Run, BridgeError>, ghost base': Run)
      requires Valid() && Knows(run, owner, base) && InSync(run, owner)
      modifies store
      ensures Valid() && Advanced(owner)
      ensures r.Success? ==>
        Knows(r.value, owner, base') && InSync(r.value, owner)
        && r.value.id == run.id && r.value.header == run.header && r.value.checkpoint.projectCommitted
      ensures r.Failure? ==> Knows(run, owner, base')
    {
      hide Good, Knowing, Synced, GoodUpdate, RunOk, Mine, ConsumedBy, NamesOf, HasReceipt, HasConsumed, FreshEnvelope,
        RecordedOnce, Valid, Spent, Names;
      KnownFacts(store.Contents(), run, owner, base);
      base' := base;
      if run.checkpoint.projectCommitted { return Success(run), base; }
      var proved, provedBase := ProveProject(run, owner, base);
      base' := provedBase;
      if proved.Failure? { return Failure(proved.error), base'; }
      var confirmed := proved.value.(checkpoint := proved.value.checkpoint.(projectCommitted := true));
      LocalMoveKeepsKnowledge(store.Contents(), proved.value, confirmed, owner, base');
      var updated, updatedBase := UpdateRun(confirmed, owner, base');
      if updated.Failure? {
        UnconfirmedKnows(store.Contents(), run, confirmed, owner, base');
        return Failure(updated.error), base';
      }
      r, base' := updated, updatedBase;
    }

    /** The guarded part of a live start up to the dispatch; `last` is the local run when it stopped. */
    method PrepareDispatch(run: Run, workers: seq<string>, owner: string, ghost base: Run)
      returns (failed: Option<BridgeError>, last: Run, ghost base': Run)
      requires Valid() && Knows(run, owner, base) && InSync(run, owner)
      modifies store
      ensures Valid() && Advanced(owner)
      ensures last.id == run.id && last.header == run.header && Knows(last, owner, base')
      ensures failed.None? ==> InSync(last, owner)
    {
      hide Good, Knowing, Synced, GoodUpdate, RunOk, Mine, FactsOk, ConsumedBy, NamesOf, HasReceipt, HasConsumed,
        FreshEnvelope, RecordedOnce, Valid, Spent, Names;
      last := run;
      var ready, b0 := EnsureWorkersReady(last, workers, owner, base);
      base' := b0;
      if ready.Failure? { return Some(ready.error), last, base'; }
      last := ready.value;
      var confirmed, b1 := ConfirmReservedProject(last, owner, base');
      base' := b1;
      if confirmed.Failure? { return Some(confirmed.error), last, base'; }
      last := confirmed.value;
      var renewed, b2 := RenewOperation(last, owner, base');
      base' := b2;
      if renewed.Failure? { return Some(renewed.error), last, base'; }
      last := renewed.value;
      var replanned := ExternalWrite(last, owner, base');
      failed := if replanned.Failure? then Some(replanned.error) else None;
    }

    /** Dispatch the request envelope, the stored one if an earlier attempt reserved it. */
    method Dispatch(run: Run, owner: string, ghost base: Run)
      returns (failed: Option<BridgeError>, last: Run, ghost base': Run)
      requires Valid() && Knows(run, owner, base) && InSync(run, owner)
      modifies store
      ensures Valid() && Advanced(owner)
      ensures last.id == run.id && last.header == run.header && Knows(last, owner, base')
      ensures failed.None? ==> last.state == PreApproval && run.id in store.runs && store.runs[run.id] == last
    {
      hide Good, Knowing, Synced, GoodUpdate, RunOk, Mine, ConsumedBy, NamesOf, HasReceipt, HasConsumed, FreshEnvelope,
        RecordedOnce, Valid, Spent, Names, GraphOk, WithinBudget, EnvelopeOk;
      KnownFacts(store.Contents(), run, owner, base);
      last, base' := run, base;
      var envelope: Envelope;
      if last.checkpoint.startEnvelope.None? {
        envelope := NewEnvelope(last, TaskRequest, 1);
        var reserved := last.(checkpoint := last.checkpoint.(startEnvelope := Some(envelope)));
        LocalMoveKeepsKnowledge(store.Contents(), last, reserved, owner, base');
        last := reserved;
        var stored, b3 := UpdateRun(last, owner, base');
        base' := b3;
        if stored.Failure? { return Some(stored.error), last, base'; }
        last := stored.value;
      } else {
        envelope := last.checkpoint.startEnvelope.value;
      }
      var sent, b4 := Send(last, envelope, owner, base');
      base' := b4;
      if sent.Failure? { return Some(sent.error), last, base'; }
      last := sent.value;
      KnownFacts(store.Contents(), last, owner, base');
      var started := last.(state := PreApproval);
      LocalMoveKeepsKnowledge(store.Contents(), last, started, owner, base');
      last := started;
      var committed, b5 := UpdateRun(last, owner, base');
      base' := b5;
      if committed.Failure? { return Some(committed.error), last, base'; }
      failed, last := None, committed.value;
    }

    /** Best effort: renew and pause the project before a compensation checkpoint is stored. */
    method TryPause(run: Run, owner: string, ghost base: Run) returns (last: Run, ghost base': Run)
      requires Valid() && Knows(run, owner, base)
      modifies store
      ensures Valid() && Advanced(owner)
      ensures last == WithLease(run, last.checkpoint.lease) && Knows(last, owner, base') && InSync(last, owner)
      ensures base' == WithLease(base, base'.checkpoint.lease)
    {
      hide Good, Knowing, Synced, GoodUpdate, RunOk, Mine, ConsumedBy, NamesOf, HasReceipt, HasConsumed, FreshEnvelope,
        RecordedOnce, Valid, Spent, Names;
      last := run;
      var renewed, renewedBase := RenewOperation(run, owner, base);
      base' := renewedBase;
      if renewed.Success? {
        last := renewed.value;
        var _ := ExternalWrite(last, owner, base');
      }
    }

    /** The local run with a compensation checkpoint. */
    function Compensating(run: Run, retry: Retry): Run {
      run.(state := CompensationRequired, checkpoint := run.checkpoint.(retry := Some(retry)))
    }

    /** Whatever failed after the project was created leaves a compensation checkpoint, if the lease still holds. */
    method CompensateStart(run: Run, owner: string, ghost base: Run) returns (r: Result<Run, BridgeError>)
      requires Valid() && Knows(run, owner, base)
      modifies store
      ensures Valid() && Advanced(owner)
      ensures r.Success? ==> r.value.state == CompensationRequired && run.id in store.runs && store.runs[run.id] == r.value
    {
      hide Good, Knowing, Synced, GoodUpdate, RunOk, Mine, ConsumedBy, NamesOf, HasReceipt, HasConsumed, FreshEnvelope,
        RecordedOnce, Valid, Spent, Names;
      var last, b := TryPause(run, owner, base);
      KnownFacts(store.Contents(), last, owner, b);
      var failed := Compensating(last, Retry(StartDispatch, Some(PreApproval), ""));
      LocalMoveKeepsKnowledge(store.Contents(), last, failed, owner, b);
      var updated, _ := UpdateRun(failed, owner, b);
      r := updated;
    }

    function NewRun(request: StartRequest, graph: seq<Task>, workers: map<string, Worker>): Run {
      Run(request.runId, request.header, Provisioning, graph,
          Checkpoint(NoLease, map[], {}, map[], workers, false, false, false, None, None, request.intent), 1)
    }

    /** Reserve the run row for a request. */
    method CreateRun(request: StartRequest, workers: map<string, Worker>, ghost owner: string) returns (r: Result<Run, BridgeError>)
      requires Valid() && request.header.project.plan == plan && request.header.project.gate == gate
      modifies store
      ensures Valid() && Advanced(owner)
      ensures owner !in old(store.issued) ==> owner !in store.issued
      ensures r.Success? ==>
        && r.value.id == request.runId && r.value.header == request.header
        && request.runId in store.runs && store.runs[request.runId] == r.value
    {
      hide RunOk, Good, Apply, Outcome, ProjectOk, ConsumedBy, NamesOf, HasReceipt, HasConsumed, FreshEnvelope,
        RecordedOnce, Planned, GraphOk, EvidenceOk, ReceiptTableOk, Backed;
      ghost var i := |store.history| - 1;
      Interference(owner);
      OthersSpendNothing(i, owner);
      if owner !in store.history[i].db.issued { OthersDoNotIssue(store.history, i, |store.history| - 1, owner); }
      NewRunOk(request, workers);
      var graph := BuildTaskGraph(request.header.project, Pre(request.header.project));
      r := ReserveRow(NewRun(request, graph, workers), owner);
    }

    method ReserveRow(run: Run, ghost owner: string) returns (r: Result<Run, BridgeError>)
      requires Valid() && RunOk(run) && run.checkpoint.lease.NoLease? && NothingCommitted(run.checkpoint)
      modifies store
      ensures Valid() && Advanced(owner) && store.issued == old(store.issued)
      ensures r.Success? ==> r.value == run && run.id in store.runs && store.runs[run.id] == run
    {
      hide RunOk, Good, Apply, Outcome, ConsumedBy, NamesOf, HasReceipt, HasConsumed, FreshEnvelope,
        RecordedOnce, EvidenceOk, ReceiptTableOk, Backed;
      var created := store.CreateRun(run);
      GoodSnoc(store.history[..|store.history| - 1], store.history[|store.history| - 1]);
      NamesSnoc(store.history[..|store.history| - 1], store.history[|store.history| - 1], store.foreign);
      r := if created.Success? then Success(created.value) else Failure(StoreFailure(created.error));
    }

    lemma NewRunOk(request: StartRequest, workers: map<string, Worker>)
      requires Valid() && request.header.project.plan == plan && request.header.project.gate == gate
      ensures Pre(request.header.project).lo <= Pre(request.header.project).hi <= |request.header.project.plan|
      ensures RunOk(NewRun(request, Planned(request.header.project, Pre(request.header.project)), workers))
    {
      var project := request.header.project;
      assert project == Project(project.id, plan, gate);
      PlannedOk(project);
      hide GraphOk, Good;
    }

    /** The unclaimed part of a live start: find the reservation, or make it. */
    method Reserve(request: StartRequest, ghost owner: string) returns (r: Result<Option<Run>, BridgeError>)
      requires Valid() && request.header.project.plan == plan && request.header.project.gate == gate
      requires owner !in store.issued
      modifies store
      ensures Valid() && Advanced(owner) && owner !in store.issued
      ensures r.Success? ==> request.runId in store.runs && store.runs[request.runId].header == request.header
      ensures r.Success? && r.value.Some? ==>
        r.value.value == store.runs[request.runId] && r.value.value.state != Provisioning
    {
      hide Good, RunsOk, ConsumedBy, NamesOf, HasReceipt, HasConsumed, FreshEnvelope, RecordedOnce,
        Valid, Spent, Names;
      var existing := GetRun(request.runId, owner);
      if existing.Success? {
        if existing.value.header != request.header { return Failure(ContractFailure); }
        if existing.value.state != Provisioning { return Success(Some(existing.value)); }
      } else if existing.error != StoreFailure(RunNotFound) {
        return Failure(existing.error);
      }
      var probed := upstream.Call();
      if probed.Failure? { return Failure(probed.error); }
      var workers := upstream.GetWorkers();
      if workers.Failure? { return Failure(workers.error); }
      if existing.Success? {
        if existing.value.checkpoint.intent != request.intent { return Failure(ContractFailure); }
        return Success(None);
      }
      var created := CreateRun(request, workers.value, owner);
      if created.Success? { return Success(None); }
      if created.error != StoreFailure(RunConflict) { return Failure(created.error); }
      var reserved := GetRun(request.runId, owner);
      if reserved.Failure? { return Failure(reserved.error); }
      if reserved.value.header != request.header || reserved.value.checkpoint.intent != request.intent {
        return Failure(ContractFailure);
      }
      r := Success(if reserved.value.state != Provisioning then Some(reserved.value) else None);
    }

    /**
     Start a run: reserve it, then dispatch it under a lease with compensation.
     Success answers the stored run of the request; a live one has been dispatched.
     */
    method StartRun(request: StartRequest, workerNames: seq<string>, owner: string) returns (r: Result<Run, BridgeError>)
      requires Valid() && request.header.project.plan == plan && request.header.project.gate == gate
      requires owner !in store.issued && owner != ""
      modifies store
      ensures Valid() && Advanced(owner)
      ensures r.Success? ==>
        && request.runId in store.runs && r.value == store.runs[request.runId] && r.value.header == request.header
        && (request.header.live ==> r.value.state != Provisioning)
    {
      hide Good, Knowing, Synced, GoodUpdate, RunOk, Mine, RunsOk, ConsumedBy, NamesOf, Later, HasReceipt, HasConsumed, FreshEnvelope,
        RecordedOnce;
      if !request.header.live {
        r := CreateRun(request, map[], owner);
        return;
      }
      var reserved := Reserve(request, owner);
      if reserved.Failure? { return Failure(reserved.error); }
      if reserved.value.Some? { return Success(reserved.value.value); }
      ghost var i := |store.history| - 1;
      ghost var reservation := store.runs[request.runId];
      assert store.history[i].db.runs[request.runId] == reservation;
      var claimed := ClaimOperation(request.runId, "live-start", owner);
      if claimed.Failure? { return claimed; }
      StoredIsLater(i, request.runId);
      LaterFacts(reservation, claimed.value);
      r := StartClaimed(claimed.value, workerNames, owner);
      ghost var k := |store.history| - 1;
      ghost var started := if r.Success? then r.value else claimed.value;
      assert r.Success? ==> request.runId in store.history[k].db.runs && store.history[k].db.runs[request.runId] == started;
      ReleaseOperation(request.runId, owner);
      if r.Success? {
        r := GetRun(request.runId, owner);
        StoredIsLater(k, request.runId);
        LaterFacts(started, store.runs[request.runId]);
      }
    }

    /** The claimed part of a live start; whatever fails after the project is created leaves a compensation checkpoint. */
    method StartClaimed(run: Run, workerNames: seq<string>, owner: string) returns (r: Result<Run, BridgeError>)
      requires Valid() && Knows(run, owner, run) && InSync(run, owner)
      modifies store
      ensures Valid() && Advanced(owner)
      ensures r.Success? ==>
        && r.value.header == run.header && r.value.state == PreApproval
        && run.id in store.runs && store.runs[run.id] == r.value
    {
      hide Good, Knowing, Synced, GoodUpdate, RunOk, Mine, RunsOk, ConsumedBy, NamesOf, HasReceipt, HasConsumed,
        FreshEnvelope, RecordedOnce, Valid, Spent, Names;
      var failed, last, base := PrepareDispatch(run, workerNames, owner, run);
      if failed.None? {
        failed, last, base := Dispatch(last, owner, base);
      }
      if failed.None? { return Success(last); }
      r := Failure(failed.value);
      if last.checkpoint.projectCommitted {
        var compensated := CompensateStart(last, owner, base);
        if compensated.Failure? { r := compensated; }
      }
    }

    /** What is stored at some point of the history only moves on from there. */
    lemma StoredIsLater(i: nat, id: string)
      requires Valid() && i < |store.history| && id in store.history[i].db.runs
      ensures id in store.runs && Later(store.history[i].db.runs[id], store.runs[id])
    {
      hide Good, Later;
      FactsAreForever(store.history, i, |store.history| - 1, id);
    }

    lemma LaterFacts(row: Run, row': Run)
      requires Later(row, row')
      ensures row'.id == row.id && row'.header == row.header
      ensures row'.state == Provisioning ==> row.state == Provisioning
      ensures row.checkpoint.projectCommitted ==> row'.checkpoint.projectCommitted
      ensures row.checkpoint.grantCommitted ==> row'.checkpoint.grantCommitted
    {
    }

    // -------------------------------------------------------------- reconciliation

    /** The status of the first workflow node with an id. */
    function NodeStatus(nodes: seq<Node>, id: string): Option<string> {
      if nodes == [] then None
      else if nodes[0].id == id then Some(nodes[0].status)
      else NodeStatus(nodes[1..], id)
    }

    /** The status a dictionary of the nodes holds: the last node with the id wins. */
    function LastStatus(nodes: seq<Node>, id: string): Option<string> {
      if nodes == [] then None
      else if nodes[|nodes| - 1].id == id then Some(nodes[|nodes| - 1].status)
      else LastStatus(nodes[..|nodes| - 1], id)
    }

    /** Record every status change the workflow shows, each with an event. */
    method ObserveStatuses(run: Run, workflow: Workflow, owner: string, ghost base: Run) returns (r: Result<Run, BridgeError>)
      requires Valid() && Knows(run, owner, base)
      modifies store
      ensures Valid() && Advanced(owner)
      ensures r.Success? ==>
        && Knows(r.value, owner, base) && (old(InSync(run, owner)) ==> InSync(r.value, owner))
        && r.value == run.(checkpoint := run.checkpoint.(nodes := r.value.checkpoint.nodes))
    {
      hide Good, Knowing, Synced, GoodUpdate, RunOk, Mine, EnvelopeOk, ConsumedBy, NamesOf, HasReceipt, HasConsumed,
        FreshEnvelope, RecordedOnce, Valid, Spent, Names;
      KnownFacts(store.Contents(), run, owner, base);
      var nodes := run.checkpoint.nodes;
      var at: int := *;
      for i := 0 to |workflow.nodes|
        invariant Valid() && Advanced(owner)
        invariant Knows(run, owner, base) && (old(InSync(run, owner)) ==> InSync(run, owner))
      {
        var node := workflow.nodes[i];
        if node.id !in nodes || nodes[node.id].status != node.status {
          nodes := nodes[node.id := NodeRecord(node.status, at)];
          var envelope := NewEnvelope(run, TaskUpdate, 1);
          var appended := AppendEvent(run, envelope, owner, base);
          if appended.Failure? { return Failure(appended.error); }
        }
      }
      var observed := run.(checkpoint := run.checkpoint.(nodes := nodes));
      LocalMoveKeepsKnowledge(store.Contents(), run, observed, owner, base);
      r := Success(observed);
    }

    /** Fetch and archive the artifacts of a completed task; any failure counts against the task. */
    method ValidateTaskContract(run: Run, t: Task, owner: string, ghost base: Run) returns (r: Result<(), BridgeError>)
      requires Valid() && Knows(run, owner, base)
      modifies store
      ensures Valid() && Advanced(owner)
      ensures Knows(run, owner, base) && (old(InSync(run, owner)) ==> InSync(run, owner))
    {
      hide Good, Knowing, Synced, GoodUpdate, RunOk, Mine, ConsumedBy, NamesOf, HasReceipt, HasConsumed, FreshEnvelope,
        RecordedOnce, Valid, Spent, Names;
      var fetched := upstream.Call();
      if fetched.Failure? { return fetched; }
      r := ArchiveReceipt(run, "agentteams:artifact:" + t.id + ":result-envelope", "agentteams", "official-artifact-response", owner, base);
      if r.Failure? { return; }
      r := upstream.Call();
      if r.Failure? { return; }
      r := ArchiveReceipt(run, "agentteams:artifact:" + t.id + ":primary", "agentteams", "official-artifact-response", owner, base);
      if r.Failure? { return; }
      r := upstream.Call();
      if r.Failure? { return; }
      if t.stage < |run.header.project.plan| && run.header.project.plan[t.stage].suffix == "verify" {
        r := ArchiveReceipt(run, "reviewer:" + t.id, "agentteams", "reviewer-decision", owner, base);
      }
    }

    function SecondsInStatus(run: Run, id: string, at: int): int {
      if id in run.checkpoint.nodes then at - run.checkpoint.nodes[id].since else 0
    }

    /** What makes a task need a new attempt before its contract is looked at. */
    function StatusConflict(run: Run, id: string, status: string, at: int): bool {
      || status == "revision" || status == "blocked"
      || (status == "delegated" && SecondsInStatus(run, id, at) > run.header.ackTimeout)
      || (status == "in-progress" && SecondsInStatus(run, id, at) > run.header.executionTimeout)
    }

    /** A newest attempt that the workflow neither failed nor completed without an accepted contract. */
    ghost predicate Settled(run: Run, workflow: Workflow, t: Task) {
      var status := NodeStatus(workflow.nodes, t.id);
      status.Some? ==>
        && status.value != "revision" && status.value != "blocked"
        && (status.value == "completed" ==> t.id in run.checkpoint.accepted)
    }

    ghost predicate AllSettled(run: Run, workflow: Workflow, tasks: seq<Task>) {
      forall k :: 0 <= k < |tasks| ==> Settled(run, workflow, tasks[k])
    }

    lemma NoneSettled(run: Run, workflow: Workflow)
      ensures AllSettled(run, workflow, [])
    {
    }

    lemma {:induction false} AllSettledStays(run: Run, next: Run, workflow: Workflow, tasks: seq<Task>)
      requires AllSettled(run, workflow, tasks) && run.checkpoint.accepted <= next.checkpoint.accepted
      ensures AllSettled(next, workflow, tasks)
    {
    }

    lemma {:induction false} AllSettledSnoc(run: Run, workflow: Workflow, tasks: seq<Task>, t: Task)
      requires AllSettled(run, workflow, tasks) && Settled(run, workflow, t)
      ensures AllSettled(run, workflow, tasks + [t])
    {
    }

    /** One newest attempt: in conflict, settled already, or settled by accepting its contract now. */
    method CheckTask(run: Run, workflow: Workflow, t: Task, owner: string, ghost base: Run)
      returns (r: Result<bool, BridgeError>, last: Run, at: int)
      requires Valid() && Knows(run, owner, base)
      modifies store
      ensures Valid() && Advanced(owner)
      ensures Knows(last, owner, base) && (old(InSync(run, owner)) ==> InSync(last, owner))
      ensures last == run.(checkpoint := run.checkpoint.(accepted := last.checkpoint.accepted))
      ensures run.checkpoint.accepted <= last.checkpoint.accepted
      ensures r.Success? && !r.value ==> Settled(last, workflow, t)
      ensures var status := NodeStatus(workflow.nodes, t.id);
        status.Some? && StatusConflict(run, t.id, status.value, at) ==> r == Success(true) && last == run
      ensures var status := NodeStatus(workflow.nodes, t.id);
        r == Success(true) ==> status.Some? && (StatusConflict(run, t.id, status.value, at) || status.value == "completed")
    {
      hide Good, Knowing, Synced, GoodUpdate, RunOk, Mine, EnvelopeOk, GraphOk, WithinBudget, ConsumedBy, NamesOf,
        HasReceipt, HasConsumed, FreshEnvelope, RecordedOnce, Valid, Spent, Names, NodeStatus, FactsOk;
      last, at := run, *;
      var status := NodeStatus(workflow.nodes, t.id);
      if status.None? { return Success(false), last, at; }
      if StatusConflict(run, t.id, status.value, at) { return Success(true), last, at; }
      if status.value != "completed" || t.id in run.checkpoint.accepted { return Success(false), last, at; }
      if t.id !in workflow.results || !workflow.results[t.id] { return Success(true), last, at; }
      var checked := ValidateTaskContract(run, t, owner, base);
      if checked.Failure? { return Success(true), last, at; }
      var appended: Result<(), BridgeError>;
      appended, last := AcceptContract(run, t, owner, base);
      r := if appended.Success? then Success(false) else Failure(appended.error);
    }

    /** Note the acceptance in the local run and put it on the ledger. */
    method AcceptContract(run: Run, t: Task, owner: string, ghost base: Run) returns (r: Result<(), BridgeError>, last: Run)
      requires Valid() && Knows(run, owner, base)
      modifies store
      ensures Valid() && Advanced(owner)
      ensures Knows(last, owner, base) && (old(InSync(run, owner)) ==> InSync(last, owner))
      ensures last == run.(checkpoint := run.checkpoint.(accepted := run.checkpoint.accepted + {t.id}))
    {
      hide Good, Knowing, Synced, GoodUpdate, RunOk, Mine, EnvelopeOk, GraphOk, WithinBudget, ConsumedBy, NamesOf,
        HasReceipt, HasConsumed, FreshEnvelope, RecordedOnce, Valid, Spent, Names;
      KnownFacts(store.Contents(), run, owner, base);
      last := run.(checkpoint := run.checkpoint.(accepted := run.checkpoint.accepted + {t.id}));
      LocalMoveKeepsKnowledge(store.Contents(), run, last, owner, base);
      var envelope := NewEnvelope(last, ArtifactAccepted, 1);
      var appended := AppendEvent(last, envelope, owner, base);
      r := if appended.Success? then Success(()) else Failure(appended.error);
    }

    ghost predicate AllEffective(run: Run, tasks: seq<Task>) {
      forall k :: 0 <= k < |tasks| ==>
        EffectiveTaskOk(run.header.project, run.graph, run.checkpoint.reassignments, All(run.header.project), tasks[k])
    }

    lemma {:induction false} EffectiveAt(run: Run, tasks: seq<Task>, k: nat)
      requires AllEffective(run, tasks) && k < |tasks|
      ensures EffectiveTaskOk(run.header.project, run.graph, run.checkpoint.reassignments, All(run.header.project), tasks[k])
    {
    }

    method NewestTasks(run: Run) returns (tasks: seq<Task>)
      requires GraphOk(run.header.project, run.graph, run.checkpoint.reassignments)
      ensures tasks == Effective(run.graph, All(run.header.project)) && AllEffective(run, tasks)
    {
      hide GraphOk, Effective, EffectiveTaskOk, HasStage, Stages;
      EffectiveIsOnePerLogicalTask(run.header.project, run.graph, run.checkpoint.reassignments, All(run.header.project));
      tasks := EffectiveTasks(run.graph, All(run.header.project));
    }

    /** The first newest attempt in conflict; contracts accepted on the way stay accepted. */
    method FirstConflict(run: Run, workflow: Workflow, owner: string, ghost base: Run)
      returns (r: Result<Option<Task>, BridgeError>, last: Run)
      requires Valid() && Knows(run, owner, base)
      modifies store
      ensures Valid() && Advanced(owner)
      ensures Knows(last, owner, base) && (old(InSync(run, owner)) ==> InSync(last, owner))
      ensures last == run.(checkpoint := run.checkpoint.(accepted := last.checkpoint.accepted))
      ensures r.Success? && r.value.Some? ==>
        EffectiveTaskOk(run.header.project, run.graph, run.checkpoint.reassignments, All(run.header.project), r.value.value)
      ensures r.Success? && r.value.None? ==>
        AllSettled(last, workflow, Effective(run.graph, All(run.header.project)))
    {
      hide Good, Knowing, Synced, GoodUpdate, RunOk, Mine, Effective, EffectiveTaskOk, AllSettled, AllEffective, Settled,
        FactsOk, GraphOk, WithinBudget, ConsumedBy, NamesOf, HasReceipt, HasConsumed, FreshEnvelope, RecordedOnce, Valid,
        Spent, Names;
      KnownFacts(store.Contents(), run, owner, base);
      var tasks := NewestTasks(run);
      last := run;
      NoneSettled(run, workflow);
      for i := 0 to |tasks|
        invariant Valid() && Advanced(owner)
        invariant Knows(last, owner, base) && (old(InSync(run, owner)) ==> InSync(last, owner))
        invariant last == run.(checkpoint := run.checkpoint.(accepted := last.checkpoint.accepted))
        invariant AllSettled(last, workflow, tasks[..i])
      {
        var found, next, _ := CheckTask(last, workflow, tasks[i], owner, base);
        AllSettledStays(last, next, workflow, tasks[..i]);
        last := next;
        if found.Failure? { return Failure(found.error), last; }
        if found.value {
          EffectiveAt(run, tasks, i);
          return Success(Some(tasks[i])), last;
        }
        AllSettledSnoc(last, workflow, tasks[..i], tasks[i]);
        assert tasks[..i + 1] == tasks[..i] + [tasks[i]];
      }
      assert tasks[..|tasks|] == tasks;
      r := Success(None);
    }

    /** All newest attempts of the selected stages, at least one, are completed with an accepted contract. */
    method AllStageTasksCompleted(run: Run, workflow: Workflow, stages: Range) returns (all: bool)
      ensures all <==>
        && Effective(run.graph, stages) != []
        && forall k :: 0 <= k < |Effective(run.graph, stages)| ==>
             LastStatus(workflow.nodes, Effective(run.graph, stages)[k].id) == Some("completed")
             && Effective(run.graph, stages)[k].id in run.checkpoint.accepted
    {
      hide Effective;
      var tasks := EffectiveTasks(run.graph, stages);
      all := tasks != [];
      for i := 0 to |tasks|
        invariant all <==> tasks != [] && forall k :: 0 <= k < i ==>
          LastStatus(workflow.nodes, tasks[k].id) == Some("completed") && tasks[k].id in run.checkpoint.accepted
      {
        if LastStatus(workflow.nodes, tasks[i].id) != Some("completed") || tasks[i].id !in run.checkpoint.accepted {
          all := false;
        }
      }
    }

    function RawStatus(status: string): string {
      if status == "pending" then "planned"
      else if status == "delegated" then "assigned"
      else if status == "in-progress" then "in_progress"
      else status
    }

    /** The workers that may take over a task: not its worker, not the leader, with a skill in common. */
    function CandidateWorkers(run: Run, t: Task): set<string> {
      set name | name in run.checkpoint.workers
        && name != t.worker && !run.checkpoint.workers[name].leader
        && (t.skills == {} || t.skills * run.checkpoint.workers[name].skills != {})
    }

    /** Another task is running, or a task waiting for t has already been started. */
    predicate MustDefer(run: Run, workflow: Workflow, t: Task) {
      || (exists i :: 0 <= i < |workflow.nodes| && workflow.nodes[i].id != t.id && workflow.nodes[i].status == "in-progress")
      || (exists i :: 0 <= i < |run.graph| && t.id in run.graph[i].dependsOn && run.graph[i].status != "planned")
    }

    ghost predicate Exhausted(run: Run, t: Task) {
      CountOf(run.checkpoint.reassignments, OriginOf(t)) >= run.header.maxReassignments
    }

    /** The plan after a reassignment of t to some other candidate. */
    ghost predicate ReassignedPlan(run: Run, t: Task, next: Run) {
      exists worker: string, status: string :: worker in CandidateWorkers(run, t) && SamePlan(ReassignedRun(run, t, worker, status), next)
    }

    /** Replace a conflicting newest attempt, or block the run when its budget or its candidates are spent. */
    method Reassign(run: Run, workflow: Workflow, t: Task, owner: string, ghost base: Run)
      returns (r: Result<Run, BridgeError>, ghost base': Run)
      requires Valid() && Knows(run, owner, base) && InSync(run, owner) && SamePlan(base, run)
      requires EffectiveTaskOk(run.header.project, run.graph, run.checkpoint.reassignments, All(run.header.project), t)
      modifies store
      ensures Valid() && Advanced(owner)
      ensures r.Success? ==> r.value.id == run.id && Knows(r.value, owner, base') && InSync(r.value, owner) && StaysOrStops(run, r.value)
      ensures r.Success? && Exhausted(run, t) ==> r.value.state == Blocked && SamePlan(run, r.value)
      ensures r.Success? && CandidateWorkers(run, t) == {} && !MustDefer(run, workflow, t) ==>
        r.value.state == Blocked && SamePlan(run, r.value)
      ensures r.Success? && !SamePlan(run, r.value) ==> !Exhausted(run, t) && ReassignedPlan(run, t, r.value)
    {
      hide Good, Knowing, Synced, GoodUpdate, RunOk, Mine, EnvelopeOk, GraphOk, WithinBudget, CandidateWorkers, MustDefer,
        ReassignedRun, EffectiveTaskOk, ConsumedBy, NamesOf, HasReceipt, HasConsumed, FreshEnvelope, RecordedOnce, Valid,
        Spent, Names;
      KnownFacts(store.Contents(), run, owner, base);
      base' := base;
      var blocked := run.(state := Blocked);
      LocalMoveKeepsKnowledge(store.Contents(), run, blocked, owner, base);
      if CountOf(run.checkpoint.reassignments, OriginOf(t)) >= run.header.maxReassignments { return Success(blocked), base; }
      if MustDefer(run, workflow, t) { return Success(run), base; }
      var candidates := CandidateWorkers(run, t);
      if candidates == {} { return Success(blocked), base; }
      var worker :| worker in candidates;
      var node := NodeStatus(workflow.nodes, t.id);
      var status := if node.Some? then node.value else t.status;
      r, base' := ReassignTo(run, t, worker, status, owner, base);
    }

    function StatusAfterCancel(status: string): string {
      RawStatus(if status == "delegated" || status == "in-progress" then "blocked" else status)
    }

    /** Cancel the attempt if it is active, then replan with the replacement. */
    method ReassignTo(run: Run, t: Task, worker: string, status: string, owner: string, ghost base: Run)
      returns (r: Result<Run, BridgeError>, ghost base': Run)
      requires Valid() && Knows(run, owner, base) && InSync(run, owner) && SamePlan(base, run)
      requires EffectiveTaskOk(run.header.project, run.graph, run.checkpoint.reassignments, All(run.header.project), t)
      requires !Exhausted(run, t)
      modifies store
      ensures Valid() && Advanced(owner)
      ensures r.Success? ==>
        && r.value.id == run.id && Knows(r.value, owner, base') && InSync(r.value, owner) && StaysOrStops(run, r.value)
        && SamePlan(ReassignedRun(run, t, worker, StatusAfterCancel(status)), r.value)
    {
      hide Good, Knowing, Synced, GoodUpdate, RunOk, Mine, EnvelopeOk, GraphOk, WithinBudget, EffectiveTaskOk, Reassigned,
        ConsumedBy, NamesOf, HasReceipt, HasConsumed, FreshEnvelope, RecordedOnce, Valid, Spent, Names;
      base' := base;
      var current := run;
      if status == "delegated" || status == "in-progress" {
        var renewed, b := RenewOperation(current, owner, base');
        base' := b;
        if renewed.Failure? { return Failure(renewed.error), base'; }
        current := renewed.value;
        var cancelled := ExternalWrite(current, owner, base');
        if cancelled.Failure? { return Failure(cancelled.error), base'; }
      }
      r, base' := ReplanReassigned(current, t, worker, StatusAfterCancel(status), owner, base');
    }

    /** Commit the new plan to the controller, record it, and announce it. */
    method ReplanReassigned(run: Run, t: Task, worker: string, status: string, owner: string, ghost base: Run)
      returns (r: Result<Run, BridgeError>, ghost base': Run)
      requires Valid() && Knows(run, owner, base) && InSync(run, owner) && SamePlan(base, run)
      requires EffectiveTaskOk(run.header.project, run.graph, run.checkpoint.reassignments, All(run.header.project), t)
      requires !Exhausted(run, t)
      modifies store
      ensures Valid() && Advanced(owner)
      ensures r.Success? ==>
        && r.value.id == run.id && Knows(r.value, owner, base') && InSync(r.value, owner) && StaysOrStops(run, r.value)
        && SamePlan(ReassignedRun(run, t, worker, status), r.value)
    {
      hide Good, Knowing, Synced, GoodUpdate, RunOk, Mine, EnvelopeOk, GraphOk, WithinBudget, EffectiveTaskOk, Reassigned,
        ConsumedBy, NamesOf, HasReceipt, HasConsumed, FreshEnvelope, RecordedOnce, Valid, Spent, Names;
      var renewed, b := RenewOperation(run, owner, base);
      base' := b;
      if renewed.Failure? { return Failure(renewed.error), base'; }
      var count := CountOf(run.checkpoint.reassignments, OriginOf(t));
      var graph := ReassignGraph(run.graph, t, count, worker, status);
      var replanned := ExternalWrite(renewed.value, owner, base');
      if replanned.Failure? { return Failure(replanned.error), base'; }
      ReassignKeepsKnowledge(store.Contents(), renewed.value, t, worker, status, owner, base');
      var updated := renewed.value.(graph := graph,
        checkpoint := renewed.value.checkpoint.(reassignments := renewed.value.checkpoint.reassignments[OriginOf(t) := count + 1]));
      assert updated == ReassignedRun(renewed.value, t, worker, status);
      r, base' := AnnounceReassignment(updated, count, ReplacementId(OriginOf(t), count + 1), owner, base');
    }

    /** Put the local run into compensation, with an event that says so. */
    method Fence(run: Run, retry: Retry, attempt: nat, owner: string, ghost base: Run) returns (r: Result<Run, BridgeError>)
      requires Valid() && Knows(run, owner, base) && InSync(run, owner) && attempt >= 1
      requires RetryOk(run.checkpoint.(retry := Some(retry)))
      modifies store
      ensures Valid() && Advanced(owner)
      ensures r.Success? ==> r.value == Compensating(run, retry) && Knows(r.value, owner, base) && InSync(r.value, owner)
    {
      hide Good, Knowing, Synced, GoodUpdate, RunOk, Mine, EnvelopeOk, GraphOk, WithinBudget, ConsumedBy, NamesOf,
        HasReceipt, HasConsumed, FreshEnvelope, RecordedOnce, Valid, Spent, Names;
      KnownFacts(store.Contents(), run, owner, base);
      var failed := Compensating(run, retry);
      LocalMoveKeepsKnowledge(store.Contents(), run, failed, owner, base);
      var envelope := NewEnvelope(failed, Compensation, attempt);
      var fenced := AppendEvent(failed, envelope, owner, base);
      r := if fenced.Success? then Success(failed) else Failure(fenced.error);
    }

    /** The run keeps its state, or stops: blocked, or in compensation with something to retry. */
    predicate StaysOrStops(run: Run, next: Run) {
      next.state == run.state || next.state == Blocked || (next.state == CompensationRequired && next.checkpoint.retry.Some?)
    }

    lemma ReplanRetryOk(run: Run, replacementId: string)
      requires FactsOk(run)
      ensures RetryOk(run.checkpoint.(retry := Some(Retry(ReplanNotify, Some(run.state), replacementId))))
    {
    }

    /** Announce a committed reassignment; a failed announcement leaves a compensation checkpoint. */
    method AnnounceReassignment(run: Run, count: nat, replacementId: string, owner: string, ghost base: Run)
      returns (r: Result<Run, BridgeError>, ghost base': Run)
      requires Valid() && Knows(run, owner, base) && InSync(run, owner)
      modifies store
      ensures Valid() && Advanced(owner)
      ensures r.Success? ==>
        r.value.id == run.id && Knows(r.value, owner, base') && InSync(r.value, owner) && SamePlan(run, r.value) && StaysOrStops(run, r.value)
    {
      hide FactsOk, RetryOk, Good, Knowing, Synced, GoodUpdate, RunOk, Mine, EnvelopeOk, GraphOk, WithinBudget, ConsumedBy,
        HasReceipt, HasConsumed, FreshEnvelope, RecordedOnce, Valid, Spent, Names;
      KnownFacts(store.Contents(), run, owner, base);
      base' := base;
      var conflict := NewEnvelope(run, Conflict, count + 2);
      var announced := AppendEvent(run, conflict, owner, base);
      if announced.Failure? { return Failure(announced.error), base'; }
      var replan := NewEnvelope(run, Replan, count + 2);
      var sent, b1 := Send(run, replan, owner, base');
      base' := b1;
      if sent.Success? { return sent, base'; }
      var paused, b2 := TryPause(run, owner, base');
      base' := b2;
      KnownFacts(store.Contents(), paused, owner, base');
      ReplanRetryOk(paused, replacementId);
      r := Fence(paused, Retry(ReplanNotify, Some(run.state), replacementId), count + 2, owner, base');
    }

    /** The state a recoverable compensation resumes in; no value asks the operator instead. */
    function ResumeState(retry: Option<Retry>): Option<RunState> {
      if retry.None? then None
      else match retry.value.operation
        case StartDispatch => Some(PreApproval)
        case ReplanNotify =>
          Some(if retry.value.resume == Some(PostApproval) then PostApproval else PreApproval)
        case ApprovalRequiredNotify => Some(WaitingR2)
        case TerminalNotify => Some(Completed)
        case ResumeReplanNotify => None
        case GrantResponseUncertain => None
    }

    function RecoveryKind(operation: Recovery): Kind {
      match operation
      case StartDispatch => TaskRequest
      case ReplanNotify => Replan
      case ApprovalRequiredNotify => ApprovalRequired
      case _ => Terminal
    }

    /** The attempt a repeated announcement carries: that of the replacement it announces. */
    function RecoveryAttempt(graph: seq<Task>, retry: Retry): (attempt: nat)
      ensures attempt >= 1
    {
      if !retry.operation.ReplanNotify? || graph == [] then 1
      else if graph[0].id == retry.replacement then (if graph[0].attempt >= 1 then graph[0].attempt else 1)
      else RecoveryAttempt(graph[1..], retry)
    }

    /** Repeat the announcement that failed; a run that was paused resumes. */
    method RepeatAnnouncement(run: Run, retry: Retry, owner: string, ghost base: Run)
      returns (r: Result<Run, BridgeError>, ghost base': Run)
      requires Valid() && Knows(run, owner, base) && InSync(run, owner)
      modifies store
      ensures Valid() && Advanced(owner)
      ensures r.Success? ==>
        r.value == WithLease(run, r.value.checkpoint.lease) && Knows(r.value, owner, base') && InSync(r.value, owner)
    {
      hide Good, Knowing, Synced, GoodUpdate, RunOk, Mine, EnvelopeOk, ConsumedBy, NamesOf, HasReceipt, HasConsumed,
        FreshEnvelope, RecordedOnce, Valid, Spent, Names;
      var envelope := NewEnvelope(run, RecoveryKind(retry.operation), RecoveryAttempt(run.graph, retry));
      var sent, b := Send(run, envelope, owner, base);
      base' := b;
      if sent.Failure? || !(retry.operation.StartDispatch? || retry.operation.ReplanNotify?) { return sent, base'; }
      var renewed, b1 := RenewOperation(sent.value, owner, base');
      base' := b1;
      if renewed.Failure? { return renewed, base'; }
      var resumed := ExternalWrite(renewed.value, owner, base');
      r := if resumed.Success? then renewed else Failure(resumed.error);
    }

    /** A compensation checkpoint may resume only in a state whose facts are committed. */
    lemma ResumeIsJustified(run: Run)
      requires FactsOk(run) && ResumeState(run.checkpoint.retry).Some?
      ensures FactsOk(run.(state := ResumeState(run.checkpoint.retry).value, checkpoint := run.checkpoint.(retry := None)))
    {
      hide EnvelopeOk;
    }

    /** Repeat the announcement that failed, then resume where the checkpoint says. */
    method RecoverCompensation(run: Run, owner: string, ghost base: Run) returns (r: Result<Run, BridgeError>, ghost base': Run)
      requires Valid() && Knows(run, owner, base) && InSync(run, owner)
      modifies store
      ensures Valid() && Advanced(owner)
      ensures r.Success? ==> r.value.id == run.id && Knows(r.value, owner, base') && InSync(r.value, owner) && SamePlan(run, r.value)
      ensures r.Success? && ResumeState(run.checkpoint.retry).None? ==> r.value == run
      ensures r.Success? && ResumeState(run.checkpoint.retry).Some? ==>
        Some(r.value.state) == ResumeState(run.checkpoint.retry) && r.value.checkpoint.retry.None?
    {
      hide Good, Knowing, Synced, GoodUpdate, RunOk, Mine, FactsOk, ConsumedBy, NamesOf, HasReceipt, HasConsumed,
        FreshEnvelope, RecordedOnce, Valid, Spent, Names;
      base' := base;
      var resume := ResumeState(run.checkpoint.retry);
      if resume.None? { return Success(run), base; }
      var repeated, b := RepeatAnnouncement(run, run.checkpoint.retry.value, owner, base);
      base' := b;
      if repeated.Failure? { return repeated, base'; }
      var current := repeated.value;
      KnownFacts(store.Contents(), current, owner, base');
      ResumeIsJustified(current);
      var recovered := current.(state := resume.value, checkpoint := current.checkpoint.(retry := None));
      LocalMoveKeepsKnowledge(store.Contents(), current, recovered, owner, base');
      r := Success(recovered);
    }

    // -------------------------------------------------------------- approval

    /** Advance EgoAgentOS stage by stage until it waits for the R2 approval. */
    method AdvanceEgoToApproval(run: Run, owner: string, ghost base: Run) returns (r: Result<Run, BridgeError>, ghost base': Run)
      requires Valid() && Knows(run, owner, base) && InSync(run, owner)
      modifies store
      ensures Valid() && Advanced(owner)
      ensures r.Success? ==> Knows(r.value, owner, base') && InSync(r.value, owner) && r.value == WithLease(run, r.value.checkpoint.lease)
    {
      hide Good, Knowing, Synced, GoodUpdate, RunOk, Mine, ConsumedBy, NamesOf, HasReceipt, HasConsumed, FreshEnvelope,
        RecordedOnce, Valid, Spent, Names;
      base' := base;
      var current := run;
      var task := upstream.GetTask();
      if task.Failure? { return Failure(task.error), base'; }
      if !task.value.bound { return Failure(ContractFailure), base'; }
      var stages := ["INTAKE", "CONTEXT", "PLAN", "PLAN_REVIEW", "APPROVAL"];
      if task.value.stage !in stages { return Failure(ContractFailure), base'; }
      var ego := task.value;
      for i := 1 to |stages|
        invariant Valid() && Advanced(owner)
        invariant Knows(current, owner, base') && InSync(current, owner) && current == WithLease(run, current.checkpoint.lease)
      {
        if ego.stage == stages[i - 1] {
          var renewed, b := RenewOperation(current, owner, base');
          base' := b;
          if renewed.Failure? { return Failure(renewed.error), base'; }
          current := renewed.value;
          var sent := ExternalWrite(current, owner, base');
          if sent.Failure? { return Failure(sent.error), base'; }
          var advanced := upstream.GetTask();
          if advanced.Failure? { return Failure(advanced.error), base'; }
          if advanced.value.stage != stages[i] || !advanced.value.bound { return Failure(ContractFailure), base'; }
          ego := advanced.value;
          var archived := ArchiveReceipt(current, "ego:stage:" + stages[i], "egoagentos", "control-plane-response", owner, base');
          if archived.Failure? { return Failure(archived.error), base'; }
        }
      }
      if ego.stage != "APPROVAL" || !ego.pendingApproval { return Failure(ContractFailure), base'; }
      r := Success(current);
    }

    /** Announce a state change; a failed announcement turns it into a compensation checkpoint. */
    method Announce(run: Run, kind: Kind, retry: Retry, owner: string, ghost base: Run) returns (r: Result<Run, BridgeError>, ghost base': Run)
      requires Valid() && Knows(run, owner, base) && InSync(run, owner)
      requires RetryOk(run.checkpoint.(retry := Some(retry)))
      modifies store
      ensures Valid() && Advanced(owner)
      ensures r.Success? ==> r.value.id == run.id && Knows(r.value, owner, base') && InSync(r.value, owner) && SamePlan(run, r.value)
      ensures r.Success? ==>
        r.value.state == run.state || (r.value.state == CompensationRequired && r.value.checkpoint.retry == Some(retry))
    {
      hide Good, Knowing, Synced, GoodUpdate, RunOk, Mine, EnvelopeOk, GraphOk, WithinBudget, ConsumedBy, NamesOf,
        HasReceipt, HasConsumed, FreshEnvelope, RecordedOnce, Valid, Spent, Names;
      KnownFacts(store.Contents(), run, owner, base);
      var envelope := NewEnvelope(run, kind, 1);
      var sent, b := Send(run, envelope, owner, base);
      base' := b;
      if sent.Success? { return sent, base'; }
      r, base' := FenceAnnouncement(run, retry, owner, base');
    }

    method FenceAnnouncement(run: Run, retry: Retry, owner: string, ghost base: Run) returns (r: Result<Run, BridgeError>, ghost base': Run)
      requires Valid() && Knows(run, owner, base) && RetryOk(run.checkpoint.(retry := Some(retry)))
      modifies store
      ensures Valid() && Advanced(owner)
      ensures r.Success? ==> r.value == Compensating(WithLease(run, r.value.checkpoint.lease), retry)
      ensures r.Success? ==> Knows(r.value, owner, base') && InSync(r.value, owner)
    {
      hide Good, Knowing, Synced, GoodUpdate, RunOk, Mine, FactsOk, EnvelopeOk, GraphOk, WithinBudget, ConsumedBy, NamesOf,
        HasReceipt, HasConsumed, FreshEnvelope, RecordedOnce, Valid, Spent, Names;
      var renewed, renewedBase := RenewOperation(run, owner, base);
      base' := renewedBase;
      if renewed.Failure? { return Failure(renewed.error), base'; }
      r := Fence(renewed.value, retry, 1, owner, base');
    }

    /** Pause at the R2 gate once every pre-approval task is accepted. */
    method PauseForApproval(run: Run, owner: string, ghost base: Run) returns (r: Result<Run, BridgeError>, ghost base': Run)
      requires Valid() && Knows(run, owner, base) && InSync(run, owner)
      modifies store
      ensures Valid() && Advanced(owner)
      ensures r.Success? ==> r.value.id == run.id && Knows(r.value, owner, base') && InSync(r.value, owner) && SamePlan(run, r.value)
      ensures r.Success? ==>
        r.value.state == WaitingR2 || (r.value.state == CompensationRequired && r.value.checkpoint.retry.Some?)
    {
      hide Good, Knowing, Synced, GoodUpdate, RunOk, Mine, EnvelopeOk, GraphOk, WithinBudget, ConsumedBy, NamesOf,
        HasReceipt, HasConsumed, FreshEnvelope, RecordedOnce, Valid, Spent, Names;
      KnownFacts(store.Contents(), run, owner, base);
      var advanced, b := AdvanceEgoToApproval(run, owner, base);
      base' := b;
      if advanced.Failure? { return Failure(advanced.error), base'; }
      var renewed, b1 := RenewOperation(advanced.value, owner, base');
      base' := b1;
      if renewed.Failure? { return Failure(renewed.error), base'; }
      var paused := ExternalWrite(renewed.value, owner, base');
      if paused.Failure? { return Failure(paused.error), base'; }
      var waiting := renewed.value.(state := WaitingR2);
      LocalMoveKeepsKnowledge(store.Contents(), renewed.value, waiting, owner, base');
      r, base' := Announce(waiting, ApprovalRequired, Retry(ApprovalRequiredNotify, Some(WaitingR2), ""), owner, base');
    }

    // -------------------------------------------------------------- completion

    /** Commit the terminal evidence to EgoAgentOS once, and store that it is committed. */
    method FinalizeEgo(run: Run, owner: string, ghost base: Run) returns (r: Result<Run, BridgeError>, ghost base': Run)
      requires Valid() && Knows(run, owner, base) && InSync(run, owner) && run.state == PostApproval
      modifies store
      ensures Valid() && Advanced(owner)
      ensures r.Success? ==> r.value.id == run.id && Knows(r.value, owner, base') && InSync(r.value, owner) && SamePlan(run, r.value)
      ensures r.Success? ==> r.value.checkpoint.finalCommitted && r.value.checkpoint.grantCommitted && r.value.state == PostApproval
    {
      hide Good, Knowing, Synced, GoodUpdate, RunOk, Mine, EnvelopeOk, GraphOk, WithinBudget, ConsumedBy, NamesOf,
        HasReceipt, HasConsumed, FreshEnvelope, RecordedOnce, Valid, Spent, Names;
      KnownFacts(store.Contents(), run, owner, base);
      base' := base;
      var task := upstream.GetTask();
      if task.Failure? { return Failure(task.error), base'; }
      if !task.value.bound { return Failure(ContractFailure), base'; }
      if run.checkpoint.finalCommitted {
        r := if task.value.stage == "COMPLETED" && task.value.gatePassed then Success(run) else Failure(ContractFailure);
        return;
      }
      if task.value.stage != "EXECUTE" { return Failure(ContractFailure), base'; }
      var evidence := upstream.Call();
      if evidence.Failure? { return Failure(evidence.error), base'; }
      var renewed, b := RenewOperation(run, owner, base');
      base' := b;
      if renewed.Failure? { return Failure(renewed.error), base'; }
      var sent := ExternalWrite(renewed.value, owner, base');
      if sent.Failure? { return Failure(sent.error), base'; }
      var finalized := upstream.GetTask();
      if finalized.Failure? { return Failure(finalized.error), base'; }
      if !(finalized.value.terminal && finalized.value.stage == "COMPLETED" && finalized.value.gatePassed) {
        return Failure(ContractFailure), base';
      }
      var archived := ArchiveReceipt(renewed.value, FINAL_RECEIPT, "egoagentos", "terminal-finalization", owner, base');
      if archived.Failure? { return Failure(archived.error), base'; }
      var committed := renewed.value.(checkpoint := renewed.value.checkpoint.(finalCommitted := true));
      LocalMoveKeepsKnowledge(store.Contents(), renewed.value, committed, owner, base');
      r, base' := UpdateRun(committed, owner, base');
    }

    /** Finalize, complete the AgentTeams project, and announce the end. */
    method Complete(run: Run, owner: string, ghost base: Run) returns (r: Result<Run, BridgeError>, ghost base': Run)
      requires Valid() && Knows(run, owner, base) && InSync(run, owner) && run.state == PostApproval
      modifies store
      ensures Valid() && Advanced(owner)
      ensures r.Success? ==> r.value.id == run.id && Knows(r.value, owner, base') && InSync(r.value, owner) && SamePlan(run, r.value)
      ensures r.Success? ==>
        r.value.state == Completed || (r.value.state == CompensationRequired && r.value.checkpoint.retry.Some?)
    {
      hide Good, Knowing, Synced, GoodUpdate, RunOk, Mine, EnvelopeOk, GraphOk, WithinBudget, ConsumedBy, NamesOf,
        HasReceipt, HasConsumed, FreshEnvelope, RecordedOnce, Valid, Spent, Names;
      var finalized, b := FinalizeEgo(run, owner, base);
      base' := b;
      if finalized.Failure? { return Failure(finalized.error), base'; }
      KnownFacts(store.Contents(), finalized.value, owner, base');
      var renewed, b1 := RenewOperation(finalized.value, owner, base');
      base' := b1;
      if renewed.Failure? { return Failure(renewed.error), base'; }
      var completed := ExternalWrite(renewed.value, owner, base');
      if completed.Failure? { return Failure(completed.error), base'; }
      var archived := ArchiveReceipt(renewed.value, "agentteams:project-complete", "agentteams", "official-response", owner, base');
      if archived.Failure? { return Failure(archived.error), base'; }
      var done := renewed.value.(state := Completed);
      LocalMoveKeepsKnowledge(store.Contents(), renewed.value, done, owner, base');
      r, base' := Announce(done, Terminal, Retry(TerminalNotify, Some(Completed), ""), owner, base');
    }

    // -------------------------------------------------------------- one reconciliation

    /** Where one reconciliation may lead a run. */
    ghost predicate ReconcileMove(run: Run, next: Run) {
      if run.state == CompensationRequired then
        var resume := ResumeState(run.checkpoint.retry);
        if resume.Some? then next.state == resume.value && next.checkpoint.retry.None?
        else next.state == run.state && next.checkpoint.retry == run.checkpoint.retry
      else
        || StaysOrStops(run, next)
        || (run.state == PreApproval && next.state == WaitingR2)
        || (run.state == PostApproval && next.state == Completed && next.checkpoint.finalCommitted && next.checkpoint.grantCommitted)
    }

    /** The branch that a run outside compensation takes. */
    method ReconcileActive(run: Run, workflow: Workflow, owner: string, ghost base: Run)
      returns (r: Result<Run, BridgeError>, ghost base': Run)
      requires Valid() && Knows(run, owner, base) && InSync(run, owner) && SamePlan(base, run)
      modifies store
      ensures Valid() && Advanced(owner)
      ensures r.Success? ==> r.value.id == run.id && Knows(r.value, owner, base') && InSync(r.value, owner)
      ensures r.Success? ==>
        || StaysOrStops(run, r.value)
        || (run.state == PreApproval && r.value.state == WaitingR2)
        || (run.state == PostApproval && r.value.state == Completed)
    {
      hide Good, Knowing, Synced, GoodUpdate, RunOk, Mine, GraphOk, WithinBudget, EffectiveTaskOk, Effective, Settled,
        Exhausted, ReassignedPlan, MustDefer, CandidateWorkers, ConsumedBy, NamesOf, HasReceipt, HasConsumed, FreshEnvelope,
        RecordedOnce, Valid, Spent, Names;
      base' := base;
      var observed := ObserveStatuses(run, workflow, owner, base);
      if observed.Failure? { return observed, base'; }
      var conflict, current := FirstConflict(observed.value, workflow, owner, base);
      if conflict.Failure? { return Failure(conflict.error), base'; }
      if conflict.value.Some? {
        r, base' := Reassign(current, workflow, conflict.value.value, owner, base);
        return;
      }
      if current.state == PreApproval {
        var ready := AllStageTasksCompleted(current, workflow, Pre(current.header.project));
        if ready {
          r, base' := PauseForApproval(current, owner, base);
          return;
        }
      } else if current.state == PostApproval {
        var ready := AllStageTasksCompleted(current, workflow, Post(current.header.project));
        if ready {
          r, base' := Complete(current, owner, base);
          return;
        }
      }
      r := Success(current);
    }

    /** Every distinct snapshot has a receipt key of its own. */
    function WorkflowKey(response: TextDigest): string {
      "agentteams:workflow:" + response.text
    }

    lemma WorkflowKeyInjective(a: TextDigest, b: TextDigest)
      ensures WorkflowKey(a) == WorkflowKey(b) <==> a == b
    {
      var prefix := "agentteams:workflow:";
      assert WorkflowKey(a)[|prefix|..] == a.text && WorkflowKey(b)[|prefix|..] == b.text;
    }

    method ReconcileClaimed(run: Run, owner: string) returns (r: Result<Run, BridgeError>)
      requires Valid() && Knows(run, owner, run) && InSync(run, owner)
      modifies store
      ensures Valid() && Advanced(owner)
      ensures r.Success? ==> run.id in store.runs && store.runs[run.id] == r.value && ReconcileMove(run, r.value)
    {
      hide Good, Knowing, Synced, GoodUpdate, RunOk, Mine, GraphOk, WithinBudget, ConsumedBy, NamesOf, WorkflowKey, RetryOk,
        EnvelopeOk, HasReceipt, HasConsumed, FreshEnvelope, RecordedOnce, Valid, Spent, Names;
      KnownFacts(store.Contents(), run, owner, run);
      var workflow := upstream.GetWorkflow();
      if workflow.Failure? { return Failure(workflow.error); }
      var archived := ArchiveReceipt(run, WorkflowKey(workflow.value.response), "agentteams", "official-workflow-snapshot", owner, run);
      if archived.Failure? { return Failure(archived.error); }
      if !workflow.value.identityOk { return Failure(ContractFailure); }
      ghost var base := run;
      if run.state == CompensationRequired {
        r, base := RecoverCompensation(run, owner, run);
      } else {
        r, base := ReconcileActive(run, workflow.value, owner, run);
      }
      if r.Success? {
        KnownFacts(store.Contents(), r.value, owner, base);
        r, base := UpdateRun(r.value, owner, base);
      }
    }

    /** Reconcile a live run with its AgentTeams workflow; success answers the stored run. */
    method Reconcile(id: string, owner: string) returns (r: Result<Run, BridgeError>)
      requires Valid() && owner !in store.issued && owner != ""
      modifies store
      ensures Valid() && Advanced(owner)
      ensures r.Success? ==> id in store.runs && r.value == store.runs[id] && r.value.header.live
    {
      hide Good, Knowing, Synced, GoodUpdate, RunOk, Mine, RunsOk, ConsumedBy, NamesOf, Later, ReconcileMove, HasReceipt, HasConsumed,
        FreshEnvelope, RecordedOnce;
      var initial := GetRun(id, owner);
      if initial.Failure? { return initial; }
      if !initial.value.header.live { return Failure(ContractFailure); }
      if initial.value.state == Blocked || initial.value.state == Completed { return initial; }
      ghost var k := |store.history| - 1;
      assert id in store.history[k].db.runs && store.history[k].db.runs[id] == initial.value;
      // The claimed run may have moved on since it was read.
      var claimed := ClaimOperation(id, "reconcile", owner);
      if claimed.Failure? { return claimed; }
      r := ReconcileClaimed(claimed.value, owner);
      ReleaseOperation(id, owner);
      if r.Success? {
        r := GetRun(id, owner);
        StoredIsLater(k, id);
        LaterFacts(initial.value, store.runs[id]);
      }
    }

    // -------------------------------------------------------------- the R2 grant

    /**
     Consume the approval token.  Other processes may act between the renewal
     and the moment the request reaches EgoAgentOS; a request that arrives before
     the lease expires meets the row that the renewal left, without a grant.
     */
    method ConsumeGrant(run: Run, owner: string, ghost base: Run) returns (r: Result<EgoTask, BridgeError>)
      requires Valid() && Knows(run, owner, base) && InSync(run, owner)
      requires Mine(store.Contents(), run.id, owner) && store.runs[run.id] == base && !base.checkpoint.grantCommitted
      modifies store
      ensures Valid() && Extended(owner)
      ensures Knows(run, owner, base) && InSync(run, owner)
      ensures SpentOnce(old(Spent(owner)), Spent(owner), run.id) && HasConsumed(store.Contents(), run.id, owner)
      ensures store.history[|store.history| - 1].call == Call(store.now, Consume(run.id, owner))
      ensures store.now < base.checkpoint.lease.lease.expires ==> run.id in store.runs && store.runs[run.id] == base
    {
      hide Good, Knowing, Synced, GoodUpdate, RunOk, Backed, Apply, ConsumedBy, NamesOf;
      ghost var i := |store.history| - 1;
      assert store.history[i].db.runs[run.id] == base && Mine(store.history[i].db, run.id, owner);
      Interference(owner);
      OthersSpendNothing(i, owner);
      OthersKeepKnowledge(store.history, i, run, owner, base);
      KnownRow(store.Contents(), run, owner, base);
      ghost var j := |store.history| - 1;
      ghost var db := store.Contents();
      store.NoteConsumption(run.id, owner);
      ghost var e := store.history[|store.history| - 1];
      GoodSnoc(store.history[..|store.history| - 1], e);
      NamesSnoc(store.history[..|store.history| - 1], e, store.foreign);
      OwnWriteKeeps(db, e, run, owner, base);
      ConsumedBySnoc(db.consumed, Consumption(run.id, owner, store.now), owner);
      assert store.consumed[|db.consumed|].run == run.id && store.consumed[|db.consumed|].owner == owner;
      if store.now < base.checkpoint.lease.lease.expires {
        assert ByOthers(store.history[..j + 1], i + 1, owner);
        RowProtectedUntilExpiry(store.history, i, j, run.id, owner);
      }
      r := upstream.GetTask();
    }

    /** Consume the token unless the grant is committed already, and commit it at once. */
    method CommitGrant(run: Run, owner: string) returns (r: Result<Run, BridgeError>, ghost base': Run)
      requires Valid() && Knows(run, owner, run) && InSync(run, owner)
      modifies store
      ensures Valid() && Extended(owner)
      ensures run.checkpoint.grantCommitted ==> Spent(owner) == old(Spent(owner)) && r == Success(run)
      ensures !run.checkpoint.grantCommitted && r.Success? ==> SpentOnce(old(Spent(owner)), Spent(owner), run.id)
      ensures Spent(owner) == old(Spent(owner)) || SpentOnce(old(Spent(owner)), Spent(owner), run.id)
      ensures r.Success? ==> Knows(r.value, owner, base') && InSync(r.value, owner)
      ensures r.Success? ==>
        r.value.checkpoint.grantCommitted && SamePlan(run, r.value) && r.value.header == run.header && r.value.id == run.id
        && r.value.checkpoint.accepted == run.checkpoint.accepted
    {
      hide Good, Knowing, Synced, GoodUpdate, RunOk, EnvelopeOk, GraphOk, WithinBudget, ConsumedBy, NamesOf, HasConsumed,
        HasReceipt, FreshEnvelope, RecordedOnce, Valid, Spent, Names;
      KnownFacts(store.Contents(), run, owner, run);
      base' := run;
      if run.checkpoint.grantCommitted { return Success(run), run; }
      var pending := upstream.GetTask();
      if pending.Failure? { return Failure(pending.error), base'; }
      if pending.value.stage != "APPROVAL" || !pending.value.pendingApproval { return Failure(ContractFailure), base'; }
      var renewed, b := RenewOperation(run, owner, run);
      base' := b;
      if renewed.Failure? { return renewed, base'; }
      var response := ConsumeGrant(renewed.value, owner, base');
      if response.Failure? { return Failure(response.error), base'; }
      r, base' := CommitResponse(renewed.value, response.value, owner, base');
    }

    /** Store that the token is consumed; an answer without EXECUTE leaves a checkpoint for the operator. */
    method CommitResponse(run: Run, response: EgoTask, owner: string, ghost base: Run)
      returns (r: Result<Run, BridgeError>, ghost base': Run)
      requires Valid() && Knows(run, owner, base) && InSync(run, owner) && HasConsumed(store.Contents(), run.id, owner)
      modifies store
      ensures Valid() && Advanced(owner)
      ensures r.Success? ==> Knows(r.value, owner, base') && InSync(r.value, owner)
      ensures r.Success? ==>
        r.value.checkpoint.grantCommitted && SamePlan(run, r.value) && r.value.header == run.header && r.value.id == run.id
        && r.value.checkpoint.accepted == run.checkpoint.accepted
    {
      hide Good, Knowing, Synced, GoodUpdate, RunOk, EnvelopeOk, GraphOk, WithinBudget, ConsumedBy, NamesOf, HasConsumed,
        HasReceipt, FreshEnvelope, RecordedOnce, Valid, Spent, Names;
      KnownFacts(store.Contents(), run, owner, base);
      var granted := run.(checkpoint := run.checkpoint.(grantCommitted := true));
      LocalMoveKeepsKnowledge(store.Contents(), run, granted, owner, base);
      var committed, b := UpdateRun(granted, owner, base);
      base' := b;
      if committed.Failure? || response.stage == "EXECUTE" { return committed, base'; }
      var uncertain := Compensating(committed.value, Retry(GrantResponseUncertain, None, ""));
      LocalMoveKeepsKnowledge(store.Contents(), committed.value, uncertain, owner, base');
      var _, _ := UpdateRun(uncertain, owner, base');
      r := Failure(ContractFailure);
    }

    method PlanExecution(run: Run) returns (graph: seq<Task>)
      requires GraphOk(run.header.project, run.graph, run.checkpoint.reassignments)
      ensures run.header.project.gate <= |run.header.project.plan|
      ensures graph == Expanded(run.header.project, run.graph, run.checkpoint.accepted)
      ensures GraphOk(run.header.project, graph, run.checkpoint.reassignments)
    {
      GraphPlanOk(run.header.project, run.graph, run.checkpoint.reassignments);
      ExpandKeepsGraph(run.header.project, run.graph, run.checkpoint.reassignments, run.checkpoint.accepted);
      hide GraphOk, Expanded;
      graph := PostApprovalGraph(run.header.project, run.graph, run.checkpoint.accepted);
    }

    /** Resume and replan the project behind the gate; `last` is the local run when it stopped. */
    method ResumeExecution(run: Run, owner: string, ghost base: Run)
      returns (failed: Option<BridgeError>, last: Run, ghost base': Run)
      requires Valid() && Knows(run, owner, base) && InSync(run, owner) && run.checkpoint.grantCommitted
      modifies store
      ensures Valid() && Advanced(owner)
      ensures Knows(last, owner, base') && last.checkpoint.grantCommitted && last.id == run.id
      ensures failed.None? ==>
        && last.state == PostApproval && last.checkpoint.retry.None?
        && run.header.project.gate <= |run.header.project.plan|
        && last.graph == Expanded(run.header.project, run.graph, run.checkpoint.accepted)
        && run.id in store.runs && store.runs[run.id] == last
    {
      hide Good, Knowing, Synced, GoodUpdate, RunOk, EnvelopeOk, WithinBudget, Mine, GraphOk, Expanded, ConsumedBy, NamesOf,
        HasReceipt, HasConsumed, FreshEnvelope, RecordedOnce, Valid, Spent, Names;
      KnownFacts(store.Contents(), run, owner, base);
      var graph := PlanExecution(run);
      last, base' := run, base;
      var renewed, b := RenewOperation(last, owner, base');
      base' := b;
      if renewed.Failure? { return Some(renewed.error), last, base'; }
      last := renewed.value;
      var resumed := ExternalWrite(last, owner, base');
      if resumed.Failure? { return Some(resumed.error), last, base'; }
      var again, b1 := RenewOperation(last, owner, base');
      base' := b1;
      if again.Failure? { return Some(again.error), last, base'; }
      last := again.value;
      var replanned := ExternalWrite(last, owner, base');
      if replanned.Failure? { return Some(replanned.error), last, base'; }
      failed, last, base' := EnterExecution(last, graph, owner, base');
    }

    /** Announce the grant, then store the execution state; nothing is stored before the announcement. */
    method EnterExecution(run: Run, graph: seq<Task>, owner: string, ghost base: Run)
      returns (failed: Option<BridgeError>, last: Run, ghost base': Run)
      requires Valid() && Knows(run, owner, base) && InSync(run, owner) && run.checkpoint.grantCommitted
      requires GraphOk(run.header.project, graph, run.checkpoint.reassignments)
      modifies store
      ensures Valid() && Advanced(owner)
      ensures Knows(last, owner, base') && last.checkpoint.grantCommitted && last.id == run.id
      ensures failed.None? ==>
        && last.state == PostApproval && last.checkpoint.retry.None? && last.graph == graph
        && run.id in store.runs && store.runs[run.id] == last
    {
      hide Good, Knowing, Synced, GoodUpdate, RunOk, EnvelopeOk, WithinBudget, GraphOk, Mine, ConsumedBy, NamesOf,
        HasReceipt, HasConsumed, FreshEnvelope, RecordedOnce, Valid, Spent, Names;
      GraphMoveKeepsKnowledge(store.Contents(), run, graph, owner, base);
      last := run.(graph := graph);
      KnownFacts(store.Contents(), last, owner, base);
      LocalMoveKeepsKnowledge(store.Contents(), last, last.(state := PostApproval), owner, base);
      last := last.(state := PostApproval);
      var envelope := NewEnvelope(last, ApprovalGranted, 1);
      var sent, b := Send(last, envelope, owner, base);
      base' := b;
      if sent.Failure? { return Some(sent.error), last, base'; }
      last := sent.value;
      KnownFacts(store.Contents(), last, owner, base');
      LocalMoveKeepsKnowledge(store.Contents(), last, last.(checkpoint := last.checkpoint.(retry := None)), owner, base');
      last := last.(checkpoint := last.checkpoint.(retry := None));
      var updated, b1 := UpdateRun(last, owner, base');
      base' := b1;
      if updated.Failure? { return Some(updated.error), last, base'; }
      failed, last := None, updated.value;
    }

    /** A grant that is committed but not carried through leaves a checkpoint that never needs the token again. */
    method FenceGrant(run: Run, owner: string, ghost base: Run) returns (r: Result<Run, BridgeError>)
      requires Valid() && Knows(run, owner, base) && run.checkpoint.grantCommitted
      modifies store
      ensures Valid() && Advanced(owner)
      ensures r.Success? ==> r.value == Compensating(r.value, Retry(ResumeReplanNotify, None, "")) && r.value.checkpoint.grantCommitted
    {
      hide Good, Knowing, Synced, GoodUpdate, RunOk, EnvelopeOk, WithinBudget, GraphOk, Mine, ConsumedBy, NamesOf,
        HasReceipt, HasConsumed, FreshEnvelope, RecordedOnce, Valid, Spent, Names;
      var paused, b := TryPause(run, owner, base);
      KnownFacts(store.Contents(), paused, owner, b);
      var failed := Compensating(paused, Retry(ResumeReplanNotify, None, ""));
      LocalMoveKeepsKnowledge(store.Contents(), paused, failed, owner, b);
      var updated, b1 := UpdateRun(failed, owner, b);
      if updated.Failure? { return updated; }
      var fence := NewEnvelope(updated.value, Compensation, 1);
      var fenced := AppendEvent(updated.value, fence, owner, b1);
      r := if fenced.Success? then updated else Failure(fenced.error);
    }

    method GrantR2Claimed(run: Run, owner: string) returns (r: Result<Run, BridgeError>)
      requires Valid() && Knows(run, owner, run) && InSync(run, owner)
      modifies store
      ensures Valid() && Extended(owner)
      ensures run.checkpoint.grantCommitted ==> Spent(owner) == old(Spent(owner))
      ensures !run.checkpoint.grantCommitted && r.Success? ==> SpentOnce(old(Spent(owner)), Spent(owner), run.id)
      ensures Spent(owner) == old(Spent(owner)) || SpentOnce(old(Spent(owner)), Spent(owner), run.id)
      ensures r.Success? ==>
        && r.value.state == PostApproval && r.value.checkpoint.grantCommitted
        && run.header.project.gate <= |run.header.project.plan|
        && r.value.graph == Expanded(run.header.project, run.graph, run.checkpoint.accepted)
        && run.id in store.runs && store.runs[run.id] == r.value
    {
      hide Good, Knowing, Synced, GoodUpdate, RunOk, EnvelopeOk, WithinBudget, GraphOk, Mine, Expanded, FactsOk, ConsumedBy,
        HasReceipt, HasConsumed, FreshEnvelope, RecordedOnce, Valid, Spent, Names;
      if run.state == CompensationRequired {
        var retry := run.checkpoint.retry;
        if retry.None? || !(retry.value.operation.ApprovalRequiredNotify? || retry.value.operation.ResumeReplanNotify?) {
          return Failure(ContractFailure);
        }
      }
      var committed, base := CommitGrant(run, owner);
      if committed.Failure? { return committed; }
      var failed, last, b := ResumeExecution(committed.value, owner, base);
      if failed.None? {
        return Success(last);
      }
      var fenced := FenceGrant(last, owner, b);
      r := Failure(if fenced.Success? then failed.value else fenced.error);
    }

    /** Grant R2 to a live run at the recovery gate; on success the stored run is granted and past provisioning. */
    method GrantR2(id: string, owner: string) returns (r: Result<Run, BridgeError>)
      requires Valid() && owner !in store.issued && owner != ""
      modifies store
      ensures Valid() && Extended(owner)
      ensures Spent(owner) == old(Spent(owner)) || SpentOnce(old(Spent(owner)), Spent(owner), id)
      ensures r.Success? ==>
        && id in store.runs && r.value == store.runs[id]
        && r.value.checkpoint.grantCommitted && r.value.state != Provisioning
    {
      hide Good, Knowing, Synced, GoodUpdate, RunOk, Mine, RunsOk, ConsumedBy, NamesOf, Expanded, Later, HasReceipt, HasConsumed,
        FreshEnvelope, RecordedOnce;
      var initial := GetRun(id, owner);
      if initial.Failure? { return initial; }
      if !initial.value.header.live { return Failure(ContractFailure); }
      if initial.value.state != WaitingR2 && initial.value.state != CompensationRequired { return Failure(ContractFailure); }
      // The claimed run may have moved on since it was read.
      var claimed := ClaimOperation(id, "r2-grant", owner);
      if claimed.Failure? { return claimed; }
      r := GrantR2Claimed(claimed.value, owner);
      ghost var k := |store.history| - 1;
      ghost var granted := if r.Success? then r.value else claimed.value;
      assert r.Success? ==> id in store.history[k].db.runs && store.history[k].db.runs[id] == granted;
      ReleaseOperation(id, owner);
      if r.Success? {
        r := GetRun(id, owner);
        StoredIsLater(k, id);
        LaterFacts(granted, store.runs[id]);
      }
    }
  }
}
