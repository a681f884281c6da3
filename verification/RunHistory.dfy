/**
 Histories of the run store under any interleaving of bridge processes.

 A history lists every transaction with the state it left, so a claim about all
 states of all good histories also covers a process that stops after any step.
 `Good` asks of each step what the service operations of this project are proved
 to do; everything else here follows from it.
 */
module RunHistory {
  import opened Wrappers
  import opened HashChain
  import opened TaskIds
  import opened TaskGraph
  import opened RunStore

  // ---------------------------------------------------------------- invariants of one run row

  /** What a compensation checkpoint may resume to without a further check. */
  ghost predicate RetryOk(cp: Checkpoint) {
    cp.retry.Some? ==>
      && (cp.retry.value.resume == Some(PostApproval) ==> cp.grantCommitted)
      && (cp.retry.value.operation == ResumeReplanNotify ==> cp.grantCommitted)
      && (cp.retry.value.operation == TerminalNotify ==> cp.finalCommitted)
  }

  /** Execution states rest on committed facts. */
  ghost predicate FactsOk(run: Run) {
    && (run.state == PostApproval ==> run.checkpoint.grantCommitted)
    && (run.state == Completed ==> run.checkpoint.finalCommitted)
    && (run.checkpoint.finalCommitted ==> run.checkpoint.grantCommitted)
    && RetryOk(run.checkpoint)
    && (run.checkpoint.startEnvelope.Some? ==> EnvelopeOk(run.header, run.checkpoint.startEnvelope.value))
  }

  /** A run whose state rests on facts and whose graph and counts are consistent. */
  ghost predicate RunOk(run: Run) {
    && FactsOk(run)
    && !run.checkpoint.lease.Malformed?
    && GraphOk(run.header.project, run.graph, run.checkpoint.reassignments)
    && WithinBudget(run.header.project, run.checkpoint.reassignments, run.header.maxReassignments)
  }

  /** The reassignment counts are those of the row, or one newest task was reassigned within its budget. */
  ghost predicate CountsStep(row: Run, next: Run) {
    || next.checkpoint.reassignments == row.checkpoint.reassignments
    || exists t :: t in row.graph && next.checkpoint.reassignments == Bumped(row.checkpoint.reassignments, t)
  }

  /** What a service operation may store over a row; the lease slot is the store's business. */
  ghost predicate GoodUpdate(row: Run, next: Run) {
    && next.id == row.id && next.header == row.header && next.version == row.version
    && RunOk(next)
    && (next.state == Provisioning ==> row.state == Provisioning)
    && (row.checkpoint.projectCommitted ==> next.checkpoint.projectCommitted)
    && (row.checkpoint.grantCommitted ==> next.checkpoint.grantCommitted)
    && (row.checkpoint.finalCommitted ==> next.checkpoint.finalCommitted)
    && CountsStep(row, next)
  }

  /** An envelope of the given run, as the service builds them. */
  ghost predicate EnvelopeOk(h: Header, e: Envelope) {
    && e.schema == ENVELOPE_SCHEMA && e.sender == BRIDGE_PARTY && e.recipient == LEADER_PARTY
    && e.identity == IdentityOf(h) && e.bodyDigest == DigestOf(e.body) && e.attempt >= 1
  }

  // ---------------------------------------------------------------- the evidence behind committed facts

  /** The receipt of the project's creation, or of its recovered existence. */
  const PROJECT_RECEIPT := "agentteams:project-create"

  /** The receipt of EgoAgentOS's terminal decision. */
  const FINAL_RECEIPT := "ego:live-finalization"

  ghost predicate HasReceipt(db: Db, id: string, key: string) {
    exists i :: 0 <= i < |db.receipts| && db.receipts[i].run == id && db.receipts[i].fields.key == key
  }

  ghost predicate HasConsumed(db: Db, id: string, owner: string) {
    exists k :: 0 <= k < |db.consumed| && db.consumed[k].run == id && db.consumed[k].owner == owner
  }

  /**
   What `run` commits beyond `row` has happened: the project and the final
   decision have their receipts, and this very owner consumed the run's token.
   */
  ghost predicate Backed(db: Db, row: Run, run: Run, owner: string) {
    && (run.checkpoint.projectCommitted && !row.checkpoint.projectCommitted ==> HasReceipt(db, run.id, PROJECT_RECEIPT))
    && (run.checkpoint.finalCommitted && !row.checkpoint.finalCommitted ==> HasReceipt(db, run.id, FINAL_RECEIPT))
    && (run.checkpoint.grantCommitted && !row.checkpoint.grantCommitted ==> HasConsumed(db, run.id, owner))
  }

  /** Every committed fact of a run has its evidence. */
  ghost predicate Evidenced(db: Db, run: Run) {
    && (run.checkpoint.projectCommitted ==> HasReceipt(db, run.id, PROJECT_RECEIPT))
    && (run.checkpoint.finalCommitted ==> HasReceipt(db, run.id, FINAL_RECEIPT))
    && (run.checkpoint.grantCommitted ==> exists owner :: HasConsumed(db, run.id, owner))
  }

  ghost predicate EvidenceOk(db: Db) {
    forall id :: id in db.runs ==> Evidenced(db, db.runs[id])
  }

  /** The ledgers only grow. */
  ghost predicate Grown(db: Db, db': Db) {
    db.events <= db'.events && db.receipts <= db'.receipts && db.consumed <= db'.consumed
  }

  lemma StepGrows(db: Db, c: Call)
    ensures Grown(db, Apply(db, c))
  {
    hide Apply, FindReceipt, OfRun, ReceiptIdUsed, EventIdUsed, Seal, Head;
    EventStep(db, c);
    ReceiptStep(db, c);
    ConsumedStep(db, c);
  }

  lemma EvidenceStays(db: Db, db': Db)
    requires Grown(db, db')
    ensures forall id, key :: HasReceipt(db, id, key) ==> HasReceipt(db', id, key)
    ensures forall id, owner :: HasConsumed(db, id, owner) ==> HasConsumed(db', id, owner)
  {
    forall id, key | HasReceipt(db, id, key) ensures HasReceipt(db', id, key) {
      var i :| 0 <= i < |db.receipts| && db.receipts[i].run == id && db.receipts[i].fields.key == key;
      assert db'.receipts[i] == db.receipts[i];
    }
    forall id, owner | HasConsumed(db, id, owner) ensures HasConsumed(db', id, owner) {
      var k :| 0 <= k < |db.consumed| && db.consumed[k].run == id && db.consumed[k].owner == owner;
      assert db'.consumed[k] == db.consumed[k];
    }
  }

  // ---------------------------------------------------------------- invariants of the tables

  /** A stored lease names an operation and an owner that some claim presented. */
  ghost predicate LeaseOk(slot: LeaseSlot, issued: set<string>) {
    slot.Held? ==> slot.lease.operation != "" && slot.lease.owner in issued
  }

  ghost predicate RunsOk(db: Db) {
    forall id :: id in db.runs ==>
      && db.runs[id].id == id
      && RunOk(db.runs[id])
      && LeaseOk(db.runs[id].checkpoint.lease, db.issued)
  }

  ghost predicate EventRowOk(runs: map<string, Run>, row: Row<EventFields>) {
    && row.run in runs
    && EnvelopeOk(runs[row.run].header, row.fields.envelope)
    && row.fields.kind == row.fields.envelope.kind
    && row.fields.createdAt == row.fields.envelope.createdAt
  }

  ghost predicate EventRowsOk(runs: map<string, Run>, events: seq<Row<EventFields>>) {
    forall i :: 0 <= i < |events| ==> EventRowOk(runs, events[i])
  }

  ghost predicate DistinctEventIds(events: seq<Row<EventFields>>) {
    forall i, j :: 0 <= i < j < |events| ==> events[i].fields.eventId != events[j].fields.eventId
  }

  /** No envelope id occurs twice in the ledger of one run. */
  ghost predicate DistinctEnvelopeIds(events: seq<Row<EventFields>>) {
    forall i, j :: 0 <= i < j < |events| && events[i].run == events[j].run ==>
      events[i].fields.envelope.id != events[j].fields.envelope.id
  }

  ghost predicate EventTableOk(db: Db) {
    && EventRowsOk(db.runs, db.events) && DistinctEventIds(db.events) && DistinctEnvelopeIds(db.events)
    && Chained(db.events)
  }

  ghost predicate DistinctKeys(receipts: seq<Row<ReceiptFields>>) {
    forall i, j :: 0 <= i < j < |receipts| && receipts[i].run == receipts[j].run ==>
      receipts[i].fields.key != receipts[j].fields.key
  }

  ghost predicate ReceiptTableOk(db: Db) {
    Chained(db.receipts) && DistinctKeys(db.receipts) && PayloadsMatch(db.receipts, db.payloads)
  }

  ghost predicate DbOk(db: Db) {
    RunsOk(db) && EvidenceOk(db) && EventTableOk(db) && ReceiptTableOk(db)
  }

  // ---------------------------------------------------------------- good histories

  /** The stored row still has the version and the owner that an update expects. */
  ghost predicate IsCurrent(db: Db, next: Run, expected: nat, who: Option<string>) {
    && next.id in db.runs && db.runs[next.id].version == expected
    && OwnerOf(db.runs[next.id].checkpoint.lease) == who
  }

  /** The row of the run carries a lease of this owner. */
  ghost predicate Mine(db: Db, id: string, owner: string) {
    id in db.runs && OwnerOf(db.runs[id].checkpoint.lease) == Some(owner)
  }

  /** No event of the run carries the envelope id. */
  ghost predicate FreshEnvelope(events: seq<Row<EventFields>>, run: string, envelopeId: string) {
    forall i :: 0 <= i < |events| && events[i].run == run ==> events[i].fields.envelope.id != envelopeId
  }

  /** A new run has committed nothing. */
  ghost predicate NothingCommitted(cp: Checkpoint) {
    !cp.projectCommitted && !cp.grantCommitted && !cp.finalCommitted
  }

  /**
   The step a bridge process takes: fresh owner ids; good updates that commit only
   what has happened; new envelopes of the run; and a holder consumes the token
   only of a run without a committed grant.
   */
  ghost predicate Disciplined(db: Db, op: Op) {
    match op
    case Create(run) => RunOk(run) && run.checkpoint.lease.NoLease? && NothingCommitted(run.checkpoint)
    case Claim(_, _, owner, _) => owner !in db.issued
    case Update(next, expected, who) =>
      who.Some? && (IsCurrent(db, next, expected, who) ==>
        GoodUpdate(db.runs[next.id], next) && Backed(db, db.runs[next.id], next, who.value))
    case AppendEvent(id, envelope, _, who) =>
      id in db.runs ==>
        && EnvelopeOk(db.runs[id].header, envelope)
        && (OwnerOf(db.runs[id].checkpoint.lease) == who ==> FreshEnvelope(db.events, id, envelope.id))
    case Consume(id, owner) => owner in db.issued && (Mine(db, id, owner) ==> !db.runs[id].checkpoint.grantCommitted)
    case _ => true
  }

  ghost predicate GoodStep(db: Db, e: Entry) {
    db.now <= e.call.at && e.db == Apply(db, e.call) && Disciplined(db, e.call.op)
  }

  /** A history that starts from empty tables and takes good steps only, whoever takes them. */
  ghost predicate Good(h: seq<Entry>) {
    && h != []
    && if |h| == 1 then h[0].db.runs == map[] && h[0].db.events == [] && h[0].db.receipts == [] && h[0].db.consumed == []
       else Good(h[..|h| - 1]) && GoodStep(h[|h| - 2].db, h[|h| - 1])
  }

  lemma {:induction false} GoodSnoc(h: seq<Entry>, e: Entry)
    requires Good(h) && GoodStep(h[|h| - 1].db, e)
    ensures Good(h + [e])
  {
    hide GoodStep;
    assert (h + [e])[..|h|] == h;
  }

  lemma {:induction false} GoodPrefix(h: seq<Entry>, n: nat)
    requires Good(h) && 1 <= n <= |h|
    ensures Good(h[..n])
    decreases |h|
  {
    hide GoodStep;
    if n < |h| {
      GoodPrefix(h[..|h| - 1], n);
      assert h[..|h| - 1][..n] == h[..n];
    } else {
      assert h[..n] == h;
    }
  }

  lemma {:induction false} GoodBegins(h: seq<Entry>)
    requires Good(h)
    ensures h != [] && h[0].db.runs == map[] && h[0].db.events == [] && h[0].db.receipts == [] && h[0].db.consumed == []
  {
    GoodPrefix(h, 1);
    assert h[..1][0] == h[0];
  }

  lemma {:induction false} GoodAt(h: seq<Entry>, i: nat)
    requires Good(h) && 1 <= i < |h|
    ensures GoodStep(h[i - 1].db, h[i])
  {
    hide GoodStep;
    GoodPrefix(h, i + 1);
    var g := h[..i + 1];
    assert g[|g| - 2] == h[i - 1] && g[|g| - 1] == h[i];
  }

  // ---------------------------------------------------------------- every state of a good history is good

  /** Neither the lease nor the version matters to the invariant of a row. */
  lemma RunOkIgnoresLease(row: Run, slot: LeaseSlot)
    requires RunOk(row) && !slot.Malformed?
    ensures RunOk(WithLease(row, slot))
  {
    hide GraphOk, WithinBudget, EnvelopeOk;
  }

  lemma RunOkUpdated(row: Run, next: Run, expected: nat)
    requires GoodUpdate(row, next)
    ensures RunOk(UpdatedRow(row, next, expected)) && UpdatedRow(row, next, expected).id == row.id
  {
    hide GraphOk, WithinBudget, EnvelopeOk, CountsStep;
  }

  lemma StepKeepsRow(db: Db, e: Entry, id: string)
    requires RunsOk(db) && GoodStep(db, e) && id in e.db.runs
    ensures e.db.runs[id].id == id && RunOk(e.db.runs[id])
    ensures LeaseOk(e.db.runs[id].checkpoint.lease, e.db.issued)
  {
    hide Apply, RunOk, GoodUpdate, Backed, FreshEnvelope, EnvelopeOk, UpdateLeaseError, HeldError;
    EveryStepIsARowStep(db, e.call, id);
    IssuedGrow(db, e.call);
    if id in db.runs && e.db.runs[id] != db.runs[id] {
      if e.call.op.Update? {
        RunOkUpdated(db.runs[id], e.call.op.next, e.call.op.expected);
      } else {
        RunOkIgnoresLease(db.runs[id], e.db.runs[id].checkpoint.lease);
      }
    }
  }

  /** A step commits a fact of a run only with its evidence, and no step removes evidence. */
  lemma StepKeepsEvidence(db: Db, e: Entry, id: string)
    requires RunsOk(db) && EvidenceOk(db) && GoodStep(db, e) && id in e.db.runs
    ensures Evidenced(e.db, e.db.runs[id])
  {
    hide Apply, RunOk, GraphOk, WithinBudget, HasReceipt, HasConsumed, LeaseOk, EnvelopeOk, FreshEnvelope;
    EveryStepIsARowStep(db, e.call, id);
    StepGrows(db, e.call);
    EvidenceStays(db, e.db);
  }

  lemma StepKeepsRuns(db: Db, e: Entry)
    requires RunsOk(db) && GoodStep(db, e)
    ensures RunsOk(e.db)
  {
    hide RunOk, GoodStep;
    forall id | id in e.db.runs { StepKeepsRow(db, e, id); }
  }

  lemma StepKeepsEvent(db: Db, e: Entry, i: nat)
    requires EventRowsOk(db.runs, db.events) && GoodStep(db, e) && i < |db.events|
    ensures EventRowOk(e.db.runs, db.events[i])
  {
    hide Apply, Disciplined, EnvelopeOk;
    assert EventRowOk(db.runs, db.events[i]);
    OnlyUpdateRewritesRuns(db, e.call, db.events[i].run);
  }

  lemma StepKeepsAllEvidence(db: Db, e: Entry)
    requires RunsOk(db) && EvidenceOk(db) && GoodStep(db, e)
    ensures EvidenceOk(e.db)
  {
    hide RunsOk, GoodStep, Evidenced;
    forall id | id in e.db.runs { StepKeepsEvidence(db, e, id); }
  }

  /** The event table either stays, or grows by one sealed row that the run's lease holder wrote. */
  lemma EventStep(db: Db, c: Call)
    ensures var after := Apply(db, c).events;
      || after == db.events
      || (c.op.AppendEvent? && c.op.id in db.runs && !EventIdUsed(db.events, c.op.eventId)
          && OwnerOf(db.runs[c.op.id].checkpoint.lease) == c.op.who
          && after == Append(db.events, c.op.id, EventFields(c.op.eventId, c.op.envelope.kind, c.op.envelope, c.op.envelope.createdAt)))
  {
    hide FindReceipt, OfRun, Append, ReceiptIdUsed, EventIdUsed, ProjectTaken, HeldError;
  }

  /** A sealed row with a new event id and an envelope id that is new to its run keeps both kinds of id distinct. */
  lemma {:induction false} NewIdsStayDistinct(events: seq<Row<EventFields>>, row: Row<EventFields>)
    requires DistinctEventIds(events) && DistinctEnvelopeIds(events)
    requires !EventIdUsed(events, row.fields.eventId) && FreshEnvelope(events, row.run, row.fields.envelope.id)
    ensures DistinctEventIds(events + [row]) && DistinctEnvelopeIds(events + [row])
  {
  }

  lemma {:induction false} EventRowsSnoc(runs: map<string, Run>, events: seq<Row<EventFields>>, row: Row<EventFields>)
    requires EventRowsOk(runs, events) && EventRowOk(runs, row)
    ensures EventRowsOk(runs, events + [row])
  {
    hide EventRowOk;
  }

  lemma AppendedRowOk(db: Db, e: Entry)
    requires GoodStep(db, e) && e.call.op.AppendEvent? && e.call.op.id in db.runs
    requires OwnerOf(db.runs[e.call.op.id].checkpoint.lease) == e.call.op.who
    ensures FreshEnvelope(db.events, e.call.op.id, e.call.op.envelope.id)
    ensures var op := e.call.op;
      forall previous :: EventRowOk(e.db.runs,
        Seal(op.id, EventFields(op.eventId, op.envelope.kind, op.envelope, op.envelope.createdAt), previous))
  {
    hide Apply, EnvelopeOk, FreshEnvelope;
    OnlyUpdateRewritesRuns(db, e.call, e.call.op.id);
  }

  lemma StepKeepsEvents(db: Db, e: Entry)
    requires EventTableOk(db) && GoodStep(db, e)
    ensures EventTableOk(e.db)
  {
    hide Apply, Disciplined, EventRowOk, DistinctEventIds, DistinctEnvelopeIds, Chained, FreshEnvelope, EventIdUsed, OfRun;
    EventStep(db, e.call);
    assert EventRowsOk(e.db.runs, db.events) by {
      forall i | 0 <= i < |db.events| { StepKeepsEvent(db, e, i); }
    }
    hide EventRowsOk;
    if e.db.events != db.events {
      var op := e.call.op;
      var fields := EventFields(op.eventId, op.envelope.kind, op.envelope, op.envelope.createdAt);
      var row := Seal(op.id, fields, Head(OfRun(db.events, op.id)));
      AppendKeepsChained(db.events, op.id, fields);
      AppendedRowOk(db, e);
      NewIdsStayDistinct(db.events, row);
      EventRowsSnoc(e.db.runs, db.events, row);
    }
  }

  lemma ReceiptStep(db: Db, c: Call)
    ensures var after := Apply(db, c);
      || (after.receipts == db.receipts && after.payloads == db.payloads)
      || (c.op.Archive? && FindReceipt(OfRun(db.receipts, c.op.id), c.op.key).None? && !ReceiptIdUsed(db.receipts, c.op.receiptId)
          && after.payloads == db.payloads[c.op.receiptId := c.op.payload]
          && after.receipts == Append(db.receipts, c.op.id,
               ReceiptFields(c.op.receiptId, c.op.key, c.op.source, c.op.kind, DigestOf(c.op.payload), c.at)))
  {
    hide FindReceipt, OfRun, Append, ReceiptIdUsed, EventIdUsed, ProjectTaken, UpdateLeaseError, HeldError;
  }

  lemma {:induction false} NewKeyStaysDistinct(receipts: seq<Row<ReceiptFields>>, row: Row<ReceiptFields>)
    requires DistinctKeys(receipts) && FindReceipt(OfRun(receipts, row.run), row.fields.key).None?
    ensures DistinctKeys(receipts + [row])
  {
    hide FindReceipt;
    forall i | 0 <= i < |receipts| && receipts[i].run == row.run ensures receipts[i].fields.key != row.fields.key {
      OfRunHas(receipts, row.run, i);
    }
  }

  lemma {:induction false} NewPayloadMatches(receipts: seq<Row<ReceiptFields>>, payloads: map<string, string>, row: Row<ReceiptFields>, text: string)
    requires PayloadsMatch(receipts, payloads) && !ReceiptIdUsed(receipts, row.fields.receiptId)
    requires row.fields.payload == DigestOf(text)
    ensures PayloadsMatch(receipts + [row], payloads[row.fields.receiptId := text])
  {
    var more := payloads[row.fields.receiptId := text];
    forall i | 0 <= i < |receipts| ensures PayloadMatches(receipts[i], more) {
      assert PayloadMatches(receipts[i], payloads) && receipts[i].fields.receiptId != row.fields.receiptId;
    }
    PayloadsSnoc(receipts, row, more);
  }

  lemma StepKeepsReceipts(db: Db, e: Entry)
    requires ReceiptTableOk(db) && GoodStep(db, e)
    ensures ReceiptTableOk(e.db)
  {
    hide Disciplined, Apply, Chained, DistinctKeys, PayloadsMatch, FindReceipt, OfRun, ReceiptIdUsed;
    ReceiptStep(db, e.call);
    if e.db.receipts != db.receipts {
      var op := e.call.op;
      var fields := ReceiptFields(op.receiptId, op.key, op.source, op.kind, DigestOf(op.payload), e.call.at);
      var row := Seal(op.id, fields, Head(OfRun(db.receipts, op.id)));
      AppendKeepsChained(db.receipts, op.id, fields);
      NewKeyStaysDistinct(db.receipts, row);
      NewPayloadMatches(db.receipts, db.payloads, row, op.payload);
    }
  }

  lemma {:induction false} OfRunHas<F>(table: seq<Row<F>>, run: string, i: nat)
    requires i < |table| && table[i].run == run
    ensures table[i] in OfRun(table, run)
  {
    if i < |table| - 1 {
      OfRunHas(table[..|table| - 1], run, i);
    }
  }

  /** Distinct envelope ids of a run's events in the table are distinct in its ledger. */
  lemma {:induction false} DistinctEnvelopes(table: seq<Row<EventFields>>, run: string)
    requires DistinctEnvelopeIds(table)
    ensures forall i, j :: 0 <= i < j < |OfRun(table, run)| ==>
      OfRun(table, run)[i].fields.envelope.id != OfRun(table, run)[j].fields.envelope.id
  {
    if table != [] {
      var n := |table| - 1;
      DistinctEnvelopes(table[..n], run);
      var before := OfRun(table[..n], run);
      forall i | 0 <= i < |before| && table[n].run == run ensures before[i].fields.envelope.id != table[n].fields.envelope.id {
        var k :| 0 <= k < n && table[..n][k] == before[i];
        assert table[k] == before[i];
      }
    }
  }

  lemma EmptyIsOk(db: Db)
    requires db.runs == map[] && db.events == [] && db.receipts == []
    ensures DbOk(db)
  {
  }

  /** Every state that any good history reaches satisfies every invariant. */
  lemma {:induction false} EveryStateOk(h: seq<Entry>, i: nat)
    requires Good(h) && i < |h|
    ensures DbOk(h[i].db)
  {
    if i == 0 {
      GoodBegins(h);
      EmptyIsOk(h[0].db);
    } else {
      hide Good, GoodStep, RunsOk, EvidenceOk, EventTableOk, ReceiptTableOk;
      EveryStateOk(h, i - 1);
      GoodAt(h, i);
      StepKeepsRuns(h[i - 1].db, h[i]);
      StepKeepsAllEvidence(h[i - 1].db, h[i]);
      StepKeepsEvents(h[i - 1].db, h[i]);
      StepKeepsReceipts(h[i - 1].db, h[i]);
    }
  }

  lemma ReceiptIsInLedger(db: Db, id: string, key: string)
    requires HasReceipt(db, id, key)
    ensures exists row :: row in OfRun(db.receipts, id) && row.fields.key == key
  {
    var i :| 0 <= i < |db.receipts| && db.receipts[i].run == id && db.receipts[i].fields.key == key;
    OfRunHas(db.receipts, id, i);
  }

  /** At every point of every good history both ledgers of every run read back as valid. */
  lemma {:induction false} LedgersReadBackValid(h: seq<Entry>, i: nat, id: string)
    requires Good(h) && i < |h|
    ensures ChainValid(OfRun(h[i].db.events, id)) && ChainValid(OfRun(h[i].db.receipts, id))
    ensures PayloadsMatch(OfRun(h[i].db.receipts, id), h[i].db.payloads)
  {
    EveryStateOk(h, i);
    var db := h[i].db;
    ChainedAt(db.events, id);
    ChainedAt(db.receipts, id);
    forall k | 0 <= k < |OfRun(db.receipts, id)| ensures PayloadMatches(OfRun(db.receipts, id)[k], db.payloads) {
      var j :| 0 <= j < |db.receipts| && db.receipts[j] == OfRun(db.receipts, id)[k];
    }
  }

  lemma {:induction false} StoredRowOk(h: seq<Entry>, i: nat, id: string)
    requires Good(h) && i < |h| && id in h[i].db.runs
    ensures RunOk(h[i].db.runs[id]) && h[i].db.runs[id].id == id && LeaseOk(h[i].db.runs[id].checkpoint.lease, h[i].db.issued)
  {
    EveryStateOk(h, i);
    hide Good, RunOk, LeaseOk;
  }

  /**
   Safety over all runs: no persisted run executes without a committed R2 grant or
   counts as completed without a committed finalization, no compensation
   checkpoint can resume it there, and a committed finalization or project has its
   receipt in the run's ledger.
   */
  lemma {:induction false} NoUngrantedExecution(h: seq<Entry>, i: nat, id: string)
    requires Good(h) && i < |h| && id in h[i].db.runs
    ensures var run, receipts := h[i].db.runs[id], OfRun(h[i].db.receipts, id);
      && (run.state == PostApproval ==> run.checkpoint.grantCommitted)
      && (run.state == Completed ==> run.checkpoint.finalCommitted && run.checkpoint.grantCommitted)
      && (run.checkpoint.retry.Some? && run.checkpoint.retry.value.resume == Some(PostApproval) ==> run.checkpoint.grantCommitted)
      && (run.checkpoint.retry.Some? && run.checkpoint.retry.value.operation == TerminalNotify ==> run.checkpoint.finalCommitted)
      && (run.checkpoint.projectCommitted ==> exists row :: row in receipts && row.fields.key == PROJECT_RECEIPT)
      && (run.checkpoint.finalCommitted ==> exists row :: row in receipts && row.fields.key == FINAL_RECEIPT)
  {
    EveryStateOk(h, i);
    var db := h[i].db;
    assert Evidenced(db, db.runs[id]) && db.runs[id].id == id;
    hide Good, HasReceipt, HasConsumed, EventTableOk, ReceiptTableOk;
    if db.runs[id].checkpoint.projectCommitted { ReceiptIsInLedger(db, id, PROJECT_RECEIPT); }
    if db.runs[id].checkpoint.finalCommitted { ReceiptIsInLedger(db, id, FINAL_RECEIPT); }
  }

  /** The recorded consumptions are the consumption steps of the history. */
  lemma {:induction false} ConsumedAtStep(h: seq<Entry>, j: nat, n: nat) returns (k: nat)
    requires Good(h) && j < |h| && n < |h[j].db.consumed|
    ensures 1 <= k <= j && h[k].call == Call(h[j].db.consumed[n].at, Consume(h[j].db.consumed[n].run, h[j].db.consumed[n].owner))
  {
    hide Good, Apply, Disciplined;
    GoodBegins(h);
    GoodAt(h, j);
    ConsumedStep(h[j - 1].db, h[j].call);
    if n < |h[j - 1].db.consumed| {
      k := ConsumedAtStep(h, j - 1, n);
    } else {
      k := j;
    }
  }

  lemma ConsumedStep(db: Db, c: Call)
    ensures Apply(db, c).consumed ==
      if c.op.Consume? then db.consumed + [Consumption(c.op.id, c.op.owner, c.at)] else db.consumed
  {
  }

  ghost predicate GrantedAt(h: seq<Entry>, i: nat, id: string)
    requires i < |h|
  {
    id in h[i].db.runs && h[i].db.runs[id].checkpoint.grantCommitted
  }

  /** The step that commits a grant is an update whose author has consumed the token. */
  lemma GrantStepIsBacked(db: Db, e: Entry, id: string)
    requires RunsOk(db) && GoodStep(db, e) && id in e.db.runs && e.db.runs[id].checkpoint.grantCommitted
    requires id in db.runs ==> !db.runs[id].checkpoint.grantCommitted
    ensures e.call.op.Update? && e.call.op.who.Some? && HasConsumed(db, id, e.call.op.who.value)
  {
    hide Apply, GoodUpdate, RunOk, HasReceipt, HasConsumed, FreshEnvelope, EnvelopeOk;
    EveryStepIsARowStep(db, e.call, id);
  }

  /**
   A committed grant rests on a consumption: at some earlier step m an update
   committed it, and its author consumed the run's token at a step k before that.
   */
  lemma {:induction false} GrantFollowsConsumption(h: seq<Entry>, i: nat, id: string) returns (k: nat, m: nat)
    requires Good(h) && i < |h| && GrantedAt(h, i, id)
    ensures 1 <= k < m <= i && GrantedAt(h, m, id) && !GrantedAt(h, m - 1, id)
    ensures h[m].call.op.Update? && h[m].call.op.who.Some? && h[k].call.op == Consume(id, h[m].call.op.who.value)
  {
    hide Good, GoodStep, EventTableOk, ReceiptTableOk, EvidenceOk, HasConsumed;
    GoodBegins(h);
    if GrantedAt(h, i - 1, id) {
      k, m := GrantFollowsConsumption(h, i - 1, id);
    } else {
      GoodAt(h, i);
      EveryStateOk(h, i - 1);
      GrantStepIsBacked(h[i - 1].db, h[i], id);
      m := i;
      var n := ConsumptionOf(h[i - 1].db, id, h[i].call.op.who.value);
      k := ConsumedAtStep(h, i - 1, n);
    }
  }

  lemma ConsumptionOf(db: Db, id: string, owner: string) returns (n: nat)
    requires HasConsumed(db, id, owner)
    ensures n < |db.consumed| && db.consumed[n].run == id && db.consumed[n].owner == owner
  {
    n :| 0 <= n < |db.consumed| && db.consumed[n].run == id && db.consumed[n].owner == owner;
  }

  /** No run executes, and none is completed, unless its approval token was consumed before. */
  lemma {:induction false} ExecutionFollowsConsumption(h: seq<Entry>, i: nat, id: string)
    requires Good(h) && i < |h| && id in h[i].db.runs && h[i].db.runs[id].state in {PostApproval, Completed}
    ensures exists k :: 1 <= k < i && h[k].call.op.Consume? && h[k].call.op.id == id
  {
    hide Good;
    NoUngrantedExecution(h, i, id);
    var k, m := GrantFollowsConsumption(h, i, id);
  }

  /**
   In every state of every good history the task graph of every run is sound:
   unique ids, no dependency cycle, one newest attempt for each planned logical
   task, and no task reassigned beyond its limit.
   */
  lemma {:induction false} EveryGraphIsSound(h: seq<Entry>, at: nat, id: string, i: nat, j: nat, s: nat)
    requires Good(h) && at < |h| && id in h[at].db.runs
    ensures var run := h[at].db.runs[id];
      var counts := run.checkpoint.reassignments;
      && ProjectOk(run.header.project)
      && (i < j < |run.graph| ==> run.graph[i].id != run.graph[j].id)
      && (DependsOn(run.graph, i, j) ==> run.graph[j].stage < run.graph[i].stage)
      && (s < |run.header.project.plan| ==> Count(run.header.project, counts, s) <= run.header.maxReassignments)
      && (s < |run.header.project.plan| && s in Stages(run.graph) ==>
            |set k: nat | k < |run.graph| && run.graph[k].stage == s| == Count(run.header.project, counts, s) + 1)
  {
    EveryStateOk(h, at);
    var run := h[at].db.runs[id];
    var p, counts := run.header.project, run.checkpoint.reassignments;
    assert GraphOk(p, run.graph, counts) && WithinBudget(p, counts, run.header.maxReassignments);
    GraphPlanOk(p, run.graph, counts);
    hide Good, RunsOk, EventTableOk, ReceiptTableOk, GraphOk, Stages, DependsOn;
    if i < j < |run.graph| { UniqueIds(p, run.graph, counts, i, j); }
    if DependsOn(run.graph, i, j) { DependsOnEarlier(p, run.graph, counts, i, j); }
    if s < |p.plan| && s in Stages(run.graph) { AttemptsAreCounted(p, run.graph, counts, s); }
  }

  /** Rows stay, their header never changes, and committed facts are never withdrawn. */
  ghost predicate Later(row: Run, row': Run) {
    && row'.id == row.id && row'.header == row.header && row.version <= row'.version
    && (row'.state == Provisioning ==> row.state == Provisioning)
    && (row.checkpoint.projectCommitted ==> row'.checkpoint.projectCommitted)
    && (row.checkpoint.grantCommitted ==> row'.checkpoint.grantCommitted)
    && (row.checkpoint.finalCommitted ==> row'.checkpoint.finalCommitted)
  }

  lemma StepIsLater(db: Db, e: Entry, id: string)
    requires GoodStep(db, e) && id in db.runs && db.runs[id].id == id
    ensures id in e.db.runs && Later(db.runs[id], e.db.runs[id]) && db.issued <= e.db.issued
  {
    hide Apply, RunOk, CountsStep, Backed, FreshEnvelope, EnvelopeOk, UpdateLeaseError, HeldError;
    RowsStay(db, e.call, id);
    EveryStepIsARowStep(db, e.call, id);
    IssuedGrow(db, e.call);
  }

  lemma {:induction false} FactsAreForever(h: seq<Entry>, i: nat, j: nat, id: string)
    requires Good(h) && i <= j < |h| && id in h[i].db.runs
    ensures id in h[j].db.runs && Later(h[i].db.runs[id], h[j].db.runs[id])
    ensures h[i].db.issued <= h[j].db.issued && h[i].db.now <= h[j].db.now
    decreases j
  {
    hide Good, Apply, Disciplined, RunOk, LeaseOk;
    if i < j {
      FactsAreForever(h, i, j - 1, id);
      GoodAt(h, j);
      StoredRowOk(h, j - 1, id);
      IssuedGrow(h[j - 1].db, h[j].call);
      StepIsLater(h[j - 1].db, h[j], id);
    }
  }

  lemma {:induction false} LedgersGrow(h: seq<Entry>, i: nat, j: nat)
    requires Good(h) && i <= j < |h|
    ensures Grown(h[i].db, h[j].db)
    decreases j
  {
    hide Good, Apply, Disciplined;
    if i < j {
      LedgersGrow(h, i, j - 1);
      GoodAt(h, j);
      StepGrows(h[j - 1].db, h[j].call);
    }
  }

  lemma BackedStays(db: Db, db': Db, row: Run, run: Run, owner: string)
    requires Grown(db, db') && Backed(db, row, run, owner)
    ensures Backed(db', row, run, owner)
  {
    EvidenceStays(db, db');
    hide HasReceipt, HasConsumed;
  }

  // ---------------------------------------------------------------- the lease as a fence

  /** No process other than the owner takes these steps in its name. */
  ghost predicate ByOthers(h: seq<Entry>, from: nat, owner: string) {
    forall k :: from <= k < |h| ==> ActsFor(h[k].call.op) != Some(owner)
  }

  lemma OtherStepKeepsMine(db: Db, e: Entry, id: string, owner: string)
    requires RunsOk(db) && GoodStep(db, e) && ActsFor(e.call.op) != Some(owner)
    requires Mine(e.db, id, owner)
    ensures id in db.runs && e.db.runs[id] == db.runs[id]
  {
    EveryStepIsARowStep(db, e.call, id);
    hide Apply, RunOk, GoodUpdate;
  }

  lemma StepKeepsLost(db: Db, e: Entry, id: string, owner: string)
    requires GoodStep(db, e) && owner in db.issued && id in db.runs && !Mine(db, id, owner)
    ensures id in e.db.runs && !Mine(e.db, id, owner) && owner in e.db.issued
  {
    RowsStay(db, e.call, id);
    EveryStepIsARowStep(db, e.call, id);
    assert db.issued <= e.db.issued;
    hide Apply, GoodUpdate;
  }

  /** While an owner's lease is stored, nobody else changes the row it protects. */
  lemma {:induction false} OthersKeepMine(h: seq<Entry>, i: nat, j: nat, id: string, owner: string)
    requires Good(h) && i <= j < |h| && ByOthers(h[..j + 1], i + 1, owner)
    requires Mine(h[j].db, id, owner)
    ensures id in h[i].db.runs && h[j].db.runs[id] == h[i].db.runs[id]
    decreases j
  {
    hide Good, GoodStep, RunsOk, EventTableOk, ReceiptTableOk;
    if i < j {
      GoodAt(h, j);
      EveryStateOk(h, j - 1);
      assert h[..j + 1][j] == h[j];
      OtherStepKeepsMine(h[j - 1].db, h[j], id, owner);
      forall k | i + 1 <= k < j ensures ActsFor(h[..j][k].call.op) != Some(owner) {
        assert h[..j][k] == h[..j + 1][k];
      }
      OthersKeepMine(h, i, j - 1, id, owner);
    }
  }

  lemma OtherStepKeepsLedger(db: Db, e: Entry, id: string, owner: string)
    requires RunsOk(db) && GoodStep(db, e) && ActsFor(e.call.op) != Some(owner)
    requires Mine(e.db, id, owner)
    ensures OfRun(e.db.events, id) == OfRun(db.events, id)
  {
    hide RunOk, GoodUpdate, EnvelopeOk, FreshEnvelope, Backed;
    OtherStepKeepsMine(db, e, id, owner);
    EventStep(db, e.call);
    hide Apply, Disciplined;
    if e.db.events != db.events {
      assert e.call.op.id != id;
      assert e.db.events[..|db.events|] == db.events;
    }
  }

  /** While an owner's lease is stored, nobody else writes into the event ledger of its run. */
  lemma {:induction false} OthersKeepLedger(h: seq<Entry>, i: nat, j: nat, id: string, owner: string)
    requires Good(h) && i <= j < |h| && ByOthers(h[..j + 1], i + 1, owner)
    requires Mine(h[j].db, id, owner)
    ensures OfRun(h[j].db.events, id) == OfRun(h[i].db.events, id)
    decreases j
  {
    hide Good, GoodStep, RunsOk, EvidenceOk, EventTableOk, ReceiptTableOk, OfRun;
    if i < j {
      GoodAt(h, j);
      EveryStateOk(h, j - 1);
      assert h[..j + 1][j] == h[j];
      OtherStepKeepsMine(h[j - 1].db, h[j], id, owner);
      OtherStepKeepsLedger(h[j - 1].db, h[j], id, owner);
      forall k | i + 1 <= k < j ensures ActsFor(h[..j][k].call.op) != Some(owner) {
        assert h[..j][k] == h[..j + 1][k];
      }
      OthersKeepLedger(h, i, j - 1, id, owner);
    }
  }

  /** The names in which the steps that are not foreign act; no name is that of a creation. */
  ghost function NamesOf(h: seq<Entry>, foreign: set<nat>): set<Option<string>> {
    set k | 0 <= k < |h| && k !in foreign :: ActsFor(h[k].call.op)
  }

  lemma {:induction false} NamesSnoc(h: seq<Entry>, e: Entry, foreign: set<nat>)
    ensures NamesOf(h + [e], foreign) <= NamesOf(h, foreign) + {ActsFor(e.call.op)}
  {
    forall name | name in NamesOf(h + [e], foreign) ensures name in NamesOf(h, foreign) + {ActsFor(e.call.op)} {
      var k :| 0 <= k < |h + [e]| && k !in foreign && ActsFor((h + [e])[k].call.op) == name;
      if k < |h| { assert h[k] == (h + [e])[k]; }
    }
  }

  /** Steps that act in other names only are what a process with that name expects of the others. */
  lemma {:induction false} UnnamedStepsAreOthers(h: seq<Entry>, from: nat, foreign: set<nat>, owner: string)
    requires Some(owner) !in NamesOf(h, foreign) && forall k :: from <= k < |h| ==> k !in foreign
    ensures ByOthers(h, from, owner)
  {
    forall k | from <= k < |h| ensures ActsFor(h[k].call.op) != Some(owner) {
      assert ActsFor(h[k].call.op) in NamesOf(h, foreign);
    }
  }

  /** The consumptions by one owner, in order. */
  ghost function ConsumedBy(consumed: seq<Consumption>, owner: string): seq<Consumption> {
    if consumed == [] then []
    else
      var last := consumed[|consumed| - 1];
      ConsumedBy(consumed[..|consumed| - 1], owner) + (if last.owner == owner then [last] else [])
  }

  lemma {:induction false} ConsumedBySnoc(consumed: seq<Consumption>, c: Consumption, owner: string)
    ensures ConsumedBy(consumed + [c], owner) == ConsumedBy(consumed, owner) + (if c.owner == owner then [c] else [])
  {
    assert (consumed + [c])[..|consumed|] == consumed;
  }

  /** Nobody consumes in another owner's name. */
  lemma {:induction false} OthersDoNotConsume(h: seq<Entry>, i: nat, j: nat, owner: string)
    requires Good(h) && i <= j < |h| && ByOthers(h[..j + 1], i + 1, owner)
    ensures ConsumedBy(h[j].db.consumed, owner) == ConsumedBy(h[i].db.consumed, owner)
    decreases j
  {
    hide Good, Apply, Disciplined, ConsumedBy;
    if i < j {
      GoodAt(h, j);
      assert h[..j + 1][j] == h[j];
      ConsumedStep(h[j - 1].db, h[j].call);
      if h[j].call.op.Consume? {
        ConsumedBySnoc(h[j - 1].db.consumed, Consumption(h[j].call.op.id, h[j].call.op.owner, h[j].call.at), owner);
      }
      forall k | i + 1 <= k < j ensures ActsFor(h[..j][k].call.op) != Some(owner) {
        assert h[..j][k] == h[..j + 1][k];
      }
      OthersDoNotConsume(h, i, j - 1, owner);
    }
  }

  /** An envelope id is fresh exactly when no row of the run's ledger carries it. */
  lemma {:induction false} FreshInLedger(events: seq<Row<EventFields>>, run: string, envelopeId: string)
    ensures FreshEnvelope(events, run, envelopeId) <==>
      forall k :: 0 <= k < |OfRun(events, run)| ==> OfRun(events, run)[k].fields.envelope.id != envelopeId
  {
    if forall k :: 0 <= k < |OfRun(events, run)| ==> OfRun(events, run)[k].fields.envelope.id != envelopeId {
      forall i | 0 <= i < |events| && events[i].run == run ensures events[i].fields.envelope.id != envelopeId {
        OfRunHas(events, run, i);
      }
    }
    if FreshEnvelope(events, run, envelopeId) {
      forall k | 0 <= k < |OfRun(events, run)| ensures OfRun(events, run)[k].fields.envelope.id != envelopeId {
        var i :| 0 <= i < |events| && events[i] == OfRun(events, run)[k];
      }
    }
  }

  /** An owner id that has been presented before never comes to own the row again once it does not. */
  lemma {:induction false} LostForever(h: seq<Entry>, i: nat, j: nat, id: string, owner: string)
    requires Good(h) && i <= j < |h| && owner in h[i].db.issued
    requires id in h[i].db.runs && !Mine(h[i].db, id, owner)
    ensures id in h[j].db.runs && !Mine(h[j].db, id, owner) && owner in h[j].db.issued
    decreases j
  {
    if i < j {
      LostForever(h, i, j - 1, id, owner);
      GoodAt(h, j);
      StepKeepsLost(h[j - 1].db, h[j], id, owner);
    }
  }

  ghost predicate WritesTo(op: Op, id: string) {
    || (op.Renew? && op.id == id) || (op.Update? && op.next.id == id)
    || (op.AppendEvent? && op.id == id) || (op.Archive? && op.id == id)
  }

  /**
   Fencing: once another owner's claim on a run succeeded, no write of the
   earlier owner to that run ever succeeds again.
   */
  lemma {:induction false} ClaimFencesEarlierOwner(h: seq<Entry>, i: nat, k: nat, id: string, earlier: string)
    requires Good(h) && 1 <= i < k < |h| && earlier in h[i - 1].db.issued
    requires h[i].call.op.Claim? && h[i].call.op.id == id && Outcome(h[i - 1].db, h[i].call).Success?
    requires WritesTo(h[k].call.op, id) && ActsFor(h[k].call.op) == Some(earlier)
    ensures Outcome(h[k - 1].db, h[k].call).Failure?
  {
    hide Good, GoodStep, Outcome, Apply, Mine;
    GoodAt(h, i);
    ClaimTakesOver(h[i - 1].db, h[i], id, earlier);
    LostForever(h, i, k - 1, id, earlier);
    if Outcome(h[k - 1].db, h[k].call).Success? {
      LeasedWriteNeedsCurrentLease(h[k - 1].db, h[k].call, earlier);
      StoredOwnerIsMine(h[k - 1].db, id, earlier);
    }
  }

  lemma StoredOwnerIsMine(db: Db, id: string, owner: string)
    requires id in db.runs && OwnerOf(db.runs[id].checkpoint.lease) == Some(owner)
    ensures Mine(db, id, owner)
  {
  }

  /** A successful claim has a fresh owner id, so the row no longer belongs to any earlier owner. */
  lemma ClaimTakesOver(db: Db, e: Entry, id: string, earlier: string)
    requires GoodStep(db, e) && earlier in db.issued
    requires e.call.op.Claim? && e.call.op.id == id && Outcome(db, e.call).Success?
    ensures id in e.db.runs && !Mine(e.db, id, earlier) && earlier in e.db.issued
  {
  }

  // ---------------------------------------------------------------- reassignment terminates

  /** The reassignments a run may still make. */
  ghost function Budget(run: Run): int {
    BudgetFrom(run.header.project, run.checkpoint.reassignments, run.header.maxReassignments, 0)
  }

  /** The number of steps of a history that changed the reassignment counts of a run. */
  ghost function Reassignments(h: seq<Entry>, id: string): nat {
    if |h| < 2 then 0
    else
      var before, after := h[|h| - 2].db.runs, h[|h| - 1].db.runs;
      Reassignments(h[..|h| - 1], id) +
      (if id in before && id in after && after[id].checkpoint.reassignments != before[id].checkpoint.reassignments then 1 else 0)
  }

  lemma CountsStepCosts(row: Run, next: Run)
    requires RunOk(row) && GoodUpdate(row, next)
    ensures next.checkpoint.reassignments == row.checkpoint.reassignments ==> Budget(next) == Budget(row)
    ensures next.checkpoint.reassignments != row.checkpoint.reassignments ==> Budget(next) == Budget(row) - 1
  {
    hide GraphOk, WithinBudget, FactsOk;
    var p, counts := row.header.project, row.checkpoint.reassignments;
    if next.checkpoint.reassignments != counts {
      var t :| t in row.graph && next.checkpoint.reassignments == Bumped(counts, t);
      var i :| 0 <= i < |row.graph| && row.graph[i] == t;
      TaskAt(p, row.graph, counts, i);
      GraphPlanOk(p, row.graph, counts);
      BudgetStep(p, counts, Stages(row.graph), t, row.header.maxReassignments, 0);
    }
  }

  /** A step either leaves the budget of a run alone or spends exactly one reassignment. */
  lemma StepSpends(db: Db, e: Entry, id: string)
    requires RunsOk(db) && GoodStep(db, e) && id in db.runs
    ensures id in e.db.runs
    ensures var row, row' := db.runs[id], e.db.runs[id];
      Budget(row') == Budget(row) - (if row'.checkpoint.reassignments != row.checkpoint.reassignments then 1 else 0)
  {
    RowsStay(db, e.call, id);
    EveryStepIsARowStep(db, e.call, id);
    hide Apply;
    var row, row' := db.runs[id], e.db.runs[id];
    if row' != WithLease(row, row'.checkpoint.lease) {
      var next := e.call.op.next;
      assert GoodUpdate(row, next);
      CountsStepCosts(row, next);
    }
  }

  lemma BudgetIsNatural(run: Run)
    requires RunOk(run)
    ensures 0 <= Budget(run) <= run.header.maxReassignments * |run.header.project.plan|
  {
    BudgetNonNegative(run.header.project, run.checkpoint.reassignments, run.header.maxReassignments, 0);
  }

  /** Every committed reassignment spends budget, so a run makes at most stages times limit of them. */
  lemma {:induction false} ReassignmentsAreBounded(h: seq<Entry>, id: string)
    requires Good(h)
    ensures id !in h[|h| - 1].db.runs ==> Reassignments(h, id) == 0
    ensures id in h[|h| - 1].db.runs ==>
      var run := h[|h| - 1].db.runs[id];
      0 <= Reassignments(h, id) <= Reassignments(h, id) + Budget(run) <= run.header.maxReassignments * |run.header.project.plan|
  {
    if |h| >= 2 {
      var g := h[..|h| - 1];
      var db, e := h[|h| - 2].db, h[|h| - 1];
      assert Good(g);
      hide Good, Apply, RunOk, EventTableOk, ReceiptTableOk, Disciplined, BudgetFrom;
      ReassignmentsAreBounded(g, id);
      GoodAt(h, |h| - 1);
      EveryStateOk(h, |h| - 2);
      EveryStateOk(h, |h| - 1);
      if id in db.runs {
        StepSpends(db, e, id);
        OnlyUpdateRewritesRuns(db, e.call, id);
      }
      if id in e.db.runs {
        BudgetIsNatural(e.db.runs[id]);
      }
    }
  }

  // ---------------------------------------------------------------- when consuming the approval token is safe

  /** A step of somebody else before the lease expires leaves the protected row alone. */
  lemma UnexpiredLeaseProtects(db: Db, e: Entry, id: string, owner: string)
    requires GoodStep(db, e) && ActsFor(e.call.op) != Some(owner) && Mine(db, id, owner)
    requires e.call.at < db.runs[id].checkpoint.lease.lease.expires
    ensures id in e.db.runs && e.db.runs[id] == db.runs[id]
  {
    hide Apply, GoodUpdate, RunOk, Backed, FreshEnvelope, EnvelopeOk;
    RowsStay(db, e.call, id);
    EveryStepIsARowStep(db, e.call, id);
  }

  lemma {:induction false} RowProtectedUntilExpiry(h: seq<Entry>, i: nat, j: nat, id: string, owner: string)
    requires Good(h) && i <= j < |h| && ByOthers(h[..j + 1], i + 1, owner) && Mine(h[i].db, id, owner)
    requires h[j].db.now < h[i].db.runs[id].checkpoint.lease.lease.expires
    ensures id in h[j].db.runs && h[j].db.runs[id] == h[i].db.runs[id]
    decreases j
  {
    hide Good, Apply, Disciplined;
    if i < j {
      GoodAt(h, j);
      assert h[..j + 1][j] == h[j];
      forall k | i + 1 <= k < j ensures ActsFor(h[..j][k].call.op) != Some(owner) {
        assert h[..j][k] == h[..j + 1][k];
      }
      IssuedGrow(h[j - 1].db, h[j].call);
      RowProtectedUntilExpiry(h, i, j - 1, id, owner);
      UnexpiredLeaseProtects(h[j - 1].db, h[j], id, owner);
    }
  }

  /**
   A consumption by a process that has done nothing since its renewal, and that
   falls before the renewed lease expires, finds no committed grant.
   */
  lemma {:induction false} TimelyConsumptionFindsNoGrant(h: seq<Entry>, i: nat, k: nat, id: string, owner: string)
    requires Good(h) && i < k < |h| && ByOthers(h[..k], i + 1, owner) && Mine(h[i].db, id, owner)
    requires h[k].call.op == Consume(id, owner) && h[k].call.at < h[i].db.runs[id].checkpoint.lease.lease.expires
    ensures !GrantedAt(h, k - 1, id) && id in h[k - 1].db.runs && h[k - 1].db.runs[id] == h[i].db.runs[id]
  {
    hide Good, Apply;
    GoodAt(h, k);
    RowProtectedUntilExpiry(h, i, k - 1, id, owner);
  }

  /** Once a grant is stored, only a process that let its lease expire can consume the token once more. */
  lemma {:induction false} OnlyLateConsumptionAfterGrant(h: seq<Entry>, g: nat, i: nat, k: nat, id: string, owner: string)
    requires Good(h) && g < k < |h| && GrantedAt(h, g, id)
    requires i < k && ByOthers(h[..k], i + 1, owner) && Mine(h[i].db, id, owner) && h[k].call.op == Consume(id, owner)
    ensures h[i].db.runs[id].checkpoint.lease.lease.expires <= h[k].call.at && !Mine(h[k - 1].db, id, owner)
  {
    FactsAreForever(h, g, k - 1, id);
    GoodAt(h, k);
    hide Good;
    if h[k].call.at < h[i].db.runs[id].checkpoint.lease.lease.expires {
      TimelyConsumptionFindsNoGrant(h, i, k, id, owner);
    }
  }

  /** A live run at the gate at which R2 is granted. */
  ghost predicate AtGate(run: Run) {
    && run.header.live
    && (|| run.state == WaitingR2
        || (run.state == CompensationRequired && run.checkpoint.retry.Some?
            && run.checkpoint.retry.value.operation in {ApprovalRequiredNotify, ResumeReplanNotify}))
  }

  /** Process `owner` has just renewed its lease on a run at the gate, and read no committed grant. */
  ghost predicate AboutToConsume(h: seq<Entry>, id: string, owner: string) {
    && h != [] && Good(h) && h[|h| - 1].call.op.Renew? && h[|h| - 1].call.op.id == id && h[|h| - 1].call.op.owner == owner
    && Mine(h[|h| - 1].db, id, owner) && AtGate(h[|h| - 1].db.runs[id]) && !h[|h| - 1].db.runs[id].checkpoint.grantCommitted
  }

  /** A continuation of the history in which only other processes act, up to time t. */
  ghost predicate OthersRunUntil(h: seq<Entry>, g: seq<Entry>, owner: string, t: int) {
    Good(g) && h <= g && ByOthers(g, |h|, owner) && g[|g| - 1].db.now <= t
  }

  ghost predicate GrantedAtEnd(g: seq<Entry>, id: string) {
    g != [] && GrantedAt(g, |g| - 1, id)
  }

  ghost function LongerThan(issued: set<string>): (n: nat)
    ensures forall s :: s in issued ==> |s| < n
  {
    if issued == {} then 1
    else
      var s :| s in issued;
      var n := LongerThan(issued - {s});
      if |s| < n then n else |s| + 1
  }

  lemma FreshOwner(issued: set<string>) returns (owner: string)
    ensures owner !in issued && owner != ""
  {
    owner := seq(LongerThan(issued) + 1, _ => 'x');
  }

  /** One step more: the call and the state it leaves. */
  ghost function Then(h: seq<Entry>, c: Call): (g: seq<Entry>)
    requires h != []
    ensures |g| == |h| + 1 && h <= g && g[|h|] == Entry(c, Apply(h[|h| - 1].db, c))
  {
    h + [Entry(c, Apply(h[|h| - 1].db, c))]
  }

  /** At the end of the good history h, at time t, the run's row is `row` and `issued` are the owner ids used. */
  ghost predicate Stands(h: seq<Entry>, row: Run, issued: set<string>, t: int) {
    && h != [] && Good(h) && row.id in h[|h| - 1].db.runs && h[|h| - 1].db.runs[row.id] == row
    && h[|h| - 1].db.issued == issued && h[|h| - 1].db.now <= t
  }

  /** The row under a lease that runs for the longest time from t. */
  ghost function Leased(row: Run, operation: string, owner: string, t: int): Run {
    WithLease(row, Held(LeasePayload(operation, owner, t, 3600)))
  }

  lemma {:induction false} ThenClaims(h: seq<Entry>, row: Run, issued: set<string>, t: int, operation: string, owner: string) returns (g: seq<Entry>)
    requires Stands(h, row, issued, t) && HeldError(row.checkpoint.lease, t).None? && owner !in issued
    requires owner != "" && operation != ""
    ensures g == Then(h, Call(t, Claim(row.id, operation, owner, 3600)))
    ensures Stands(g, Leased(row, operation, owner, t), issued + {owner}, t) && g[|g| - 1].db.receipts == h[|h| - 1].db.receipts
  {
    hide Good;
    g := Then(h, Call(t, Claim(row.id, operation, owner, 3600)));
    GoodSnoc(h, g[|h|]);
  }

  lemma {:induction false} ThenRenews(h: seq<Entry>, row: Run, issued: set<string>, t: int, operation: string, owner: string) returns (g: seq<Entry>)
    requires Stands(h, Leased(row, operation, owner, t), issued, t) && owner != "" && operation != ""
    ensures g == Then(h, Call(t, Renew(row.id, owner, 3600)))
    ensures Stands(g, Leased(row, operation, owner, t), issued, t)
  {
    hide Good;
    g := Then(h, Call(t, Renew(row.id, owner, 3600)));
    GoodSnoc(h, g[|h|]);
  }

  lemma {:induction false} ThenConsumes(h: seq<Entry>, row: Run, issued: set<string>, t: int, owner: string) returns (g: seq<Entry>)
    requires Stands(h, row, issued, t) && owner in issued
    requires OwnerOf(row.checkpoint.lease) == Some(owner) ==> !row.checkpoint.grantCommitted
    ensures g == Then(h, Call(t, Consume(row.id, owner)))
    ensures Stands(g, row, issued, t) && HasConsumed(g[|g| - 1].db, row.id, owner)
  {
    hide Good;
    g := Then(h, Call(t, Consume(row.id, owner)));
    GoodSnoc(h, g[|h|]);
    assert g[|h|].db.consumed[|h[|h| - 1].db.consumed|] == Consumption(row.id, owner, t);
  }

  lemma {:induction false} ThenArchives(h: seq<Entry>, row: Run, issued: set<string>, t: int, operation: string, owner: string, key: string, receiptId: string)
    returns (g: seq<Entry>)
    requires Stands(h, Leased(row, operation, owner, t), issued, t) && h[|h| - 1].db.receipts == []
    ensures g == Then(h, Call(t, Archive(row.id, key, "agentteams", "official-response", "", receiptId, Some(owner))))
    ensures Stands(g, Leased(row, operation, owner, t), issued, t) && HasReceipt(g[|g| - 1].db, row.id, key)
  {
    hide Good;
    var c := Call(t, Archive(row.id, key, "agentteams", "official-response", "", receiptId, Some(owner)));
    g := Then(h, c);
    GoodSnoc(h, g[|h|]);
    assert g[|h|].db.receipts[0].run == row.id && g[|h|].db.receipts[0].fields.key == key;
  }

  lemma {:induction false} ThenUpdates(h: seq<Entry>, row: Run, next: Run, issued: set<string>, t: int, operation: string, owner: string) returns (g: seq<Entry>)
    requires Stands(h, Leased(row, operation, owner, t), issued, t)
    requires GoodUpdate(Leased(row, operation, owner, t), Leased(next, operation, owner, t))
    requires Backed(h[|h| - 1].db, row, next, owner)
    ensures g == Then(h, Call(t, Update(Leased(next, operation, owner, t), row.version, Some(owner))))
    ensures Stands(g, Leased(next.(version := next.version + 1), operation, owner, t), issued, t)
  {
    hide Good, RunOk, CountsStep, HasReceipt, HasConsumed;
    g := Then(h, Call(t, Update(Leased(next, operation, owner, t), row.version, Some(owner))));
    GoodSnoc(h, g[|h|]);
  }

  lemma {:induction false} ThenReleases(h: seq<Entry>, row: Run, issued: set<string>, t: int, operation: string, owner: string) returns (g: seq<Entry>)
    requires Stands(h, Leased(row, operation, owner, t), issued, t)
    ensures g == Then(h, Call(t, Release(row.id, owner)))
    ensures Stands(g, WithLease(row, NoLease), issued, t)
  {
    hide Good;
    g := Then(h, Call(t, Release(row.id, owner)));
    GoodSnoc(h, g[|h|]);
  }

  ghost function Granted(run: Run): Run {
    run.(checkpoint := run.checkpoint.(grantCommitted := true))
  }

  /** Committing the grant is a good update of any good row, whatever lease both carry. */
  lemma GrantIsGood(row: Run, operation: string, owner: string, t: int)
    requires RunOk(row)
    ensures GoodUpdate(Leased(row, operation, owner, t), Leased(Granted(row), operation, owner, t))
  {
    hide GraphOk, WithinBudget;
  }

  /**
   A rival grants R2 to a run at the gate whose lease has expired: it claims the
   run, renews before the request, consumes the token, and commits the grant.
   */
  lemma {:induction false} RivalGrants(h: seq<Entry>, row: Run, issued: set<string>, rival: string, t: int) returns (g: seq<Entry>)
    requires Stands(h, row, issued, t) && RunOk(row) && AtGate(row) && !row.checkpoint.grantCommitted
    requires HeldError(row.checkpoint.lease, t).None? && rival !in issued && rival != ""
    ensures Good(g) && h <= g && |g| == |h| + 4 && g[|g| - 1].db.now <= t && GrantedAtEnd(g, row.id)
    ensures Mine(g[|g| - 1].db, row.id, rival)
    ensures g[|h|].call.op == Claim(row.id, "r2-grant", rival, 3600) && g[|h| + 1].call.op == Renew(row.id, rival, 3600)
    ensures g[|h| + 2].call.op == Consume(row.id, rival) && g[|h| + 3].call.op.Update?
    ensures forall k :: |h| <= k < |g| ==> ActsFor(g[k].call.op) == Some(rival)
  {
    hide Good, RunOk, GoodUpdate, HasConsumed, Apply;
    var g1 := ThenClaims(h, row, issued, t, "r2-grant", rival);
    var g2 := ThenRenews(g1, row, issued + {rival}, t, "r2-grant", rival);
    var g3 := ThenConsumes(g2, Leased(row, "r2-grant", rival, t), issued + {rival}, t, rival);
    GrantIsGood(row, "r2-grant", rival, t);
    g := ThenUpdates(g3, row, Granted(row), issued + {rival}, t, "r2-grant", rival);
  }

  /** Once the lease has expired, another process may go through the whole grant first. */
  lemma {:induction false} ExpiredLeaseCanBeOvertaken(h: seq<Entry>, id: string, owner: string, t: int) returns (g: seq<Entry>)
    requires AboutToConsume(h, id, owner) && h[|h| - 1].db.now <= t
    requires h[|h| - 1].db.runs[id].checkpoint.lease.lease.expires <= t
    ensures OthersRunUntil(h, g, owner, t) && GrantedAtEnd(g, id) && !Mine(g[|g| - 1].db, id, owner)
  {
    hide Good, RunOk, AtGate;
    var db := h[|h| - 1].db;
    StoredRowOk(h, |h| - 1, id);
    var rival := FreshOwner(db.issued);
    g := RivalGrants(h, db.runs[id], db.issued, rival, t);
  }

  /** Nothing stops a process that lost its lease from sending the request. */
  lemma LostConsumptionIsAStep(db: Db, id: string, owner: string, t: int)
    requires db.now <= t && owner in db.issued && !Mine(db, id, owner)
    ensures var c := Call(t, Consume(id, owner)); GoodStep(db, Entry(c, Apply(db, c)))
  {
  }

  /** The late consumption itself: the stalled process then consumes the token of a run that is granted. */
  lemma {:induction false} LateConsumptionFollowsGrant(h: seq<Entry>, id: string, owner: string, t: int) returns (g: seq<Entry>)
    requires AboutToConsume(h, id, owner) && h[|h| - 1].db.now <= t
    requires h[|h| - 1].db.runs[id].checkpoint.lease.lease.expires <= t
    ensures Good(g) && |g| > |h| && h <= g && g[|g| - 1].call == Call(t, Consume(id, owner))
    ensures ByOthers(g[..|g| - 1], |h|, owner) && GrantedAt(g, |g| - 2, id)
  {
    hide Good, AtGate, RunOk, GoodStep, Later, ByOthers;
    var o := ExpiredLeaseCanBeOvertaken(h, id, owner, t);
    StoredRowOk(h, |h| - 1, id);
    assert o[|h| - 1] == h[|h| - 1];
    FactsAreForever(o, |h| - 1, |o| - 1, id);
    g := Then(o, Call(t, Consume(id, owner)));
    LostConsumptionIsAStep(o[|o| - 1].db, id, owner, t);
    GoodSnoc(o, g[|o|]);
    assert g[..|g| - 1] == o && g[|g| - 2] == o[|o| - 1];
  }

  /**
   The process that renewed its lease and read no grant may consume the token
   safely, whatever the others do meanwhile, exactly while its lease is unexpired.
   */
  lemma {:induction false} ConsumptionSafeExactlyBeforeExpiry(h: seq<Entry>, id: string, owner: string, t: int)
    requires AboutToConsume(h, id, owner) && h[|h| - 1].db.now <= t
    ensures (forall g :: OthersRunUntil(h, g, owner, t) ==> !GrantedAtEnd(g, id))
            <==> t < h[|h| - 1].db.runs[id].checkpoint.lease.lease.expires
  {
    hide Good, AtGate;
    if t < h[|h| - 1].db.runs[id].checkpoint.lease.lease.expires {
      forall g | OthersRunUntil(h, g, owner, t) ensures !GrantedAtEnd(g, id) {
        assert g[|h| - 1] == h[|h| - 1] && g[..|g|] == g;
        RowProtectedUntilExpiry(g, |h| - 1, |g| - 1, id, owner);
      }
    } else {
      var g := ExpiredLeaseCanBeOvertaken(h, id, owner, t);
      assert OthersRunUntil(h, g, owner, t) && GrantedAtEnd(g, id);
    }
  }

  // ---------------------------------------------------------------- the gate is reachable

  ghost function FirstRow(header: Header): Run
    requires Pre(header.project).lo <= Pre(header.project).hi <= |header.project.plan|
  {
    Run("run", header, Provisioning, Planned(header.project, Pre(header.project)),
        Checkpoint(NoLease, map[], {}, map[], map[], false, false, false, None, None, ""), 1)
  }

  lemma FirstRowOk(header: Header)
    requires ProjectOk(header.project)
    ensures Pre(header.project).lo <= Pre(header.project).hi <= |header.project.plan|
    ensures RunOk(FirstRow(header))
  {
    PlannedOk(header.project);
    hide GraphOk;
  }

  /** A first history: empty tables, and one created run. */
  lemma {:induction false} CreatedHistory(header: Header) returns (h: seq<Entry>)
    requires ProjectOk(header.project)
    ensures Pre(header.project).lo <= Pre(header.project).hi <= |header.project.plan|
    ensures Stands(h, FirstRow(header), {}, 0) && h[|h| - 1].db.receipts == []
  {
    FirstRowOk(header);
    hide RunOk, Planned, ProjectOk;
    var empty := Entry(Call(0, Release("", "")), Db(map[], [], [], map[], 0, {}, []));
    assert Good([empty]);
    h := Then([empty], Call(0, Create(FirstRow(header))));
    hide Good;
    GoodSnoc([empty], h[1]);
  }

  /** A row that moves to another state, or commits its project, under an unchanged plan. */
  lemma PlainMoveIsGood(row: Run, next: Run, operation: string, owner: string, t: int)
    requires RunOk(row) && next.state !in {PostApproval, Completed}
    requires next.state == Provisioning ==> row.state == Provisioning
    requires next == row.(state := next.state, checkpoint := row.checkpoint.(projectCommitted := next.checkpoint.projectCommitted))
    requires row.checkpoint.projectCommitted ==> next.checkpoint.projectCommitted
    ensures RunOk(next) && RunOk(next.(version := next.version + 1))
    ensures GoodUpdate(Leased(row, operation, owner, t), Leased(next, operation, owner, t))
  {
    hide GraphOk, WithinBudget;
  }

  /** Claim, update, release. */
  lemma {:induction false} Session(h: seq<Entry>, row: Run, next: Run, issued: set<string>, t: int, operation: string, owner: string) returns (g: seq<Entry>)
    requires Stands(h, row, issued, t) && row.checkpoint.lease.NoLease? && next.checkpoint.lease.NoLease?
    requires owner !in issued && owner != "" && operation != ""
    requires GoodUpdate(Leased(row, operation, owner, t), Leased(next, operation, owner, t)) && Backed(h[|h| - 1].db, row, next, owner)
    ensures Stands(g, next.(version := next.version + 1), issued + {owner}, t)
  {
    hide Good, GoodUpdate, Apply, HasReceipt, HasConsumed;
    var g1 := ThenClaims(h, row, issued, t, operation, owner);
    assert Backed(g1[|g1| - 1].db, row, next, owner) by {
      StepGrows(h[|h| - 1].db, g1[|h|].call);
      EvidenceStays(h[|h| - 1].db, g1[|h|].db);
    }
    var g2 := ThenUpdates(g1, row, next, issued + {owner}, t, operation, owner);
    g := ThenReleases(g2, next.(version := next.version + 1), issued + {owner}, t, operation, owner);
  }

  /** A live start: create the run, archive the project's receipt, commit the project, and dispatch. */
  lemma {:induction false} StartedHistory(header: Header) returns (h: seq<Entry>, row: Run)
    requires ProjectOk(header.project)
    ensures Stands(h, row, {"a"}, 0) && row.id == "run" && row.header == header && row.state == PreApproval && row.checkpoint.lease.NoLease?
    ensures RunOk(row) && !row.checkpoint.grantCommitted
  {
    hide Good, RunOk, GoodUpdate, Apply, HasReceipt, HasConsumed, Planned, ProjectOk;
    FirstRowOk(header);
    var h0 := CreatedHistory(header);
    var r0 := FirstRow(header);
    hide FirstRow;
    var h1 := ThenClaims(h0, r0, {}, 0, "live-start", "a");
    var h2 := ThenArchives(h1, r0, {"a"}, 0, "live-start", "a", PROJECT_RECEIPT, "r");
    var r1 := r0.(checkpoint := r0.checkpoint.(projectCommitted := true));
    PlainMoveIsGood(r0, r1, "live-start", "a", 0);
    var h3 := ThenUpdates(h2, r0, r1, {"a"}, 0, "live-start", "a");
    var r2 := r1.(version := r1.version + 1);
    row := r2.(state := PreApproval);
    PlainMoveIsGood(r2, row, "live-start", "a", 0);
    var h4 := ThenUpdates(h3, r2, row, {"a"}, 0, "live-start", "a");
    row := row.(version := row.version + 1);
    h := ThenReleases(h4, row, {"a"}, 0, "live-start", "a");
  }

  /**
   The gate is reachable: for every live header there is a good history, from the
   creation of the run, at whose end a process is about to consume its token.
   */
  lemma {:induction false} GateIsReachable(header: Header) returns (h: seq<Entry>)
    requires ProjectOk(header.project) && header.live
    ensures AboutToConsume(h, "run", "c") && h[|h| - 1].db.now <= 3600
    ensures h[|h| - 1].db.runs["run"].state == WaitingR2 && h[|h| - 1].db.runs["run"].header == header
    ensures h[|h| - 1].db.runs["run"].checkpoint.lease.lease.expires == 3600
  {
    hide Good, RunOk, GoodUpdate, Apply, HasReceipt, HasConsumed, ProjectOk;
    var h1, row := StartedHistory(header);
    var waiting := row.(state := WaitingR2);
    PlainMoveIsGood(row, waiting, "reconcile", "b", 0);
    var h2 := Session(h1, row, waiting, {"a"}, 0, "reconcile", "b");
    waiting := waiting.(version := waiting.version + 1);
    var h3 := ThenClaims(h2, waiting, {"a", "b"}, 0, "r2-grant", "c");
    h := ThenRenews(h3, waiting, {"a", "b", "c"}, 0, "r2-grant", "c");
  }

  /**
   The property "once a grant is stored, no later step consumes the token" fails in
   some good history, of any live run: at its last step a process that let its
   lease expire consumes the token although the grant is stored.
   */
  lemma {:induction false} ConsumptionAfterGrantExists(header: Header) returns (g: seq<Entry>)
    requires ProjectOk(header.project) && header.live
    ensures Good(g) && |g| >= 2 && g[|g| - 1].call.op == Consume("run", "c") && GrantedAt(g, |g| - 2, "run")
  {
    var h := GateIsReachable(header);
    hide Good, AtGate, AboutToConsume;
    g := LateConsumptionFollowsGrant(h, "run", "c", 3600);
  }
}
