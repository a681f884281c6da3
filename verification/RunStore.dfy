/**
 The durable run store: run rows with an embedded operation lease, the event
 ledger and the receipt ledger.  Every public method is one transaction, except
 that the consumption of an approval token is recorded in the same order.
 */
module RunStore {
  import opened Wrappers
  import opened HashChain
  import opened TaskIds
  import opened TaskGraph

  // ---------------------------------------------------------------- entities

  datatype RunState =
    | Provisioning | PreApproval | WaitingR2 | PostApproval
    | CompensationRequired | Blocked | Completed

  datatype Kind =
    | TaskRequest | TaskUpdate | ArtifactAccepted | Conflict | Replan
    | ApprovalRequired | ApprovalGranted | Compensation | Terminal

  /** The identity that every envelope of a run repeats. */
  datatype Identity = Identity(task: string, project: string, trace: string, correlation: string, contextVersion: nat)

  /** The digest of a canonical JSON text. */
  datatype TextDigest = DigestOf(text: string)

  const ENVELOPE_SCHEMA := "egoagentos.agentteams-envelope.v2"
  const BRIDGE_PARTY := "egoagentos-bridge"
  const LEADER_PARTY := "agentteams-team-leader"

  datatype Envelope = Envelope(
    schema: string, id: string, identity: Identity, attempt: nat, kind: Kind, sender: string, recipient: string,
    causation: Option<string>, body: string, bodyDigest: TextDigest, createdAt: int)

  datatype Lease = Lease(operation: string, owner: string, acquired: int, expires: int, timeout: int)

  /** The lease record of a checkpoint; a record that cannot be read is never stolen. */
  datatype LeaseSlot = NoLease | Malformed | Held(lease: Lease)

  datatype Worker = Worker(leader: bool, skills: set<string>)

  datatype NodeRecord = NodeRecord(status: string, since: int)

  datatype Recovery =
    | StartDispatch | ReplanNotify | ApprovalRequiredNotify | TerminalNotify
    | ResumeReplanNotify | GrantResponseUncertain

  /** What a run in compensation resumes with. */
  datatype Retry = Retry(operation: Recovery, resume: Option<RunState>, replacement: string)

  datatype Checkpoint = Checkpoint(
    lease: LeaseSlot, reassignments: Counts, accepted: set<string>, nodes: map<string, NodeRecord>,
    workers: map<string, Worker>, projectCommitted: bool, grantCommitted: bool, finalCommitted: bool,
    retry: Option<Retry>, startEnvelope: Option<Envelope>, intent: string)

  /** The columns of a run that no operation rewrites. */
  datatype Header = Header(
    task: string, project: Project, team: string, trace: string, correlation: string, contextVersion: nat,
    objective: string, live: bool, ackTimeout: int, executionTimeout: int, maxReassignments: nat)

  datatype Run = Run(id: string, header: Header, state: RunState, graph: seq<Task>, checkpoint: Checkpoint, version: nat)

  function IdentityOf(h: Header): Identity {
    Identity(h.task, h.project.id, h.trace, h.correlation, h.contextVersion)
  }

  datatype EventFields = EventFields(eventId: string, kind: Kind, envelope: Envelope, createdAt: int)

  datatype ReceiptFields = ReceiptFields(
    receiptId: string, key: string, source: string, kind: string, payload: TextDigest, createdAt: int)

  datatype StoreError =
    | RunNotFound | RunConflict | OperationInProgress | LeaseInvalid | LeaseMutation | LeaseLost
    | VersionConflict | ReceiptKeyConflict | BadLeaseRequest | DuplicateId

  // ---------------------------------------------------------------- lease checks

  function OwnerOf(slot: LeaseSlot): Option<string> {
    if slot.Held? then Some(slot.lease.owner) else None
  }

  predicate LeaseRequestOk(operation: string, owner: string, timeout: int) {
    operation != "" && owner != "" && 1 <= timeout <= 3600
  }

  function LeasePayload(operation: string, owner: string, at: int, timeout: int): Lease {
    Lease(operation, owner, at, at + timeout, timeout)
  }

  /** The check before a claim: a readable, unexpired lease of anyone refuses it. */
  function HeldError(slot: LeaseSlot, at: int): Option<StoreError> {
    match slot
    case NoLease => None
    case Malformed => Some(LeaseInvalid)
    case Held(l) => if l.expires <= at then None else Some(OperationInProgress)
  }

  /** The check before every write: the caller presents the stored lease, owns it, and it is unexpired. */
  function UpdateLeaseError(slot: LeaseSlot, next: LeaseSlot, who: Option<string>, at: int): Option<StoreError> {
    if slot.Malformed? || next.Malformed? then Some(LeaseInvalid)
    else if slot.NoLease? && who.None? then (if next.NoLease? then None else Some(LeaseMutation))
    else if slot.Held? && who == Some(slot.lease.owner) then
      if slot.lease.expires <= at then Some(LeaseLost)
      else if next != slot then Some(LeaseMutation)
      else None
    else Some(LeaseLost)
  }

  // ---------------------------------------------------------------- transactions

  /** One request to EgoAgentOS that consumes the approval token of a run, by the holder of a lease. */
  datatype Consumption = Consumption(run: string, owner: string, at: int)

  /**
   The tables, with the clock's last reading, the owner ids that claims have
   presented, and the consumptions of approval tokens so far.  `payloads` is the
   payload column of the receipt table, by receipt id: the rows under the hash
   chain hold its digest only.
   */
  datatype Db = Db(
    runs: map<string, Run>, events: seq<Row<EventFields>>, receipts: seq<Row<ReceiptFields>>, payloads: map<string, string>,
    now: int, issued: set<string>, consumed: seq<Consumption>)

  datatype Op =
    | Create(run: Run)
    | Claim(id: string, operation: string, owner: string, timeout: int)
    | Renew(id: string, owner: string, timeout: int)
    | Release(id: string, owner: string)
    | Update(next: Run, expected: nat, who: Option<string>)
    | AppendEvent(id: string, envelope: Envelope, eventId: string, who: Option<string>)
    | Archive(id: string, key: string, source: string, kind: string, payload: string, receiptId: string, who: Option<string>)
    | Consume(id: string, owner: string)

  /** One transaction: the operation and the clock reading it works with. */
  datatype Call = Call(at: int, op: Op)

  datatype Entry = Entry(call: Call, db: Db)

  /** The owner that an operation acts for. */
  function ActsFor(op: Op): Option<string> {
    match op
    case Create(_) => None
    case Claim(_, _, owner, _) => Some(owner)
    case Renew(_, owner, _) => Some(owner)
    case Release(_, owner) => Some(owner)
    case Update(_, _, who) => who
    case AppendEvent(_, _, _, who) => who
    case Archive(_, _, _, _, _, _, who) => who
    case Consume(_, owner) => Some(owner)
  }

  /** The newest row of a run under a receipt key. */
  function FindReceipt(rows: seq<Row<ReceiptFields>>, key: string): (r: Option<Row<ReceiptFields>>)
    ensures r.Some? ==> r.value in rows && r.value.fields.key == key
    ensures r.None? ==> forall i :: 0 <= i < |rows| ==> rows[i].fields.key != key
  {
    if rows == [] then None
    else if rows[|rows| - 1].fields.key == key then Some(rows[|rows| - 1])
    else FindReceipt(rows[..|rows| - 1], key)
  }

  predicate EventIdUsed(events: seq<Row<EventFields>>, eventId: string) {
    exists i :: 0 <= i < |events| && events[i].fields.eventId == eventId
  }

  predicate ReceiptIdUsed(receipts: seq<Row<ReceiptFields>>, receiptId: string) {
    exists i :: 0 <= i < |receipts| && receipts[i].fields.receiptId == receiptId
  }

  /** The payload column holds the text whose digest the row has. */
  predicate PayloadMatches(row: Row<ReceiptFields>, payloads: map<string, string>) {
    row.fields.receiptId in payloads && row.fields.payload == DigestOf(payloads[row.fields.receiptId])
  }

  ghost predicate PayloadsMatch(rows: seq<Row<ReceiptFields>>, payloads: map<string, string>) {
    forall i :: 0 <= i < |rows| ==> PayloadMatches(rows[i], payloads)
  }

  lemma {:induction false} PayloadsSnoc(rows: seq<Row<ReceiptFields>>, row: Row<ReceiptFields>, payloads: map<string, string>)
    ensures PayloadsMatch(rows + [row], payloads) <==> PayloadsMatch(rows, payloads) && PayloadMatches(row, payloads)
  {
    hide PayloadMatches;
    var more := rows + [row];
    assert more[|rows|] == row && forall i :: 0 <= i < |rows| ==> more[i] == rows[i];
  }

  predicate ProjectTaken(runs: map<string, Run>, project: string) {
    exists id :: id in runs && runs[id].header.project.id == project
  }

  function WithLease(run: Run, slot: LeaseSlot): Run {
    run.(checkpoint := run.checkpoint.(lease := slot))
  }

  /** The row that an accepted update stores: the header columns stay. */
  function UpdatedRow(row: Run, next: Run, expected: nat): Run {
    row.(state := next.state, graph := next.graph, checkpoint := next.checkpoint, version := expected + 1)
  }

  /** The tables after a successful transaction, or the error that rolls it back. */
  function Outcome(db: Db, c: Call): Result<Db, StoreError> {
    match c.op
    case Create(run) =>
      if run.id in db.runs || ProjectTaken(db.runs, run.header.project.id) then Failure(RunConflict)
      else Success(db.(runs := db.runs[run.id := run]))
    case Claim(id, operation, owner, timeout) =>
      if !LeaseRequestOk(operation, owner, timeout) then Failure(BadLeaseRequest)
      else if id !in db.runs then Failure(RunNotFound)
      else
        var e := HeldError(db.runs[id].checkpoint.lease, c.at);
        if e.Some? then Failure(e.value)
        else Success(db.(runs := db.runs[id := WithLease(db.runs[id], Held(LeasePayload(operation, owner, c.at, timeout)))]))
    case Renew(id, owner, timeout) =>
      if id !in db.runs then Failure(RunNotFound)
      else
        var slot := db.runs[id].checkpoint.lease;
        var e := UpdateLeaseError(slot, slot, Some(owner), c.at);
        if e.Some? then Failure(e.value)
        else if !LeaseRequestOk(slot.lease.operation, owner, timeout) then Failure(BadLeaseRequest)
        else Success(db.(runs := db.runs[id := WithLease(db.runs[id], Held(LeasePayload(slot.lease.operation, owner, c.at, timeout)))]))
    case Release(id, owner) =>
      if id !in db.runs then Success(db)
      else if db.runs[id].checkpoint.lease.Malformed? then Failure(LeaseInvalid)
      else if OwnerOf(db.runs[id].checkpoint.lease) == Some(owner) then
        Success(db.(runs := db.runs[id := WithLease(db.runs[id], NoLease)]))
      else Success(db)
    case Update(next, expected, who) =>
      if next.id !in db.runs then Failure(RunNotFound)
      else if db.runs[next.id].version != expected then Failure(VersionConflict)
      else
        var e := UpdateLeaseError(db.runs[next.id].checkpoint.lease, next.checkpoint.lease, who, c.at);
        if e.Some? then Failure(e.value)
        else Success(db.(runs := db.runs[next.id := UpdatedRow(db.runs[next.id], next, expected)]))
    case AppendEvent(id, envelope, eventId, who) =>
      if id !in db.runs then Failure(RunNotFound)
      else
        var slot := db.runs[id].checkpoint.lease;
        var e := UpdateLeaseError(slot, slot, who, c.at);
        if e.Some? then Failure(e.value)
        else if EventIdUsed(db.events, eventId) then Failure(DuplicateId)
        else Success(db.(events := Append(db.events, id, EventFields(eventId, envelope.kind, envelope, envelope.createdAt))))
    case Archive(id, key, source, kind, payload, receiptId, who) =>
      if id !in db.runs then Failure(RunNotFound)
      else
        var slot := db.runs[id].checkpoint.lease;
        var e := UpdateLeaseError(slot, slot, who, c.at);
        if e.Some? then Failure(e.value)
        else
          var existing := FindReceipt(OfRun(db.receipts, id), key);
          if existing.Some? then
            var f := existing.value.fields;
            if f.payload != DigestOf(payload) || f.source != source || f.kind != kind then Failure(ReceiptKeyConflict) else Success(db)
          else if ReceiptIdUsed(db.receipts, receiptId) then Failure(DuplicateId)
          else
            var fields := ReceiptFields(receiptId, key, source, kind, DigestOf(payload), c.at);
            Success(db.(receipts := Append(db.receipts, id, fields), payloads := db.payloads[receiptId := payload]))
    case Consume(id, owner) => Success(db.(consumed := db.consumed + [Consumption(id, owner, c.at)]))
  }

  /** The stored state after a transaction, successful or rolled back. */
  function Apply(db: Db, c: Call): Db {
    var after := match Outcome(db, c) case Success(d) => d case Failure(_) => db;
    after.(now := c.at, issued := if c.op.Claim? then db.issued + {c.op.owner} else db.issued)
  }

  // ---------------------------------------------------------------- frame and fencing of single transactions

  /** All a transaction can do to the row of one run. */
  ghost predicate RowStep(db: Db, c: Call, id: string) {
    var after := Apply(db, c).runs;
    && id in after
    && if id !in db.runs then c.op == Create(after[id]) && after[id].id == id
       else
         var row, row' := db.runs[id], after[id];
         || row' == row
         || (c.op.Claim? && c.op.id == id && LeaseMoved(row, row', Some(c.op.owner))
             && HeldError(row.checkpoint.lease, c.at) == None)
         || (c.op.Renew? && c.op.id == id && LeaseMoved(row, row', Some(c.op.owner))
             && OwnerOf(row.checkpoint.lease) == Some(c.op.owner))
         || (c.op.Release? && c.op.id == id && LeaseMoved(row, row', None)
             && OwnerOf(row.checkpoint.lease) == Some(c.op.owner))
         || (c.op.Update? && c.op.next.id == id && row' == UpdatedRow(row, c.op.next, c.op.expected)
             && row.version == c.op.expected && OwnerOf(row.checkpoint.lease) == c.op.who
             && c.op.next.checkpoint.lease == row.checkpoint.lease)
  }

  /** The row gets a readable lease of the given owner, or loses its lease, and nothing else changes. */
  ghost predicate LeaseMoved(row: Run, row': Run, owner: Option<string>) {
    && row' == WithLease(row, row'.checkpoint.lease)
    && OwnerOf(row'.checkpoint.lease) == owner && !row'.checkpoint.lease.Malformed?
    && (row'.checkpoint.lease.Held? ==> row'.checkpoint.lease.lease.operation != "")
  }

  lemma EveryStepIsARowStep(db: Db, c: Call, id: string)
    requires id in Apply(db, c).runs
    ensures RowStep(db, c, id)
  {
    hide FindReceipt, OfRun, Append, ReceiptIdUsed, EventIdUsed, ProjectTaken;
  }

  lemma RowsStay(db: Db, c: Call, id: string)
    requires id in db.runs
    ensures id in Apply(db, c).runs
  {
    hide FindReceipt, OfRun, Append, ReceiptIdUsed, EventIdUsed, ProjectTaken, UpdateLeaseError, HeldError;
  }

  /** Owner ids are never forgotten, and a claim adds its own. */
  lemma IssuedGrow(db: Db, c: Call)
    ensures db.issued <= Apply(db, c).issued && (c.op.Claim? ==> c.op.owner in Apply(db, c).issued)
    ensures Apply(db, c).now == c.at
  {
    hide FindReceipt, OfRun, Append, ReceiptIdUsed, EventIdUsed, ProjectTaken, UpdateLeaseError, HeldError;
  }

  lemma WritesKeepRows(db: Db, c: Call)
    requires c.op.AppendEvent? || c.op.Archive? || c.op.Consume?
    ensures Apply(db, c).runs == db.runs && Apply(db, c).issued == db.issued && Apply(db, c).now == c.at
  {
    hide FindReceipt, OfRun, Append, ReceiptIdUsed, EventIdUsed, UpdateLeaseError;
  }

  /** Only claim, renew and release move a lease; only an accepted update changes anything else of a row. */
  lemma OnlyUpdateRewritesRuns(db: Db, c: Call, id: string)
    requires id in db.runs
    ensures id in Apply(db, c).runs
    ensures var row, row' := db.runs[id], Apply(db, c).runs[id];
      && row'.id == row.id && row'.header == row.header
      && (row'.checkpoint.lease != row.checkpoint.lease ==> c.op.Claim? || c.op.Renew? || c.op.Release?)
      && (row' != WithLease(row, row'.checkpoint.lease) ==> c.op.Update? && c.op.next.id == id && row'.version == row.version + 1)
  {
    hide Apply, UpdateLeaseError, HeldError;
    RowsStay(db, c, id);
    EveryStepIsARowStep(db, c, id);
  }

  /** A write in the name of an owner succeeds only while that owner's lease is stored and unexpired. */
  lemma LeasedWriteNeedsCurrentLease(db: Db, c: Call, owner: string)
    requires c.op.Renew? || c.op.Update? || c.op.AppendEvent? || c.op.Archive?
    requires ActsFor(c.op) == Some(owner) && Outcome(db, c).Success?
    ensures var id := if c.op.Update? then c.op.next.id else c.op.id;
      && id in db.runs && OwnerOf(db.runs[id].checkpoint.lease) == Some(owner)
      && c.at < db.runs[id].checkpoint.lease.lease.expires
      && (c.op.Update? ==> c.op.next.checkpoint.lease == db.runs[id].checkpoint.lease && c.op.expected == db.runs[id].version)
  {
  }

  /** A write in nobody's name succeeds only while no lease record is stored, even an expired one. */
  lemma UnleasedWriteNeedsNoLease(db: Db, c: Call)
    requires c.op.Update? || c.op.AppendEvent? || c.op.Archive?
    requires ActsFor(c.op) == None && Outcome(db, c).Success?
    ensures var id := if c.op.Update? then c.op.next.id else c.op.id;
      id in db.runs && db.runs[id].checkpoint.lease == NoLease
  {
  }

  // ---------------------------------------------------------------- the store object

  class BridgeStore {
    var runs: map<string, Run>
    var events: seq<Row<EventFields>>
    var receipts: seq<Row<ReceiptFields>>
    var payloads: map<string, string>
    var now: int
    ghost var issued: set<string>
    ghost var consumed: seq<Consumption>

    /** The steps of the history that other processes took. */
    ghost var foreign: set<nat>

    /** Every transaction so far with the state it left: what a crash after it would leave behind. */
    ghost var history: seq<Entry>

    ghost function Contents(): Db
      reads this
    {
      Db(runs, events, receipts, payloads, now, issued, consumed)
    }

    ghost predicate Valid()
      reads this
    {
      |history| > 0 && history[|history| - 1].db == Contents()
    }

    /** One transaction happened: the tables moved as specified and the history grew by it. */
    twostate predicate Stepped(op: Op)
      reads this
    {
      && old(now) <= now
      && Contents() == Apply(old(Contents()), Call(now, op))
      && history == old(history) + [Entry(Call(now, op), Contents())]
    }

    constructor ()
      ensures Valid() && |history| == 1
      ensures runs == map[] && events == [] && receipts == [] && issued == {} && consumed == [] && foreign == {}
    {
      runs, events, receipts, payloads := map[], [], [], map[];
      now, issued, consumed, foreign := 0, {}, [], {};
      history := [Entry(Call(0, Release("", "")), Db(map[], [], [], map[], 0, {}, []))];
    }

    /** The wall clock never runs backwards. */
    method Tick()
      modifies this`now
      ensures old(now) <= now
    {
      var reading: int := *;
      if reading > now {
        now := reading;
      }
    }

    method GetRun(id: string) returns (r: Result<Run, StoreError>)
      ensures r == if id in runs then Success(runs[id]) else Failure(RunNotFound)
    {
      r := if id in runs then Success(runs[id]) else Failure(RunNotFound);
    }

    method CreateRun(run: Run) returns (r: Result<Run, StoreError>)
      requires Valid()
      modifies this
      ensures Valid() && Stepped(Create(run)) && consumed == old(consumed) && foreign == old(foreign)
      ensures r.Success? <==> Outcome(old(Contents()), Call(now, Create(run))).Success?
      ensures r.Success? ==> r.value == run && run.id in runs && runs[run.id] == run
      ensures (r.Failure? ==> r.error == RunConflict && runs == old(runs)) && issued == old(issued)
    {
      Tick();
      if run.id in runs || ProjectTaken(runs, run.header.project.id) {
        r := Failure(RunConflict);
      } else {
        runs := runs[run.id := run];
        r := Success(run);
      }
      history := history + [Entry(Call(now, Create(run)), Contents())];
    }

    method ClaimOperation(id: string, operation: string, owner: string, timeout: int) returns (r: Result<Run, StoreError>)
      requires Valid()
      modifies this
      ensures Valid() && Stepped(Claim(id, operation, owner, timeout)) && consumed == old(consumed) && foreign == old(foreign)
      ensures r.Success? <==> Outcome(old(Contents()), Call(now, Claim(id, operation, owner, timeout))).Success?
      ensures r.Success? ==> id in runs && r.value == runs[id]
    {
      Tick();
      if !LeaseRequestOk(operation, owner, timeout) {
        r := Failure(BadLeaseRequest);
      } else if id !in runs {
        r := Failure(RunNotFound);
      } else {
        var refused := HeldError(runs[id].checkpoint.lease, now);
        if refused.Some? {
          r := Failure(refused.value);
        } else {
          var row := WithLease(runs[id], Held(LeasePayload(operation, owner, now, timeout)));
          runs := runs[id := row];
          r := Success(row);
        }
      }
      issued := issued + {owner};
      history := history + [Entry(Call(now, Claim(id, operation, owner, timeout)), Contents())];
    }

    method RenewOperation(id: string, owner: string, timeout: int) returns (r: Result<Run, StoreError>)
      requires Valid()
      modifies this
      ensures Valid() && Stepped(Renew(id, owner, timeout)) && consumed == old(consumed) && foreign == old(foreign)
      ensures r.Success? <==> Outcome(old(Contents()), Call(now, Renew(id, owner, timeout))).Success?
      ensures r.Success? ==> id in runs && r.value == runs[id]
    {
      Tick();
      if id !in runs {
        r := Failure(RunNotFound);
      } else {
        var slot := runs[id].checkpoint.lease;
        var refused := UpdateLeaseError(slot, slot, Some(owner), now);
        if refused.Some? {
          r := Failure(refused.value);
        } else if !LeaseRequestOk(slot.lease.operation, owner, timeout) {
          r := Failure(BadLeaseRequest);
        } else {
          var row := WithLease(runs[id], Held(LeasePayload(slot.lease.operation, owner, now, timeout)));
          runs := runs[id := row];
          r := Success(row);
        }
      }
      history := history + [Entry(Call(now, Renew(id, owner, timeout)), Contents())];
    }

    method ReleaseOperation(id: string, owner: string) returns (r: Result<(), StoreError>)
      requires Valid()
      modifies this
      ensures Valid() && Stepped(Release(id, owner)) && consumed == old(consumed) && foreign == old(foreign)
    {
      Tick();
      r := Success(());
      if id in runs {
        if runs[id].checkpoint.lease.Malformed? {
          r := Failure(LeaseInvalid);
        } else if OwnerOf(runs[id].checkpoint.lease) == Some(owner) {
          runs := runs[id := WithLease(runs[id], NoLease)];
        }
      }
      history := history + [Entry(Call(now, Release(id, owner)), Contents())];
    }

    method UpdateRun(run: Run, expected: nat, who: Option<string>) returns (r: Result<Run, StoreError>)
      requires Valid()
      modifies this
      ensures Valid() && Stepped(Update(run, expected, who)) && consumed == old(consumed) && foreign == old(foreign)
      ensures r.Success? ==> Outcome(old(Contents()), Call(now, Update(run, expected, who))).Success?
      ensures r.Success? ==> r.value == run.(version := expected + 1)
      ensures r.Failure? ==> Outcome(old(Contents()), Call(now, Update(run, expected, who))) == Failure(r.error)
    {
      Tick();
      if run.id !in runs {
        r := Failure(RunNotFound);
      } else if runs[run.id].version != expected {
        r := Failure(VersionConflict);
      } else {
        var refused := UpdateLeaseError(runs[run.id].checkpoint.lease, run.checkpoint.lease, who, now);
        if refused.Some? {
          r := Failure(refused.value);
        } else {
          runs := runs[run.id := UpdatedRow(runs[run.id], run, expected)];
          r := Success(run.(version := expected + 1));
        }
      }
      history := history + [Entry(Call(now, Update(run, expected, who)), Contents())];
    }

    method AppendEventRow(id: string, envelope: Envelope, eventId: string, who: Option<string>)
      returns (r: Result<Row<EventFields>, StoreError>)
      requires Valid()
      modifies this
      ensures Valid() && Stepped(AppendEvent(id, envelope, eventId, who)) && consumed == old(consumed) && foreign == old(foreign)
      ensures r.Success? <==> Outcome(old(Contents()), Call(now, AppendEvent(id, envelope, eventId, who))).Success?
      ensures r.Success? ==> events == old(events) + [r.value] && r.value.run == id && r.value.fields.envelope == envelope
    {
      Tick();
      if id !in runs {
        r := Failure(RunNotFound);
      } else {
        var refused := UpdateLeaseError(runs[id].checkpoint.lease, runs[id].checkpoint.lease, who, now);
        if refused.Some? {
          r := Failure(refused.value);
        } else if EventIdUsed(events, eventId) {
          r := Failure(DuplicateId);
        } else {
          var previous := Head(OfRun(events, id));
          var row := Seal(id, EventFields(eventId, envelope.kind, envelope, envelope.createdAt), previous);
          events := events + [row];
          r := Success(row);
        }
      }
      history := history + [Entry(Call(now, AppendEvent(id, envelope, eventId, who)), Contents())];
    }

    method ArchiveReceipt(id: string, key: string, source: string, kind: string, payload: string, receiptId: string, who: Option<string>)
      returns (r: Result<Row<ReceiptFields>, StoreError>)
      requires Valid()
      modifies this
      ensures Valid() && Stepped(Archive(id, key, source, kind, payload, receiptId, who)) && consumed == old(consumed) && foreign == old(foreign)
      ensures r.Success? <==> Outcome(old(Contents()), Call(now, Archive(id, key, source, kind, payload, receiptId, who))).Success?
      ensures r.Success? ==>
        r.value.run == id && r.value.fields.key == key && r.value.fields.payload == DigestOf(payload) && r.value in receipts
    {
      hide Head, OfRun, ReceiptIdUsed, FindReceipt;
      Tick();
      if id !in runs {
        r := Failure(RunNotFound);
      } else {
        var refused := UpdateLeaseError(runs[id].checkpoint.lease, runs[id].checkpoint.lease, who, now);
        if refused.Some? {
          r := Failure(refused.value);
        } else {
          var existing := FindReceipt(OfRun(receipts, id), key);
          if existing.Some? {
            var f := existing.value.fields;
            if f.payload != DigestOf(payload) || f.source != source || f.kind != kind {
              r := Failure(ReceiptKeyConflict);
            } else {
              r := Success(existing.value);
            }
          } else if ReceiptIdUsed(receipts, receiptId) {
            r := Failure(DuplicateId);
          } else {
            var row := Seal(id, ReceiptFields(receiptId, key, source, kind, DigestOf(payload), now), Head(OfRun(receipts, id)));
            receipts := receipts + [row];
            payloads := payloads[receiptId := payload];
            r := Success(row);
          }
        }
      }
      history := history + [Entry(Call(now, Archive(id, key, source, kind, payload, receiptId, who)), Contents())];
    }

    /**
     Not a transaction of the store: the request to EgoAgentOS that consumes the
     approval token, recorded in the order in which it falls among them.
     */
    method NoteConsumption(id: string, owner: string)
      requires Valid()
      modifies this
      ensures Valid() && Stepped(Consume(id, owner))
      ensures consumed == old(consumed) + [Consumption(id, owner, now)] && runs == old(runs) && foreign == old(foreign)
    {
      Tick();
      consumed := consumed + [Consumption(id, owner, now)];
      history := history + [Entry(Call(now, Consume(id, owner)), Contents())];
    }

    /** Read back the events of a run and re-check their chain. */
    method Events(id: string) returns (r: Result<(seq<Row<EventFields>>, bool), StoreError>)
      ensures r.Success? <==> id in runs
      ensures r.Success? ==> r.value.0 == OfRun(events, id) && (r.value.1 <==> ChainValid(OfRun(events, id)))
    {
      if id !in runs {
        return Failure(RunNotFound);
      }
      var rows := OfRun(events, id);
      var valid, _ := Walk(rows);
      r := Success((rows, valid));
    }

    /** Read back the receipts of a run, re-check their chain, and digest every stored payload again. */
    method Receipts(id: string) returns (r: Result<(seq<Row<ReceiptFields>>, bool), StoreError>)
      ensures r.Success? <==> id in runs
      ensures r.Success? ==> r.value.0 == OfRun(receipts, id)
      ensures r.Success? ==>
        (r.value.1 <==> ChainValid(OfRun(receipts, id)) && PayloadsMatch(OfRun(receipts, id), payloads))
    {
      if id !in runs {
        return Failure(RunNotFound);
      }
      assert PayloadsMatch([], payloads);
      hide OfRun, ChainValid, PayloadMatches, PayloadsMatch;
      var rows := OfRun(receipts, id);
      var valid, _ := Walk(rows);
      for i := 0 to |rows|
        invariant valid <==> ChainValid(rows) && PayloadsMatch(rows[..i], payloads)
      {
        if !PayloadMatches(rows[i], payloads) {
          valid := false;
        }
        assert rows[..i + 1] == rows[..i] + [rows[i]];
        PayloadsSnoc(rows[..i], rows[i], payloads);
      }
      assert rows[..|rows|] == rows;
      r := Success((rows, valid));
    }
  }
}
