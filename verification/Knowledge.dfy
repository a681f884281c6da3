/**
 What a bridge process knows about the stored row of its run, and why its own
 transactions and those of the others keep it true.
 */
module Knowledge {
  import opened Wrappers
  import opened TaskIds
  import opened TaskGraph
  import opened RunStore
  import opened RunHistory

  /**
   The local run may still be stored: while the owner's lease is in the row, the
   row is the base that the process last saw committed, the local run is a good
   update of it, and what it commits beyond it has happened.
   */
  ghost predicate Knowing(db: Db, run: Run, owner: string, base: Run) {
    && run.id in db.runs && owner in db.issued
    && db.runs[run.id].header == run.header
    && GoodUpdate(base, run) && Backed(db, base, run, owner)
    && (Mine(db, run.id, owner) ==> db.runs[run.id] == base)
  }

  /** While the owner's lease is stored and unexpired, the local run carries exactly that lease. */
  ghost predicate Synced(db: Db, run: Run, owner: string) {
    Mine(db, run.id, owner) && db.now < db.runs[run.id].checkpoint.lease.lease.expires ==>
      db.runs[run.id].checkpoint.lease == run.checkpoint.lease
  }

  lemma GoodUpdateIgnoresBaseLease(base: Run, run: Run, slot: LeaseSlot)
    requires GoodUpdate(base, run)
    ensures GoodUpdate(WithLease(base, slot), run)
    ensures !slot.Malformed? ==> GoodUpdate(WithLease(base, slot), WithLease(run, slot))
  {
    hide GraphOk, WithinBudget;
    if run.checkpoint.reassignments != base.checkpoint.reassignments {
      var t :| t in base.graph && run.checkpoint.reassignments == Bumped(base.checkpoint.reassignments, t);
      assert t in WithLease(base, slot).graph;
    }
  }

  /** A copy of a known run with an older lease is still known, though perhaps no longer in sync. */
  lemma StaleCopyKnows(db: Db, run: Run, slot: LeaseSlot, owner: string, base: Run)
    requires Knowing(db, WithLease(run, slot), owner, base) && !run.checkpoint.lease.Malformed?
    ensures Knowing(db, run, owner, base)
  {
    hide GraphOk, WithinBudget;
  }

  /** Transactions of the others keep the knowledge. */
  lemma {:induction false} OthersKeepKnowledge(h: seq<Entry>, i: nat, run: Run, owner: string, base: Run)
    requires Good(h) && i < |h| && ByOthers(h, i + 1, owner)
    requires Knowing(h[i].db, run, owner, base)
    ensures var db := h[|h| - 1].db;
      && h[i].db.now <= db.now
      && Knowing(db, run, owner, base)
      && (Synced(h[i].db, run, owner) ==> Synced(db, run, owner))
  {
    var j := |h| - 1;
    hide GoodUpdate, Good, Backed;
    FactsAreForever(h, i, j, run.id);
    LedgersGrow(h, i, j);
    BackedStays(h[i].db, h[j].db, base, run, owner);
    if Mine(h[j].db, run.id, owner) {
      assert h[..j + 1] == h;
      OthersKeepMine(h, i, j, run.id, owner);
    }
  }

  /** An owner id that only this process uses is not presented by the others. */
  lemma {:induction false} OthersDoNotIssue(h: seq<Entry>, i: nat, j: nat, owner: string)
    requires Good(h) && i <= j < |h| && ByOthers(h, i + 1, owner) && owner !in h[i].db.issued
    ensures owner !in h[j].db.issued
    decreases j
  {
    if i < j {
      OthersDoNotIssue(h, i, j - 1, owner);
      GoodAt(h, j);
    }
  }

  lemma FailureKeepsTables(db: Db, c: Call)
    requires Outcome(db, c).Failure?
    ensures Apply(db, c).runs == db.runs && Apply(db, c).now == c.at && db.issued <= Apply(db, c).issued
  {
  }

  /** A renewal that the store refuses was of a lease that is lost or expired. */
  lemma RefusedRenewalIsLost(db: Db, c: Call)
    requires RunsOk(db) && c.op.Renew? && c.op.id in db.runs && 1 <= c.op.timeout <= 3600 && c.op.owner != ""
    requires Outcome(db, c).Failure?
    ensures Mine(db, c.op.id, c.op.owner) ==> db.runs[c.op.id].checkpoint.lease.lease.expires <= c.at
  {
  }

  /** A successful renewal is of the caller's own lease, and replaces nothing but it. */
  lemma RenewalStores(db: Db, c: Call)
    requires c.op.Renew? && Outcome(db, c).Success?
    ensures Mine(db, c.op.id, c.op.owner) && Mine(Apply(db, c), c.op.id, c.op.owner)
    ensures var slot := Apply(db, c).runs[c.op.id].checkpoint.lease;
      slot.Held? && Apply(db, c).runs[c.op.id] == WithLease(db.runs[c.op.id], slot)
  {
  }

  lemma BackedIgnoresLease(db: Db, base: Run, run: Run, slot: LeaseSlot, owner: string)
    requires Backed(db, base, run, owner)
    ensures Backed(db, WithLease(base, slot), run, owner) && Backed(db, WithLease(base, slot), WithLease(run, slot), owner)
  {
    hide HasReceipt, HasConsumed;
  }

  lemma OwnRenewKeeps(db: Db, e: Entry, run: Run, owner: string, base: Run)
    requires RunsOk(db) && GoodStep(db, e) && Knowing(db, run, owner, base) && owner != ""
    requires e.call.op.Renew? && e.call.op.id == run.id && e.call.op.owner == owner && 1 <= e.call.op.timeout <= 3600
    ensures run.id in e.db.runs
    ensures Outcome(db, e.call).Success? ==>
      var slot := e.db.runs[run.id].checkpoint.lease;
      && Mine(e.db, run.id, owner) && e.db.runs[run.id] == WithLease(base, slot)
      && Knowing(e.db, WithLease(run, slot), owner, WithLease(base, slot))
      && Knowing(e.db, run, owner, WithLease(base, slot))
      && Synced(e.db, WithLease(run, slot), owner)
    ensures Outcome(db, e.call).Failure? ==> Knowing(e.db, run, owner, base) && Synced(e.db, run, owner)
  {
    hide Apply, Outcome, GoodUpdate, Backed, RunOk, UpdateLeaseError;
    IssuedGrow(db, e.call);
    StepGrows(db, e.call);
    BackedStays(db, e.db, base, run, owner);
    if Outcome(db, e.call).Success? {
      RenewalStores(db, e.call);
      var slot := e.db.runs[run.id].checkpoint.lease;
      GoodUpdateIgnoresBaseLease(base, run, slot);
      BackedIgnoresLease(e.db, base, run, slot, owner);
    } else {
      FailureKeepsTables(db, e.call);
      RefusedRenewalIsLost(db, e.call);
    }
  }

  /** An update of a process that is in sync is refused only for a lost lease or a moved version. */
  lemma OwnUpdateOutcome(db: Db, e: Entry, run: Run, owner: string, base: Run)
    requires GoodStep(db, e) && Knowing(db, run, owner, base) && Synced(db, run, owner)
    requires e.call.op == Update(run, run.version, Some(owner))
    ensures Outcome(db, e.call).Failure? ==> Outcome(db, e.call).error in {LeaseLost, VersionConflict, LeaseInvalid}
    ensures Outcome(db, e.call).Failure? && RunsOk(db) ==> Outcome(db, e.call).error != LeaseInvalid
    ensures Outcome(db, e.call).Success? ==> Apply(db, e.call).runs[run.id] == run.(version := run.version + 1)
  {
    hide GraphOk, WithinBudget, CountsStep;
  }

  /** Committing a known run is a step that good histories allow. */
  lemma KnownUpdateIsDisciplined(db: Db, run: Run, owner: string, base: Run)
    requires Knowing(db, run, owner, base)
    ensures Disciplined(db, Update(run, run.version, Some(owner)))
  {
    hide GoodUpdate, Backed;
  }

  lemma GoodUpdateRefl(run: Run)
    requires RunOk(run)
    ensures GoodUpdate(run, run)
  {
  }

  lemma NextVersionOk(base: Run, run: Run)
    requires GoodUpdate(base, run)
    ensures RunOk(run.(version := run.version + 1))
  {
  }

  lemma OwnUpdateKeeps(db: Db, e: Entry, run: Run, owner: string, base: Run)
    requires RunsOk(db) && GoodStep(db, e) && Knowing(db, run, owner, base) && Synced(db, run, owner)
    requires e.call.op == Update(run, run.version, Some(owner))
    ensures run.id in e.db.runs
    ensures Outcome(db, e.call).Success? ==>
      var stored := run.(version := run.version + 1);
      e.db.runs[run.id] == stored && Knowing(e.db, stored, owner, stored) && Synced(e.db, stored, owner)
    ensures Outcome(db, e.call).Failure? ==> Knowing(e.db, run, owner, base) && Synced(e.db, run, owner)
  {
    RowsStay(db, e.call, run.id);
    OwnUpdateOutcome(db, e, run, owner, base);
    NextVersionOk(base, run);
    GoodUpdateRefl(run.(version := run.version + 1));
    assert e.db.now == e.call.at && db.issued <= e.db.issued;
    if Outcome(db, e.call).Failure? { FailureKeepsTables(db, e.call); }
    hide Apply, Outcome, GoodUpdate, RunOk;
  }

  /** Appending an event or a receipt, or consuming a token, leaves every row, hence all knowledge, as it was. */
  lemma OwnWriteKeeps(db: Db, e: Entry, run: Run, owner: string, base: Run)
    requires GoodStep(db, e) && Knowing(db, run, owner, base)
    requires e.call.op.AppendEvent? || e.call.op.Archive? || e.call.op.Consume?
    ensures Knowing(e.db, run, owner, base)
    ensures Synced(db, run, owner) ==> Synced(e.db, run, owner)
  {
    hide Apply, Outcome, GoodUpdate, Backed, Disciplined;
    WritesKeepRows(db, e.call);
    StepGrows(db, e.call);
    BackedStays(db, e.db, base, run, owner);
  }

  /** A successful claim with a fresh owner id is the beginning of knowledge. */
  lemma ClaimBeginsKnowledge(db: Db, e: Entry, id: string, owner: string)
    requires RunsOk(db) && GoodStep(db, e)
    requires e.call.op.Claim? && e.call.op.id == id && e.call.op.owner == owner && Outcome(db, e.call).Success?
    ensures id in e.db.runs && e.db.runs[id].id == id
    ensures Mine(e.db, id, owner) && Knowing(e.db, e.db.runs[id], owner, e.db.runs[id]) && Synced(e.db, e.db.runs[id], owner)
  {
    StepKeepsRow(db, e, id);
    GoodUpdateRefl(e.db.runs[id]);
    hide RunOk, GoodUpdate;
  }

  lemma KnownFacts(db: Db, run: Run, owner: string, base: Run)
    requires Knowing(db, run, owner, base)
    ensures FactsOk(run) && !run.checkpoint.lease.Malformed?
    ensures base.checkpoint.projectCommitted ==> run.checkpoint.projectCommitted
    ensures GraphOk(run.header.project, run.graph, run.checkpoint.reassignments)
    ensures WithinBudget(run.header.project, run.checkpoint.reassignments, run.header.maxReassignments)
  {
    hide GraphOk, WithinBudget;
  }

  /** While the lease is stored, so is the base. */
  lemma KnownRow(db: Db, run: Run, owner: string, base: Run)
    requires Knowing(db, run, owner, base)
    ensures owner in db.issued && run.id in db.runs
    ensures Mine(db, run.id, owner) ==> db.runs[run.id] == base
  {
    hide GoodUpdate, Backed;
  }

  lemma KnownRunIsStored(db: Db, run: Run, owner: string, base: Run)
    requires Knowing(db, run, owner, base)
    ensures run.id in db.runs
  {
  }

  /** The local run moves on without touching its lease, its graph or its counts. */
  ghost predicate LocalMove(run: Run, run': Run) {
    && run'.id == run.id && run'.header == run.header && run'.version == run.version && run'.graph == run.graph
    && run'.checkpoint.lease == run.checkpoint.lease
    && run'.checkpoint.reassignments == run.checkpoint.reassignments
    && (run'.state == Provisioning ==> run.state == Provisioning)
    && (run.checkpoint.projectCommitted ==> run'.checkpoint.projectCommitted)
    && (run.checkpoint.grantCommitted ==> run'.checkpoint.grantCommitted)
    && (run.checkpoint.finalCommitted ==> run'.checkpoint.finalCommitted)
  }

  lemma LocalMoveKeepsKnowledge(db: Db, run: Run, run': Run, owner: string, base: Run)
    requires Knowing(db, run, owner, base) && LocalMove(run, run') && FactsOk(run') && Backed(db, run, run', owner)
    ensures Knowing(db, run', owner, base)
    ensures Synced(db, run, owner) ==> Synced(db, run', owner)
  {
    hide GraphOk, WithinBudget, HasReceipt, HasConsumed;
  }

  /** A failed confirmation leaves the run as it was before the local change. */
  lemma UnconfirmedKnows(db: Db, run: Run, confirmed: Run, owner: string, base: Run)
    requires Knowing(db, confirmed, owner, base) && !run.checkpoint.lease.Malformed? && FactsOk(run)
    requires confirmed == run.(checkpoint := run.checkpoint.(projectCommitted := true, lease := confirmed.checkpoint.lease))
    requires base.checkpoint.projectCommitted ==> run.checkpoint.projectCommitted
    ensures Knowing(db, run, owner, base)
  {
    hide GraphOk, WithinBudget;
  }

  /** The local run moves to another graph of the same counts. */
  lemma {:induction false} GraphMoveKeepsKnowledge(db: Db, run: Run, graph: seq<Task>, owner: string, base: Run)
    requires Knowing(db, run, owner, base)
    requires GraphOk(run.header.project, graph, run.checkpoint.reassignments)
    ensures Knowing(db, run.(graph := graph), owner, base)
    ensures Synced(db, run, owner) ==> Synced(db, run.(graph := graph), owner)
  {
    hide GraphOk, WithinBudget;
  }

  /** The local run is still at the committed plan: same graph, same counts. */
  ghost predicate SamePlan(base: Run, run: Run) {
    run.graph == base.graph && run.checkpoint.reassignments == base.checkpoint.reassignments
  }

  function ReassignedRun(run: Run, t: Task, worker: string, status: string): Run {
    var counts := run.checkpoint.reassignments;
    run.(graph := Reassigned(run.graph, t, CountOf(counts, OriginOf(t)), worker, status),
         checkpoint := run.checkpoint.(reassignments := Bumped(counts, t)))
  }

  lemma BumpWithinBudget(p: Project, counts: Counts, present: set<nat>, t: Task, limit: nat)
    requires ProjectOk(p) && TaskOk(p, counts, present, t)
    requires WithinBudget(p, counts, limit) && CountOf(counts, OriginOf(t)) < limit
    ensures WithinBudget(p, Bumped(counts, t), limit)
  {
    forall s: nat | s < |p.plan| { CountStep(p, counts, present, t, s); }
  }

  /** The graph and the counts of a reassignment within its budget. */
  lemma ReassignedPlanOk(run: Run, t: Task, worker: string, status: string)
    requires GraphOk(run.header.project, run.graph, run.checkpoint.reassignments)
    requires WithinBudget(run.header.project, run.checkpoint.reassignments, run.header.maxReassignments)
    requires EffectiveTaskOk(run.header.project, run.graph, run.checkpoint.reassignments, All(run.header.project), t)
    requires CountOf(run.checkpoint.reassignments, OriginOf(t)) < run.header.maxReassignments
    ensures t in run.graph
    ensures var next := ReassignedRun(run, t, worker, status);
      && GraphOk(run.header.project, next.graph, next.checkpoint.reassignments)
      && WithinBudget(run.header.project, next.checkpoint.reassignments, run.header.maxReassignments)
  {
    hide GraphOk, WithinBudget, Reassigned, Bumped, Stages;
    var p, counts := run.header.project, run.checkpoint.reassignments;
    GraphPlanOk(p, run.graph, counts);
    hide ProjectOk;
    ReassignKeepsGraph(p, run.graph, counts, t, worker, status);
    BumpWithinBudget(p, counts, Stages(run.graph), t, run.header.maxReassignments);
  }

  /** Reassigning a newest task within its budget is a good update of the committed row. */
  lemma ReassignKeepsKnowledge(db: Db, run: Run, t: Task, worker: string, status: string, owner: string, base: Run)
    requires Knowing(db, run, owner, base) && SamePlan(base, run)
    requires EffectiveTaskOk(run.header.project, run.graph, run.checkpoint.reassignments, All(run.header.project), t)
    requires CountOf(run.checkpoint.reassignments, OriginOf(t)) < run.header.maxReassignments
    ensures var run' := ReassignedRun(run, t, worker, status);
      Knowing(db, run', owner, base) && (Synced(db, run, owner) ==> Synced(db, run', owner))
  {
    hide GraphOk, WithinBudget, EffectiveTaskOk, Reassigned, Bumped, CountOf, EnvelopeOk, HasReceipt, HasConsumed;
    ReassignedPlanOk(run, t, worker, status);
    assert CountsStep(base, ReassignedRun(run, t, worker, status)) by {
      assert t in base.graph;
    }
  }
}
