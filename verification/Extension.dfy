/**
 The extension stream of a run: typed evidence events behind a write-once
 campaign binding, with the task-lease and evaluator rows that belong to its
 admission events.  Everything a transaction reads or writes is one run's, apart
 from the event ids, which are unique over all runs.
 */
module Extension {
  import opened Wrappers
  import opened HashChain

  // ---------------------------------------------------------------- payloads

  datatype CampaignBinding = CampaignBinding(
    campaign: string, configuration: Option<string>, phaseOwner: string, problem: string,
    turn: int, generation: int, manifest: string, postSelection: string, policy: string,
    requirements: string, checkpoint: string, watermark: int)

  // The `body` of a payload stands for all fields that the store does not read.
  datatype Effect = Effect(project: string, task: string, checkpoint: string, policy: string, body: string)

  datatype Assessment = Assessment(systemStage: bool, high: bool, body: string)

  datatype Guardian = Guardian(system: Assessment, body: string)

  datatype Safety = Safety(effect: Effect, guardian: Guardian, body: string)

  datatype Attention = Attention(
    project: string, task: string, turn: int, generation: int, requirements: string,
    checkpoint: string, policy: string, watermark: int, body: string)

  datatype Projection = Projection(
    project: string, task: string, sources: seq<string>, guardian: Option<Guardian>, safety: Option<Safety>, body: string)

  datatype TaskLease = TaskLease(authority: CampaignBinding, project: string, task: string, keyId: string, issuer: string, signature: string, body: string)

  datatype Evaluation = SealedEvaluation(task: string, privateMaterial: bool, body: string)

  /** The event type together with the canonical bytes of its payload. */
  datatype Payload =
    | CanonicalEffect(effect: Effect)
    | SystemRisk(assessment: Assessment)
    | GuardianDecision(guardian: Guardian)
    | SafetyDecision(safety: Safety)
    | AttentionPacket(packet: Attention)
    | StatusProjection(projection: Projection)
    | LeaseAdmission(lease: TaskLease)
    | EvaluatorAdmission(evaluation: Evaluation)

  datatype PayloadDigest = Digested(payload: Payload)

  datatype ExtFields = ExtFields(
    sequence: int, eventId: string, key: string, digest: PayloadDigest, watermark: int, createdAt: int)

  /** One stored event: the payload column beside the columns under the event hash. */
  datatype ExtRow = ExtRow(payload: Payload, row: Row<ExtFields>)

  datatype LeaseRow = LeaseRow(
    sequence: int, key: string, lease: TaskLease, digest: PayloadDigest,
    previous: Hash<ExtFields>, stream: Hash<ExtFields>, createdAt: int)

  datatype Metadata = Metadata(signature: string, keyId: string, issuer: string)

  datatype EvaluatorRow = EvaluatorRow(
    sequence: int, key: string, task: string, evaluation: Evaluation, metadata: Metadata, digest: PayloadDigest,
    previous: Hash<ExtFields>, stream: Hash<ExtFields>, createdAt: int)

  /** All extension state of one run. */
  datatype RunExt = RunExt(
    project: string, binding: Option<CampaignBinding>, stream: seq<ExtRow>,
    leases: map<string, LeaseRow>, evaluators: map<string, EvaluatorRow>)

  type ExtDb = map<string, RunExt>

  datatype ExtError =
    | RunNotFound | RunExists | BindingConflict | BindingRequired | FutureWatermark | IdempotencyConflict
    | KeyEmpty | StageInvalid | EffectMismatch | GuardianOrder | SafetyUnadmitted | AttentionMismatch
    | ProjectionMismatch | SourceUnadmitted | LeaseRequired | LeaseMismatch | LeaseConflict
    | EvaluationInvalid | EvaluatorConflict | ConstraintViolated

  // ---------------------------------------------------------------- admission rules

  ghost predicate HasPayload(stream: seq<ExtRow>, payload: Payload) {
    exists i :: 0 <= i < |stream| && stream[i].payload == payload
  }

  predicate HasExact(stream: seq<ExtRow>, payload: Payload)
    ensures HasExact(stream, payload) <==> HasPayload(stream, payload)
  {
    exists i :: 0 <= i < |stream| && stream[i].payload == payload
  }

  function EventIdAt(stream: seq<ExtRow>, i: nat): string
    requires i < |stream|
  {
    stream[i].row.fields.eventId
  }

  /** The number of events whose id is among the cited ones. */
  function CountCited(stream: seq<ExtRow>, ids: seq<string>): nat {
    if stream == [] then 0
    else CountCited(stream[..|stream| - 1], ids) + (if EventIdAt(stream, |stream| - 1) in ids then 1 else 0)
  }

  /** Why an event may not enter a bound run's stream now. */
  function AdmissionError(rx: RunExt, payload: Payload, watermark: int): Option<ExtError>
    requires rx.binding.Some?
  {
    var b := rx.binding.value;
    match payload
    case CanonicalEffect(e) =>
      if e.project != rx.project || e.checkpoint != b.checkpoint || e.policy != b.policy then Some(EffectMismatch)
      else if e.task !in rx.leases then Some(LeaseRequired) else None
    case SystemRisk(_) => None
    case GuardianDecision(g) =>
      if !g.system.high || !HasExact(rx.stream, SystemRisk(g.system)) then Some(GuardianOrder) else None
    case SafetyDecision(s) =>
      if !HasExact(rx.stream, CanonicalEffect(s.effect)) || !HasExact(rx.stream, GuardianDecision(s.guardian))
      then Some(SafetyUnadmitted) else None
    case AttentionPacket(a) =>
      if a.project != rx.project || a.turn != b.turn || a.generation != b.generation || a.requirements != b.requirements
        || a.checkpoint != b.checkpoint || a.policy != b.policy || a.watermark != watermark
      then Some(AttentionMismatch)
      else if a.task !in rx.leases then Some(LeaseRequired) else None
    case StatusProjection(p) =>
      if p.project != rx.project then Some(ProjectionMismatch)
      else if p.task !in rx.leases then Some(LeaseRequired)
      else if CountCited(rx.stream, p.sources) != |p.sources| then Some(SourceUnadmitted)
      else if p.guardian.Some? && !HasExact(rx.stream, GuardianDecision(p.guardian.value)) then Some(SourceUnadmitted)
      else if p.safety.Some? && !HasExact(rx.stream, SafetyDecision(p.safety.value)) then Some(SourceUnadmitted)
      else None
    case LeaseAdmission(_) => None
    case EvaluatorAdmission(_) => None
  }

  /** The event of a stream under an idempotency key. */
  function FindKey(stream: seq<ExtRow>, key: string): (r: Option<ExtRow>)
    ensures r.Some? ==> r.value in stream && r.value.row.fields.key == key
    ensures r.None? ==> forall i :: 0 <= i < |stream| ==> stream[i].row.fields.key != key
  {
    if stream == [] then None
    else if stream[|stream| - 1].row.fields.key == key then Some(stream[|stream| - 1])
    else FindKey(stream[..|stream| - 1], key)
  }

  function StreamRows(stream: seq<ExtRow>): (rows: seq<Row<ExtFields>>)
    ensures |rows| == |stream| && forall i :: 0 <= i < |rows| ==> rows[i] == stream[i].row
  {
    seq(|stream|, i requires 0 <= i < |stream| => stream[i].row)
  }

  function NextRow(stream: seq<ExtRow>, run: string, payload: Payload, key: string, watermark: int, eventId: string, at: int): ExtRow {
    ExtRow(payload, Seal(run, ExtFields(|stream| + 1, eventId, key, Digested(payload), watermark, at), Head(StreamRows(stream))))
  }

  /** A new event or the replay of a stored one; `taken` says that some event of some run has the id already. */
  function AppendBytes(rx: RunExt, run: string, payload: Payload, key: string, watermark: int, eventId: string, taken: bool, at: int)
    : (r: Result<(RunExt, ExtRow), ExtError>)
    ensures r.Success? ==> rx.binding.Some? && r.value.1.payload == payload && r.value.1.row.fields.key == key
  {
    if rx.binding.None? then Failure(BindingRequired)
    else if watermark > rx.binding.value.watermark then Failure(FutureWatermark)
    else
      var existing := FindKey(rx.stream, key);
      if existing.Some? then
        if existing.value.payload != payload || existing.value.row.fields.watermark != watermark then Failure(IdempotencyConflict)
        else Success((rx, existing.value))
      else
        var error := AdmissionError(rx, payload, watermark);
        if error.Some? then Failure(error.value)
        else if taken || watermark < 0 then Failure(ConstraintViolated)
        else
          var x := NextRow(rx.stream, run, payload, key, watermark, eventId, at);
          Success((rx.(stream := rx.stream + [x]), x))
  }

  predicate SequenceOrKeyTaken<R>(rows: map<string, R>, sequence: R -> int, key: R -> string, x: ExtRow) {
    exists k :: k in rows && (sequence(rows[k]) == x.row.fields.sequence || key(rows[k]) == x.row.fields.key)
  }

  // ---------------------------------------------------------------- transactions

  datatype ExtCall =
    | Register(run: string, project: string)
    | BindCampaign(run: string, binding: CampaignBinding)
    | AppendTyped(run: string, payload: Payload, key: string, watermark: int, eventId: string, at: int)
    | StoreLease(run: string, lease: TaskLease, key: string, eventId: string, at: int)
    | BindEvaluation(run: string, bindingId: string, task: string, evaluation: Evaluation, metadata: Metadata, key: string, eventId: string, at: int)

  predicate Taken(db: ExtDb, eventId: string) {
    exists run :: run in db && exists i :: 0 <= i < |db[run].stream| && EventIdAt(db[run].stream, i) == eventId
  }

  function LeaseRowOf(x: ExtRow, lease: TaskLease): LeaseRow {
    LeaseRow(x.row.fields.sequence, x.row.fields.key, lease, x.row.fields.digest, x.row.previous, x.row.hash, x.row.fields.createdAt)
  }

  /** The lease table's answer to an admission event: the stored row, a conflict, or a new row. */
  function InsertLease(rx: RunExt, x: ExtRow, lease: TaskLease): Result<(RunExt, LeaseRow), ExtError> {
    if lease.task in rx.leases then
      if rx.leases[lease.task].sequence != x.row.fields.sequence then Failure(LeaseConflict)
      else Success((rx, rx.leases[lease.task]))
    else if SequenceOrKeyTaken(rx.leases, (r: LeaseRow) => r.sequence, (r: LeaseRow) => r.key, x) then Failure(ConstraintViolated)
    else Success((rx.(leases := rx.leases[lease.task := LeaseRowOf(x, lease)]), LeaseRowOf(x, lease)))
  }

  function StoreLeaseOutcome(rx: RunExt, run: string, lease: TaskLease, key: string, eventId: string, taken: bool, at: int)
    : Result<(RunExt, LeaseRow), ExtError>
  {
    if rx.binding.None? then Failure(BindingRequired)
    else if lease.authority != rx.binding.value || lease.project != rx.project then Failure(LeaseMismatch)
    else
      var appended := AppendBytes(rx, run, LeaseAdmission(lease), key, lease.authority.watermark, eventId, taken, at);
      if appended.Failure? then Failure(appended.error) else InsertLease(appended.value.0, appended.value.1, lease)
  }

  function EvaluatorRowOf(x: ExtRow, task: string, evaluation: Evaluation, metadata: Metadata): EvaluatorRow {
    EvaluatorRow(x.row.fields.sequence, x.row.fields.key, task, evaluation, metadata,
                 x.row.fields.digest, x.row.previous, x.row.hash, x.row.fields.createdAt)
  }

  predicate EvaluationRequestOk(c: ExtCall)
    requires c.BindEvaluation?
  {
    && c.bindingId != "" && c.task != "" && c.metadata.signature != "" && c.metadata.keyId != "" && c.metadata.issuer != ""
    && c.key != "" && !c.evaluation.privateMaterial && c.evaluation.task == c.task
  }

  /** The evaluator table's answer to an admission event. */
  function InsertEvaluator(rx: RunExt, x: ExtRow, c: ExtCall): Result<(RunExt, EvaluatorRow), ExtError>
    requires c.BindEvaluation?
  {
    if c.bindingId in rx.evaluators then
      if rx.evaluators[c.bindingId].sequence != x.row.fields.sequence then Failure(EvaluatorConflict)
      else Success((rx, rx.evaluators[c.bindingId]))
    else if SequenceOrKeyTaken(rx.evaluators, (r: EvaluatorRow) => r.sequence, (r: EvaluatorRow) => r.key, x) then Failure(ConstraintViolated)
    else
      var row := EvaluatorRowOf(x, c.task, c.evaluation, c.metadata);
      Success((rx.(evaluators := rx.evaluators[c.bindingId := row]), row))
  }

  function BindEvaluationOutcome(rx: RunExt, c: ExtCall, taken: bool): Result<(RunExt, EvaluatorRow), ExtError>
    requires c.BindEvaluation?
  {
    if rx.binding.None? then Failure(BindingRequired)
    else if c.task !in rx.leases then Failure(LeaseRequired)
    else
      var appended := AppendBytes(rx, c.run, EvaluatorAdmission(c.evaluation), c.key, rx.binding.value.watermark, c.eventId, taken, c.at);
      if appended.Failure? then Failure(appended.error) else InsertEvaluator(appended.value.0, appended.value.1, c)
  }

  /** The new state of the run that a call concerns, or the error that rolls everything back. */
  function RunOutcome(rx: RunExt, c: ExtCall, taken: bool): Result<RunExt, ExtError>
    requires !c.Register?
  {
    match c
    case BindCampaign(_, b) =>
      if rx.binding.None? then Success(rx.(binding := Some(b)))
      else if rx.binding.value != b then Failure(BindingConflict) else Success(rx)
    case AppendTyped(run, payload, key, watermark, eventId, at) =>
      if key == "" then Failure(KeyEmpty)
      else if payload.LeaseAdmission? || payload.EvaluatorAdmission? || (payload.SystemRisk? && !payload.assessment.systemStage)
      then Failure(StageInvalid)
      else
        var r := AppendBytes(rx, run, payload, key, watermark, eventId, taken, at);
        if r.Success? then Success(r.value.0) else Failure(r.error)
    case StoreLease(run, lease, key, eventId, at) =>
      var r := StoreLeaseOutcome(rx, run, lease, key, eventId, taken, at);
      if r.Success? then Success(r.value.0) else Failure(r.error)
    case BindEvaluation(_, _, _, _, _, _, _, _) =>
      if !EvaluationRequestOk(c) then Failure(EvaluationInvalid)
      else
        var r := BindEvaluationOutcome(rx, c, taken);
        if r.Success? then Success(r.value.0) else Failure(r.error)
  }

  predicate IdTaken(c: ExtCall, db: ExtDb)
    requires !c.Register?
  {
    !c.BindCampaign? && Taken(db, c.eventId)
  }

  function ExtApply(db: ExtDb, c: ExtCall): ExtDb {
    if c.Register? then (if c.run in db then db else db[c.run := RunExt(c.project, None, [], map[], map[])])
    else if c.run !in db then db
    else
      var r := RunOutcome(db[c.run], c, IdTaken(c, db));
      if r.Success? then db[c.run := r.value] else db
  }

  /** The tables after a list of calls, whoever makes them, starting from nothing. */
  function After(calls: seq<ExtCall>): ExtDb {
    if calls == [] then map[] else ExtApply(After(calls[..|calls| - 1]), calls[|calls| - 1])
  }
}
