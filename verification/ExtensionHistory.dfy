/** What holds of the extension tables after every sequence of calls. */
module ExtensionHistory {
  import opened Wrappers
  import opened HashChain
  import opened Extension
  import opened Sequences

  // ---------------------------------------------------------------- causal closure

  ghost predicate HasLease(before: seq<ExtRow>, task: string) {
    exists i :: 0 <= i < |before| && before[i].payload.LeaseAdmission? && before[i].payload.lease.task == task
  }

  ghost predicate Cites(before: seq<ExtRow>, id: string) {
    exists i :: 0 <= i < |before| && EventIdAt(before, i) == id
  }

  ghost predicate AllCited(before: seq<ExtRow>, ids: seq<string>) {
    forall i :: 0 <= i < |ids| ==> Cites(before, ids[i])
  }

  /** Everything that an event rests on was admitted before it. */
  ghost predicate Closed(project: string, b: CampaignBinding, before: seq<ExtRow>, payload: Payload, watermark: int) {
    match payload
    case CanonicalEffect(e) =>
      e.project == project && e.checkpoint == b.checkpoint && e.policy == b.policy && HasLease(before, e.task)
    case SystemRisk(a) => a.systemStage
    case GuardianDecision(g) => g.system.high && HasPayload(before, SystemRisk(g.system))
    case SafetyDecision(s) =>
      HasPayload(before, CanonicalEffect(s.effect)) && HasPayload(before, GuardianDecision(s.guardian))
    case AttentionPacket(a) =>
      && a.project == project && a.turn == b.turn && a.generation == b.generation && a.requirements == b.requirements
      && a.checkpoint == b.checkpoint && a.policy == b.policy && a.watermark == watermark && HasLease(before, a.task)
    case StatusProjection(p) =>
      && p.project == project && HasLease(before, p.task) && Distinct(p.sources) && AllCited(before, p.sources)
      && (p.guardian.Some? ==> HasPayload(before, GuardianDecision(p.guardian.value)))
      && (p.safety.Some? ==> HasPayload(before, SafetyDecision(p.safety.value)))
    case LeaseAdmission(l) => l.authority == b && l.project == project && watermark == b.watermark
    case EvaluatorAdmission(e) => HasLease(before, e.task) && watermark == b.watermark
  }

  ghost predicate RowOk(project: string, b: CampaignBinding, run: string, before: seq<ExtRow>, x: ExtRow) {
    && x.row.run == run && x.row.fields.sequence == |before| + 1 && x.row.fields.digest == Digested(x.payload)
    && 0 <= x.row.fields.watermark <= b.watermark
    && Closed(project, b, before, x.payload, x.row.fields.watermark)
  }

  ghost predicate DistinctKeys(s: seq<ExtRow>) {
    forall i, j :: 0 <= i < j < |s| ==> s[i].row.fields.key != s[j].row.fields.key
  }

  ghost predicate DistinctExtIds(s: seq<ExtRow>) {
    forall i, j :: 0 <= i < j < |s| ==> EventIdAt(s, i) != EventIdAt(s, j)
  }

  ghost predicate RowsOk(project: string, b: CampaignBinding, run: string, s: seq<ExtRow>) {
    forall i :: 0 <= i < |s| ==> RowOk(project, b, run, s[..i], s[i])
  }

  ghost predicate StreamOk(project: string, b: CampaignBinding, run: string, s: seq<ExtRow>) {
    RowsOk(project, b, run, s) && ChainValid(StreamRows(s)) && DistinctKeys(s) && DistinctExtIds(s)
  }

  // ---------------------------------------------------------------- rows and their admission events

  /** A lease row is the image of the admission event at its sequence. */
  ghost predicate LeaseMatches(s: seq<ExtRow>, task: string, r: LeaseRow) {
    && 1 <= r.sequence <= |s| && s[r.sequence - 1].payload == LeaseAdmission(r.lease)
    && r.lease.task == task && r == LeaseRowOf(s[r.sequence - 1], r.lease)
  }

  ghost predicate LeaseStored(s: seq<ExtRow>, leases: map<string, LeaseRow>, i: nat)
    requires i < |s|
  {
    s[i].payload.LeaseAdmission? ==> s[i].payload.lease.task in leases && leases[s[i].payload.lease.task].sequence == i + 1
  }

  /** Lease rows and lease admission events correspond one to one. */
  ghost predicate LeasesOk(s: seq<ExtRow>, leases: map<string, LeaseRow>) {
    && (forall task :: task in leases ==> LeaseMatches(s, task, leases[task]))
    && (forall i :: 0 <= i < |s| ==> LeaseStored(s, leases, i))
  }

  ghost predicate EvaluatorMatches(s: seq<ExtRow>, leases: map<string, LeaseRow>, r: EvaluatorRow) {
    && 1 <= r.sequence <= |s| && s[r.sequence - 1].payload == EvaluatorAdmission(r.evaluation)
    && r == EvaluatorRowOf(s[r.sequence - 1], r.task, r.evaluation, r.metadata)
    && r.task == r.evaluation.task && r.task in leases && leases[r.task].sequence < r.sequence
  }

  ghost predicate EvaluatorAt(evaluators: map<string, EvaluatorRow>, sequence: int) {
    exists id :: id in evaluators && evaluators[id].sequence == sequence
  }

  ghost predicate EvaluatorStored(s: seq<ExtRow>, evaluators: map<string, EvaluatorRow>, i: nat)
    requires i < |s|
  {
    s[i].payload.EvaluatorAdmission? ==> EvaluatorAt(evaluators, i + 1)
  }

  /** Evaluator rows and evaluator admission events correspond one to one. */
  ghost predicate EvaluatorsOk(s: seq<ExtRow>, leases: map<string, LeaseRow>, evaluators: map<string, EvaluatorRow>) {
    && (forall id :: id in evaluators ==> EvaluatorMatches(s, leases, evaluators[id]))
    && (forall i :: 0 <= i < |s| ==> EvaluatorStored(s, evaluators, i))
    && DistinctSequences(evaluators)
  }

  ghost predicate DistinctSequences(evaluators: map<string, EvaluatorRow>) {
    forall id, id' :: id in evaluators && id' in evaluators && id != id' ==> evaluators[id].sequence != evaluators[id'].sequence
  }

  ghost predicate RunExtOk(run: string, rx: RunExt) {
    if rx.binding.None? then rx.stream == [] && rx.leases == map[] && rx.evaluators == map[]
    else
      && StreamOk(rx.project, rx.binding.value, run, rx.stream)
      && LeasesOk(rx.stream, rx.leases)
      && EvaluatorsOk(rx.stream, rx.leases, rx.evaluators)
  }

  // ---------------------------------------------------------------- the source-count check

  ghost function CitedIds(s: seq<ExtRow>, ids: seq<string>): set<string> {
    set id | id in ids && Cites(s, id)
  }

  lemma {:induction false} CountCitedIsSize(s: seq<ExtRow>, ids: seq<string>)
    requires DistinctExtIds(s)
    ensures CountCited(s, ids) == |CitedIds(s, ids)|
  {
    if s == [] {
      assert CitedIds(s, ids) == {};
    } else {
      var n := |s| - 1;
      var rest, id := s[..n], EventIdAt(s, n);
      CitesLast(s);
      CountCitedIsSize(rest, ids);
      hide Cites;
      assert CitedIds(s, ids) == CitedIds(rest, ids) + (if id in ids then {id} else {});
    }
  }

  /** The last event adds its id to the cited ones. */
  lemma {:induction false} CitesLast(s: seq<ExtRow>)
    requires DistinctExtIds(s) && s != []
    ensures var rest, id := s[..|s| - 1], EventIdAt(s, |s| - 1);
      DistinctExtIds(rest) && !Cites(rest, id) && forall x :: Cites(s, x) <==> Cites(rest, x) || x == id
  {
    var n := |s| - 1;
    var rest, id := s[..n], EventIdAt(s, n);
    forall i | 0 <= i < n ensures EventIdAt(rest, i) == EventIdAt(s, i) {}
    forall x ensures Cites(s, x) <==> Cites(rest, x) || x == id {
      if Cites(rest, x) {
        var i :| 0 <= i < n && EventIdAt(rest, i) == x;
        assert EventIdAt(s, i) == x;
      }
      if Cites(s, x) && x != id {
        var i :| 0 <= i < |s| && EventIdAt(s, i) == x;
        assert EventIdAt(rest, i) == x;
      }
    }
  }

  /** The count check admits exactly the projections whose sources are distinct and all stored. */
  lemma {:induction false} CountCheckMeansDistinctAndStored(s: seq<ExtRow>, ids: seq<string>)
    requires DistinctExtIds(s)
    ensures CountCited(s, ids) == |ids| <==> Distinct(ids) && AllCited(s, ids)
  {
    CountCitedIsSize(s, ids);
    CountMeansDistinct(ids);
    var cited, all := CitedIds(s, ids), Elements(ids);
    assert cited <= all;
    assert cited == all <==> AllCited(s, ids) by {
      if AllCited(s, ids) {
        forall id | id in all ensures id in cited {
          var i :| 0 <= i < |ids| && ids[i] == id;
          assert Cites(s, ids[i]);
        }
      }
      if cited == all {
        forall i | 0 <= i < |ids| ensures Cites(s, ids[i]) {
          assert ids[i] in cited;
        }
      }
    }
    SubsetSize(cited, all);
  }

  lemma SubsetSize<T>(a: set<T>, b: set<T>)
    requires a <= b
    ensures |a| <= |b|
    ensures |a| == |b| <==> a == b
  {
    assert b == a + (b - a);
    assert |b| == |a| + |b - a|;
  }

  // ---------------------------------------------------------------- one appended event

  lemma {:induction false} LeaseRowIsEvidence(s: seq<ExtRow>, leases: map<string, LeaseRow>, task: string)
    requires LeasesOk(s, leases) && task in leases
    ensures HasLease(s, task)
  {
    assert LeaseMatches(s, task, leases[task]);
    assert s[leases[task].sequence - 1].payload.LeaseAdmission?;
  }

  /** The task that an event of the stream needs a lease for. */
  function LeasedTask(payload: Payload): Option<string> {
    match payload
    case CanonicalEffect(e) => Some(e.task)
    case AttentionPacket(a) => Some(a.task)
    case StatusProjection(p) => Some(p.task)
    case EvaluatorAdmission(e) => Some(e.task)
    case _ => None
  }

  /** The rules that are not checked at admission, because the calls before it settle them. */
  ghost predicate SettledBefore(rx: RunExt, payload: Payload, watermark: int)
    requires rx.binding.Some?
  {
    match payload
    case SystemRisk(a) => a.systemStage
    case LeaseAdmission(l) => l.authority == rx.binding.value && l.project == rx.project && watermark == rx.binding.value.watermark
    case EvaluatorAdmission(e) => e.task in rx.leases && watermark == rx.binding.value.watermark
    case _ => true
  }

  lemma AdmissionCloses(run: string, rx: RunExt, payload: Payload, watermark: int)
    requires RunExtOk(run, rx) && rx.binding.Some? && SettledBefore(rx, payload, watermark)
    requires AdmissionError(rx, payload, watermark).None?
    ensures Closed(rx.project, rx.binding.value, rx.stream, payload, watermark)
  {
    hide RunExtOk, HasLease, CountCited, Distinct, AllCited, HasPayload;
    var task := LeasedTask(payload);
    if task.Some? && task.value in rx.leases { LeaseIsEvidence(run, rx, task.value); }
    if payload.StatusProjection? { SourcesCheck(run, rx, payload.projection.sources); }
  }

  lemma LeaseIsEvidence(run: string, rx: RunExt, task: string)
    requires RunExtOk(run, rx) && task in rx.leases
    ensures HasLease(rx.stream, task)
  {
    LeaseRowIsEvidence(rx.stream, rx.leases, task);
  }

  lemma {:induction false} SourcesCheck(run: string, rx: RunExt, ids: seq<string>)
    requires RunExtOk(run, rx)
    ensures CountCited(rx.stream, ids) == |ids| <==> Distinct(ids) && AllCited(rx.stream, ids)
  {
    hide LeasesOk, EvaluatorsOk, RowsOk, ChainValid, Distinct, AllCited;
    CountCheckMeansDistinctAndStored(rx.stream, ids);
  }

  lemma {:induction false} StreamRowsSnoc(s: seq<ExtRow>, x: ExtRow)
    ensures StreamRows(s + [x]) == StreamRows(s) + [x.row]
  {
  }

  lemma {:induction false} RowsOkSnoc(project: string, b: CampaignBinding, run: string, s: seq<ExtRow>, x: ExtRow)
    requires RowsOk(project, b, run, s) && RowOk(project, b, run, s, x)
    ensures RowsOk(project, b, run, s + [x])
  {
    hide RowOk;
    var t := s + [x];
    forall i | 0 <= i < |t| ensures RowOk(project, b, run, t[..i], t[i]) {
      assert t[..i] == if i < |s| then s[..i] else s;
    }
  }

  lemma {:induction false} NewRowIsDistinct(s: seq<ExtRow>, x: ExtRow)
    requires DistinctKeys(s) && DistinctExtIds(s)
    requires FindKey(s, x.row.fields.key).None? && !Cites(s, x.row.fields.eventId)
    ensures DistinctKeys(s + [x]) && DistinctExtIds(s + [x])
  {
    var t := s + [x];
    forall i | 0 <= i < |s| ensures EventIdAt(t, i) == EventIdAt(s, i) != x.row.fields.eventId {
      assert !Cites(s, x.row.fields.eventId);
    }
    assert EventIdAt(t, |s|) == x.row.fields.eventId;
  }

  lemma {:induction false} StreamSnoc(project: string, b: CampaignBinding, run: string, s: seq<ExtRow>, payload: Payload, key: string, watermark: int, eventId: string, at: int)
    requires StreamOk(project, b, run, s) && FindKey(s, key).None? && !Cites(s, eventId)
    requires 0 <= watermark <= b.watermark && Closed(project, b, s, payload, watermark)
    ensures StreamOk(project, b, run, s + [NextRow(s, run, payload, key, watermark, eventId, at)])
  {
    hide Closed, ChainValid, DistinctKeys, DistinctExtIds, RowsOk, FindKey, Cites;
    var x := NextRow(s, run, payload, key, watermark, eventId, at);
    StreamRowsSnoc(s, x);
    ChainSnoc(StreamRows(s), run, x.row.fields);
    RowsOkSnoc(project, b, run, s, x);
    NewRowIsDistinct(s, x);
  }

  /** The event x with this payload and key is a stored event of the run, or its new last one. */
  ghost predicate Appended(run: string, rx: RunExt, rx': RunExt, x: ExtRow, payload: Payload, key: string) {
    && rx.binding.Some? && rx' == rx.(stream := rx'.stream)
    && StreamOk(rx'.project, rx'.binding.value, run, rx'.stream)
    && x.payload == payload && x.row.fields.key == key
    && (|| (rx' == rx && 1 <= x.row.fields.sequence <= |rx.stream| && rx.stream[x.row.fields.sequence - 1] == x)
        || (rx'.stream == rx.stream + [x] && x.row.fields.sequence == |rx.stream| + 1))
  }

  /** A successful append replays the stored event or adds the next one, and keeps the stream in order. */
  lemma AppendKeepsStream(run: string, rx: RunExt, payload: Payload, key: string, watermark: int, eventId: string, taken: bool, at: int)
    requires RunExtOk(run, rx) && (rx.binding.Some? ==> SettledBefore(rx, payload, watermark))
    requires Cites(rx.stream, eventId) ==> taken
    requires AppendBytes(rx, run, payload, key, watermark, eventId, taken, at).Success?
    ensures var (rx', x) := AppendBytes(rx, run, payload, key, watermark, eventId, taken, at).value;
      Appended(run, rx, rx', x, payload, key) && (rx' != rx ==> !taken && x.row.fields.eventId == eventId)
  {
    hide RunExtOk, StreamOk, SettledBefore, AdmissionError, FindKey, Cites, Closed;
    BoundStreamOk(run, rx);
    if FindKey(rx.stream, key).Some? {
      StoredEvent(run, rx, FindKey(rx.stream, key).value);
    } else {
      AdmissionCloses(run, rx, payload, watermark);
      StreamSnoc(rx.project, rx.binding.value, run, rx.stream, payload, key, watermark, eventId, at);
    }
  }

  lemma BoundStreamOk(run: string, rx: RunExt)
    requires RunExtOk(run, rx) && rx.binding.Some?
    ensures StreamOk(rx.project, rx.binding.value, run, rx.stream)
  {
  }

  /** A stored event sits at the position that its sequence number says. */
  lemma StoredEvent(run: string, rx: RunExt, x: ExtRow)
    requires RunExtOk(run, rx) && x in rx.stream
    ensures 1 <= x.row.fields.sequence <= |rx.stream| && rx.stream[x.row.fields.sequence - 1] == x
  {
    var i :| 0 <= i < |rx.stream| && rx.stream[i] == x;
    assert RowOk(rx.project, rx.binding.value, run, rx.stream[..i], rx.stream[i]);
  }

  // ---------------------------------------------------------------- every call keeps every run in order

  lemma PlainAppendKeeps(run: string, rx: RunExt, c: ExtCall, taken: bool)
    requires RunExtOk(run, rx) && c.AppendTyped? && c.run == run && (Cites(rx.stream, c.eventId) ==> taken)
    requires RunOutcome(rx, c, taken).Success?
    ensures RunExtOk(run, RunOutcome(rx, c, taken).value)
  {
    AppendKeepsStream(run, rx, c.payload, c.key, c.watermark, c.eventId, taken, c.at);
    var (rx', x) := AppendBytes(rx, run, c.payload, c.key, c.watermark, c.eventId, taken, c.at).value;
    if rx' != rx {
      OtherRowsKeep(rx.stream, x, rx.leases, rx.evaluators);
    }
    hide StreamOk, LeasesOk, EvaluatorsOk, AppendBytes;
  }

  /** An event that is no admission leaves the correspondence alone. */
  lemma {:induction false} OtherRowsKeep(s: seq<ExtRow>, x: ExtRow, leases: map<string, LeaseRow>, evaluators: map<string, EvaluatorRow>)
    requires LeasesOk(s, leases) && EvaluatorsOk(s, leases, evaluators)
    ensures !x.payload.LeaseAdmission? ==> LeasesOk(s + [x], leases)
    ensures !x.payload.EvaluatorAdmission? ==> EvaluatorsOk(s + [x], leases, evaluators)
  {
    var t := s + [x];
    forall task | task in leases ensures LeaseMatches(t, task, leases[task]) {
      assert LeaseMatches(s, task, leases[task]);
    }
    forall id | id in evaluators ensures EvaluatorMatches(t, leases, evaluators[id]) {
      assert EvaluatorMatches(s, leases, evaluators[id]);
    }
    forall i | 0 <= i < |s| ensures LeaseStored(t, leases, i) && EvaluatorStored(t, evaluators, i) {
      assert LeaseStored(s, leases, i) && EvaluatorStored(s, evaluators, i);
    }
  }

  /** More lease rows of other tasks do not disturb the evaluator rows. */
  lemma {:induction false} MoreLeasesKeepEvaluators(s: seq<ExtRow>, leases: map<string, LeaseRow>, evaluators: map<string, EvaluatorRow>, task: string, r: LeaseRow)
    requires EvaluatorsOk(s, leases, evaluators) && task !in leases
    ensures EvaluatorsOk(s, leases[task := r], evaluators)
  {
    forall id | id in evaluators ensures EvaluatorMatches(s, leases[task := r], evaluators[id]) {
      assert EvaluatorMatches(s, leases, evaluators[id]);
    }
  }

  lemma {:induction false} NewLeaseRow(s: seq<ExtRow>, x: ExtRow, leases: map<string, LeaseRow>)
    requires LeasesOk(s, leases) && x.payload.LeaseAdmission? && x.payload.lease.task !in leases
    requires x.row.fields.sequence == |s| + 1
    ensures LeasesOk(s + [x], leases[x.payload.lease.task := LeaseRowOf(x, x.payload.lease)])
  {
    var t := s + [x];
    var leases' := leases[x.payload.lease.task := LeaseRowOf(x, x.payload.lease)];
    forall task | task in leases' ensures LeaseMatches(t, task, leases'[task]) {
      if task in leases { assert LeaseMatches(s, task, leases[task]); }
    }
    forall i | 0 <= i < |t| ensures LeaseStored(t, leases', i) {
      if i < |s| { assert LeaseStored(s, leases, i); }
    }
  }

  /** A stored lease is the replayed one or a new one. */
  lemma StoreLeaseCases(rx: RunExt, run: string, lease: TaskLease, key: string, eventId: string, taken: bool, at: int)
    requires StoreLeaseOutcome(rx, run, lease, key, eventId, taken, at).Success?
    ensures rx.binding == Some(lease.authority) && lease.project == rx.project
    ensures var appended := AppendBytes(rx, run, LeaseAdmission(lease), key, lease.authority.watermark, eventId, taken, at);
      && appended.Success? && appended.value.0 == rx.(stream := appended.value.0.stream)
      && StoreLeaseOutcome(rx, run, lease, key, eventId, taken, at).value ==
         var (rx', x) := appended.value;
         if lease.task in rx.leases then (rx', rx.leases[lease.task])
         else (rx'.(leases := rx.leases[lease.task := LeaseRowOf(x, lease)]), LeaseRowOf(x, lease))
    ensures lease.task in rx.leases ==>
      rx.leases[lease.task].sequence ==
      AppendBytes(rx, run, LeaseAdmission(lease), key, lease.authority.watermark, eventId, taken, at).value.1.row.fields.sequence
  {
  }

  lemma LeaseOfAppended(run: string, rx: RunExt, appended: RunExt, x: ExtRow, lease: TaskLease, key: string)
    requires RunExtOk(run, rx) && Appended(run, rx, appended, x, LeaseAdmission(lease), key)
    requires lease.task in rx.leases ==> rx.leases[lease.task].sequence == x.row.fields.sequence
    ensures lease.task in rx.leases ==> RunExtOk(run, appended) && rx.leases[lease.task] == LeaseRowOf(x, lease)
    ensures lease.task !in rx.leases ==> RunExtOk(run, appended.(leases := rx.leases[lease.task := LeaseRowOf(x, lease)]))
  {
    hide StreamOk, LeasesOk, EvaluatorsOk;
    if lease.task in rx.leases {
      LeaseAtSequence(rx.stream, rx.leases, lease.task);
    }
    if appended == rx {
      AdmissionHasLeaseRow(rx.stream, rx.leases, x.row.fields.sequence - 1);
    } else if lease.task !in rx.leases {
      NewLeaseRow(rx.stream, x, rx.leases);
      OtherRowsKeep(rx.stream, x, rx.leases, rx.evaluators);
      MoreLeasesKeepEvaluators(appended.stream, rx.leases, rx.evaluators, lease.task, LeaseRowOf(x, lease));
    }
  }

  lemma StoreLeaseKeeps(run: string, rx: RunExt, lease: TaskLease, key: string, eventId: string, taken: bool, at: int)
    requires RunExtOk(run, rx) && (Cites(rx.stream, eventId) ==> taken)
    requires StoreLeaseOutcome(rx, run, lease, key, eventId, taken, at).Success?
    ensures var (rx', r) := StoreLeaseOutcome(rx, run, lease, key, eventId, taken, at).value;
      RunExtOk(run, rx') && lease.task in rx'.leases && rx'.leases[lease.task] == r && r.lease == lease && r.key == key
  {
    StoreLeaseCases(rx, run, lease, key, eventId, taken, at);
    AppendKeepsStream(run, rx, LeaseAdmission(lease), key, lease.authority.watermark, eventId, taken, at);
    var (appended, x) := AppendBytes(rx, run, LeaseAdmission(lease), key, lease.authority.watermark, eventId, taken, at).value;
    LeaseOfAppended(run, rx, appended, x, lease, key);
    hide AppendBytes, RunExtOk, StoreLeaseOutcome, Appended;
  }

  lemma {:induction false} LeaseAtSequence(s: seq<ExtRow>, leases: map<string, LeaseRow>, task: string)
    requires LeasesOk(s, leases) && task in leases
    ensures LeaseMatches(s, task, leases[task])
  {
  }

  lemma {:induction false} AdmissionHasLeaseRow(s: seq<ExtRow>, leases: map<string, LeaseRow>, i: nat)
    requires LeasesOk(s, leases) && i < |s|
    ensures LeaseStored(s, leases, i)
  {
  }

  /** A row keeps its event when the stream grows. */
  lemma {:induction false} MatchStays(s: seq<ExtRow>, x: ExtRow, leases: map<string, LeaseRow>, r: EvaluatorRow)
    requires EvaluatorMatches(s, leases, r)
    ensures EvaluatorMatches(s + [x], leases, r) && r.sequence <= |s|
  {
    assert (s + [x])[r.sequence - 1] == s[r.sequence - 1];
  }

  lemma {:induction false} NewRowMatches(s: seq<ExtRow>, x: ExtRow, leases: map<string, LeaseRow>, r: EvaluatorRow)
    requires LeasesOk(s, leases) && x.payload.EvaluatorAdmission? && x.row.fields.sequence == |s| + 1
    requires r.task in leases && r.task == x.payload.evaluation.task && r == EvaluatorRowOf(x, r.task, x.payload.evaluation, r.metadata)
    ensures EvaluatorMatches(s + [x], leases, r)
  {
    LeaseAtSequence(s, leases, r.task);
    assert (s + [x])[|s|] == x;
  }

  lemma {:induction false} NewRowIsStored(s: seq<ExtRow>, x: ExtRow, evaluators: map<string, EvaluatorRow>, id: string, r: EvaluatorRow, i: nat)
    requires i <= |s| && id !in evaluators && r.sequence == |s| + 1 && (i < |s| ==> EvaluatorStored(s, evaluators, i))
    ensures EvaluatorStored(s + [x], evaluators[id := r], i)
  {
    var evaluators' := evaluators[id := r];
    if i == |s| {
      assert id in evaluators' && evaluators'[id].sequence == i + 1;
    } else if s[i].payload.EvaluatorAdmission? {
      var k :| k in evaluators && evaluators[k].sequence == i + 1;
      assert k in evaluators' && evaluators'[k].sequence == i + 1;
    }
  }

  lemma NewSequenceIsDistinct(evaluators: map<string, EvaluatorRow>, id: string, r: EvaluatorRow, n: nat)
    requires DistinctSequences(evaluators) && (forall k :: k in evaluators ==> evaluators[k].sequence <= n) && r.sequence == n + 1
    ensures DistinctSequences(evaluators[id := r])
  {
  }

  lemma {:induction false} NewEvaluatorRow(s: seq<ExtRow>, x: ExtRow, leases: map<string, LeaseRow>, evaluators: map<string, EvaluatorRow>, id: string, r: EvaluatorRow)
    requires LeasesOk(s, leases) && EvaluatorsOk(s, leases, evaluators) && x.payload.EvaluatorAdmission? && id !in evaluators
    requires x.row.fields.sequence == |s| + 1 && r.task in leases && r.task == x.payload.evaluation.task
    requires r == EvaluatorRowOf(x, r.task, x.payload.evaluation, r.metadata)
    ensures EvaluatorsOk(s + [x], leases, evaluators[id := r])
  {
    hide LeasesOk, EvaluatorMatches, EvaluatorStored, DistinctSequences;
    var t, evaluators' := s + [x], evaluators[id := r];
    forall k | k in evaluators ensures EvaluatorMatches(t, leases, evaluators[k]) && evaluators[k].sequence <= |s| {
      MatchStays(s, x, leases, evaluators[k]);
    }
    NewRowMatches(s, x, leases, r);
    forall i | 0 <= i < |t| ensures EvaluatorStored(t, evaluators', i) {
      NewRowIsStored(s, x, evaluators, id, r, i);
    }
    NewSequenceIsDistinct(evaluators, id, r, |s|);
  }

  /** A stored evaluation is the replayed one or a new one. */
  lemma BindEvaluationCases(rx: RunExt, c: ExtCall, taken: bool)
    requires c.BindEvaluation? && BindEvaluationOutcome(rx, c, taken).Success?
    ensures rx.binding.Some? && c.task in rx.leases
    ensures var appended := AppendBytes(rx, c.run, EvaluatorAdmission(c.evaluation), c.key, rx.binding.value.watermark, c.eventId, taken, c.at);
      && appended.Success? && appended.value.0 == rx.(stream := appended.value.0.stream)
      && var (rx', x) := appended.value;
         if c.bindingId in rx.evaluators then
           && rx.evaluators[c.bindingId].sequence == x.row.fields.sequence
           && BindEvaluationOutcome(rx, c, taken).value == (rx', rx.evaluators[c.bindingId])
         else
           var row := EvaluatorRowOf(x, c.task, c.evaluation, c.metadata);
           && !EvaluatorAt(rx.evaluators, x.row.fields.sequence)
           && BindEvaluationOutcome(rx, c, taken).value == (rx'.(evaluators := rx.evaluators[c.bindingId := row]), row)
  {
    hide AdmissionError, FindKey;
  }

  lemma {:induction false} EvaluatorAtSequence(s: seq<ExtRow>, leases: map<string, LeaseRow>, evaluators: map<string, EvaluatorRow>, id: string)
    requires EvaluatorsOk(s, leases, evaluators) && id in evaluators
    ensures EvaluatorMatches(s, leases, evaluators[id])
  {
  }

  lemma {:induction false} AdmissionHasEvaluatorRow(s: seq<ExtRow>, leases: map<string, LeaseRow>, evaluators: map<string, EvaluatorRow>, i: nat)
    requires EvaluatorsOk(s, leases, evaluators) && i < |s|
    ensures EvaluatorStored(s, evaluators, i)
  {
  }

  lemma EvaluatorOfAppended(run: string, rx: RunExt, appended: RunExt, x: ExtRow, c: ExtCall)
    requires c.BindEvaluation? && RunExtOk(run, rx) && Appended(run, rx, appended, x, EvaluatorAdmission(c.evaluation), c.key)
    requires c.task in rx.leases && c.evaluation.task == c.task
    requires if c.bindingId in rx.evaluators then rx.evaluators[c.bindingId].sequence == x.row.fields.sequence
             else !EvaluatorAt(rx.evaluators, x.row.fields.sequence)
    ensures c.bindingId in rx.evaluators ==>
      var r := rx.evaluators[c.bindingId];
      RunExtOk(run, appended) && r == EvaluatorRowOf(x, r.task, c.evaluation, r.metadata) && r.task == c.task
    ensures c.bindingId !in rx.evaluators ==>
      RunExtOk(run, appended.(evaluators := rx.evaluators[c.bindingId := EvaluatorRowOf(x, c.task, c.evaluation, c.metadata)]))
  {
    hide StreamOk, LeasesOk, EvaluatorsOk, EvaluatorAt;
    if c.bindingId in rx.evaluators {
      EvaluatorAtSequence(rx.stream, rx.leases, rx.evaluators, c.bindingId);
    }
    if appended == rx {
      AdmissionHasEvaluatorRow(rx.stream, rx.leases, rx.evaluators, x.row.fields.sequence - 1);
    } else {
      OtherRowsKeep(rx.stream, x, rx.leases, rx.evaluators);
      if c.bindingId !in rx.evaluators {
        NewEvaluatorRow(rx.stream, x, rx.leases, rx.evaluators, c.bindingId, EvaluatorRowOf(x, c.task, c.evaluation, c.metadata));
      }
    }
  }

  lemma BindEvaluationKeeps(run: string, rx: RunExt, c: ExtCall, taken: bool)
    requires RunExtOk(run, rx) && c.BindEvaluation? && c.run == run && (Cites(rx.stream, c.eventId) ==> taken)
    requires EvaluationRequestOk(c) && BindEvaluationOutcome(rx, c, taken).Success?
    ensures var (rx', r) := BindEvaluationOutcome(rx, c, taken).value;
      RunExtOk(run, rx') && c.bindingId in rx'.evaluators && rx'.evaluators[c.bindingId] == r
      && r.evaluation == c.evaluation && r.key == c.key && r.task == c.task
  {
    hide AppendBytes, RunExtOk, BindEvaluationOutcome, EvaluatorAt, Cites, StreamOk;
    BindEvaluationCases(rx, c, taken);
    var payload, w := EvaluatorAdmission(c.evaluation), rx.binding.value.watermark;
    AppendKeepsStream(run, rx, payload, c.key, w, c.eventId, taken, c.at);
    var (appended, x) := AppendBytes(rx, run, payload, c.key, w, c.eventId, taken, c.at).value;
    EvaluatorOfAppended(run, rx, appended, x, c);
  }

  // ---------------------------------------------------------------- all runs, all call sequences

  ghost predicate EventIdsOk(db: ExtDb) {
    forall run, other, i, j ::
      && run in db && other in db && 0 <= i < |db[run].stream| && 0 <= j < |db[other].stream|
      && EventIdAt(db[run].stream, i) == EventIdAt(db[other].stream, j)
      ==> run == other && i == j
  }

  ghost predicate ExtOk(db: ExtDb) {
    (forall run :: run in db ==> RunExtOk(run, db[run])) && EventIdsOk(db)
  }

  /** The stream of a run stays, or grows by an event whose id no event of any run had. */
  ghost predicate StreamStep(rx: RunExt, rx': RunExt, c: ExtCall, taken: bool) {
    || rx'.stream == rx.stream
    || (!c.Register? && !c.BindCampaign? && !taken && |rx'.stream| == |rx.stream| + 1 && rx'.stream[..|rx.stream|] == rx.stream
        && EventIdAt(rx'.stream, |rx.stream|) == c.eventId)
  }

  lemma AppendStreamStep(rx: RunExt, run: string, payload: Payload, key: string, watermark: int, eventId: string, taken: bool, at: int)
    requires AppendBytes(rx, run, payload, key, watermark, eventId, taken, at).Success?
    ensures var rx' := AppendBytes(rx, run, payload, key, watermark, eventId, taken, at).value.0;
      rx' == rx.(stream := rx'.stream)
      && (rx'.stream == rx.stream
          || (!taken && |rx'.stream| == |rx.stream| + 1 && rx'.stream[..|rx.stream|] == rx.stream
              && EventIdAt(rx'.stream, |rx.stream|) == eventId))
  {
    hide AdmissionError, FindKey;
  }

  /** What every accepted call does to its run: nothing is ever withdrawn. */
  ghost predicate Grows(rx: RunExt, rx': RunExt) {
    && rx'.project == rx.project && (rx.binding.Some? ==> rx'.binding == rx.binding)
    && rx.stream <= rx'.stream
    && (forall task :: task in rx.leases ==> task in rx'.leases && rx'.leases[task] == rx.leases[task])
    && (forall id :: id in rx.evaluators ==> id in rx'.evaluators && rx'.evaluators[id] == rx.evaluators[id])
  }

  lemma RunStep(rx: RunExt, c: ExtCall, taken: bool)
    requires !c.Register? && RunOutcome(rx, c, taken).Success?
    ensures StreamStep(rx, RunOutcome(rx, c, taken).value, c, taken) && Grows(rx, RunOutcome(rx, c, taken).value)
  {
    hide AppendBytes, StoreLeaseOutcome, BindEvaluationOutcome, EvaluationRequestOk;
    if c.AppendTyped? {
      AppendStreamStep(rx, c.run, c.payload, c.key, c.watermark, c.eventId, taken, c.at);
    } else if c.StoreLease? {
      StoreLeaseCases(rx, c.run, c.lease, c.key, c.eventId, taken, c.at);
      AppendStreamStep(rx, c.run, LeaseAdmission(c.lease), c.key, c.lease.authority.watermark, c.eventId, taken, c.at);
    } else if c.BindEvaluation? {
      BindEvaluationCases(rx, c, taken);
      AppendStreamStep(rx, c.run, EvaluatorAdmission(c.evaluation), c.key, rx.binding.value.watermark, c.eventId, taken, c.at);
    }
  }

  lemma CitedIsTaken(db: ExtDb, run: string, eventId: string)
    requires run in db
    ensures Cites(db[run].stream, eventId) ==> Taken(db, eventId)
  {
  }

  lemma RunKeeps(db: ExtDb, c: ExtCall)
    requires ExtOk(db) && !c.Register? && c.run in db && RunOutcome(db[c.run], c, IdTaken(c, db)).Success?
    ensures RunExtOk(c.run, RunOutcome(db[c.run], c, IdTaken(c, db)).value)
  {
    var rx, taken := db[c.run], IdTaken(c, db);
    if !c.BindCampaign? { CitedIsTaken(db, c.run, c.eventId); }
    assert RunExtOk(c.run, rx);
    hide Taken, EventIdsOk, AppendBytes, StoreLeaseOutcome, BindEvaluationOutcome, EvaluationRequestOk, StreamOk, LeasesOk, EvaluatorsOk;
    if c.AppendTyped? {
      PlainAppendKeeps(c.run, rx, c, taken);
    } else if c.StoreLease? {
      StoreLeaseKeeps(c.run, rx, c.lease, c.key, c.eventId, taken, c.at);
    } else if c.BindEvaluation? {
      BindEvaluationKeeps(c.run, rx, c, taken);
    }
  }

  lemma IdsStayDistinct(db: ExtDb, c: ExtCall, rx': RunExt)
    requires EventIdsOk(db) && !c.Register? && c.run in db && StreamStep(db[c.run], rx', c, IdTaken(c, db))
    ensures EventIdsOk(db[c.run := rx'])
  {
    var rx, db' := db[c.run], db[c.run := rx'];
    forall run, i | run in db' && 0 <= i < |db'[run].stream| && !(run == c.run && i >= |rx.stream|)
      ensures i < |db[run].stream| && EventIdAt(db'[run].stream, i) == EventIdAt(db[run].stream, i)
    {
      if run == c.run && rx'.stream != rx.stream { assert rx'.stream[..|rx.stream|][i] == rx'.stream[i]; }
    }
    if rx'.stream != rx.stream {
      forall run, i | run in db && 0 <= i < |db[run].stream| ensures EventIdAt(db[run].stream, i) != c.eventId {
        assert !Taken(db, c.eventId);
      }
    }
  }

  lemma CallKeeps(db: ExtDb, c: ExtCall)
    requires ExtOk(db)
    ensures ExtOk(ExtApply(db, c))
  {
    hide RunExtOk, EventIdsOk, RunOutcome, IdTaken;
    if !c.Register? && c.run in db && RunOutcome(db[c.run], c, IdTaken(c, db)).Success? {
      RunKeeps(db, c);
      RunStep(db[c.run], c, IdTaken(c, db));
      IdsStayDistinct(db, c, RunOutcome(db[c.run], c, IdTaken(c, db)).value);
    } else if c.Register? && c.run !in db {
      NewRunKeepsIds(db, c.run, c.project);
    }
  }

  lemma NewRunKeepsIds(db: ExtDb, run: string, project: string)
    requires EventIdsOk(db) && run !in db
    ensures EventIdsOk(db[run := RunExt(project, None, [], map[], map[])])
    ensures RunExtOk(run, RunExt(project, None, [], map[], map[]))
  {
  }

  /**
   After every sequence of calls every stream is chained, contiguous, causally
   closed and within its binding's watermark, and the lease and evaluator rows
   correspond one to one to the admission events.
   */
  lemma {:induction false} EveryStoreOk(calls: seq<ExtCall>)
    ensures ExtOk(After(calls))
  {
    if calls != [] {
      EveryStoreOk(calls[..|calls| - 1]);
      CallKeeps(After(calls[..|calls| - 1]), calls[|calls| - 1]);
    }
  }

  // ---------------------------------------------------------------- what the invariant means

  /** Event j of the stream admits the lease of a task. */
  ghost predicate Admits(s: seq<ExtRow>, j: nat, task: string) {
    j < |s| && s[j].payload.LeaseAdmission? && s[j].payload.lease.task == task
  }

  /**
   Full provenance of a safety decision: its effect rests on an earlier lease
   admission of the effect's task, its Guardian decision on an earlier
   system-HIGH assessment, and all four come before it.
   */
  lemma {:induction false} SafetyProvenance(calls: seq<ExtCall>, run: string, i: nat)
    returns (lease: nat, effect: nat, risk: nat, guardian: nat)
    requires run in After(calls) && i < |After(calls)[run].stream| && After(calls)[run].stream[i].payload.SafetyDecision?
    ensures var s := After(calls)[run].stream;
      var safety := s[i].payload.safety;
      && lease < effect < i && risk < guardian < i
      && s[effect].payload == CanonicalEffect(safety.effect) && Admits(s, lease, safety.effect.task)
      && s[guardian].payload == GuardianDecision(safety.guardian)
      && s[risk].payload == SystemRisk(safety.guardian.system)
      && safety.guardian.system.systemStage && safety.guardian.system.high
  {
    EveryStoreOk(calls);
    var rx := After(calls)[run];
    var s := rx.stream;
    effect := EarlierEvent(run, rx, i, CanonicalEffect(s[i].payload.safety.effect));
    guardian := EarlierEvent(run, rx, i, GuardianDecision(s[i].payload.safety.guardian));
    risk := EarlierEvent(run, rx, guardian, SystemRisk(s[i].payload.safety.guardian.system));
    lease := EarlierLease(run, rx, effect, s[i].payload.safety.effect.task);
    EventIsClosed(run, rx, risk);
    EventIsClosed(run, rx, guardian);
    hide RunExtOk, After, HasPayload, HasLease;
  }

  lemma EventIsClosed(run: string, rx: RunExt, i: nat)
    requires RunExtOk(run, rx) && i < |rx.stream|
    ensures rx.binding.Some? && Closed(rx.project, rx.binding.value, rx.stream[..i], rx.stream[i].payload, rx.stream[i].row.fields.watermark)
    ensures 0 <= rx.stream[i].row.fields.watermark <= rx.binding.value.watermark
  {
    assert RowOk(rx.project, rx.binding.value, run, rx.stream[..i], rx.stream[i]);
  }

  /** An event that cites a payload has it before itself. */
  lemma EarlierEvent(run: string, rx: RunExt, i: nat, payload: Payload) returns (j: nat)
    requires RunExtOk(run, rx) && i < |rx.stream|
    requires rx.binding.Some? && Closed(rx.project, rx.binding.value, rx.stream[..i], rx.stream[i].payload, rx.stream[i].row.fields.watermark)
             ==> HasPayload(rx.stream[..i], payload)
    ensures j < i && rx.stream[j].payload == payload
  {
    hide RunExtOk, Closed, HasPayload;
    EventIsClosed(run, rx, i);
    j := PayloadAt(rx.stream[..i], payload);
  }

  lemma {:induction false} PayloadAt(s: seq<ExtRow>, payload: Payload) returns (j: nat)
    requires HasPayload(s, payload)
    ensures j < |s| && s[j].payload == payload
  {
    var k :| 0 <= k < |s| && s[k].payload == payload;
    j := k;
  }

  lemma EarlierLease(run: string, rx: RunExt, i: nat, task: string) returns (j: nat)
    requires RunExtOk(run, rx) && i < |rx.stream|
    requires rx.binding.Some? && Closed(rx.project, rx.binding.value, rx.stream[..i], rx.stream[i].payload, rx.stream[i].row.fields.watermark)
             ==> HasLease(rx.stream[..i], task)
    ensures j < i && Admits(rx.stream, j, task)
  {
    hide RunExtOk, Closed, HasLease, Admits;
    EventIsClosed(run, rx, i);
    j := LeaseAdmittedAt(rx.stream, i, task);
  }

  lemma {:induction false} LeaseAdmittedAt(s: seq<ExtRow>, i: nat, task: string) returns (j: nat)
    requires i <= |s| && HasLease(s[..i], task)
    ensures j < i && Admits(s, j, task)
  {
    var k :| 0 <= k < i && s[..i][k].payload.LeaseAdmission? && s[..i][k].payload.lease.task == task;
    j := k;
  }

  /** Event j of the stream carries an id. */
  ghost predicate HasId(s: seq<ExtRow>, j: nat, id: string) {
    j < |s| && EventIdAt(s, j) == id
  }

  /** Every source of a projection names one event before it, and no source is cited twice. */
  lemma {:induction false} ProjectionSourcesPrecede(calls: seq<ExtCall>, run: string, i: nat, k: nat) returns (j: nat)
    requires run in After(calls) && i < |After(calls)[run].stream| && After(calls)[run].stream[i].payload.StatusProjection?
    requires k < |After(calls)[run].stream[i].payload.projection.sources|
    ensures var s := After(calls)[run].stream;
      var sources := s[i].payload.projection.sources;
      && j < i && HasId(s, j, sources[k])
      && (forall m :: 0 <= m < |s| && HasId(s, m, sources[k]) ==> m == j)
      && (forall m :: 0 <= m < |sources| && sources[m] == sources[k] ==> m == k)
  {
    hide After, HasId, Cites, AllCited, RunExtOk, DistinctExtIds;
    EveryStoreOk(calls);
    var rx := After(calls)[run];
    var s, sources := rx.stream, rx.stream[i].payload.projection.sources;
    ProjectionCites(run, rx, i, k);
    j := CitedOnce(s, i, sources[k]);
  }

  lemma {:induction false} ProjectionCites(run: string, rx: RunExt, i: nat, k: nat)
    requires RunExtOk(run, rx) && i < |rx.stream| && rx.stream[i].payload.StatusProjection?
    requires k < |rx.stream[i].payload.projection.sources|
    ensures var sources := rx.stream[i].payload.projection.sources;
      && DistinctExtIds(rx.stream) && Cites(rx.stream[..i], sources[k])
      && forall m :: 0 <= m < |sources| && sources[m] == sources[k] ==> m == k
  {
    EventIsClosed(run, rx, i);
    BoundStreamOk(run, rx);
    hide RunExtOk, RowsOk, ChainValid, DistinctKeys, DistinctExtIds, HasLease, HasPayload, Cites;
  }

  lemma {:induction false} CitedOnce(s: seq<ExtRow>, i: nat, id: string) returns (j: nat)
    requires DistinctExtIds(s) && i <= |s| && Cites(s[..i], id)
    ensures j < i && HasId(s, j, id)
    ensures forall m :: 0 <= m < |s| && HasId(s, m, id) ==> m == j
  {
    var n :| 0 <= n < i && EventIdAt(s[..i], n) == id;
    j := n;
    assert HasId(s, j, id);
  }

  /** Evidence for a task comes after the admission of the task's lease, and that lease is in the table. */
  lemma {:induction false} EvidenceFollowsItsLease(calls: seq<ExtCall>, run: string, i: nat) returns (j: nat)
    requires run in After(calls) && i < |After(calls)[run].stream|
    requires LeasedTask(After(calls)[run].stream[i].payload).Some?
    ensures var rx := After(calls)[run];
      var task := LeasedTask(rx.stream[i].payload).value;
      && j < i && Admits(rx.stream, j, task)
      && task in rx.leases && LeaseMatches(rx.stream, task, rx.leases[task]) && rx.leases[task].sequence == j + 1
  {
    EveryStoreOk(calls);
    var rx := After(calls)[run];
    var task := LeasedTask(rx.stream[i].payload).value;
    EventIsClosed(run, rx, i);
    j := EarlierLease(run, rx, i, task);
    AdmissionHasLeaseRow(rx.stream, rx.leases, j);
    LeaseAtSequence(rx.stream, rx.leases, task);
    hide RunExtOk, Closed, After;
  }

  // ---------------------------------------------------------------- replays and conflicts

  lemma {:induction false} KeyFindsEvent(s: seq<ExtRow>, i: nat)
    requires DistinctKeys(s) && i < |s|
    ensures FindKey(s, s[i].row.fields.key) == Some(s[i])
  {
    if i < |s| - 1 {
      KeyFindsEvent(s[..|s| - 1], i);
    }
  }

  lemma {:induction false} StoresGrow(calls: seq<ExtCall>, more: seq<ExtCall>, run: string)
    requires run in After(calls)
    ensures run in After(calls + more) && Grows(After(calls)[run], After(calls + more)[run])
    decreases |more|
  {
    hide RunOutcome, IdTaken;
    if more == [] {
      assert calls + more == calls;
    } else {
      var n := |more| - 1;
      StoresGrow(calls, more[..n], run);
      assert calls + more == (calls + more[..n]) + [more[n]];
      assert (calls + more)[..|calls + more| - 1] == calls + more[..n];
      AcceptedGrows(After(calls + more[..n]), more[n], run);
    }
  }

  lemma AcceptedGrows(db: ExtDb, c: ExtCall, run: string)
    requires run in db
    ensures run in ExtApply(db, c) && Grows(db[run], ExtApply(db, c)[run])
  {
    hide RunOutcome, IdTaken;
    if !c.Register? && c.run in db && RunOutcome(db[c.run], c, IdTaken(c, db)).Success? {
      RunStep(db[c.run], c, IdTaken(c, db));
    }
  }

  /** Repeating the call that admitted a stored event returns that event. */
  lemma AppendReplays(run: string, rx: RunExt, i: nat, eventId: string, taken: bool, at: int)
    requires RunExtOk(run, rx) && i < |rx.stream|
    ensures var x := rx.stream[i];
      AppendBytes(rx, run, x.payload, x.row.fields.key, x.row.fields.watermark, eventId, taken, at) == Success((rx, x))
    ensures rx.stream[i].row.fields.sequence == i + 1
  {
    hide RunExtOk, StreamOk, Closed, AdmissionError, FindKey;
    EventIsClosed(run, rx, i);
    SequenceAt(run, rx, i);
    StoredKey(run, rx, i);
  }

  lemma SequenceAt(run: string, rx: RunExt, i: nat)
    requires RunExtOk(run, rx) && i < |rx.stream|
    ensures rx.stream[i].row.fields.sequence == i + 1
  {
    assert RowOk(rx.project, rx.binding.value, run, rx.stream[..i], rx.stream[i]);
  }

  /** An admission event cites exactly the watermark of the binding. */
  lemma AdmissionWatermark(run: string, rx: RunExt, i: nat)
    requires RunExtOk(run, rx) && i < |rx.stream|
    requires rx.stream[i].payload.LeaseAdmission? || rx.stream[i].payload.EvaluatorAdmission?
    ensures rx.binding.Some? && rx.stream[i].row.fields.watermark == rx.binding.value.watermark
    ensures rx.stream[i].payload.LeaseAdmission? ==>
      rx.stream[i].payload.lease.authority == rx.binding.value && rx.stream[i].payload.lease.project == rx.project
  {
    EventIsClosed(run, rx, i);
  }

  /** A lease row and the event behind it. */
  lemma LeaseEvent(run: string, rx: RunExt, task: string)
    requires RunExtOk(run, rx) && task in rx.leases
    ensures LeaseMatches(rx.stream, task, rx.leases[task])
  {
  }

  /** An evaluator row and the event behind it. */
  lemma EvaluatorEvent(run: string, rx: RunExt, id: string)
    requires RunExtOk(run, rx) && id in rx.evaluators
    ensures EvaluatorMatches(rx.stream, rx.leases, rx.evaluators[id])
  {
  }

  /** Replaying a stored lease, at any later time, returns the stored row and changes nothing. */
  lemma {:induction false} LeaseReplayReturnsTheRow(calls: seq<ExtCall>, run: string, task: string, eventId: string, taken: bool, at: int)
    requires run in After(calls) && task in After(calls)[run].leases
    ensures var rx := After(calls)[run];
      var row := rx.leases[task];
      StoreLeaseOutcome(rx, run, row.lease, row.key, eventId, taken, at) == Success((rx, row))
  {
    hide RunExtOk, AppendBytes, After, EventIdsOk;
    EveryStoreOk(calls);
    var rx := After(calls)[run];
    LeaseEvent(run, rx, task);
    var i := rx.leases[task].sequence - 1;
    AdmissionWatermark(run, rx, i);
    AppendReplays(run, rx, i, eventId, taken, at);
  }

  lemma ConflictingEvaluationIsRefused(run: string, rx: RunExt, c: ExtCall, taken: bool)
    requires RunExtOk(run, rx) && c.BindEvaluation? && c.run == run && (Cites(rx.stream, c.eventId) ==> taken)
    requires c.bindingId in rx.evaluators
    requires var row := rx.evaluators[c.bindingId]; row.key != c.key || row.evaluation != c.evaluation || row.task != c.task
    ensures RunOutcome(rx, c, taken).Failure?
  {
    hide RunExtOk, BindEvaluationOutcome, AppendBytes, Cites, EvaluationRequestOk;
    if EvaluationRequestOk(c) && BindEvaluationOutcome(rx, c, taken).Success? {
      BindEvaluationKeeps(run, rx, c, taken);
      BindEvaluationCases(rx, c, taken);
    }
  }

  /** An evaluation under a stored binding id, but with another key, task or evaluation, is refused and leaves no event behind. */
  lemma {:induction false} ConflictingEvaluationLeavesNoTrace(calls: seq<ExtCall>, c: ExtCall)
    requires c.BindEvaluation? && c.run in After(calls) && c.bindingId in After(calls)[c.run].evaluators
    requires var row := After(calls)[c.run].evaluators[c.bindingId];
      row.key != c.key || row.evaluation != c.evaluation || row.task != c.task
    ensures After(calls + [c]) == After(calls)
  {
    EveryStoreOk(calls);
    CitedIsTaken(After(calls), c.run, c.eventId);
    ConflictingEvaluationIsRefused(c.run, After(calls)[c.run], c, IdTaken(c, After(calls)));
    RefusedCallLeavesNoTrace(calls, c);
  }

  lemma {:induction false} RefusedCallLeavesNoTrace(calls: seq<ExtCall>, c: ExtCall)
    requires !c.Register? && c.run in After(calls)
    requires RunOutcome(After(calls)[c.run], c, IdTaken(c, After(calls))).Failure?
    ensures After(calls + [c]) == After(calls)
  {
    hide RunOutcome, IdTaken;
    assert (calls + [c])[..|calls|] == calls;
  }

  lemma ConflictingLeaseIsRefused(run: string, rx: RunExt, c: ExtCall, taken: bool)
    requires RunExtOk(run, rx) && c.StoreLease? && c.run == run && (Cites(rx.stream, c.eventId) ==> taken)
    requires c.lease.task in rx.leases
    requires rx.leases[c.lease.task].key != c.key || rx.leases[c.lease.task].lease != c.lease
    ensures RunOutcome(rx, c, taken).Failure?
  {
    hide RunExtOk, StoreLeaseOutcome, AppendBytes, Cites;
    if StoreLeaseOutcome(rx, run, c.lease, c.key, c.eventId, taken, c.at).Success? {
      StoreLeaseKeeps(run, rx, c.lease, c.key, c.eventId, taken, c.at);
      StoreLeaseCases(rx, run, c.lease, c.key, c.eventId, taken, c.at);
    }
  }

  /** A lease under another key, or another lease of the task, is refused and leaves no event behind. */
  lemma {:induction false} ConflictingLeaseLeavesNoTrace(calls: seq<ExtCall>, c: ExtCall)
    requires c.StoreLease? && c.run in After(calls) && c.lease.task in After(calls)[c.run].leases
    requires var row := After(calls)[c.run].leases[c.lease.task]; row.key != c.key || row.lease != c.lease
    ensures After(calls + [c]) == After(calls)
  {
    EveryStoreOk(calls);
    CitedIsTaken(After(calls), c.run, c.eventId);
    ConflictingLeaseIsRefused(c.run, After(calls)[c.run], c, IdTaken(c, After(calls)));
    RefusedCallLeavesNoTrace(calls, c);
  }

  /**
   Replaying a stored evaluation returns the stored row and changes nothing,
   even when the call brings another signature, key or issuer.
   */
  lemma {:induction false} EvaluationReplayReturnsTheRow(calls: seq<ExtCall>, c: ExtCall, taken: bool)
    requires c.BindEvaluation? && c.run in After(calls) && c.bindingId in After(calls)[c.run].evaluators
    requires var row := After(calls)[c.run].evaluators[c.bindingId];
      row.evaluation == c.evaluation && row.key == c.key && row.task == c.task
    ensures var rx := After(calls)[c.run];
      BindEvaluationOutcome(rx, c, taken) == Success((rx, rx.evaluators[c.bindingId]))
  {
    hide RunExtOk, AppendBytes, After, EventIdsOk;
    EveryStoreOk(calls);
    var rx := After(calls)[c.run];
    EvaluatorEvent(c.run, rx, c.bindingId);
    var i := rx.evaluators[c.bindingId].sequence - 1;
    AdmissionWatermark(c.run, rx, i);
    AppendReplays(c.run, rx, i, c.eventId, taken, c.at);
  }

  lemma SecondBindingIsRefused(run: string, rx: RunExt, c: ExtCall, taken: bool, id: string)
    requires RunExtOk(run, rx) && c.BindEvaluation? && c.run == run && id in rx.evaluators
    requires c.bindingId !in rx.evaluators && rx.evaluators[id].key == c.key
    ensures RunOutcome(rx, c, taken).Failure?
  {
    hide RunExtOk, BindEvaluationOutcome, EvaluationRequestOk, AppendBytes, EvaluatorAt;
    if BindEvaluationOutcome(rx, c, taken).Success? {
      BindEvaluationCases(rx, c, taken);
      KeyOfRow(run, rx, c, taken, id);
    }
  }

  /** One admission event backs one evaluator row: citing it under a second binding id is refused without a trace. */
  lemma {:induction false} SecondBindingLeavesNoTrace(calls: seq<ExtCall>, c: ExtCall, id: string)
    requires c.BindEvaluation? && c.run in After(calls) && id in After(calls)[c.run].evaluators
    requires c.bindingId !in After(calls)[c.run].evaluators && After(calls)[c.run].evaluators[id].key == c.key
    ensures After(calls + [c]) == After(calls)
  {
    EveryStoreOk(calls);
    SecondBindingIsRefused(c.run, After(calls)[c.run], c, IdTaken(c, After(calls)), id);
    RefusedCallLeavesNoTrace(calls, c);
  }

  lemma KeyOfRow(run: string, rx: RunExt, c: ExtCall, taken: bool, id: string)
    requires RunExtOk(run, rx) && rx.binding.Some? && c.BindEvaluation? && id in rx.evaluators && rx.evaluators[id].key == c.key
    requires AppendBytes(rx, c.run, EvaluatorAdmission(c.evaluation), c.key, rx.binding.value.watermark, c.eventId, taken, c.at).Success?
    ensures EvaluatorAt(rx.evaluators,
      AppendBytes(rx, c.run, EvaluatorAdmission(c.evaluation), c.key, rx.binding.value.watermark, c.eventId, taken, c.at).value.1.row.fields.sequence)
  {
    hide RunExtOk, AdmissionError, FindKey, EvaluatorStored, StreamOk;
    EvaluatorEvent(run, rx, id);
    var i := rx.evaluators[id].sequence - 1;
    SequenceAt(run, rx, i);
    StoredKey(run, rx, i);
  }

  lemma StoredKey(run: string, rx: RunExt, i: nat)
    requires RunExtOk(run, rx) && i < |rx.stream|
    ensures FindKey(rx.stream, rx.stream[i].row.fields.key) == Some(rx.stream[i])
  {
    KeyFindsEvent(rx.stream, i);
  }

  /** The campaign binding is written once, and no event ever cites a watermark beyond it. */
  lemma {:induction false} WatermarksStayWithinTheBinding(calls: seq<ExtCall>, more: seq<ExtCall>, run: string, i: nat)
    requires run in After(calls) && After(calls)[run].binding.Some?
    requires run in After(calls + more) && i < |After(calls + more)[run].stream|
    ensures After(calls + more)[run].binding == After(calls)[run].binding
    ensures 0 <= After(calls + more)[run].stream[i].row.fields.watermark <= After(calls)[run].binding.value.watermark
  {
    StoresGrow(calls, more, run);
    EveryStoreOk(calls + more);
    EventIsClosed(run, After(calls + more)[run], i);
  }

  // ---------------------------------------------------------------- the root hash

  /** The read-back check: every payload column matches its digest, every hash its preimage, every link its predecessor. */
  ghost predicate StreamValid(s: seq<ExtRow>) {
    ChainValid(StreamRows(s)) && forall i :: 0 <= i < |s| ==> s[i].row.fields.digest == Digested(s[i].payload)
  }

  lemma {:induction false} StoredStreamsAreValid(calls: seq<ExtCall>, run: string)
    requires run in After(calls)
    ensures StreamValid(After(calls)[run].stream)
  {
    EveryStoreOk(calls);
    var rx := After(calls)[run];
    forall i | 0 <= i < |rx.stream| ensures rx.stream[i].row.fields.digest == Digested(rx.stream[i].payload) {
      assert RowOk(rx.project, rx.binding.value, run, rx.stream[..i], rx.stream[i]);
    }
    hide After, RowOk, LeasesOk, EvaluatorsOk;
  }

  /** Two valid streams have the same root hash if and only if they agree in everything, payloads and sequence numbers included. */
  lemma {:induction false} RootCommits(a: seq<ExtRow>, b: seq<ExtRow>)
    requires StreamValid(a) && StreamValid(b)
    ensures Head(StreamRows(a)) == Head(StreamRows(b)) <==> a == b
  {
    if Head(StreamRows(a)) == Head(StreamRows(b)) {
      Commitment(StreamRows(a), StreamRows(b));
      assert |a| == |b|;
      forall i | 0 <= i < |a| ensures a[i] == b[i] {
        assert StreamRows(a)[i] == StreamRows(b)[i];
      }
    }
  }
}
