/** The extension tables as the store object keeps them: every method is one transaction. */
module ExtensionStore {
  import opened Wrappers
  import opened HashChain
  import opened Extension
  import opened ExtensionHistory

  class BridgeExtensionStore {
    var runs: ExtDb
    /** Every call so far. */
    ghost var calls: seq<ExtCall>

    ghost predicate Valid()
      reads this
    {
      runs == After(calls)
    }

    constructor ()
      ensures Valid() && calls == []
    {
      runs, calls := map[], [];
    }

    /** One transaction happened: committed or rolled back, the tables are as the call sequence says. */
    twostate predicate Stepped(c: ExtCall)
      reads this
    {
      && calls == old(calls) + [c]
      && runs == ExtApply(old(runs), c)
    }

    ghost method Log(c: ExtCall)
      requires runs == ExtApply(After(calls), c)
      modifies this`calls
      ensures Valid() && calls == old(calls) + [c]
    {
      assert (calls + [c])[..|calls|] == calls;
      calls := calls + [c];
    }

    /** A run exists here from the moment the bridge creates its row. */
    method RegisterRun(run: string, project: string) returns (r: Result<(), ExtError>)
      requires Valid()
      modifies this
      ensures Valid() && Stepped(Register(run, project))
      ensures r.Success? <==> run !in old(runs)
      ensures r.Success? ==> runs[run] == RunExt(project, None, [], map[], map[])
    {
      if run in runs {
        r := Failure(RunExists);
      } else {
        runs := runs[run := RunExt(project, None, [], map[], map[])];
        r := Success(());
      }
      Log(Register(run, project));
    }

    method BindCampaign(run: string, binding: CampaignBinding) returns (r: Result<CampaignBinding, ExtError>)
      requires Valid()
      modifies this
      ensures Valid() && Stepped(ExtCall.BindCampaign(run, binding))
      ensures r.Success? ==> run in runs && runs[run].binding == Some(binding) && r.value == binding
      ensures r.Failure? ==> runs == old(runs)
    {
      if run !in runs {
        r := Failure(RunNotFound);
      } else if runs[run].binding.Some? {
        r := if runs[run].binding.value != binding then Failure(BindingConflict) else Success(binding);
        assert runs[run := runs[run]] == runs;
      } else {
        runs := runs[run := runs[run].(binding := Some(binding))];
        r := Success(binding);
      }
      Log(ExtCall.BindCampaign(run, binding));
    }

    /** The part of an admission that all three entry points share, inside their transaction. */
    method AppendBytesLocked(run: string, payload: Payload, key: string, watermark: int, eventId: string, at: int)
      returns (r: Result<ExtRow, ExtError>)
      requires run in runs
      modifies this`runs
      ensures var out := AppendBytes(old(runs)[run], run, payload, key, watermark, eventId, Taken(old(runs), eventId), at);
        && (r.Success? <==> out.Success?)
        && (r.Success? ==> r.value == out.value.1 && runs == old(runs)[run := out.value.0])
        && (r.Failure? ==> r.error == out.error && runs == old(runs))
    {
      hide AdmissionError, Taken;
      var rx := runs[run];
      assert runs[run := rx] == runs;
      if rx.binding.None? { return Failure(BindingRequired); }
      if watermark > rx.binding.value.watermark { return Failure(FutureWatermark); }
      var existing := FindKey(rx.stream, key);
      if existing.Some? {
        if existing.value.payload != payload || existing.value.row.fields.watermark != watermark {
          return Failure(IdempotencyConflict);
        }
        return Success(existing.value);
      }
      var refused := AdmissionError(rx, payload, watermark);
      if refused.Some? { return Failure(refused.value); }
      if Taken(runs, eventId) || watermark < 0 { return Failure(ConstraintViolated); }
      var x := NextRow(rx.stream, run, payload, key, watermark, eventId, at);
      runs := runs[run := rx.(stream := rx.stream + [x])];
      r := Success(x);
    }

    method AppendExtensionEvent(run: string, payload: Payload, key: string, watermark: int, eventId: string, at: int)
      returns (r: Result<ExtRow, ExtError>)
      requires Valid()
      modifies this
      ensures Valid() && Stepped(AppendTyped(run, payload, key, watermark, eventId, at))
      ensures r.Success? ==> run in runs && r.value in runs[run].stream && r.value.payload == payload && r.value.row.fields.key == key
      ensures r.Failure? ==> runs == old(runs)
    {
      ghost var c := AppendTyped(run, payload, key, watermark, eventId, at);
      hide AppendBytes, Taken, After;
      if key == "" {
        r := Failure(KeyEmpty);
      } else if payload.LeaseAdmission? || payload.EvaluatorAdmission? || (payload.SystemRisk? && !payload.assessment.systemStage) {
        r := Failure(StageInvalid);
      } else if run !in runs {
        r := Failure(RunNotFound);
      } else {
        r := AppendBytesLocked(run, payload, key, watermark, eventId, at);
        if r.Success? { AppendedIsStored(old(runs)[run], run, payload, key, watermark, eventId, Taken(old(runs), eventId), at); }
      }
      Log(c);
    }

    lemma AppendedIsStored(rx: RunExt, run: string, payload: Payload, key: string, watermark: int, eventId: string, taken: bool, at: int)
      requires AppendBytes(rx, run, payload, key, watermark, eventId, taken, at).Success?
      ensures var (rx', x) := AppendBytes(rx, run, payload, key, watermark, eventId, taken, at).value; x in rx'.stream
    {
      hide AdmissionError;
    }

    /** Admit a signed task lease: the event and its row are stored together or not at all. */
    method StoreSignedTaskLease(run: string, lease: TaskLease, key: string, eventId: string, at: int)
      returns (r: Result<LeaseRow, ExtError>)
      requires Valid()
      modifies this
      ensures Valid() && Stepped(StoreLease(run, lease, key, eventId, at))
      ensures r.Success? ==>
        && run in runs && lease.task in runs[run].leases && runs[run].leases[lease.task] == r.value
        && r.value.lease == lease && r.value.key == key
      ensures r.Failure? ==> runs == old(runs)
    {
      ghost var c := StoreLease(run, lease, key, eventId, at);
      EveryStoreOk(calls);
      hide AppendBytes, Taken, After, RunExtOk, EventIdsOk;
      if run !in runs {
        Log(c);
        return Failure(RunNotFound);
      }
      if runs[run].binding.None? {
        Log(c);
        return Failure(BindingRequired);
      }
      if lease.authority != runs[run].binding.value || lease.project != runs[run].project {
        Log(c);
        return Failure(LeaseMismatch);
      }
      ghost var taken := Taken(runs, eventId);
      CitedIsTaken(runs, run, eventId);
      r := AdmitLease(run, lease, key, eventId, at);
      if r.Success? { StoreLeaseKeeps(run, old(runs)[run], lease, key, eventId, taken, at); }
      hide StoreLeaseOutcome;
      Log(c);
    }

    method AdmitLease(run: string, lease: TaskLease, key: string, eventId: string, at: int) returns (r: Result<LeaseRow, ExtError>)
      requires run in runs && runs[run].binding == Some(lease.authority) && lease.project == runs[run].project
      modifies this`runs
      ensures var out := StoreLeaseOutcome(old(runs)[run], run, lease, key, eventId, Taken(old(runs), eventId), at);
        && (r.Success? <==> out.Success?)
        && (r.Success? ==> r.value == out.value.1 && runs == old(runs)[run := out.value.0])
        && (r.Failure? ==> runs == old(runs))
    {
      hide AppendBytes, Taken, SequenceOrKeyTaken;
      var before := runs;
      var appended := AppendBytesLocked(run, LeaseAdmission(lease), key, lease.authority.watermark, eventId, at);
      if appended.Failure? { return Failure(appended.error); }
      var inserted := InsertLease(runs[run], appended.value, lease);
      if inserted.Failure? {
        runs := before;
        return Failure(inserted.error);
      }
      runs := runs[run := inserted.value.0];
      r := Success(inserted.value.1);
    }

    /** Bind a sealed evaluation to its task: the event and its row are stored together or not at all. */
    method BindSealedEvaluation(run: string, bindingId: string, task: string, evaluation: Evaluation, metadata: Metadata, key: string,
      eventId: string, at: int) returns (r: Result<EvaluatorRow, ExtError>)
      requires Valid()
      modifies this
      ensures Valid() && Stepped(BindEvaluation(run, bindingId, task, evaluation, metadata, key, eventId, at))
      ensures r.Success? ==>
        && run in runs && bindingId in runs[run].evaluators && runs[run].evaluators[bindingId] == r.value
        && r.value.evaluation == evaluation && r.value.key == key && r.value.task == task
      ensures r.Failure? ==> runs == old(runs)
    {
      var c := BindEvaluation(run, bindingId, task, evaluation, metadata, key, eventId, at);
      EveryStoreOk(calls);
      hide AppendBytes, Taken, After, RunExtOk, EventIdsOk;
      if !EvaluationRequestOk(c) {
        Log(c);
        return Failure(EvaluationInvalid);
      }
      if run !in runs {
        Log(c);
        return Failure(RunNotFound);
      }
      if runs[run].binding.None? {
        Log(c);
        return Failure(BindingRequired);
      }
      if task !in runs[run].leases {
        Log(c);
        return Failure(LeaseRequired);
      }
      ghost var taken := Taken(runs, eventId);
      CitedIsTaken(runs, run, eventId);
      r := AdmitEvaluation(c);
      if r.Success? { BindEvaluationKeeps(run, old(runs)[run], c, taken); }
      hide BindEvaluationOutcome, EvaluationRequestOk;
      Log(c);
    }

    method AdmitEvaluation(c: ExtCall) returns (r: Result<EvaluatorRow, ExtError>)
      requires c.BindEvaluation? && c.run in runs && runs[c.run].binding.Some? && c.task in runs[c.run].leases
      modifies this`runs
      ensures var out := BindEvaluationOutcome(old(runs)[c.run], c, Taken(old(runs), c.eventId));
        && (r.Success? <==> out.Success?)
        && (r.Success? ==> r.value == out.value.1 && runs == old(runs)[c.run := out.value.0])
        && (r.Failure? ==> runs == old(runs))
    {
      hide AppendBytes, Taken, SequenceOrKeyTaken;
      var before := runs;
      var appended := AppendBytesLocked(c.run, EvaluatorAdmission(c.evaluation), c.key, runs[c.run].binding.value.watermark, c.eventId, c.at);
      if appended.Failure? { return Failure(appended.error); }
      var inserted := InsertEvaluator(runs[c.run], appended.value, c);
      if inserted.Failure? {
        runs := before;
        return Failure(inserted.error);
      }
      runs := runs[c.run := inserted.value.0];
      r := Success(inserted.value.1);
    }

    /** Read back the stream of a bound run, recomputing every digest and following the links. */
    method ExtensionEvents(run: string, project: string, configuration: Option<string>)
      returns (r: Result<(seq<ExtRow>, bool, Hash<ExtFields>), ExtError>)
      requires Valid()
      ensures r.Success? <==>
        run in runs && runs[run].project == project && runs[run].binding.Some? && runs[run].binding.value.configuration == configuration
      ensures r.Success? ==> r.value == (runs[run].stream, true, Head(StreamRows(runs[run].stream)))
    {
      if run !in runs || runs[run].project != project || runs[run].binding.None?
        || runs[run].binding.value.configuration != configuration
      {
        return Failure(BindingRequired);
      }
      var stream := runs[run].stream;
      StoredStreamsAreValid(calls, run);
      hide After, ChainValid;
      var valid, root := WalkStream(stream);
      r := Success((stream, valid, root));
    }

    ghost function HeadAt(stream: seq<ExtRow>, n: nat): Hash<ExtFields>
      requires n <= |stream|
    {
      Head(StreamRows(stream)[..n])
    }

    /** The row at a position matches its payload, its own seal and its predecessor. */
    ghost predicate GoodRow(stream: seq<ExtRow>, k: nat)
      requires k < |stream|
    {
      && stream[k].row.fields.digest == Digested(stream[k].payload)
      && Sealed(stream[k].row) && stream[k].row.previous == HeadAt(stream, k)
    }

    ghost predicate ValidUpTo(stream: seq<ExtRow>, n: nat)
      requires n <= |stream|
    {
      forall k :: 0 <= k < n ==> GoodRow(stream, k)
    }

    lemma {:induction false} WalkStart(stream: seq<ExtRow>)
      ensures HeadAt(stream, 0) == Genesis && ValidUpTo(stream, 0)
    {
    }

    lemma {:induction false} WalkStep(stream: seq<ExtRow>, i: nat)
      requires i < |stream|
      ensures HeadAt(stream, i + 1) == stream[i].row.hash
      ensures ValidUpTo(stream, i + 1) <==>
        && ValidUpTo(stream, i) && stream[i].row.fields.digest == Digested(stream[i].payload)
        && Sealed(stream[i].row) && stream[i].row.previous == HeadAt(stream, i)
    {
      hide Sealed;
      assert StreamRows(stream)[..i + 1][i] == stream[i].row;
      assert ValidUpTo(stream, i + 1) <==> ValidUpTo(stream, i) && GoodRow(stream, i) by { hide GoodRow; }
    }

    lemma {:induction false} WalkEnd(stream: seq<ExtRow>)
      ensures HeadAt(stream, |stream|) == Head(StreamRows(stream))
      ensures ValidUpTo(stream, |stream|) <==> StreamValid(stream)
    {
      hide Sealed, Head;
      assert StreamRows(stream)[..|stream|] == StreamRows(stream);
      if StreamValid(stream) {
        forall k | 0 <= k < |stream| ensures GoodRow(stream, k) {
          assert StreamRows(stream)[k] == stream[k].row;
        }
      }
      if ValidUpTo(stream, |stream|) {
        forall k | 0 <= k < |stream|
          ensures Sealed(StreamRows(stream)[k]) && StreamRows(stream)[k].previous == Head(StreamRows(stream)[..k])
          ensures stream[k].row.fields.digest == Digested(stream[k].payload)
        {
          assert GoodRow(stream, k);
        }
      }
    }

    method WalkStream(stream: seq<ExtRow>) returns (valid: bool, root: Hash<ExtFields>)
      ensures valid <==> StreamValid(stream)
      ensures root == Head(StreamRows(stream))
    {
      valid, root := true, Genesis;
      WalkStart(stream);
      for i := 0 to |stream|
        invariant root == HeadAt(stream, i)
        invariant valid <==> ValidUpTo(stream, i)
      {
        hide ValidUpTo, HeadAt, Sealed;
        WalkStep(stream, i);
        if stream[i].row.fields.digest != Digested(stream[i].payload) || stream[i].row.previous != root || !Sealed(stream[i].row) {
          valid := false;
        }
        root := stream[i].row.hash;
      }
      WalkEnd(stream);
    }

    /** Compare the root; with a stream known to have had the expected root, equality of roots is equality of streams. */
    method VerifyExtensionRoot(run: string, expected: Hash<ExtFields>, project: string, configuration: Option<string>, ghost known: seq<ExtRow>)
      returns (r: Result<bool, ExtError>)
      requires Valid()
      ensures r.Success? ==> run in runs && (r.value <==> Head(StreamRows(runs[run].stream)) == expected)
      ensures r.Success? && StreamValid(known) && Head(StreamRows(known)) == expected ==> (r.value <==> runs[run].stream == known)
    {
      var replay := ExtensionEvents(run, project, configuration);
      if replay.Failure? { return Failure(replay.error); }
      StoredStreamsAreValid(calls, run);
      if StreamValid(known) { RootCommits(runs[run].stream, known); }
      r := Success(replay.value.1 && replay.value.2 == expected);
    }
  }
}
