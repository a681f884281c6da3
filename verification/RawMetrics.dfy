/**
 The raw metric records of an acceptance bundle against their frozen contract:
 one record for every sample and cell, an exact mean, and the verdict on it.
 */
module RawMetrics {
  import opened Wrappers
  import opened Texts
  import opened Reals
  import opened Sequences

  datatype Policy =
    | MinimumMean(cell: string, minimum: real)
    | Noninferiority(baseline: string, candidate: string, maxDegradation: real)

  datatype MatrixCell = MatrixCell(id: string, seed: int)

  datatype Contract = Contract(metric: string, scale: int, aggregation: string, samples: seq<string>, matrix: seq<MatrixCell>,
    filters: seq<string>, policy: Policy, passCode: string, failCode: string)

  /** One line of the raw metrics; `filter` is the empty text for a record that names none. */
  datatype Record = Record(id: string, sample: string, cell: string, metric: string, value: int, included: bool, filter: string)

  datatype Verdict = Keep | Reject

  /** The summary file; `digest` is the SHA-256 value it claims for the file of raw records. */
  datatype Summary = Summary(metric: string, scale: int, aggregation: string, included: nat, filtered: nat, total: int, mean: real, digest: string)

  datatype MetricError =
    | BadText | DuplicateRecord | DuplicatePair | WrongMetric | FilterOnIncluded | UndeclaredFilter | UnknownCell
    | MatrixMismatch | AllFiltered | SummaryMismatch | PolicyCellEmpty

  // ---------------------------------------------------------------- the frozen contract

  function CellIds(c: Contract): (ids: seq<string>)
    ensures |ids| == |c.matrix|
  {
    seq(|c.matrix|, i requires 0 <= i < |c.matrix| => c.matrix[i].id)
  }

  /** An upper-case letter, then 1 to 63 upper-case letters, digits and underscores. */
  predicate IsRationale(s: string) {
    && 2 <= |s| <= 64 && 'A' <= s[0] <= 'Z'
    && forall i :: 0 <= i < |s| ==> 'A' <= s[i] <= 'Z' || '0' <= s[i] <= '9' || s[i] == '_'
  }

  predicate AllTexts(names: seq<string>) {
    forall i :: 0 <= i < |names| ==> IsTrimmed(names[i])
  }

  predicate PolicyOk(c: Contract) {
    match c.policy
    case MinimumMean(cell, _) => cell in CellIds(c)
    case Noninferiority(baseline, candidate, limit) => baseline in CellIds(c) && candidate in CellIds(c) && baseline != candidate && limit >= 0.0
  }

  ghost predicate ContractOk(c: Contract) {
    && IsTrimmed(c.metric) && c.scale >= 1 && c.aggregation == "mean" && c.samples != [] && c.matrix != []
    && AllTexts(c.samples) && AllTexts(CellIds(c)) && AllTexts(c.filters)
    && (forall i :: 0 <= i < |c.matrix| ==> c.matrix[i].seed >= 0)
    && Distinct(c.samples) && Distinct(CellIds(c)) && Distinct(c.filters)
    && IsRationale(c.passCode) && IsRationale(c.failCode) && PolicyOk(c)
  }

  method ValidateContract(c: Contract) returns (ok: bool)
    ensures ok <==> ContractOk(c)
  {
    var cells := CellIds(c);
    CountMeansDistinct(c.samples);
    CountMeansDistinct(cells);
    CountMeansDistinct(c.filters);
    ok := IsTrimmed(c.metric) && c.scale >= 1 && c.aggregation == "mean"
      && AllTexts(c.samples) && c.samples != [] && |Elements(c.samples)| == |c.samples|
      && AllTexts(cells) && (forall i :: 0 <= i < |c.matrix| ==> c.matrix[i].seed >= 0)
      && c.matrix != [] && |Elements(cells)| == |cells|
      && AllTexts(c.filters) && |Elements(c.filters)| == |c.filters|
      && IsRationale(c.passCode) && IsRationale(c.failCode) && PolicyOk(c);
  }

  // ---------------------------------------------------------------- acceptable records

  function PairOf(r: Record): (string, string) {
    (r.sample, r.cell)
  }

  /** A record on its own. */
  predicate RecordOk(c: Contract, r: Record) {
    && IsTrimmed(r.id) && IsTrimmed(r.sample) && IsTrimmed(r.cell) && r.metric == c.metric
    && (if r.included then r.filter == "" && r.cell in CellIds(c) else IsTrimmed(r.filter) && r.filter in c.filters)
  }

  function Ids(records: seq<Record>): seq<string> {
    seq(|records|, i requires 0 <= i < |records| => records[i].id)
  }

  function Pairs(records: seq<Record>): seq<(string, string)> {
    seq(|records|, i requires 0 <= i < |records| => PairOf(records[i]))
  }

  function Expected(c: Contract): set<(string, string)> {
    set s, k | s in c.samples && k in CellIds(c) :: (s, k)
  }

  function Seen(records: seq<Record>): set<(string, string)> {
    Elements(Pairs(records))
  }

  ghost predicate EachOk(c: Contract, records: seq<Record>) {
    forall i :: 0 <= i < |records| ==> RecordOk(c, records[i])
  }

  ghost predicate RecordsOk(c: Contract, records: seq<Record>) {
    EachOk(c, records) && Distinct(Ids(records)) && Distinct(Pairs(records))
  }

  // ---------------------------------------------------------------- the values that count

  predicate Counts(r: Record, cell: Option<string>) {
    r.included && (cell.None? || r.cell == cell.value)
  }

  /** The values of the included records, of all cells or of one, in record order. */
  function Values(records: seq<Record>, cell: Option<string>): seq<int> {
    if records == [] then []
    else Values(records[..|records| - 1], cell) + (if Counts(records[|records| - 1], cell) then [records[|records| - 1].value] else [])
  }

  function Filtered(records: seq<Record>): nat {
    if records == [] then 0 else Filtered(records[..|records| - 1]) + (if records[|records| - 1].included then 0 else 1)
  }

  function Sum(values: seq<int>): int {
    if values == [] then 0 else Sum(values[..|values| - 1]) + values[|values| - 1]
  }

  /** The exact mean. */
  function Mean(values: seq<int>): real
    requires values != []
  {
    Sum(values) as real / |values| as real
  }

  /** The cells that the policy reads have values. */
  predicate PolicyReadable(c: Contract, records: seq<Record>) {
    match c.policy
    case MinimumMean(cell, _) => Values(records, Some(cell)) != []
    case Noninferiority(baseline, candidate, _) => Values(records, Some(baseline)) != [] && Values(records, Some(candidate)) != []
  }

  function Decide(c: Contract, records: seq<Record>): Verdict
    requires PolicyReadable(c, records)
  {
    var passed := match c.policy
      case MinimumMean(cell, minimum) => Mean(Values(records, Some(cell))) >= minimum
      case Noninferiority(baseline, candidate, limit) =>
        Mean(Values(records, Some(candidate))) >= Mean(Values(records, Some(baseline))) - limit;
    if passed then Keep else Reject
  }

  /** The records, the digest of their file and the claimed summary agree with the contract and with each other. */
  ghost predicate Accepted(c: Contract, records: seq<Record>, digest: string, claimed: Summary) {
    && RecordsOk(c, records) && Seen(records) == Expected(c) && Values(records, None) != []
    && claimed == SummaryOf(c, records, digest) && PolicyReadable(c, records)
  }

  function SummaryOf(c: Contract, records: seq<Record>, digest: string): Summary
    requires Values(records, None) != []
  {
    var values := Values(records, None);
    Summary(c.metric, c.scale, "mean", |values|, Filtered(records), Sum(values), Mean(values), digest)
  }

  function Rationale(c: Contract, verdict: Verdict): string {
    if verdict.Keep? then c.passCode else c.failCode
  }

  // ---------------------------------------------------------------- the validator

  function RecordError(c: Contract, r: Record, ids: set<string>, pairs: set<(string, string)>): Option<MetricError> {
    if !IsTrimmed(r.id) then Some(BadText)
    else if r.id in ids then Some(DuplicateRecord)
    else if !IsTrimmed(r.sample) || !IsTrimmed(r.cell) then Some(BadText)
    else if PairOf(r) in pairs then Some(DuplicatePair)
    else if r.metric != c.metric then Some(WrongMetric)
    else if r.included then (if r.filter != "" then Some(FilterOnIncluded) else if r.cell !in CellIds(c) then Some(UnknownCell) else None)
    else if !IsTrimmed(r.filter) then Some(BadText)
    else if r.filter !in c.filters then Some(UndeclaredFilter)
    else None
  }

  /** What the loop has collected from the records so far. */
  ghost predicate Collected(c: Contract, records: seq<Record>, ids: set<string>, pairs: set<(string, string)>,
    included: seq<int>, byCell: map<string, seq<int>>, filtered: nat)
  {
    && RecordsOk(c, records)
    && ids == Elements(Ids(records)) && pairs == Seen(records)
    && included == Values(records, None) && filtered == Filtered(records)
    && (forall cell :: cell in byCell <==> cell in CellIds(c))
    && (forall cell :: cell in byCell ==> byCell[cell] == Values(records, Some(cell)))
  }

  lemma {:induction false} DistinctSnoc<T>(s: seq<T>, x: T)
    ensures Distinct(s + [x]) <==> Distinct(s) && x !in Elements(s)
    ensures Elements(s + [x]) == Elements(s) + {x}
  {
    var t := s + [x];
    assert t[..|s|] == s && t[|s|] == x;
    if Distinct(t) { DistinctSplits(t); }
  }

  lemma {:induction false} IdsSnoc(records: seq<Record>, r: Record)
    ensures Distinct(Ids(records + [r])) <==> Distinct(Ids(records)) && r.id !in Elements(Ids(records))
    ensures Elements(Ids(records + [r])) == Elements(Ids(records)) + {r.id}
  {
    assert Ids(records + [r]) == Ids(records) + [r.id];
    DistinctSnoc(Ids(records), r.id);
  }

  lemma {:induction false} SeenSnoc(records: seq<Record>, r: Record)
    ensures Distinct(Pairs(records + [r])) <==> Distinct(Pairs(records)) && PairOf(r) !in Seen(records)
    ensures Seen(records + [r]) == Seen(records) + {PairOf(r)}
  {
    assert Pairs(records + [r]) == Pairs(records) + [PairOf(r)];
    DistinctSnoc(Pairs(records), PairOf(r));
  }

  lemma {:induction false} EachOkSnoc(c: Contract, records: seq<Record>, r: Record)
    ensures EachOk(c, records + [r]) <==> EachOk(c, records) && RecordOk(c, r)
  {
    hide RecordOk;
    var more := records + [r];
    assert more[|records|] == r;
    assert forall i :: 0 <= i < |records| ==> more[i] == records[i];
  }

  lemma NoRecordError(c: Contract, r: Record, ids: set<string>, pairs: set<(string, string)>)
    ensures RecordError(c, r, ids, pairs).None? <==> RecordOk(c, r) && r.id !in ids && PairOf(r) !in pairs
  {
    hide IsTrimmed, CellIds;
  }

  lemma {:induction false} RecordsSnoc(c: Contract, records: seq<Record>, r: Record)
    ensures RecordsOk(c, records + [r]) <==>
      RecordsOk(c, records) && RecordError(c, r, Elements(Ids(records)), Seen(records)).None?
    ensures Elements(Ids(records + [r])) == Elements(Ids(records)) + {r.id}
    ensures Seen(records + [r]) == Seen(records) + {PairOf(r)}
  {
    hide EachOk, RecordOk, Distinct, Elements, Ids, Pairs, Seen, RecordError;
    IdsSnoc(records, r);
    SeenSnoc(records, r);
    EachOkSnoc(c, records, r);
    NoRecordError(c, r, Elements(Ids(records)), Seen(records));
  }

  function Grown(byCell: map<string, seq<int>>, r: Record): map<string, seq<int>> {
    if r.included && r.cell in byCell then byCell[r.cell := byCell[r.cell] + [r.value]] else byCell
  }

  lemma {:induction false} ValuesSnoc(records: seq<Record>, r: Record, cell: Option<string>)
    ensures Values(records + [r], cell) == Values(records, cell) + (if Counts(r, cell) then [r.value] else [])
    ensures Filtered(records + [r]) == Filtered(records) + (if r.included then 0 else 1)
  {
    assert (records + [r])[..|records|] == records;
  }

  lemma {:induction false} CollectOn(c: Contract, records: seq<Record>, i: nat, ids: set<string>, pairs: set<(string, string)>,
    included: seq<int>, byCell: map<string, seq<int>>, filtered: nat)
    requires i < |records| && Collected(c, records[..i], ids, pairs, included, byCell, filtered)
    ensures RecordError(c, records[i], ids, pairs).Some? ==> !RecordsOk(c, records)
    ensures RecordError(c, records[i], ids, pairs).None? ==>
      var r := records[i];
      Collected(c, records[..i + 1], ids + {r.id}, pairs + {PairOf(r)}, if r.included then included + [r.value] else included,
                Grown(byCell, r), if r.included then filtered else filtered + 1)
  {
    hide RecordsOk, RecordError, Seen, Values, Filtered, Ids, Elements, CellIds;
    var before, r := records[..i], records[i];
    assert records[..i + 1] == before + [r];
    RecordsSnoc(c, before, r);
    if RecordsOk(c, records) { PrefixOk(c, records, i + 1); }
    forall cell ensures Values(before + [r], cell) == Values(before, cell) + (if Counts(r, cell) then [r.value] else []) {
      ValuesSnoc(before, r, cell);
    }
    ValuesSnoc(before, r, None);
  }

  lemma {:induction false} PrefixOk(c: Contract, records: seq<Record>, n: nat)
    requires RecordsOk(c, records) && n <= |records|
    ensures RecordsOk(c, records[..n])
  {
    hide RecordOk;
    assert Ids(records[..n]) == Ids(records)[..n] && Pairs(records[..n]) == Pairs(records)[..n];
  }

  lemma {:induction false} NothingCollected(c: Contract, byCell: map<string, seq<int>>)
    requires (forall cell :: cell in byCell <==> cell in CellIds(c)) && forall cell :: cell in byCell ==> byCell[cell] == []
    ensures Collected(c, [], {}, {}, [], byCell, 0)
  {
  }

  method ValidateRawMetrics(c: Contract, records: seq<Record>, digest: string, claimed: Summary)
    returns (r: Result<(Summary, Verdict, string), MetricError>)
    requires ContractOk(c)
    ensures r.Success? <==> Accepted(c, records, digest, claimed)
    ensures r.Success? ==> r.value.0 == SummaryOf(c, records, digest) && r.value.1 == Decide(c, records)
    ensures r.Success? ==> r.value.2 == Rationale(c, r.value.1)
  {
    var ids: set<string>, pairs: set<(string, string)>, included: seq<int>, filtered: nat := {}, {}, [], 0;
    var byCell: map<string, seq<int>> := map cell | cell in CellIds(c) :: [];
    NothingCollected(c, byCell);
    hide RecordError, Values, Filtered, Seen, Sum, RecordsOk, Grown, CellIds;
    for i := 0 to |records|
      invariant Collected(c, records[..i], ids, pairs, included, byCell, filtered)
    {
      hide Collected, Accepted;
      CollectOn(c, records, i, ids, pairs, included, byCell, filtered);
      AcceptedRecords(c, records, digest, claimed);
      var record := records[i];
      var error := RecordError(c, record, ids, pairs);
      if error.Some? { return Failure(error.value); }
      ids, pairs := ids + {record.id}, pairs + {PairOf(record)};
      byCell := Grown(byCell, record);
      if record.included {
        included := included + [record.value];
      } else {
        filtered := filtered + 1;
      }
    }
    assert records[..|records|] == records;
    if pairs != Expected(c) { return Failure(MatrixMismatch); }
    if included == [] { return Failure(AllFiltered); }
    var summary := Summary(c.metric, c.scale, "mean", |included|, filtered, Sum(included), Mean(included), digest);
    if summary != claimed { return Failure(SummaryMismatch); }
    var verdict := ApplyPolicy(c, byCell, records);
    if verdict.None? { return Failure(PolicyCellEmpty); }
    r := Success((summary, verdict.value, Rationale(c, verdict.value)));
  }

  lemma {:induction false} AcceptedRecords(c: Contract, records: seq<Record>, digest: string, claimed: Summary)
    ensures Accepted(c, records, digest, claimed) ==> RecordsOk(c, records)
  {
  }

  method ApplyPolicy(c: Contract, byCell: map<string, seq<int>>, ghost records: seq<Record>) returns (verdict: Option<Verdict>)
    requires PolicyOk(c) && (forall cell :: cell in byCell <==> cell in CellIds(c))
    requires forall cell :: cell in byCell ==> byCell[cell] == Values(records, Some(cell))
    ensures verdict.Some? <==> PolicyReadable(c, records)
    ensures verdict.Some? ==> verdict.value == Decide(c, records)
  {
    hide Values, Mean;
    match c.policy
    case MinimumMean(cell, minimum) =>
      if byCell[cell] == [] { return None; }
      verdict := Some(if Mean(byCell[cell]) >= minimum then Keep else Reject);
    case Noninferiority(baseline, candidate, limit) =>
      if byCell[baseline] == [] || byCell[candidate] == [] { return None; }
      verdict := Some(if Mean(byCell[candidate]) >= Mean(byCell[baseline]) - limit then Keep else Reject);
  }

  // ---------------------------------------------------------------- every sample and cell, exactly once

  lemma {:induction false} SeenPair(records: seq<Record>, p: (string, string)) returns (i: nat)
    requires p in Seen(records)
    ensures i < |records| && PairOf(records[i]) == p
  {
    var k :| 0 <= k < |records| && Pairs(records)[k] == p;
    i := k;
  }

  lemma {:induction false} PairIsSeen(records: seq<Record>, i: nat)
    requires i < |records|
    ensures PairOf(records[i]) in Seen(records)
  {
    assert Pairs(records)[i] == PairOf(records[i]);
  }

  lemma {:induction false} PairOnce(records: seq<Record>, i: nat, j: nat)
    requires Distinct(Pairs(records)) && i < |records| && j < |records| && PairOf(records[i]) == PairOf(records[j])
    ensures i == j
  {
    assert Pairs(records)[i] == Pairs(records)[j];
  }

  /** Accepted records and sample-cell pairs correspond one to one. */
  lemma {:induction false} OneRecordForEachPair(c: Contract, records: seq<Record>, digest: string, claimed: Summary, sample: string, cell: string)
    returns (i: nat)
    requires Accepted(c, records, digest, claimed) && sample in c.samples && cell in CellIds(c)
    ensures i < |records| && PairOf(records[i]) == (sample, cell)
    ensures forall j :: 0 <= j < |records| && PairOf(records[j]) == (sample, cell) ==> j == i
    ensures forall j :: 0 <= j < |records| ==> records[j].sample in c.samples && records[j].cell in CellIds(c)
  {
    hide Values, Filtered, PolicyReadable, Seen, Pairs, Distinct, CellIds;
    i := SeenPair(records, (sample, cell));
    forall j | 0 <= j < |records| && PairOf(records[j]) == (sample, cell) ensures j == i {
      PairOnce(records, i, j);
    }
    forall j | 0 <= j < |records| ensures records[j].sample in c.samples && records[j].cell in CellIds(c) {
      PairIsSeen(records, j);
    }
  }

  ghost function Row(sample: string, cells: set<string>): set<(string, string)> {
    set k | k in cells :: (sample, k)
  }

  lemma {:induction false} RowSize(sample: string, cells: set<string>)
    ensures |Row(sample, cells)| == |cells|
  {
    if cells == {} {
      assert Row(sample, cells) == {};
    } else {
      var k :| k in cells;
      RowSize(sample, cells - {k});
      assert Row(sample, cells) == Row(sample, cells - {k}) + {(sample, k)};
    }
  }

  ghost function Grid(samples: seq<string>, cells: set<string>): set<(string, string)> {
    set s, k | s in samples && k in cells :: (s, k)
  }

  lemma {:induction false} GridSnoc(samples: seq<string>, last: string, cells: set<string>)
    requires last !in samples
    ensures Grid(samples + [last], cells) == Grid(samples, cells) + Row(last, cells)
    ensures Grid(samples, cells) !! Row(last, cells)
  {
    forall p ensures p in Grid(samples + [last], cells) <==> p in Grid(samples, cells) + Row(last, cells) {
      assert p.0 in samples + [last] <==> p.0 in samples || p.0 == last;
    }
  }

  lemma OneMoreRow(n: nat, m: nat)
    ensures (n + 1) * m == n * m + m
  {
  }

  lemma {:induction false} GridSize(samples: seq<string>, cells: set<string>)
    requires Distinct(samples)
    ensures |Grid(samples, cells)| == |samples| * |cells|
  {
    if samples == [] {
      assert Grid(samples, cells) == {};
    } else {
      hide Grid, Row, Distinct;
      DistinctSplits(samples);
      var rest, last := samples[..|samples| - 1], samples[|samples| - 1];
      GridSize(rest, cells);
      RowSize(last, cells);
      GridSnoc(rest, last, cells);
      OneMoreRow(|rest|, |cells|);
    }
  }

  lemma {:induction false} IncludedOrFiltered(records: seq<Record>)
    ensures |Values(records, None)| + Filtered(records) == |records|
  {
    if records != [] {
      IncludedOrFiltered(records[..|records| - 1]);
    }
  }

  /** Nothing is dropped: included plus filtered records are all the pairs of the matrix. */
  lemma {:induction false} IncludedPlusFiltered(c: Contract, records: seq<Record>, digest: string, claimed: Summary)
    requires ContractOk(c) && Accepted(c, records, digest, claimed)
    ensures claimed.included + claimed.filtered == |c.samples| * |c.matrix|
  {
    IncludedOrFiltered(records);
    CountMeansDistinct(Pairs(records));
    CountMeansDistinct(CellIds(c));
    GridSize(c.samples, Elements(CellIds(c)));
    assert Expected(c) == Grid(c.samples, Elements(CellIds(c)));
  }

  // ---------------------------------------------------------------- the order of the records does not matter

  function Drop(records: seq<Record>, k: nat): seq<Record>
    requires k < |records|
  {
    records[..k] + records[k + 1..]
  }

  /** Taking one record out takes out its value and nothing else. */
  lemma {:induction false} DropValue(records: seq<Record>, k: nat, cell: Option<string>)
    requires k < |records|
    ensures Sum(Values(records, cell)) == Sum(Values(Drop(records, k), cell)) + (if Counts(records[k], cell) then records[k].value else 0)
    ensures |Values(records, cell)| == |Values(Drop(records, k), cell)| + (if Counts(records[k], cell) then 1 else 0)
    ensures Filtered(records) == Filtered(Drop(records, k)) + (if records[k].included then 0 else 1)
    decreases |records|
  {
    hide Values, Sum, Filtered;
    var n := |records| - 1;
    var rest, last := records[..n], records[n];
    assert records == rest + [last];
    ValuesSnoc(rest, last, cell);
    SumSnoc(Values(rest, cell), last.value);
    assert Values(rest, cell) + [] == Values(rest, cell);
    if k == n {
      assert Drop(records, k) == rest;
    } else {
      DropValue(rest, k, cell);
      assert Drop(records, k) == Drop(rest, k) + [last];
      assert Values(Drop(rest, k), cell) + [] == Values(Drop(rest, k), cell);
      ValuesSnoc(Drop(rest, k), last, cell);
      SumSnoc(Values(Drop(rest, k), cell), last.value);
    }
  }

  lemma {:induction false} SumSnoc(values: seq<int>, v: int)
    ensures Sum(values + [v]) == Sum(values) + v
  {
    assert (values + [v])[..|values|] == values;
  }

  lemma {:induction false} SameRecordsSameTotals(a: seq<Record>, b: seq<Record>, cell: Option<string>)
    requires multiset(a) == multiset(b)
    ensures Sum(Values(a, cell)) == Sum(Values(b, cell)) && |Values(a, cell)| == |Values(b, cell)| && Filtered(a) == Filtered(b)
    decreases |a|
  {
    hide Values, Sum, Filtered, Drop;
    assert |multiset(a)| == |multiset(b)|;
    if a != [] {
      var last := a[|a| - 1];
      assert last in multiset(a);
      var k :| 0 <= k < |b| && b[k] == last;
      DropValue(a, |a| - 1, cell);
      DropValue(b, k, cell);
      DropElements(a, |a| - 1);
      DropElements(b, k);
      DropLength(a, |a| - 1);
      SameRecordsSameTotals(Drop(a, |a| - 1), Drop(b, k), cell);
    }
  }

  lemma {:induction false} DropLength(records: seq<Record>, k: nat)
    requires k < |records|
    ensures |Drop(records, k)| == |records| - 1
  {
  }

  lemma {:induction false} DropElements(records: seq<Record>, k: nat)
    requires k < |records|
    ensures multiset(Drop(records, k)) == multiset(records) - multiset{records[k]}
  {
    assert records == records[..k] + [records[k]] + records[k + 1..];
  }

  /** Reordering the records changes neither the totals nor the verdict. */
  lemma {:induction false} SameTotals(c: Contract, a: seq<Record>, b: seq<Record>, digest: string)
    requires multiset(a) == multiset(b) && Values(a, None) != [] && PolicyReadable(c, a)
    ensures Values(b, None) != [] && PolicyReadable(c, b)
    ensures SummaryOf(c, a, digest) == SummaryOf(c, b, digest) && Decide(c, a) == Decide(c, b)
  {
    hide Values, Sum, Filtered;
    SameRecordsSameTotals(a, b, None);
    match c.policy
    case MinimumMean(cell, _) =>
      SameRecordsSameTotals(a, b, Some(cell));
    case Noninferiority(baseline, candidate, _) =>
      SameRecordsSameTotals(a, b, Some(baseline));
      SameRecordsSameTotals(a, b, Some(candidate));
  }

  lemma {:induction false} AlsoIn(a: seq<Record>, b: seq<Record>, i: nat) returns (j: nat)
    requires multiset(a) == multiset(b) && i < |a|
    ensures j < |b| && b[j] == a[i]
  {
    assert a[i] in multiset(a);
    var k :| 0 <= k < |b| && b[k] == a[i];
    j := k;
  }

  lemma {:induction false} SameElements(c: Contract, a: seq<Record>, b: seq<Record>)
    requires multiset(a) == multiset(b)
    ensures EachOk(c, a) ==> EachOk(c, b)
    ensures Elements(Ids(a)) <= Elements(Ids(b)) && Elements(Pairs(a)) <= Elements(Pairs(b))
  {
    hide RecordOk, PairOf;
    if EachOk(c, a) {
      forall i | 0 <= i < |b| ensures RecordOk(c, b[i]) { var j := AlsoIn(b, a, i); }
    }
    forall id | id in Ids(a) ensures id in Ids(b) {
      var i :| 0 <= i < |a| && Ids(a)[i] == id;
      var j := AlsoIn(a, b, i);
      assert Ids(b)[j] == id;
    }
    forall p | p in Pairs(a) ensures p in Pairs(b) {
      var i :| 0 <= i < |a| && Pairs(a)[i] == p;
      var j := AlsoIn(a, b, i);
      assert Pairs(b)[j] == p;
    }
  }

  lemma {:induction false} SameRecordsOk(c: Contract, a: seq<Record>, b: seq<Record>)
    requires multiset(a) == multiset(b)
    ensures Seen(a) == Seen(b) && (RecordsOk(c, a) ==> RecordsOk(c, b))
  {
    hide EachOk, Elements, Distinct;
    SameElements(c, a, b);
    SameElements(c, b, a);
    assert |multiset(a)| == |multiset(b)|;
    assert Elements(Ids(a)) == Elements(Ids(b)) && Elements(Pairs(a)) == Elements(Pairs(b));
    CountMeansDistinct(Ids(a));
    CountMeansDistinct(Ids(b));
    CountMeansDistinct(Pairs(a));
    CountMeansDistinct(Pairs(b));
  }

  lemma {:induction false} ReorderedAccepted(c: Contract, a: seq<Record>, b: seq<Record>, digest: string, digest': string, claimed: Summary)
    requires multiset(a) == multiset(b) && Accepted(c, a, digest, claimed.(digest := digest))
    ensures Accepted(c, b, digest', claimed.(digest := digest')) && Decide(c, a) == Decide(c, b)
  {
    hide RecordsOk, Seen, Values, Filtered, Sum, Mean, PolicyReadable, Decide, Expected;
    SameRecordsOk(c, a, b);
    SameTotals(c, a, b, digest);
  }

  /** A reordered file, with its own digest in the summary, is accepted or refused like the first, and with the same verdict. */
  lemma {:induction false} OrderDoesNotMatter(c: Contract, a: seq<Record>, b: seq<Record>, digest: string, digest': string, claimed: Summary)
    requires multiset(a) == multiset(b)
    ensures Accepted(c, a, digest, claimed.(digest := digest)) <==> Accepted(c, b, digest', claimed.(digest := digest'))
    ensures Accepted(c, a, digest, claimed.(digest := digest)) ==> Decide(c, a) == Decide(c, b)
  {
    hide Accepted, Decide;
    if Accepted(c, a, digest, claimed.(digest := digest)) { ReorderedAccepted(c, a, b, digest, digest', claimed); }
    if Accepted(c, b, digest', claimed.(digest := digest')) { ReorderedAccepted(c, b, a, digest', digest, claimed); }
  }

  // ---------------------------------------------------------------- better values never hurt

  function PolicyCell(p: Policy): string {
    match p
    case MinimumMean(cell, _) => cell
    case Noninferiority(_, candidate, _) => candidate
  }

  function Raised(records: seq<Record>, k: nat, value: int): seq<Record>
    requires k < |records|
  {
    records[k := records[k].(value := value)]
  }

  lemma {:induction false} RaisedTotals(records: seq<Record>, k: nat, value: int, cell: Option<string>)
    requires k < |records| && value >= records[k].value
    ensures |Values(Raised(records, k, value), cell)| == |Values(records, cell)|
    ensures Sum(Values(Raised(records, k, value), cell)) ==
      Sum(Values(records, cell)) + (if Counts(records[k], cell) then value - records[k].value else 0)
  {
    var raised := Raised(records, k, value);
    DropValue(records, k, cell);
    DropValue(raised, k, cell);
    assert Drop(raised, k) == Drop(records, k);
  }

  lemma {:induction false} MeanGrows(a: seq<int>, b: seq<int>)
    requires a != [] && |a| == |b| && Sum(a) <= Sum(b)
    ensures Mean(a) <= Mean(b)
  {
    hide Sum;
    QuotientMonotone(Sum(a) as real, Sum(b) as real, |a| as real);
  }

  /** Raising a value of the cell under judgement never turns KEEP into REJECT. */
  lemma {:induction false} RaisingNeverRejects(c: Contract, records: seq<Record>, k: nat, value: int)
    requires PolicyOk(c) && PolicyReadable(c, records) && k < |records|
    requires records[k].cell == PolicyCell(c.policy) && value >= records[k].value
    ensures PolicyReadable(c, Raised(records, k, value))
    ensures Decide(c, records) == Keep ==> Decide(c, Raised(records, k, value)) == Keep
  {
    hide Values, Sum, Mean;
    var raised := Raised(records, k, value);
    var cell := Some(PolicyCell(c.policy));
    RaisedTotals(records, k, value, cell);
    MeanGrows(Values(records, cell), Values(raised, cell));
    if c.policy.Noninferiority? {
      var baseline := Some(c.policy.baseline);
      RaisedTotals(records, k, value, baseline);
      SameMean(Values(records, baseline), Values(raised, baseline));
    }
  }

  lemma {:induction false} SameMean(a: seq<int>, b: seq<int>)
    requires a != [] && |a| == |b| && Sum(a) == Sum(b)
    ensures Mean(a) == Mean(b)
  {
    hide Sum;
  }
}
