/**
 The cursor-based server-sent event stream over the committed audit rows.  The
 client's Last-Event-ID is the only state that survives a disconnect (section 9.2
 of the WHATWG HTML Standard).
 */
module EventStream {
  import opened Wrappers
  import Decimal

  // ---------------------------------------------------------------- cursors

  function PrintCursor(generation: string, sequence: nat): string {
    generation + ":" + Decimal.Print(sequence)
  }

  /** The position of the last colon. */
  function LastColon(s: string): (i: Option<nat>)
    ensures i.Some? ==> i.value < |s| && s[i.value] == ':'
  {
    if s == "" then None
    else if s[|s| - 1] == ':' then Some(|s| - 1)
    else LastColon(s[..|s| - 1])
  }

  function Negated(n: nat): int {
    0 - n
  }

  /** An optional sign and decimal digits. */
  function ParseInt(s: string): Option<int> {
    if s != "" && Decimal.AllDigits(s) then Some(Decimal.Value(s))
    else if |s| > 1 && s[0] == '+' && Decimal.AllDigits(s[1..]) then Some(Decimal.Value(s[1..]))
    else if |s| > 1 && s[0] == '-' && Decimal.AllDigits(s[1..]) then Some(Negated(Decimal.Value(s[1..])))
    else None
  }

  datatype Cursor = NoCursor | Cursor(generation: string, sequence: nat)

  /** Malformed browser state is no cursor at all. */
  function ParseEventCursor(value: Option<string>): Cursor {
    if value.None? || value.value == "" then NoCursor
    else
      var colon := LastColon(value.value);
      if colon.None? || colon.value == 0 then NoCursor
      else
        var sequence := ParseInt(value.value[colon.value + 1..]);
        if sequence.None? || sequence.value < 0 then NoCursor
        else Cursor(value.value[..colon.value], sequence.value)
  }

  /** A text without colons after one: that colon is the last. */
  lemma {:induction false} LastColonAfter(a: string, b: string)
    requires forall i :: 0 <= i < |b| ==> b[i] != ':'
    ensures LastColon(a + ":" + b) == Some(|a|)
  {
    var s := a + ":" + b;
    if b != "" {
      var c := b[..|b| - 1];
      assert s[..|s| - 1] == a + ":" + c;
      LastColonAfter(a, c);
    }
  }

  /** Printing and parsing are inverse for every non-empty generation, colons and all. */
  lemma CursorRoundTrip(generation: string, sequence: nat)
    requires generation != ""
    ensures ParseEventCursor(Some(PrintCursor(generation, sequence))) == Cursor(generation, sequence)
  {
    var digits, s := Decimal.Print(sequence), PrintCursor(generation, sequence);
    LastColonAfter(generation, digits);
    assert s[..|generation|] == generation && s[|generation| + 1..] == digits;
    Decimal.ValueOfPrint(sequence);
  }

  /** What was parsed is what the printed form of it parses to again. */
  lemma ParsedCursorIsStable(value: Option<string>)
    ensures var c := ParseEventCursor(value);
      c.Cursor? ==> c.generation != "" && ParseEventCursor(Some(PrintCursor(c.generation, c.sequence))) == c
  {
    var c := ParseEventCursor(value);
    if c.Cursor? { CursorRoundTrip(c.generation, c.sequence); }
  }

  // ---------------------------------------------------------------- audit rows

  datatype AuditRow = AuditRow(sequence: nat, body: string)

  /** What one poll finds: the task's generation and the committed rows of that generation. */
  datatype Snapshot = Snapshot(generation: string, rows: seq<AuditRow>)

  const LIMIT: nat := 1000

  ghost predicate Increasing(rows: seq<AuditRow>) {
    forall i, j :: 0 <= i < j < |rows| ==> rows[i].sequence < rows[j].sequence
  }

  /** The rows behind a sequence number, in order. */
  function After(rows: seq<AuditRow>, sequence: nat): seq<AuditRow> {
    if rows == [] then []
    else (if rows[0].sequence > sequence then [rows[0]] else []) + After(rows[1..], sequence)
  }

  function Fetch(rows: seq<AuditRow>, sequence: nat): seq<AuditRow> {
    var all := After(rows, sequence);
    if |all| <= LIMIT then all else all[..LIMIT]
  }

  lemma {:induction false} AfterAppended(rows: seq<AuditRow>, tail: seq<AuditRow>, sequence: nat)
    ensures After(rows + tail, sequence) == After(rows, sequence) + After(tail, sequence)
  {
    if rows == [] {
      assert rows + tail == tail;
    } else {
      assert (rows + tail)[1..] == rows[1..] + tail;
      AfterAppended(rows[1..], tail, sequence);
    }
  }

  lemma {:induction false} AllAfter(rows: seq<AuditRow>, sequence: nat)
    requires forall i :: 0 <= i < |rows| ==> rows[i].sequence > sequence
    ensures After(rows, sequence) == rows
  {
    if rows != [] {
      AllAfter(rows[1..], sequence);
    }
  }

  lemma {:induction false} AfterOwnRow(rows: seq<AuditRow>, k: nat)
    requires Increasing(rows) && k < |rows|
    ensures After(rows, rows[k].sequence) == rows[k + 1..]
  {
    if k == 0 {
      AllAfter(rows[1..], rows[0].sequence);
    } else {
      assert rows[0].sequence < rows[k].sequence;
      AfterOwnRow(rows[1..], k - 1);
    }
  }

  /** Resuming behind a row that is still to come skips exactly that row and those before it. */
  lemma {:induction false} ResumeBehind(rows: seq<AuditRow>, sequence: nat, k: nat)
    requires Increasing(rows) && k < |After(rows, sequence)|
    ensures After(rows, After(rows, sequence)[k].sequence) == After(rows, sequence)[k + 1..]
  {
    if rows[0].sequence > sequence {
      AllAfter(rows, sequence);
      AfterOwnRow(rows, k);
    } else {
      InAfter(rows[1..], sequence, k);
      assert Increasing(rows[1..]);
      ResumeBehind(rows[1..], sequence, k);
    }
  }

  lemma {:induction false} InAfter(rows: seq<AuditRow>, sequence: nat, k: nat)
    requires k < |After(rows, sequence)|
    ensures After(rows, sequence)[k] in rows && After(rows, sequence)[k].sequence > sequence
  {
    var own := if rows[0].sequence > sequence then 1 else 0;
    if k >= own {
      InAfter(rows[1..], sequence, k - own);
    }
  }

  // ---------------------------------------------------------------- what has been delivered

  /** Where a stream that started at `start` stands after the rows it got. */
  function Position(start: nat, got: seq<AuditRow>): nat {
    if got == [] then start else got[|got| - 1].sequence
  }

  /** The rows got so far are the first ones behind the start, with no gap and no repeat. */
  ghost predicate Delivered(rows: seq<AuditRow>, start: nat, got: seq<AuditRow>) {
    got + After(rows, Position(start, got)) == After(rows, start)
  }

  lemma {:induction false} NothingDelivered(rows: seq<AuditRow>, start: nat)
    ensures Delivered(rows, start, [])
  {
  }

  /** The next rows of a poll, as many as get through. */
  lemma {:induction false} DeliverMore(rows: seq<AuditRow>, start: nat, got: seq<AuditRow>, k: nat)
    requires Increasing(rows) && Delivered(rows, start, got) && k <= |After(rows, Position(start, got))|
    ensures Delivered(rows, start, got + After(rows, Position(start, got))[..k])
  {
    hide After, Increasing;
    var now, next := Position(start, got), After(rows, Position(start, got));
    if k > 0 {
      ResumeBehind(rows, now, k - 1);
      LastOfSlice(got, next, k);
      Rejoin(got, next, k);
    } else {
      assert got + next[..k] == got;
    }
  }

  lemma {:induction false} LastOfSlice(got: seq<AuditRow>, next: seq<AuditRow>, k: nat)
    requires 0 < k <= |next|
    ensures got + next[..k] != [] && (got + next[..k])[|got + next[..k]| - 1] == next[k - 1]
  {
  }

  lemma {:induction false} Rejoin(got: seq<AuditRow>, next: seq<AuditRow>, k: nat)
    requires k <= |next|
    ensures (got + next[..k]) + next[k..] == got + next
  {
  }

  /** Rows that are committed meanwhile do not disturb what was delivered. */
  lemma {:induction false} RowsArrive(rows: seq<AuditRow>, tail: seq<AuditRow>, start: nat, got: seq<AuditRow>)
    requires Increasing(rows + tail) && Delivered(rows, start, got)
    ensures Delivered(rows + tail, start, got)
  {
    hide After;
    var now := Position(start, got);
    AfterAppended(rows, tail, start);
    AfterAppended(rows, tail, now);
    if got != [] {
      GotIsStored(rows, start, got);
      forall i | 0 <= i < |tail| ensures tail[i].sequence > now {
        TailIsLater(rows, tail, got[|got| - 1], i);
      }
      hide Increasing;
      AllAfter(tail, now);
      AllAfter(tail, start);
      Regroup(got, After(rows, now), tail);
    }
  }

  lemma {:induction false} TailIsLater(rows: seq<AuditRow>, tail: seq<AuditRow>, row: AuditRow, i: nat)
    requires Increasing(rows + tail) && row in rows && i < |tail|
    ensures row.sequence < tail[i].sequence
  {
    var m :| 0 <= m < |rows| && rows[m] == row;
    assert (rows + tail)[m] == rows[m] && (rows + tail)[|rows| + i] == tail[i];
  }

  lemma {:induction false} Regroup(a: seq<AuditRow>, b: seq<AuditRow>, c: seq<AuditRow>)
    ensures a + (b + c) == (a + b) + c
  {
  }

  lemma {:induction false} GotIsStored(rows: seq<AuditRow>, start: nat, got: seq<AuditRow>)
    requires Delivered(rows, start, got) && got != []
    ensures got[|got| - 1] in rows && got[|got| - 1].sequence > start
  {
    var k := |got| - 1;
    assert After(rows, start)[k] == (got + After(rows, Position(start, got)))[k] == got[k];
    InAfter(rows, start, k);
  }

  /** A connection cut after k rows has delivered those k rows. */
  lemma {:induction false} CutShort(rows: seq<AuditRow>, start: nat, got: seq<AuditRow>, k: nat)
    requires Increasing(rows) && Delivered(rows, start, got) && k <= |got|
    ensures Delivered(rows, start, got[..k])
  {
    NothingDelivered(rows, start);
    assert got[..k] == After(rows, start)[..k];
    DeliverMore(rows, start, [], k);
    assert [] + After(rows, start)[..k] == got[..k];
  }

  /** A reconnect resumes exactly where the last connection stood. */
  lemma {:induction false} Reconnect(rows: seq<AuditRow>, start: nat, got: seq<AuditRow>, more: seq<AuditRow>)
    requires Delivered(rows, start, got) && Delivered(rows, Position(start, got), more)
    ensures Delivered(rows, start, got + more) && Position(start, got + more) == Position(Position(start, got), more)
  {
    var now := Position(start, got);
    if more == [] {
      assert got + more == got;
    }
    assert (got + more) + After(rows, Position(now, more)) == got + (more + After(rows, Position(now, more)));
  }

  // ---------------------------------------------------------------- one connection

  /** One event frame: the id line and the audit row under it. */
  datatype Frame = Frame(id: string, row: AuditRow)

  function RowsOf(frames: seq<Frame>): (rows: seq<AuditRow>)
    ensures |rows| == |frames| && forall i :: 0 <= i < |rows| ==> rows[i] == frames[i].row
  {
    seq(|frames|, i requires 0 <= i < |frames| => frames[i].row)
  }

  datatype StreamError = NegativeSequence | BadHeartbeat | BadMaximum

  /** What the polls of one connection read: while the generation stays, its rows only grow. */
  ghost predicate Growing(polls: seq<Snapshot>) {
    && (forall i :: 0 <= i < |polls| ==> Increasing(polls[i].rows))
    && (forall i :: 0 < i < |polls| && polls[i - 1].generation == polls[i].generation ==> polls[i - 1].rows <= polls[i].rows)
  }

  /** Where a connection starts: behind a cursor of this generation, or behind the number it was given. */
  function Start(generation: string, cursor: Option<string>, after: nat): nat {
    var c := ParseEventCursor(cursor);
    if c.Cursor? && c.generation == generation then c.sequence else after
  }

  lemma {:induction false} RowsOfSnoc(frames: seq<Frame>, f: Frame)
    ensures RowsOf(frames + [f]) == RowsOf(frames) + [f.row]
  {
  }

  /** Send the fetched rows of one poll, up to the maximum. */
  method SendRows(rows: seq<AuditRow>, generation: string, before: seq<Frame>, maximum: Option<nat>)
    returns (frames: seq<Frame>, full: bool)
    requires maximum.Some? ==> |before| < maximum.value
    ensures before <= frames && |frames| <= |before| + |rows|
    ensures RowsOf(frames) == RowsOf(before) + rows[..|frames| - |before|]
    ensures forall i :: |before| <= i < |frames| ==> frames[i].id == PrintCursor(generation, frames[i].row.sequence)
    ensures full <==> maximum.Some? && |frames| == maximum.value
    ensures !full ==> |frames| == |before| + |rows| && (maximum.Some? ==> |frames| < maximum.value)
  {
    hide PrintCursor, RowsOf;
    frames, full := before, false;
    assert RowsOf(before) + rows[..0] == RowsOf(before);
    for i := 0 to |rows|
      invariant before <= frames && |frames| == |before| + i && !full
      invariant maximum.Some? ==> |frames| < maximum.value
      invariant RowsOf(frames) == RowsOf(before) + rows[..i]
      invariant forall k :: |before| <= k < |frames| ==> frames[k].id == PrintCursor(generation, frames[k].row.sequence)
    {
      var frame := Frame(PrintCursor(generation, rows[i].sequence), rows[i]);
      RowsOfSnoc(frames, frame);
      frames := frames + [frame];
      assert rows[..i + 1] == rows[..i] + [rows[i]];
      if maximum.Some? && |frames| >= maximum.value {
        full := true;
        return;
      }
    }
    assert rows[..|rows|] == rows;
  }

  /** The frames sent while the store showed one generation: its rows at the last poll, and where the frames start. */
  datatype Segment = Segment(generation: string, rows: seq<AuditRow>, start: nat, frames: seq<Frame>)

  ghost function Reached(s: Segment): nat {
    Position(s.start, RowsOf(s.frames))
  }

  /** An unbroken beginning of the generation's rows behind the start, each under its cursor. */
  ghost predicate SegmentOk(s: Segment) {
    && Increasing(s.rows) && Delivered(s.rows, s.start, RowsOf(s.frames))
    && forall k :: 0 <= k < |s.frames| ==> s.frames[k].id == PrintCursor(s.generation, s.frames[k].row.sequence)
  }

  ghost predicate SegmentsOk(segments: seq<Segment>) {
    forall k :: 0 <= k < |segments| ==> SegmentOk(segments[k])
  }

  /** The segment's generation and rows are those of some poll, or nothing was read in it. */
  ghost predicate FromPoll(s: Segment, polls: seq<Snapshot>, n: nat)
    requires n <= |polls|
  {
    s.rows == [] || exists i :: 0 <= i < n && polls[i].generation == s.generation && polls[i].rows == s.rows
  }

  ghost predicate AllFromPolls(segments: seq<Segment>, polls: seq<Snapshot>, n: nat)
    requires n <= |polls|
  {
    forall k :: 0 <= k < |segments| ==> FromPoll(segments[k], polls, n)
  }

  ghost function Joined(segments: seq<Segment>): seq<Frame> {
    if segments == [] then [] else Joined(segments[..|segments| - 1]) + segments[|segments| - 1].frames
  }

  /**
   What a connection has sent after n polls: a segment of each generation that is
   gone, then the current one, which starts at the cursor as long as
   every poll showed the initial generation and from the beginning otherwise.
   */
  ghost predicate Sent(initial: string, polls: seq<Snapshot>, n: nat, start: nat, frames: seq<Frame>, gone: seq<Segment>, current: Segment)
    requires n <= |polls|
  {
    && frames == Joined(gone) + current.frames && SegmentsOk(gone) && SegmentOk(current) && AllFromPolls(gone, polls, n)
    && (if n == 0 then current.generation == initial && current.rows == []
        else current.generation == polls[n - 1].generation && current.rows == polls[n - 1].rows)
    && (if forall i :: 0 <= i < n ==> polls[i].generation == initial then current.start == start && gone == []
        else current.start == 0)
  }

  /**
   One connection: a poll for each wake-up until the client leaves, or the
   maximum is reached.  `polls` is what the store holds at each poll, `used` how
   many were made, and `fetched` how many rows the last one fetched.
   */
  method IterTaskEvents(initial: string, polls: seq<Snapshot>, cursor: Option<string>, afterSequence: int, follow: bool, heartbeat: real, maximum: Option<int>)
    returns (r: Result<seq<Frame>, StreamError>, used: nat, fetched: nat, ghost gone: seq<Segment>, ghost current: Segment)
    ensures r.Success? <==> afterSequence >= 0 && 0.05 <= heartbeat <= 60.0 && (maximum.Some? ==> maximum.value >= 1)
    ensures r.Success? && maximum.Some? ==> |r.value| <= maximum.value
    ensures r.Success? ==> used <= |polls| && (used < |polls| ==> used > 0 && (!follow || maximum == Some(|r.value|)))
    ensures r.Success? && Growing(polls) ==>
      Sent(initial, polls, used, Start(initial, cursor, afterSequence), r.value, gone, current)
    ensures r.Success? && Growing(polls) && used > 0 && fetched < LIMIT && maximum != Some(|r.value|) ==>
      After(current.rows, Reached(current)) == []
  {
    hide PrintCursor, Start, Growing, Fetch, Position, Delivered, RowsOf, After, SegmentOk, SegmentsOk, Joined, Reached, Sent;
    used, fetched, gone, current := 0, 0, [], Segment(initial, [], 0, []);
    if afterSequence < 0 { return Failure(NegativeSequence), used, fetched, gone, current; }
    if !(0.05 <= heartbeat <= 60.0) { return Failure(BadHeartbeat), used, fetched, gone, current; }
    if maximum.Some? && maximum.value < 1 { return Failure(BadMaximum), used, fetched, gone, current; }
    var limit: Option<nat> := if maximum.Some? then Some(maximum.value) else None;
    var generation, sequence := initial, Start(initial, cursor, afterSequence);
    ghost var start, growing := sequence, Growing(polls);
    current := Segment(initial, [], start, []);
    var frames: seq<Frame> := [];
    NoPollYet(initial, polls, start);
    while used < |polls|
      invariant used <= |polls|
      invariant limit.Some? ==> |frames| < limit.value
      invariant growing ==> Sent(initial, polls, used, start, frames, gone, current)
      invariant growing ==> generation == current.generation && sequence == Reached(current)
      invariant growing && used > 0 && fetched < LIMIT ==> After(current.rows, Reached(current)) == []
    {
      var changed := polls[used].generation != generation;
      if growing { gone, current := PollSees(initial, polls, used, start, frames, gone, current); }
      if changed {
        generation, sequence := polls[used].generation, 0;
      }
      var events := Fetch(polls[used].rows, sequence);
      var before, full := frames, false;
      frames, full := SendRows(events, generation, before, limit);
      sequence := Position(sequence, events[..|frames| - |before|]);
      fetched, used := |events|, used + 1;
      if growing { current := PollSends(initial, polls, used, start, before, frames, events, gone, current); }
      if full || !follow { return Success(frames), used, fetched, gone, current; }
    }
    r := Success(frames);
  }

  lemma {:induction false} NoPollYet(initial: string, polls: seq<Snapshot>, start: nat)
    ensures Sent(initial, polls, 0, start, [], [], Segment(initial, [], start, []))
    ensures Reached(Segment(initial, [], start, [])) == start
  {
    NothingDelivered([], start);
  }

  lemma {:induction false} JoinedSnoc(segments: seq<Segment>, s: Segment)
    ensures Joined(segments + [s]) == Joined(segments) + s.frames
  {
    assert (segments + [s])[..|segments|] == segments;
  }

  lemma {:induction false} StartAfter(initial: string, polls: seq<Snapshot>, n: nat)
    requires n < |polls|
    ensures (forall i :: 0 <= i < n + 1 ==> polls[i].generation == initial)
            <==> (forall i :: 0 <= i < n ==> polls[i].generation == initial) && polls[n].generation == initial
  {
  }

  /**
   Before a poll sends anything: rows of the same generation may have arrived, or
   a new generation begins, from its first row.
   */
  lemma {:induction false} PollSees(
    initial: string, polls: seq<Snapshot>, n: nat, start: nat, frames: seq<Frame>, gone: seq<Segment>, current: Segment)
    returns (gone': seq<Segment>, current': Segment)
    requires Growing(polls) && n < |polls| && Sent(initial, polls, n, start, frames, gone, current)
    ensures Sent(initial, polls, n + 1, start, frames, gone', current')
    ensures current'.generation == polls[n].generation && current'.rows == polls[n].rows
    ensures Reached(current') == if polls[n].generation != current.generation then 0 else Reached(current)
  {
    hide AllFromPolls, SegmentOk, SegmentsOk, Increasing, Reached, Joined, Growing;
    StartAfter(initial, polls, n);
    MorePolls(gone, current, polls, n);
    PollGrows(polls, n);
    var rows := polls[n].rows;
    if polls[n].generation != current.generation {
      gone', current' := gone + [current], Segment(polls[n].generation, rows, 0, []);
      JoinedSnoc(gone, current);
      SegmentsSnoc(gone, current);
      assert frames == Joined(gone') + [];
      NewSegment(polls[n].generation, rows);
    } else {
      gone', current' := gone, current.(rows := rows);
      SegmentGrows(current, rows);
    }
  }

  lemma {:induction false} PollGrows(polls: seq<Snapshot>, n: nat)
    requires Growing(polls) && n < |polls|
    ensures Increasing(polls[n].rows)
    ensures n > 0 && polls[n - 1].generation == polls[n].generation ==> polls[n - 1].rows <= polls[n].rows
  {
  }

  lemma {:induction false} SegmentsSnoc(segments: seq<Segment>, s: Segment)
    requires SegmentsOk(segments) && SegmentOk(s)
    ensures SegmentsOk(segments + [s])
  {
    hide SegmentOk;
  }

  lemma {:induction false} MorePolls(gone: seq<Segment>, current: Segment, polls: seq<Snapshot>, n: nat)
    requires n < |polls| && AllFromPolls(gone, polls, n)
    requires current.rows == [] || (n > 0 && current.generation == polls[n - 1].generation && current.rows == polls[n - 1].rows)
    ensures AllFromPolls(gone, polls, n + 1) && AllFromPolls(gone + [current], polls, n + 1)
  {
    forall k | 0 <= k < |gone| ensures FromPoll(gone[k], polls, n + 1) {
      assert FromPoll(gone[k], polls, n);
    }
    if current.rows != [] { assert polls[n - 1].rows == current.rows; }
    assert FromPoll(current, polls, n + 1);
  }

  lemma {:induction false} NewSegment(generation: string, rows: seq<AuditRow>)
    requires Increasing(rows)
    ensures SegmentOk(Segment(generation, rows, 0, [])) && Reached(Segment(generation, rows, 0, [])) == 0
  {
    NothingDelivered(rows, 0);
  }

  /** Growth between two polls keeps what was delivered. */
  lemma {:induction false} SegmentGrows(s: Segment, rows: seq<AuditRow>)
    requires SegmentOk(s) && s.rows <= rows && Increasing(rows)
    ensures SegmentOk(s.(rows := rows)) && Reached(s.(rows := rows)) == Reached(s)
  {
    hide Delivered, PrintCursor, RowsOf, After;
    StoreGrew(s.rows, rows, s.start, RowsOf(s.frames));
  }

  /** One poll sends the next rows; one that is sent whole, below the limit, leaves nothing behind. */
  lemma {:induction false} PollSends(
    initial: string, polls: seq<Snapshot>, n: nat, start: nat, before: seq<Frame>, frames: seq<Frame>, events: seq<AuditRow>,
    gone: seq<Segment>, current: Segment) returns (current': Segment)
    requires 0 < n <= |polls| && Sent(initial, polls, n, start, before, gone, current)
    requires events == Fetch(polls[n - 1].rows, Reached(current))
    requires before <= frames && |frames| <= |before| + |events|
    requires RowsOf(frames) == RowsOf(before) + events[..|frames| - |before|]
    requires forall k :: |before| <= k < |frames| ==> frames[k].id == PrintCursor(polls[n - 1].generation, frames[k].row.sequence)
    ensures Sent(initial, polls, n, start, frames, gone, current') && current'.rows == current.rows
    ensures current'.generation == current.generation
    ensures Reached(current') == Position(Reached(current), events[..|frames| - |before|])
    ensures |frames| == |before| + |events| && |events| < LIMIT ==> After(current'.rows, Reached(current')) == []
  {
    hide PrintCursor, Fetch, Position, Delivered, After, SegmentsOk, Joined, AllFromPolls;
    var sent := frames[|before|..];
    current' := current.(frames := current.frames + sent);
    assert frames == Joined(gone) + current'.frames;
    forall k | 0 <= k < |sent| ensures sent[k] == frames[|before| + k] && sent[k].row == events[k] {
      assert RowsOf(frames)[|before| + k] == frames[|before| + k].row;
    }
    assert RowsOf(sent) == events[..|sent|];
    SegmentSends(current, sent);
  }

  lemma {:induction false} SegmentSends(s: Segment, sent: seq<Frame>)
    requires SegmentOk(s)
    requires var events := Fetch(s.rows, Reached(s)); |sent| <= |events| && RowsOf(sent) == events[..|sent|]
    requires forall k :: 0 <= k < |sent| ==> sent[k].id == PrintCursor(s.generation, sent[k].row.sequence)
    ensures var events, s' := Fetch(s.rows, Reached(s)), s.(frames := s.frames + sent);
      && SegmentOk(s') && Reached(s') == Position(Reached(s), events[..|sent|])
      && (|sent| == |events| && |events| < LIMIT ==> After(s'.rows, Reached(s')) == [])
  {
    hide PrintCursor, Fetch, Position, Delivered, After, Increasing;
    var events, got := Fetch(s.rows, Reached(s)), RowsOf(s.frames);
    assert RowsOf(s.frames + sent) == got + events[..|sent|];
    PollDelivers(s.rows, s.start, got, |sent|);
    if |sent| == |events| {
      assert events[..|sent|] == events;
      FetchedAll(s.rows, Reached(s));
    }
  }

  lemma {:induction false} PollDelivers(rows: seq<AuditRow>, start: nat, got: seq<AuditRow>, k: nat)
    requires Increasing(rows) && Delivered(rows, start, got) && k <= |Fetch(rows, Position(start, got))|
    ensures Delivered(rows, start, got + Fetch(rows, Position(start, got))[..k])
    ensures Position(start, got + Fetch(rows, Position(start, got))[..k]) == Position(Position(start, got), Fetch(rows, Position(start, got))[..k])
  {
    DeliverMore(rows, start, got, k);
    assert Fetch(rows, Position(start, got))[..k] == After(rows, Position(start, got))[..k];
  }

  /** A poll that fetched fewer rows than the limit fetched all there were. */
  lemma {:induction false} FetchedAll(rows: seq<AuditRow>, now: nat)
    requires Increasing(rows)
    ensures |Fetch(rows, now)| < LIMIT ==> After(rows, Position(now, Fetch(rows, now))) == []
  {
    var all := After(rows, now);
    if 0 < |all| < LIMIT {
      ResumeBehind(rows, now, |all| - 1);
    }
  }

  /**
   A connection that saw one generation only: no generation is gone, and what was
   sent is an unbroken beginning of the rows behind the cursor, each under its cursor.
   */
  lemma {:induction false} OneGenerationIsOneSegment(
    initial: string, polls: seq<Snapshot>, n: nat, start: nat, frames: seq<Frame>, gone: seq<Segment>, current: Segment)
    requires 0 < n <= |polls| && Sent(initial, polls, n, start, frames, gone, current)
    requires forall i :: 0 <= i < n ==> polls[i].generation == initial
    ensures gone == [] && current.frames == frames && Delivered(polls[n - 1].rows, start, RowsOf(frames))
    ensures forall k :: 0 <= k < |frames| ==> frames[k].id == PrintCursor(initial, frames[k].row.sequence)
  {
    hide PrintCursor, Delivered, RowsOf;
    assert frames == [] + current.frames;
  }

  // ---------------------------------------------------------------- any number of connections

  function Flatten(parts: seq<seq<AuditRow>>): seq<AuditRow> {
    if parts == [] then [] else Flatten(parts[..|parts| - 1]) + parts[|parts| - 1]
  }

  /**
   The client reconnects with the id of the last event it saw: connection k is
   served from the store as it is then, and starts where the cursor points.
   */
  ghost predicate Reconnecting(generation: string, stores: seq<seq<AuditRow>>, parts: seq<seq<AuditRow>>, start: nat) {
    && |stores| == |parts|
    && (forall k :: 0 <= k < |stores| ==> Increasing(stores[k]))
    && (forall k :: 0 < k < |stores| ==> stores[k - 1] <= stores[k])
    && (forall k :: 0 <= k < |parts| ==>
          var resume := Position(start, Flatten(parts[..k]));
          Delivered(stores[k], Start(generation, Some(PrintCursor(generation, resume)), 0), parts[k]))
  }

  lemma {:induction false} PartDelivered(generation: string, stores: seq<seq<AuditRow>>, parts: seq<seq<AuditRow>>, start: nat, k: nat)
    requires generation != "" && Reconnecting(generation, stores, parts, start) && k < |parts|
    ensures Increasing(stores[k]) && (k > 0 ==> stores[k - 1] <= stores[k])
    ensures Delivered(stores[k], Position(start, Flatten(parts[..k])), parts[k])
  {
    CursorRoundTrip(generation, Position(start, Flatten(parts[..k])));
    hide Delivered;
  }

  lemma {:induction false} StoreGrew(rows: seq<AuditRow>, more: seq<AuditRow>, start: nat, got: seq<AuditRow>)
    requires rows <= more && Increasing(more) && Delivered(rows, start, got)
    ensures Delivered(more, start, got)
  {
    assert more == rows + more[|rows|..];
    RowsArrive(rows, more[|rows|..], start, got);
  }

  lemma {:induction false} ReconnectsAreExact(generation: string, stores: seq<seq<AuditRow>>, parts: seq<seq<AuditRow>>, start: nat)
    requires generation != "" && Reconnecting(generation, stores, parts, start) && parts != []
    ensures Delivered(stores[|stores| - 1], start, Flatten(parts))
    decreases |parts|
  {
    assert |stores| == |parts|;
    hide Reconnecting, Delivered, Increasing;
    var n := |parts| - 1;
    PartDelivered(generation, stores, parts, start, n);
    if n == 0 {
      NothingDelivered(stores[0], start);
    } else {
      PrefixReconnects(generation, stores, parts, start, n);
      ReconnectsAreExact(generation, stores[..n], parts[..n], start);
      StoreGrew(stores[n - 1], stores[n], start, Flatten(parts[..n]));
    }
    Reconnect(stores[n], start, Flatten(parts[..n]), parts[n]);
  }

  lemma {:induction false} PrefixReconnects(generation: string, stores: seq<seq<AuditRow>>, parts: seq<seq<AuditRow>>, start: nat, n: nat)
    requires Reconnecting(generation, stores, parts, start) && n <= |parts|
    ensures Reconnecting(generation, stores[..n], parts[..n], start)
  {
    hide Delivered, Increasing, Start, PrintCursor, Position;
    forall k | 0 <= k < n
      ensures Delivered(stores[..n][k], Start(generation, Some(PrintCursor(generation, Position(start, Flatten(parts[..n][..k])))), 0), parts[..n][k])
    {
      assert parts[..n][..k] == parts[..k];
    }
  }

  ghost predicate Numbered(rows: seq<AuditRow>) {
    forall i :: 0 <= i < |rows| ==> rows[i].sequence >= 1
  }

  /**
   Exactly once: over any number of disconnects and reconnects, with rows
   committed in between, a client that started from the beginning has received
   the audit rows in order, each once, up to where it stands; when nothing is left
   behind its cursor, it has received all of them.
   */
  lemma {:induction false} ExactlyOnce(generation: string, stores: seq<seq<AuditRow>>, parts: seq<seq<AuditRow>>)
    requires generation != "" && Reconnecting(generation, stores, parts, 0) && parts != []
    requires Numbered(stores[|stores| - 1])
    ensures var rows, got := stores[|stores| - 1], Flatten(parts);
      && got <= rows
      && (After(rows, Position(0, got)) == [] <==> got == rows)
  {
    var rows, got := stores[|stores| - 1], Flatten(parts);
    ReconnectsAreExact(generation, stores, parts, 0);
    AllAfter(rows, 0);
    assert got + After(rows, Position(0, got)) == rows;
  }

  // ---------------------------------------------------------------- the client over its connections

  /** One connection: what it polled and sent, in the terms of IterTaskEvents, and the frames that arrived before it was cut. */
  datatype Connection = Connection(polls: seq<Snapshot>, used: nat, frames: seq<Frame>, gone: seq<Segment>, current: Segment, seen: seq<Frame>)

  /** What the store held at the last poll. */
  ghost function LastRows(c: Connection): seq<AuditRow> {
    if 0 < c.used <= |c.polls| then c.polls[c.used - 1].rows else []
  }

  /** A connection under a Last-Event-ID, while the task keeps its generation. */
  ghost predicate Served(generation: string, c: Connection, lastId: Option<string>) {
    && 0 < c.used <= |c.polls| && Growing(c.polls) && (forall i :: 0 <= i < c.used ==> c.polls[i].generation == generation)
    && Sent(generation, c.polls, c.used, Start(generation, lastId, 0), c.frames, c.gone, c.current)
    && c.seen <= c.frames
  }

  /** The id of the last frame that arrived on any connection. */
  function LastId(connections: seq<Connection>): Option<string> {
    if connections == [] then None
    else
      var seen := connections[|connections| - 1].seen;
      if seen != [] then Some(seen[|seen| - 1].id) else LastId(connections[..|connections| - 1])
  }

  /** Every connection is served behind the last id that arrived before it, from a store that only grew since the connection before. */
  ghost predicate Connected(generation: string, connections: seq<Connection>) {
    && (forall k :: 0 <= k < |connections| ==> Served(generation, connections[k], LastId(connections[..k])))
    && (forall k :: 0 < k < |connections| ==> LastRows(connections[k - 1]) <= FirstRows(connections[k]))
  }

  ghost function FirstRows(c: Connection): seq<AuditRow> {
    if c.polls != [] then c.polls[0].rows else []
  }

  function Parts(connections: seq<Connection>): (parts: seq<seq<AuditRow>>)
    ensures |parts| == |connections| && forall k :: 0 <= k < |parts| ==> parts[k] == RowsOf(connections[k].seen)
  {
    seq(|connections|, k requires 0 <= k < |connections| => RowsOf(connections[k].seen))
  }

  ghost function Stores(connections: seq<Connection>): (stores: seq<seq<AuditRow>>)
    ensures |stores| == |connections| && forall k :: 0 <= k < |stores| ==> stores[k] == LastRows(connections[k])
  {
    seq(|connections|, k requires 0 <= k < |connections| => LastRows(connections[k]))
  }

  ghost predicate IdsOk(generation: string, frames: seq<Frame>) {
    forall k :: 0 <= k < |frames| ==> frames[k].id == PrintCursor(generation, frames[k].row.sequence)
  }

  lemma {:induction false} RowsOnlyGrow(polls: seq<Snapshot>, n: nat, generation: string)
    requires Growing(polls) && n < |polls| && forall i :: 0 <= i <= n ==> polls[i].generation == generation
    ensures polls[0].rows <= polls[n].rows && Increasing(polls[n].rows)
  {
    hide Increasing;
    if n > 0 { RowsOnlyGrow(polls, n - 1, generation); }
  }

  /** What arrives on one connection is delivered, however early it is cut. */
  lemma {:induction false} ServedPart(generation: string, c: Connection, lastId: Option<string>)
    requires Served(generation, c, lastId)
    ensures FirstRows(c) <= LastRows(c) && Increasing(LastRows(c))
    ensures Delivered(LastRows(c), Start(generation, lastId, 0), RowsOf(c.seen)) && IdsOk(generation, c.seen)
  {
    hide Growing, Sent, Start, Delivered, PrintCursor, Increasing;
    RowsOnlyGrow(c.polls, c.used - 1, generation);
    OneGenerationIsOneSegment(generation, c.polls, c.used, Start(generation, lastId, 0), c.frames, c.gone, c.current);
    CutShort(LastRows(c), Start(generation, lastId, 0), RowsOf(c.frames), |c.seen|);
    assert RowsOf(c.frames)[..|c.seen|] == RowsOf(c.seen);
  }

  lemma {:induction false} PartsSnoc(connections: seq<Connection>)
    requires connections != []
    ensures var n := |connections| - 1;
      Flatten(Parts(connections)) == Flatten(Parts(connections[..n])) + RowsOf(connections[n].seen)
  {
    var n := |connections| - 1;
    assert Parts(connections)[..n] == Parts(connections[..n]);
  }

  /** The last id that arrived is the cursor behind all that arrived. */
  lemma {:induction false} LastIdIsPosition(generation: string, connections: seq<Connection>)
    requires generation != "" && forall k :: 0 <= k < |connections| ==> IdsOk(generation, connections[k].seen)
    ensures Start(generation, LastId(connections), 0) == Position(0, Flatten(Parts(connections)))
  {
    hide PrintCursor, ParseEventCursor, Flatten, Parts;
    if connections == [] {
      assert Parts(connections) == [];
      NothingArrived(generation);
    } else {
      var n := |connections| - 1;
      var before, seen := connections[..n], connections[n].seen;
      PartsSnoc(connections);
      LastIdIsPosition(generation, before);
      if seen == [] {
        assert Flatten(Parts(before)) + [] == Flatten(Parts(before));
      } else {
        var last := seen[|seen| - 1];
        CursorRoundTrip(generation, last.row.sequence);
      }
    }
  }

  lemma NothingArrived(generation: string)
    ensures Start(generation, None, 0) == 0 && Flatten([]) == []
  {
  }

  lemma {:induction false} ConnectedParts(generation: string, connections: seq<Connection>)
    requires generation != "" && Connected(generation, connections)
    ensures Reconnecting(generation, Stores(connections), Parts(connections), 0)
  {
    hide Served, Delivered, Increasing, PrintCursor, Start, LastId, Position, Flatten;
    var stores, parts := Stores(connections), Parts(connections);
    forall k | 0 <= k < |connections|
      ensures Increasing(stores[k]) && (k > 0 ==> stores[k - 1] <= stores[k])
      ensures Delivered(stores[k], Start(generation, Some(PrintCursor(generation, Position(0, Flatten(parts[..k])))), 0), parts[k])
    {
      ServedPart(generation, connections[k], LastId(connections[..k]));
      ResumesThere(generation, connections, k);
    }
  }

  lemma {:induction false} StandsThere(generation: string, connections: seq<Connection>)
    requires generation != "" && Connected(generation, connections)
    ensures Start(generation, LastId(connections), 0) == Position(0, Flatten(Parts(connections)))
  {
    hide Served, PrintCursor, LastId, Position, Flatten, IdsOk, Start;
    forall m | 0 <= m < |connections| ensures IdsOk(generation, connections[m].seen) {
      ServedPart(generation, connections[m], LastId(connections[..m]));
    }
    LastIdIsPosition(generation, connections);
  }

  lemma {:induction false} ConnectedPrefix(generation: string, connections: seq<Connection>, k: nat)
    requires Connected(generation, connections) && k <= |connections|
    ensures Connected(generation, connections[..k])
  {
    hide Served, LastId, LastRows, FirstRows;
    var before := connections[..k];
    forall m | 0 <= m < k ensures Served(generation, before[m], LastId(before[..m])) {
      assert before[..m] == connections[..m];
    }
  }

  lemma {:induction false} ResumesThere(generation: string, connections: seq<Connection>, k: nat)
    requires generation != "" && Connected(generation, connections) && k <= |connections|
    ensures Start(generation, LastId(connections[..k]), 0) ==
      Start(generation, Some(PrintCursor(generation, Position(0, Flatten(Parts(connections)[..k])))), 0)
  {
    hide Connected, PrintCursor, LastId, Position, Flatten, ParseEventCursor;
    ConnectedPrefix(generation, connections, k);
    StandsThere(generation, connections[..k]);
    assert Parts(connections[..k]) == Parts(connections)[..k];
    CursorRoundTrip(generation, Position(0, Flatten(Parts(connections)[..k])));
  }

  /**
   The whole chain: whatever connections a client makes, each cut anywhere and each
   resumed with the id of the last frame that arrived, it has received the audit rows
   of the generation in order, each once, up to where it stands; and all of them
   exactly when nothing is left behind its cursor.
   */
  lemma {:induction false} ClientGetsEachRowOnce(generation: string, connections: seq<Connection>)
    requires generation != "" && connections != [] && Connected(generation, connections)
    requires Numbered(LastRows(connections[|connections| - 1]))
    ensures var rows, got := LastRows(connections[|connections| - 1]), Flatten(Parts(connections));
      && got <= rows
      && (After(rows, Start(generation, LastId(connections), 0)) == [] <==> got == rows)
  {
    hide Connected, Reconnecting, Start, LastId, LastRows, Flatten, Position, After, Numbered;
    ConnectedParts(generation, connections);
    ExactlyOnce(generation, Stores(connections), Parts(connections));
    StandsThere(generation, connections);
  }
}
