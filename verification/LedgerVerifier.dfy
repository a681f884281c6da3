/**
 The exported event ledger of a run and its independent verifier, which trusts
 neither the store's verdict nor its totals and recomputes every digest.
 */
module LedgerVerifier {
  import opened Wrappers
  import opened HashChain
  import opened RunStore
  import opened RunHistory
  import opened Texts

  /** The fields that an item of the durable ledger and its envelope must have, and no others. */
  function RequiredItemKeys(): set<string> {
    {"sequence", "event_id", "run_id", "kind", "envelope", "previous_hash", "event_hash", "created_at"}
  }

  function RequiredEnvelopeKeys(): set<string> {
    {"schema", "envelope_id", "task_id", "project_id", "trace_id", "correlation_id", "context_version", "attempt", "kind",
     "sender", "recipient", "causation_id", "body", "body_sha256", "created_at"}
  }

  /** One exported item: the names of its fields and of its envelope's, its number, and its row. */
  datatype Item = Item(keys: set<string>, envelopeKeys: set<string>, sequence: int, row: Row<EventFields>)

  datatype Chain = Chain(
    algorithmKnown: bool, originUnverified: bool, total: int, sourceTotal: int,
    items: seq<Item>, head: Hash<EventFields>, valid: bool)

  datatype LedgerError =
    | BadHeader | Empty | BadTotal | BadItem(index: nat) | BadSequence | DuplicateEvent | BrokenLink | BadHead | SecretMaterial

  /** What the verifier hands on: the head, the length, and the digest of every event id. */
  datatype Ledger = Ledger(head: Hash<EventFields>, total: nat, hashes: map<string, Hash<EventFields>>)

  function LedgerRows(items: seq<Item>): (rows: seq<Row<EventFields>>)
    ensures |rows| == |items| && forall i :: 0 <= i < |rows| ==> rows[i] == items[i].row
  {
    seq(|items|, i requires 0 <= i < |items| => items[i].row)
  }

  // ---------------------------------------------------------------- declarative acceptance

  /** An item on its own: shape, schema, run, kind, identity, parties, digest of the body, times. */
  predicate ItemOk(item: Item, run: string, identity: Identity, secretFree: Envelope -> bool) {
    var f, e := item.row.fields, item.row.fields.envelope;
    && item.keys == RequiredItemKeys() && item.envelopeKeys == RequiredEnvelopeKeys() && e.schema == ENVELOPE_SCHEMA
    && IsText(f.eventId) && IsText(e.id) && IsText(e.sender) && IsText(e.recipient) && item.row.run == run
    && secretFree(e) && e.kind == f.kind && e.identity == identity && e.attempt >= 1
    && e.bodyDigest == DigestOf(e.body) && e.createdAt == f.createdAt
  }

  ghost predicate DistinctEvents(items: seq<Item>) {
    forall i, j :: 0 <= i < j < |items| ==> items[i].row.fields.eventId != items[j].row.fields.eventId
  }

  /** What an accepted chain is, without a walk. */
  ghost predicate Accepts(chain: Chain, run: string, identity: Identity, secretFree: Envelope -> bool) {
    && chain.algorithmKnown && chain.originUnverified && chain.valid
    && chain.items != [] && chain.total == chain.sourceTotal == |chain.items|
    && (forall i :: 0 <= i < |chain.items| ==> chain.items[i].sequence == i + 1)
    && (forall i :: 0 <= i < |chain.items| ==> ItemOk(chain.items[i], run, identity, secretFree))
    && DistinctEvents(chain.items)
    && ChainValid(LedgerRows(chain.items)) && chain.head == Head(LedgerRows(chain.items))
  }

  // ---------------------------------------------------------------- the verifier

  /** The hashes of the first n items by event id. */
  ghost predicate HashesOf(hashes: map<string, Hash<EventFields>>, items: seq<Item>) {
    && (forall i :: 0 <= i < |items| ==> items[i].row.fields.eventId in hashes && hashes[items[i].row.fields.eventId] == items[i].row.hash)
    && (forall id :: id in hashes ==> exists i :: 0 <= i < |items| && items[i].row.fields.eventId == id)
  }

  ghost predicate NewEvent(items: seq<Item>, item: Item) {
    forall i :: 0 <= i < |items| ==> items[i].row.fields.eventId != item.row.fields.eventId
  }

  /** The items so far are numbered from 1, well formed, distinct, and linked up to `head`. */
  ghost predicate AcceptsItems(items: seq<Item>, run: string, identity: Identity, secretFree: Envelope -> bool) {
    && (forall i :: 0 <= i < |items| ==> items[i].sequence == i + 1)
    && (forall i :: 0 <= i < |items| ==> ItemOk(items[i], run, identity, secretFree))
    && DistinctEvents(items)
    && ChainValid(LedgerRows(items))
  }

  /** What the walk checks of the next item. */
  ghost predicate NextOk(items: seq<Item>, item: Item, run: string, identity: Identity, secretFree: Envelope -> bool) {
    && item.sequence == |items| + 1 && ItemOk(item, run, identity, secretFree)
    && NewEvent(items, item) && Sealed(item.row) && item.row.previous == Head(LedgerRows(items))
  }

  lemma {:induction false} LedgerRowsSnoc(items: seq<Item>, item: Item)
    ensures LedgerRows(items + [item]) == LedgerRows(items) + [item.row]
  {
  }

  /** A longer chain is valid exactly when the new row is sealed and linked to the head of a valid one. */
  lemma {:induction false} ChainSnocIff(rows: seq<Row<EventFields>>, row: Row<EventFields>)
    ensures ChainValid(rows + [row]) <==> ChainValid(rows) && Sealed(row) && row.previous == Head(rows)
  {
    var longer := rows + [row];
    assert longer[..|rows|] == rows && longer[|rows|] == row;
    if ChainValid(longer) {
      PrefixValid(longer, |rows|);
    }
    if Sealed(row) && row.previous == Head(rows) && ChainValid(rows) {
      assert row == Seal(row.run, row.fields, Head(rows));
      ChainSnoc(rows, row.run, row.fields);
    }
  }

  lemma {:induction false} AcceptsItemsSnoc(items: seq<Item>, item: Item, run: string, identity: Identity, secretFree: Envelope -> bool)
    ensures AcceptsItems(items + [item], run, identity, secretFree) <==>
      AcceptsItems(items, run, identity, secretFree) && NextOk(items, item, run, identity, secretFree)
  {
    var more := items + [item];
    LedgerRowsSnoc(items, item);
    ChainSnocIff(LedgerRows(items), item.row);
    hide ItemOk, ChainValid, LedgerRows, Sealed, Head;
    assert forall i :: 0 <= i < |items| ==> more[i] == items[i];
    assert more[|items|] == item;
  }

  lemma {:induction false} RejectedPrefix(items: seq<Item>, n: nat, run: string, identity: Identity, secretFree: Envelope -> bool)
    requires n <= |items| && AcceptsItems(items, run, identity, secretFree)
    ensures AcceptsItems(items[..n], run, identity, secretFree)
    decreases |items|
  {
    hide AcceptsItems, NextOk;
    if n < |items| {
      var m := |items| - 1;
      assert items == items[..m] + [items[m]];
      AcceptsItemsSnoc(items[..m], items[m], run, identity, secretFree);
      RejectedPrefix(items[..m], n, run, identity, secretFree);
      assert items[..m][..n] == items[..n];
    } else {
      assert items[..n] == items;
    }
  }

  lemma {:induction false} HashesSnoc(hashes: map<string, Hash<EventFields>>, items: seq<Item>, item: Item)
    requires HashesOf(hashes, items)
    ensures item.row.fields.eventId !in hashes <==> NewEvent(items, item)
    ensures item.row.fields.eventId !in hashes ==>
      HashesOf(hashes[item.row.fields.eventId := item.row.hash], items + [item])
  {
    var id := item.row.fields.eventId;
    if id !in hashes {
      var more, longer := hashes[id := item.row.hash], items + [item];
      assert longer[|items|] == item;
      forall k | k in more ensures exists i :: 0 <= i < |longer| && longer[i].row.fields.eventId == k {
        if k != id {
          var i :| 0 <= i < |items| && items[i].row.fields.eventId == k;
          assert longer[i].row.fields.eventId == k;
        }
      }
    }
  }

  lemma {:induction false} WalkStep(items: seq<Item>, i: nat, run: string, identity: Identity, secretFree: Envelope -> bool)
    requires i < |items| && AcceptsItems(items[..i], run, identity, secretFree)
    ensures AcceptsItems(items[..i + 1], run, identity, secretFree) <==> NextOk(items[..i], items[i], run, identity, secretFree)
    ensures AcceptsItems(items, run, identity, secretFree) ==> NextOk(items[..i], items[i], run, identity, secretFree)
    ensures Head(LedgerRows(items[..i + 1])) == items[i].row.hash
  {
    assert items[..i + 1] == items[..i] + [items[i]];
    AcceptsItemsSnoc(items[..i], items[i], run, identity, secretFree);
    if AcceptsItems(items, run, identity, secretFree) {
      RejectedPrefix(items, i + 1, run, identity, secretFree);
    }
  }

  /** Why the walk stops at an item. */
  function ItemError(item: Item, i: nat, previous: Hash<EventFields>, hashes: map<string, Hash<EventFields>>,
    run: string, identity: Identity, secretFree: Envelope -> bool): Option<LedgerError>
  {
    if item.sequence != i + 1 then Some(BadSequence)
    else if item.row.fields.eventId in hashes then Some(DuplicateEvent)
    else if !ItemOk(item, run, identity, secretFree) then Some(BadItem(i))
    else if item.row.previous != previous || !Sealed(item.row) then Some(BrokenLink)
    else None
  }

  /** What the walk knows after the items that it has seen. */
  ghost predicate Walked(done: seq<Item>, previous: Hash<EventFields>, hashes: map<string, Hash<EventFields>>,
    run: string, identity: Identity, secretFree: Envelope -> bool)
  {
    AcceptsItems(done, run, identity, secretFree) && previous == Head(LedgerRows(done)) && HashesOf(hashes, done)
  }

  lemma {:induction false} WalkOn(items: seq<Item>, i: nat, previous: Hash<EventFields>, hashes: map<string, Hash<EventFields>>,
    run: string, identity: Identity, secretFree: Envelope -> bool)
    requires i < |items| && Walked(items[..i], previous, hashes, run, identity, secretFree)
    ensures ItemError(items[i], i, previous, hashes, run, identity, secretFree).Some? ==> !AcceptsItems(items, run, identity, secretFree)
    ensures ItemError(items[i], i, previous, hashes, run, identity, secretFree).None? ==>
      Walked(items[..i + 1], items[i].row.hash, hashes[items[i].row.fields.eventId := items[i].row.hash], run, identity, secretFree)
  {
    hide AcceptsItems, HashesOf, ItemOk, LedgerRows, NewEvent, Head, Sealed;
    WalkStep(items, i, run, identity, secretFree);
    HashesStep(hashes, items, i);
  }

  lemma {:induction false} HashesStep(hashes: map<string, Hash<EventFields>>, items: seq<Item>, i: nat)
    requires i < |items| && HashesOf(hashes, items[..i])
    ensures items[i].row.fields.eventId !in hashes <==> NewEvent(items[..i], items[i])
    ensures items[i].row.fields.eventId !in hashes ==>
      HashesOf(hashes[items[i].row.fields.eventId := items[i].row.hash], items[..i + 1])
  {
    HashesSnoc(hashes, items[..i], items[i]);
    assert items[..i + 1] == items[..i] + [items[i]];
  }

  lemma WalkBegins(run: string, identity: Identity, secretFree: Envelope -> bool)
    ensures Walked([], Genesis, map[], run, identity, secretFree)
  {
  }

  /** The walk over the items: follow the links with the hash of the previous item in hand. */
  method WalkItems(items: seq<Item>, run: string, identity: Identity, secretFree: Envelope -> bool)
    returns (error: Option<LedgerError>, previous: Hash<EventFields>, hashes: map<string, Hash<EventFields>>)
    ensures error.None? <==> AcceptsItems(items, run, identity, secretFree)
    ensures error.None? ==> previous == Head(LedgerRows(items)) && HashesOf(hashes, items)
  {
    error, previous, hashes := None, Genesis, map[];
    WalkBegins(run, identity, secretFree);
    hide AcceptsItems, HashesOf, LedgerRows, Head, ItemError;
    for i := 0 to |items|
      invariant error.None? && Walked(items[..i], previous, hashes, run, identity, secretFree)
    {
      WalkOn(items, i, previous, hashes, run, identity, secretFree);
      error := ItemError(items[i], i, previous, hashes, run, identity, secretFree);
      if error.Some? { return; }
      hashes := hashes[items[i].row.fields.eventId := items[i].row.hash];
      previous := items[i].row.hash;
    }
    assert items[..|items|] == items;
  }

  method VerifyBridgeEventChain(chain: Chain, run: string, identity: Identity, secretFree: Envelope -> bool)
    returns (r: Result<Ledger, LedgerError>)
    ensures r.Success? <==> Accepts(chain, run, identity, secretFree)
    ensures r.Success? ==> r.value.head == chain.head && r.value.total == |chain.items| && HashesOf(r.value.hashes, chain.items)
  {
    hide HashesOf, ItemOk, ChainValid, DistinctEvents, LedgerRows, Head;
    if !chain.algorithmKnown || !chain.originUnverified { return Failure(BadHeader); }
    if chain.items == [] { return Failure(Empty); }
    if chain.total != |chain.items| || chain.sourceTotal != chain.total { return Failure(BadTotal); }
    var error, head, hashes := WalkItems(chain.items, run, identity, secretFree);
    if error.Some? { return Failure(error.value); }
    if chain.head != head || !chain.valid { return Failure(BadHead); }
    r := Success(Ledger(head, |chain.items|, hashes));
  }

  // ---------------------------------------------------------------- commitment

  /** Two accepted chains have the same head if and only if they are the same item by item. */
  lemma HeadCommits(a: Chain, b: Chain, run: string, run': string, identity: Identity, identity': Identity, secretFree: Envelope -> bool)
    requires Accepts(a, run, identity, secretFree) && Accepts(b, run', identity', secretFree)
    ensures a.head == b.head <==> a == b
    ensures a.head == b.head ==> run == run' && identity == identity'
  {
    if a.head == b.head {
      Commitment(LedgerRows(a.items), LedgerRows(b.items));
      assert |a.items| == |b.items|;
      forall i | 0 <= i < |a.items| ensures a.items[i] == b.items[i] {
        assert LedgerRows(a.items)[i] == LedgerRows(b.items)[i];
        assert ItemOk(a.items[i], run, identity, secretFree) && ItemOk(b.items[i], run', identity', secretFree);
      }
      assert a.items == b.items;
      assert ItemOk(a.items[0], run, identity, secretFree) && ItemOk(b.items[0], run', identity', secretFree);
    }
  }

  // ---------------------------------------------------------------- the producer

  /** The fields that serialising an envelope writes. */
  function DumpedKeys(): set<string> {
    {"attempt", "body", "body_sha256", "causation_id", "context_version", "correlation_id", "created_at", "envelope_id", "kind",
     "project_id", "recipient", "schema", "sender", "task_id", "trace_id"}
  }

  /** The fields of an item that the exporter writes. */
  function WrittenKeys(): set<string> {
    {"sequence", "event_id", "run_id", "kind", "envelope", "previous_hash", "event_hash", "created_at"}
  }

  function ExportedItem(sequence: int, row: Row<EventFields>): Item {
    Item(WrittenKeys(), DumpedKeys(), sequence, row)
  }

  lemma ExportedKeysOk()
    ensures WrittenKeys() == RequiredItemKeys() && DumpedKeys() == RequiredEnvelopeKeys()
  {
  }

  lemma PartiesAreTexts()
    ensures IsText(BRIDGE_PARTY) && IsText(LEADER_PARTY)
  {
  }

  /** The exported form of a ledger's rows: numbered from 1, with the run id on every item. */
  function Exported(rows: seq<Row<EventFields>>, run: string): (items: seq<Item>)
    ensures |items| == |rows|
    ensures forall i :: 0 <= i < |rows| ==> items[i] == ExportedItem(i + 1, rows[i].(run := run))
  {
    seq(|rows|, i requires 0 <= i < |rows| => ExportedItem(i + 1, rows[i].(run := run)))
  }

  method ExportBridgeEventChain(rows: seq<Row<EventFields>>, chainValid: bool, run: string, secretFree: Envelope -> bool)
    returns (r: Result<Chain, LedgerError>)
    ensures r.Success? <==>
      chainValid && rows != [] && forall i :: 0 <= i < |rows| ==> secretFree(rows[i].fields.envelope)
    ensures r.Success? ==> r.value == Chain(true, true, |rows|, |rows|, Exported(rows, run), rows[|rows| - 1].hash, true)
  {
    if !chainValid { return Failure(BrokenLink); }
    if rows == [] { return Failure(Empty); }
    var items: seq<Item> := [];
    for i := 0 to |rows|
      invariant items == Exported(rows[..i], run)
      invariant forall k :: 0 <= k < i ==> secretFree(rows[k].fields.envelope)
    {
      if !secretFree(rows[i].fields.envelope) { return Failure(SecretMaterial); }
      items := items + [ExportedItem(i + 1, rows[i].(run := run))];
      assert items == Exported(rows[..i + 1], run);
    }
    assert rows[..|rows|] == rows;
    r := Success(Chain(true, true, |rows|, |rows|, items, items[|items| - 1].row.hash, true));
  }

  /** Distinct event ids in the table stay distinct in the ledger of one run. */
  lemma {:induction false} OfRunDistinct(table: seq<Row<EventFields>>, run: string)
    requires DistinctEventIds(table)
    ensures DistinctEventIds(OfRun(table, run))
  {
    if table != [] {
      var n := |table| - 1;
      forall i, j | 0 <= i < j < n ensures table[..n][i].fields.eventId != table[..n][j].fields.eventId {
        assert table[..n][i] == table[i] && table[..n][j] == table[j];
      }
      OfRunDistinct(table[..n], run);
      var before := OfRun(table[..n], run);
      forall i | 0 <= i < |before| ensures before[i].fields.eventId != table[n].fields.eventId {
        NotTheLast(table, before[i]);
      }
      }
  }

  lemma {:induction false} NotTheLast(table: seq<Row<EventFields>>, row: Row<EventFields>)
    requires DistinctEventIds(table) && table != [] && row in table[..|table| - 1]
    ensures row.fields.eventId != table[|table| - 1].fields.eventId
  {
    var k :| 0 <= k < |table| - 1 && table[..|table| - 1][k] == row;
    assert table[k] == row;
  }

  lemma LedgerRowOk(db: Db, id: string, i: nat)
    requires EventTableOk(db) && i < |OfRun(db.events, id)|
    ensures EventRowOk(db.runs, OfRun(db.events, id)[i]) && OfRun(db.events, id)[i].run == id
  {
    var row := OfRun(db.events, id)[i];
    assert row in db.events;
    var k :| 0 <= k < |db.events| && db.events[k] == row;
  }

  /** The texts of a ledger that the store does not choose: its event ids and envelope ids. */
  predicate TextsOk(rows: seq<Row<EventFields>>) {
    forall i :: 0 <= i < |rows| ==> IsText(rows[i].fields.eventId) && IsText(rows[i].fields.envelope.id)
  }

  lemma ExportedItemOk(db: Db, id: string, i: nat, secretFree: Envelope -> bool)
    requires EventTableOk(db) && id in db.runs && i < |OfRun(db.events, id)|
    requires secretFree(OfRun(db.events, id)[i].fields.envelope)
    ensures var row := OfRun(db.events, id)[i];
      ItemOk(ExportedItem(i + 1, row.(run := id)), id, IdentityOf(db.runs[id].header), secretFree)
      <==> IsText(row.fields.eventId) && IsText(row.fields.envelope.id)
  {
    hide IsText, DumpedKeys, WrittenKeys, RequiredItemKeys, RequiredEnvelopeKeys;
    LedgerRowOk(db, id, i);
    ExportedKeysOk();
    PartiesAreTexts();
  }

  /** The verifier asks nothing more of an exported item than that its two ids are texts. */
  ghost predicate ItemsNeedTexts(rows: seq<Row<EventFields>>, run: string, identity: Identity, secretFree: Envelope -> bool) {
    forall i :: 0 <= i < |rows| ==>
      (ItemOk(Exported(rows, run)[i], run, identity, secretFree)
       <==> IsText(rows[i].fields.eventId) && IsText(rows[i].fields.envelope.id))
  }

  lemma StoredItemsNeedTexts(db: Db, id: string, secretFree: Envelope -> bool)
    requires EventTableOk(db) && id in db.runs
    requires forall i :: 0 <= i < |OfRun(db.events, id)| ==> secretFree(OfRun(db.events, id)[i].fields.envelope)
    ensures ItemsNeedTexts(OfRun(db.events, id), id, IdentityOf(db.runs[id].header), secretFree)
    ensures forall i :: 0 <= i < |OfRun(db.events, id)| ==> OfRun(db.events, id)[i].run == id
  {
    hide EventTableOk, ItemOk, IsText, OfRun;
    var rows := OfRun(db.events, id);
    forall i | 0 <= i < |rows|
      ensures rows[i].run == id
      ensures ItemOk(Exported(rows, id)[i], id, IdentityOf(db.runs[id].header), secretFree)
              <==> IsText(rows[i].fields.eventId) && IsText(rows[i].fields.envelope.id)
    {
      LedgerRowOk(db, id, i);
      ExportedItemOk(db, id, i, secretFree);
    }
  }

  lemma {:induction false} StoredLedgerOk(h: seq<Entry>, at: nat, id: string)
    requires Good(h) && at < |h|
    ensures EventTableOk(h[at].db) && ChainValid(OfRun(h[at].db.events, id)) && DistinctEventIds(OfRun(h[at].db.events, id))
  {
    hide Good, RunsOk, EvidenceOk, ReceiptTableOk, OfRun, DistinctEventIds, Chained, ChainValid;
    EveryStateOk(h, at);
    ChainedAt(h[at].db.events, id);
    OfRunDistinct(h[at].db.events, id);
  }

  lemma {:induction false} ExportAccepted(rows: seq<Row<EventFields>>, run: string, identity: Identity, secretFree: Envelope -> bool)
    requires rows != [] && ChainValid(rows) && DistinctEventIds(rows)
    requires (forall i :: 0 <= i < |rows| ==> rows[i].run == run) && ItemsNeedTexts(rows, run, identity, secretFree)
    ensures Accepts(Chain(true, true, |rows|, |rows|, Exported(rows, run), rows[|rows| - 1].hash, true), run, identity, secretFree)
            <==> TextsOk(rows)
  {
    hide ItemOk, IsText, ChainValid, Head, Exported;
    var items := Exported(rows, run);
    assert LedgerRows(items) == rows;
    ExportDistinct(rows, run);
    assert Head(rows) == rows[|rows| - 1].hash by { HeadIsLast(rows); }
    hide DistinctEvents, DistinctEventIds, LedgerRows;
  }

  lemma {:induction false} HeadIsLast(rows: seq<Row<EventFields>>)
    requires rows != []
    ensures Head(rows) == rows[|rows| - 1].hash
  {
  }

  lemma {:induction false} ExportDistinct(rows: seq<Row<EventFields>>, run: string)
    requires DistinctEventIds(rows)
    ensures DistinctEvents(Exported(rows, run))
  {
  }

  /**
   Producer and verifier agree: at every point of every good history, the ledger
   of every run reads back a valid chain, and its export is accepted for that
   run and its identity if and only if its event and envelope ids are texts.
   */
  lemma {:induction false} ProducerVerifierAgree(h: seq<Entry>, at: nat, id: string, secretFree: Envelope -> bool)
    requires Good(h) && at < |h| && id in h[at].db.runs
    requires OfRun(h[at].db.events, id) != []
    requires forall i :: 0 <= i < |OfRun(h[at].db.events, id)| ==> secretFree(OfRun(h[at].db.events, id)[i].fields.envelope)
    ensures var rows := OfRun(h[at].db.events, id);
      && ChainValid(rows)
      && (Accepts(Chain(true, true, |rows|, |rows|, Exported(rows, id), rows[|rows| - 1].hash, true),
                  id, IdentityOf(h[at].db.runs[id].header), secretFree)
          <==> TextsOk(rows))
  {
    hide Good, EventTableOk, Accepts, OfRun, ChainValid, DistinctEventIds, ItemsNeedTexts, TextsOk, Exported;
    StoredLedgerOk(h, at, id);
    StoredItemsNeedTexts(h[at].db, id, secretFree);
    ExportAccepted(OfRun(h[at].db.events, id), id, IdentityOf(h[at].db.runs[id].header), secretFree);
  }
}
