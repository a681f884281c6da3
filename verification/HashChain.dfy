/**
 Per-run hash chains interleaved in one append-only table.

 The digest of a canonical JSON text is modelled as a free constructor: equal
 digests have equal preimages, and no preimage digests to the all-zero genesis
 value.  The module is shared by the event ledger, the receipt ledger and the
 extension stream, which differ only in the fields they put under the digest.
 */
module HashChain {

  datatype Hash<F> = Genesis | Sha256(run: string, fields: F, previous: Hash<F>)

  datatype Row<F> = Row(run: string, fields: F, previous: Hash<F>, hash: Hash<F>)

  function Seal<F>(run: string, fields: F, previous: Hash<F>): Row<F> {
    Row(run, fields, previous, Sha256(run, fields, previous))
  }

  predicate Sealed<F(==)>(row: Row<F>) {
    row.hash == Sha256(row.run, row.fields, row.previous)
  }

  /** The stored hash of the last row, or the genesis value. */
  function Head<F>(rows: seq<Row<F>>): Hash<F> {
    if rows == [] then Genesis else rows[|rows| - 1].hash
  }

  ghost predicate ChainValid<F>(rows: seq<Row<F>>) {
    forall i :: 0 <= i < |rows| ==> Sealed(rows[i]) && rows[i].previous == Head(rows[..i])
  }

  /** The rows of one run, in table order. */
  function OfRun<F>(table: seq<Row<F>>, run: string): (rows: seq<Row<F>>)
    ensures forall i :: 0 <= i < |rows| ==> rows[i].run == run && rows[i] in table
  {
    if table == [] then []
    else
      var last := table[|table| - 1];
      OfRun(table[..|table| - 1], run) + (if last.run == run then [last] else [])
  }

  /** One insertion: the new row links to the newest row of its own run. */
  function Append<F>(table: seq<Row<F>>, run: string, fields: F): seq<Row<F>> {
    table + [Seal(run, fields, Head(OfRun(table, run)))]
  }

  lemma {:induction false} OfRunSnoc<F>(table: seq<Row<F>>, row: Row<F>, run: string)
    ensures OfRun(table + [row], run) == OfRun(table, run) + (if row.run == run then [row] else [])
  {
    assert (table + [row])[..|table|] == table;
  }

  lemma {:induction false} ChainSnoc<F>(rows: seq<Row<F>>, run: string, fields: F)
    requires ChainValid(rows)
    ensures ChainValid(rows + [Seal(run, fields, Head(rows))])
  {
    var longer := rows + [Seal(run, fields, Head(rows))];
    forall i | 0 <= i < |longer| ensures Sealed(longer[i]) && longer[i].previous == Head(longer[..i]) {
      if i < |rows| {
        assert longer[..i] == rows[..i];
      } else {
        assert longer[..i] == rows;
      }
    }
  }

  /** An insertion for one run keeps the chain of every run in the table. */
  lemma {:induction false} AppendKeepsChains<F>(table: seq<Row<F>>, run: string, fields: F, other: string)
    requires ChainValid(OfRun(table, other))
    ensures ChainValid(OfRun(Append(table, run, fields), other))
    ensures other != run ==> OfRun(Append(table, run, fields), other) == OfRun(table, other)
  {
    OfRunSnoc(table, Seal(run, fields, Head(OfRun(table, run))), other);
    if other == run {
      ChainSnoc(OfRun(table, run), run, fields);
    } else {
      assert OfRun(table, other) + [] == OfRun(table, other);
    }
  }

  /** The table after a list of insertions for any mixture of runs. */
  function Built<F>(inserts: seq<(string, F)>): seq<Row<F>> {
    if inserts == [] then []
    else
      var last := inserts[|inserts| - 1];
      Append(Built(inserts[..|inserts| - 1]), last.0, last.1)
  }

  /** However the insertions of many runs interleave, each run reads back a valid chain. */
  lemma {:induction false} InterleavedChainsAreValid<F>(inserts: seq<(string, F)>, run: string)
    ensures ChainValid(OfRun(Built(inserts), run))
  {
    if inserts != [] {
      var last := inserts[|inserts| - 1];
      InterleavedChainsAreValid(inserts[..|inserts| - 1], run);
      AppendKeepsChains(Built(inserts[..|inserts| - 1]), last.0, last.1, run);
    }
  }

  /** Every run's rows in the table form a chain. */
  ghost predicate Chained<F>(table: seq<Row<F>>) {
    forall run :: ChainValid(OfRun(table, run))
  }

  lemma {:induction false} AppendKeepsChained<F>(table: seq<Row<F>>, run: string, fields: F)
    requires Chained(table)
    ensures Chained(Append(table, run, fields))
  {
    hide ChainValid, OfRun, Append;
    forall other ensures ChainValid(OfRun(Append(table, run, fields), other)) {
      AppendKeepsChains(table, run, fields, other);
    }
  }

  lemma {:induction false} ChainedAt<F>(table: seq<Row<F>>, run: string)
    requires Chained(table)
    ensures ChainValid(OfRun(table, run))
  {
  }

  lemma {:induction false} PrefixValid<F>(rows: seq<Row<F>>, n: nat)
    requires ChainValid(rows) && n <= |rows|
    ensures ChainValid(rows[..n])
  {
    forall i | 0 <= i < n ensures Sealed(rows[..n][i]) && rows[..n][i].previous == Head(rows[..n][..i]) {
      assert rows[..n][..i] == rows[..i];
    }
  }

  /** The head commits to the whole chain: equal heads if and only if equal chains. */
  lemma {:induction false} Commitment<F>(a: seq<Row<F>>, b: seq<Row<F>>)
    requires ChainValid(a) && ChainValid(b)
    ensures Head(a) == Head(b) <==> a == b
    decreases |a|
  {
    if a != [] && b != [] && Head(a) == Head(b) {
      var m, n := |a| - 1, |b| - 1;
      assert a[m].previous == Head(a[..m]) && b[n].previous == Head(b[..n]);
      PrefixValid(a, m);
      PrefixValid(b, n);
      Commitment(a[..m], b[..n]);
      assert a == a[..m] + [a[m]] && b == b[..n] + [b[n]];
    }
  }

  /** Rewriting any stored row of a valid chain is visible: the walk fails or the head moves. */
  lemma {:induction false} RewriteIsVisible<F>(rows: seq<Row<F>>, i: nat, forged: Row<F>)
    requires ChainValid(rows) && i < |rows| && forged != rows[i]
    ensures !ChainValid(rows[i := forged]) || Head(rows[i := forged]) != Head(rows)
  {
    if ChainValid(rows[i := forged]) {
      Commitment(rows, rows[i := forged]);
      assert rows[i := forged][i] == forged;
    }
  }

  /**
   The read-back walk shared by the three ledgers: recompute every digest and
   follow the links, carrying the stored hash of the previous row.
   */
  method Walk<F(==)>(rows: seq<Row<F>>) returns (valid: bool, head: Hash<F>)
    ensures valid <==> ChainValid(rows)
    ensures head == Head(rows)
  {
    valid, head := true, Genesis;
    for i := 0 to |rows|
      invariant head == Head(rows[..i])
      invariant valid <==> forall k :: 0 <= k < i ==> Sealed(rows[k]) && rows[k].previous == Head(rows[..k])
    {
      if rows[i].previous != head || !Sealed(rows[i]) {
        valid := false;
      }
      head := rows[i].hash;
    }
    assert rows[..|rows|] == rows;
  }
}
