/** Additive upsert of analytics counters: deduplicate a batch, then write it in chunks. */
module AnalyticsUpsert {
  import opened Wrappers

  type Key = (nat, int)   // host id, start of minute

  datatype Counters = Counters(count: int, bytes: int, s2xx: int, s3xx: int, s4xx: int, s5xx: int) {
    function Add(other: Counters): Counters {
      Counters(count + other.count, bytes + other.bytes, s2xx + other.s2xx, s3xx + other.s3xx,
               s4xx + other.s4xx, s5xx + other.s5xx)
    }
  }

  const Zero := Counters(0, 0, 0, 0, 0, 0)

  lemma AddLaws(a: Counters, b: Counters, c: Counters)
    ensures a.Add(b).Add(c) == a.Add(b.Add(c)) && a.Add(b) == b.Add(a) && a.Add(Zero) == a && Zero.Add(a) == a
    ensures a.Add(b).Add(c) == a.Add(c).Add(b)
  {
  }

  datatype Row = Row(key: Key, counters: Counters)

  function At(table: map<Key, Counters>, k: Key): Counters {
    if k in table then table[k] else Zero
  }

  /** Everything a list of rows adds to one key. */
  function SumOf(rows: seq<Row>, k: Key): Counters
    decreases |rows|
  {
    if |rows| == 0 then Zero
    else
      var last := rows[|rows| - 1];
      if last.key == k then SumOf(rows[..|rows| - 1], k).Add(last.counters) else SumOf(rows[..|rows| - 1], k)
  }

  ghost predicate Distinct(rows: seq<Row>) {
    forall i, j | 0 <= i < j < |rows| :: rows[i].key != rows[j].key
  }

  predicate HasKey(rows: seq<Row>, k: Key) {
    exists i | 0 <= i < |rows| :: rows[i].key == k
  }

  lemma {:induction false} SumAppend(a: seq<Row>, b: seq<Row>, k: Key)
    ensures SumOf(a + b, k) == SumOf(a, k).Add(SumOf(b, k))
    decreases |b|
  {
    hide Counters.Add, Zero;
    if |b| == 0 {
      assert a + b == a;
      AddLaws(SumOf(a, k), Zero, Zero);
    } else {
      var front, last := b[..|b| - 1], b[|b| - 1];
      assert (a + b)[..|a + b| - 1] == a + front;
      SumAppend(a, front, k);
      AddLaws(SumOf(a, k), SumOf(front, k), last.counters);
    }
  }

  lemma {:induction false} SumAbsent(rows: seq<Row>, k: Key)
    requires !HasKey(rows, k)
    ensures SumOf(rows, k) == Zero
    decreases |rows|
  {
    if |rows| > 0 {
      var front := rows[..|rows| - 1];
      assert forall i | 0 <= i < |front| :: front[i].key == rows[i].key;
      SumAbsent(front, k);
    }
  }

  /** Adding to the row at index i adds exactly that much to its key. */
  lemma {:induction false} SumUpdate(rows: seq<Row>, i: nat, c: Counters, k: Key)
    requires i < |rows|
    ensures SumOf(rows[i := Row(rows[i].key, rows[i].counters.Add(c))], k)
         == if k == rows[i].key then SumOf(rows, k).Add(c) else SumOf(rows, k)
    decreases |rows|
  {
    var updated := rows[i := Row(rows[i].key, rows[i].counters.Add(c))];
    var n := |rows| - 1;
    if i < n {
      assert updated[..n] == rows[..n][i := Row(rows[i].key, rows[i].counters.Add(c))];
      SumUpdate(rows[..n], i, c, k);
    } else {
      assert updated[..n] == rows[..n];
    }
  }

  lemma {:induction false} SumDistinct(rows: seq<Row>, i: nat)
    requires Distinct(rows) && i < |rows|
    ensures SumOf(rows, rows[i].key) == rows[i].counters
    decreases |rows|
  {
    var n := |rows| - 1;
    if i < n {
      assert rows[..n][i] == rows[i];
      SumDistinct(rows[..n], i);
    } else {
      assert !HasKey(rows[..n], rows[n].key);
      SumAbsent(rows[..n], rows[n].key);
    }
  }

  /** Index of a key; the buffers are insertion-ordered maps. */
  function IndexOf(rows: seq<Row>, k: Key): (r: nat)
    ensures r <= |rows|
    ensures r < |rows| ==> rows[r].key == k
    ensures r == |rows| ==> !HasKey(rows, k)
    decreases |rows|
  {
    if |rows| == 0 then 0
    else if rows[0].key == k then 0
    else
      var r := 1 + IndexOf(rows[1..], k);
      assert HasKey(rows, k) ==> HasKey(rows[1..], k) by {
        if HasKey(rows, k) {
          var i :| 0 <= i < |rows| && rows[i].key == k;
          assert rows[1..][i - 1].key == k;
        }
      }
      r
  }

  ghost predicate SameSums(a: seq<Row>, b: seq<Row>) {
    forall k :: SumOf(a, k) == SumOf(b, k)
  }

  // ---------- Upsert ----------

  /** The table after adding a list of rows. */
  ghost predicate Upserted(table: map<Key, Counters>, r: map<Key, Counters>, rows: seq<Row>) {
    && (forall k :: At(r, k) == At(table, k).Add(SumOf(rows, k)))
    && (forall k :: k in r <==> k in table || HasKey(rows, k))
  }

  lemma UpsertNothing(table: map<Key, Counters>)
    ensures Upserted(table, table, [])
  {
    hide Counters.Add;
    forall k: Key ensures At(table, k) == At(table, k).Add(SumOf([], k)) {
      AddLaws(At(table, k), Zero, Zero);
    }
  }

  /** One INSERT ... ON CONFLICT MERGE; the databases reject a statement that names a key twice. */
  method InsertMerge(table: map<Key, Counters>, chunk: seq<Row>) returns (r: map<Key, Counters>)
    requires Distinct(chunk)
    ensures Upserted(table, r, chunk)
  {
    hide Upserted, Counters.Add, Zero, At, SumOf;
    r := table;
    UpsertNothing(table);
    for i := 0 to |chunk|
      invariant Upserted(table, r, chunk[..i])
    {
      var row := chunk[i];
      MergeStep(table, r, chunk[..i], row);
      assert chunk[..i + 1] == chunk[..i] + [row];
      r := r[row.key := At(r, row.key).Add(row.counters)];
    }
    assert chunk[..|chunk|] == chunk;
  }

  lemma MergeStep(table: map<Key, Counters>, r: map<Key, Counters>, done: seq<Row>, row: Row)
    requires Upserted(table, r, done)
    ensures Upserted(table, r[row.key := At(r, row.key).Add(row.counters)], done + [row])
  {
    hide Counters.Add, Zero, SumOf, HasKey;
    var after := r[row.key := At(r, row.key).Add(row.counters)];
    forall k: Key
      ensures At(after, k) == At(table, k).Add(SumOf(done + [row], k))
      ensures k in after <==> k in table || HasKey(done + [row], k)
    {
      SumSnoc(done, row, k);
      KeysAppend(done, row, k);
      AddLaws(At(table, k), SumOf(done, k), row.counters);
    }
  }

  lemma SumSnoc(rows: seq<Row>, row: Row, k: Key)
    ensures SumOf(rows + [row], k) == if row.key == k then SumOf(rows, k).Add(row.counters) else SumOf(rows, k)
  {
    assert (rows + [row])[..|rows|] == rows;
  }

  lemma DistinctSlice(rows: seq<Row>, lo: nat, hi: nat)
    requires Distinct(rows) && lo <= hi <= |rows|
    ensures Distinct(rows[lo..hi])
  {
  }

  method Deduplicate(rows: seq<Row>) returns (unique: seq<Row>)
    ensures Distinct(unique) && SameSums(unique, rows)
    ensures |unique| <= |rows|
    ensures forall k :: HasKey(unique, k) <==> HasKey(rows, k)
  {
    unique := [];
    for n := 0 to |rows|
      invariant Distinct(unique) && SameSums(unique, rows[..n]) && |unique| <= n
      invariant forall k :: HasKey(unique, k) <==> HasKey(rows[..n], k)
    {
      var row := rows[n];
      ghost var before := unique;
      var i := IndexOf(unique, row.key);
      if i < |unique| {
        unique := unique[i := Row(row.key, unique[i].counters.Add(row.counters))];
      } else {
        unique := unique + [row];
      }
      assert unique == Merged(before, row);
      DedupStep(before, rows[..n], row);
      assert rows[..n + 1] == rows[..n] + [row];
    }
    assert rows[..|rows|] == rows;
  }

  /** Add a row to an insertion-ordered buffer: updated in place, or one longer. */
  function Merged(before: seq<Row>, row: Row): seq<Row> {
    var i := IndexOf(before, row.key);
    if i < |before| then before[i := Row(row.key, before[i].counters.Add(row.counters))] else before + [row]
  }

  lemma DedupStep(before: seq<Row>, seen: seq<Row>, row: Row)
    requires Distinct(before) && SameSums(before, seen)
    requires forall k :: HasKey(before, k) <==> HasKey(seen, k)
    ensures Distinct(Merged(before, row)) && SameSums(Merged(before, row), seen + [row])
    ensures forall k :: HasKey(Merged(before, row), k) <==> HasKey(seen + [row], k)
  {
    MergedDistinct(before, row);
    forall k
      ensures SumOf(Merged(before, row), k) == SumOf(seen + [row], k)
      ensures HasKey(Merged(before, row), k) <==> HasKey(seen + [row], k)
    {
      MergedSum(before, row, k);
      MergedKeys(before, row, k);
      SumSnoc(seen, row, k);
      KeysAppend(seen, row, k);
      hide SumOf, HasKey, Merged, Counters.Add;
    }
    hide SumOf, HasKey, Merged;
  }

  lemma MergedDistinct(before: seq<Row>, row: Row)
    requires Distinct(before)
    ensures Distinct(Merged(before, row)) && |Merged(before, row)| <= |before| + 1
  {
    hide Counters.Add;
  }

  lemma MergedSum(before: seq<Row>, row: Row, k: Key)
    ensures SumOf(Merged(before, row), k) == if row.key == k then SumOf(before, k).Add(row.counters) else SumOf(before, k)
  {
    hide SumOf, Counters.Add, HasKey;
    var i := IndexOf(before, row.key);
    if i < |before| { SumUpdate(before, i, row.counters, k); } else { SumSnoc(before, row, k); }
  }

  lemma MergedKeys(before: seq<Row>, row: Row, k: Key)
    ensures HasKey(Merged(before, row), k) <==> HasKey(before, k) || row.key == k
  {
    hide Counters.Add;
    var i, after := IndexOf(before, row.key), Merged(before, row);
    if i < |before| {
      assert |after| == |before| && forall j | 0 <= j < |after| :: after[j].key == before[j].key;
      if HasKey(before, k) { var j :| 0 <= j < |before| && before[j].key == k; assert after[j].key == k; }
    } else {
      KeysAppend(before, row, k);
    }
  }

  lemma KeysAppend(rows: seq<Row>, row: Row, k: Key)
    ensures HasKey(rows + [row], k) <==> HasKey(rows, k) || row.key == k
  {
    var all := rows + [row];
    assert all[|rows|] == row;
    if HasKey(rows, k) {
      var i :| 0 <= i < |rows| && rows[i].key == k;
      assert all[i].key == k;
    }
  }

  /** Chunked upsert refines plain addition, and no statement names a key twice. */
  method UpsertAnalyticsRows(table: map<Key, Counters>, rows: seq<Row>, chunkSize: nat) returns (r: map<Key, Counters>)
    requires chunkSize >= 1
    ensures Upserted(table, r, rows)
  {
    hide Upserted, Counters.Add, Zero, SumOf, HasKey, At, SameSums, Distinct;
    r := table;
    UpsertNothing(table);
    if |rows| == 0 {
      return;
    }
    var batch := Deduplicate(rows);
    var offset := 0;
    while offset < |batch|
      invariant 0 <= offset
      invariant Upserted(table, r, batch[..Min(offset, |batch|)])
      decreases |batch| - offset
    {
      var end := Min(offset + chunkSize, |batch|);
      var chunk := batch[offset..end];
      ghost var before := r;
      DistinctSlice(batch, offset, end);
      r := InsertMerge(r, chunk);
      assert batch[..offset] + chunk == batch[..end];
      UpsertStep(table, before, r, batch[..offset], chunk);
      offset := offset + chunkSize;
    }
    assert batch[..|batch|] == batch;
    UpsertSame(table, r, batch, rows);
  }

  lemma UpsertSame(table: map<Key, Counters>, r: map<Key, Counters>, batch: seq<Row>, rows: seq<Row>)
    requires Upserted(table, r, batch) && SameSums(batch, rows)
    requires forall k :: HasKey(batch, k) <==> HasKey(rows, k)
    ensures Upserted(table, r, rows)
  {
    hide Counters.Add, SumOf, HasKey;
  }

  lemma UpsertStep(table: map<Key, Counters>, before: map<Key, Counters>, after: map<Key, Counters>, done: seq<Row>, chunk: seq<Row>)
    requires Upserted(table, before, done) && Upserted(before, after, chunk)
    ensures Upserted(table, after, done + chunk)
  {
    hide Counters.Add, Zero, SumOf;
    forall k ensures At(after, k) == At(table, k).Add(SumOf(done + chunk, k)) {
      SumAppend(done, chunk, k);
      AddLaws(At(table, k), SumOf(done, k), SumOf(chunk, k));
    }
    forall k ensures k in after <==> k in table || HasKey(done + chunk, k) {
      KeysConcat(done, chunk, k);
    }
  }

  lemma KeysConcat(a: seq<Row>, b: seq<Row>, k: Key)
    ensures HasKey(a + b, k) <==> HasKey(a, k) || HasKey(b, k)
  {
    if HasKey(a, k) { var i :| 0 <= i < |a| && a[i].key == k; assert (a + b)[i].key == k; }
    if HasKey(b, k) { var i :| 0 <= i < |b| && b[i].key == k; assert (a + b)[|a| + i].key == k; }
  }
}
