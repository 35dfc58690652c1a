/** The offline_measurements table and its data-access object.
    The table is a set of rows keyed by id. The model keeps it as a sequence
    sorted by timestamp: that sequence is one of the orders that
    "ORDER BY timestamp ASC" allows, and both the full scan and the
    delete-the-oldest query read the table in that order. */
module MeasurementDao {
  import opened Values

  /** One row: primary key, the stored JSON object, and the insertion time in
      milliseconds. */
  datatype OfflineMeasurement = OfflineMeasurement(id: string, measurement: Record, timestamp: int)

  /** Row a is no newer than row b. */
  predicate NotNewer(a: OfflineMeasurement, b: OfflineMeasurement)
  {
    a.timestamp <= b.timestamp
  }

  /** Rows a and b have different primary keys. */
  predicate KeyedApart(a: OfflineMeasurement, b: OfflineMeasurement)
  {
    a.id != b.id
  }

  /** Every row is no newer than every later row. The quantifier fires only
      on an explicit NotNewer(rows[i], rows[j]) term. */
  predicate SortedByTime(rows: seq<OfflineMeasurement>)
  {
    forall i, j {:trigger NotNewer(rows[i], rows[j])} :: 0 <= i < j < |rows| ==> NotNewer(rows[i], rows[j])
  }

  /** No two rows share a primary key. The quantifier fires only on an
      explicit KeyedApart(rows[i], rows[j]) term. */
  predicate UniqueIds(rows: seq<OfflineMeasurement>)
  {
    forall i, j {:trigger KeyedApart(rows[i], rows[j])} :: 0 <= i < j < |rows| ==> KeyedApart(rows[i], rows[j])
  }

  /** What the table guarantees: the primary key is unique and the sequence is
      in scan order. */
  predicate TableInvariant(rows: seq<OfflineMeasurement>)
  {
    SortedByTime(rows) && UniqueIds(rows)
  }

  function Ids(rows: seq<OfflineMeasurement>): set<string>
  {
    set i | 0 <= i < |rows| :: rows[i].id
  }

  /** Number of leading rows whose timestamp is at most t: where a row stamped
      t goes in scan order. */
  function InsertPoint(rows: seq<OfflineMeasurement>, t: int): (p: nat)
    ensures p <= |rows|
  {
    InsertPointFrom(rows, t, 0)
  }

  /** The first position at or after i holding a row stamped later than t,
      or |rows| when there is none. */
  function InsertPointFrom(rows: seq<OfflineMeasurement>, t: int, i: nat): (p: nat)
    requires i <= |rows|
    ensures i <= p <= |rows|
    decreases |rows| - i
  {
    if i == |rows| || rows[i].timestamp > t then i else InsertPointFrom(rows, t, i + 1)
  }

  lemma {:induction false} InsertPointFromSpec(rows: seq<OfflineMeasurement>, t: int, i: nat)
    requires i <= |rows|
    requires forall j :: 0 <= j < i ==> rows[j].timestamp <= t
    ensures var p := InsertPointFrom(rows, t, i);
            && (forall j :: 0 <= j < p ==> rows[j].timestamp <= t)
            && (p < |rows| ==> rows[p].timestamp > t)
    decreases |rows| - i
  {
    if i < |rows| && rows[i].timestamp <= t {
      InsertPointFromSpec(rows, t, i + 1);
    }
  }

  /** Every row before the insert point is stamped at most t, and the row at
      the insert point, if any, is stamped later than t. */
  lemma InsertPointSpec(rows: seq<OfflineMeasurement>, t: int)
    ensures var p := InsertPoint(rows, t);
            && (forall i :: 0 <= i < p ==> rows[i].timestamp <= t)
            && (p < |rows| ==> rows[p].timestamp > t)
  {
    InsertPointFromSpec(rows, t, 0);
  }

  /** The table after inserting row x. */
  function InsertByTime(rows: seq<OfflineMeasurement>, x: OfflineMeasurement): seq<OfflineMeasurement>
  {
    var p := InsertPoint(rows, x.timestamp);
    rows[..p] + [x] + rows[p..]
  }

  /** What "DELETE ... WHERE id IN (SELECT id ... ORDER BY timestamp ASC
      LIMIT n)" leaves, one oldest row at a time. A negative LIMIT means no
      limit in SQLite. */
  function OldestRemoved(rows: seq<OfflineMeasurement>, n: int): seq<OfflineMeasurement>
    decreases |rows|
  {
    if n < 0 then []
    else if n == 0 || rows == [] then rows
    else OldestRemoved(rows[1..], n - 1)
  }

  /** What "DELETE ... WHERE id = :id" leaves. */
  function WithoutId(rows: seq<OfflineMeasurement>, id: string): seq<OfflineMeasurement>
  {
    if rows == [] then []
    else (if rows[0].id == id then [] else [rows[0]]) + WithoutId(rows[1..], id)
  }

  /** Exactly the rows with another id survive. */
  lemma {:induction false} WithoutIdContents(rows: seq<OfflineMeasurement>, id: string)
    ensures forall x :: x in WithoutId(rows, id) <==> x in rows && x.id != id
    decreases |rows|
  {
    if rows != [] {
      WithoutIdContents(rows[1..], id);
      assert rows == [rows[0]] + rows[1..];
    }
  }

  // ---------------------------------------------------------------------
  // Insert

  /** Insert adds exactly the one row and keeps every other row. */
  lemma InsertByTimeContents(rows: seq<OfflineMeasurement>, x: OfflineMeasurement)
    ensures |InsertByTime(rows, x)| == |rows| + 1
    ensures multiset(InsertByTime(rows, x)) == multiset(rows) + multiset{x}
  {
    var p := InsertPoint(rows, x.timestamp);
    assert rows == rows[..p] + rows[p..];
  }

  /** Insert keeps the table in scan order. */
  lemma InsertByTimeSorted(rows: seq<OfflineMeasurement>, x: OfflineMeasurement)
    requires SortedByTime(rows)
    ensures SortedByTime(InsertByTime(rows, x))
  {
    var p := InsertPoint(rows, x.timestamp);
    var r := InsertByTime(rows, x);
    InsertPointSpec(rows, x.timestamp);
    forall i, j | 0 <= i < j < |r| ensures NotNewer(r[i], r[j]) {
      InsertByTimeAt(rows, x, i);
      InsertByTimeAt(rows, x, j);
      if i < p && j < p {
        assert NotNewer(rows[i], rows[j]);
      } else if i < p && j > p {
        assert NotNewer(rows[i], rows[j - 1]);
      } else if i > p {
        assert NotNewer(rows[i - 1], rows[j - 1]);
      } else if i == p && p < j - 1 {
        assert NotNewer(rows[p], rows[j - 1]);
      }
    }
  }

  /** Where each row of the table lands after insert. */
  lemma InsertByTimeAt(rows: seq<OfflineMeasurement>, x: OfflineMeasurement, i: int)
    requires 0 <= i <= |rows|
    ensures var p := InsertPoint(rows, x.timestamp);
            InsertByTime(rows, x)[i] == if i < p then rows[i] else if i == p then x else rows[i - 1]
  {
    var p := InsertPoint(rows, x.timestamp);
    var before, after := rows[..p], rows[p..];
    var front := before + [x];
    assert InsertByTime(rows, x) == front + after;
    if i < p {
      assert front[i] == before[i];
    } else if i > p {
      assert after[i - p - 1] == rows[i - 1];
    }
  }

  /** Inserting a row whose id is fresh keeps the primary key unique. */
  lemma InsertByTimeUnique(rows: seq<OfflineMeasurement>, x: OfflineMeasurement)
    requires UniqueIds(rows) && x.id !in Ids(rows)
    ensures UniqueIds(InsertByTime(rows, x))
  {
    var p := InsertPoint(rows, x.timestamp);
    var r := InsertByTime(rows, x);
    forall i, j | 0 <= i < j < |r| ensures KeyedApart(r[i], r[j]) {
      InsertByTimeAt(rows, x, i);
      InsertByTimeAt(rows, x, j);
      if i == p {
        assert rows[j - 1].id in Ids(rows);
      } else if j == p {
        assert rows[i].id in Ids(rows);
      } else if i < p && j < p {
        assert KeyedApart(rows[i], rows[j]);
      } else if i < p {
        assert KeyedApart(rows[i], rows[j - 1]);
      } else {
        assert KeyedApart(rows[i - 1], rows[j - 1]);
      }
    }
  }

  /** Insert adds exactly the new key to the table's key set. */
  lemma InsertByTimeIds(rows: seq<OfflineMeasurement>, x: OfflineMeasurement)
    ensures Ids(InsertByTime(rows, x)) == Ids(rows) + {x.id}
  {
    var p := InsertPoint(rows, x.timestamp);
    var r := InsertByTime(rows, x);
    forall y | y in Ids(r) ensures y in Ids(rows) + {x.id} {
      var i :| 0 <= i < |r| && r[i].id == y;
      InsertByTimeAt(rows, x, i);
    }
    forall y | y in Ids(rows) ensures y in Ids(r) {
      var i :| 0 <= i < |rows| && rows[i].id == y;
      if i < p { InsertByTimeAt(rows, x, i); } else { InsertByTimeAt(rows, x, i + 1); }
    }
    InsertByTimeAt(rows, x, p);
  }

  /** A row strictly newer than every stored row is appended: it is the
      newest one in scan order, whatever order rows with equal timestamps take. */
  lemma InsertByTimeAppendsNewest(rows: seq<OfflineMeasurement>, x: OfflineMeasurement)
    requires forall i :: 0 <= i < |rows| ==> rows[i].timestamp < x.timestamp
    ensures InsertByTime(rows, x) == rows + [x]
  {
    var p := InsertPoint(rows, x.timestamp);
    InsertPointSpec(rows, x.timestamp);
    assert p == |rows|;
  }

  // ---------------------------------------------------------------------
  // Delete the oldest n

  /** A non-negative LIMIT n deletes exactly the first min(n, count) rows. */
  lemma {:induction false} OldestRemovedSuffix(rows: seq<OfflineMeasurement>, n: int)
    ensures n >= 0 ==> OldestRemoved(rows, n) == rows[Min(n, |rows|)..]
    decreases |rows|
  {
    if n > 0 && rows != [] {
      OldestRemovedSuffix(rows[1..], n - 1);
      assert rows[1..][Min(n - 1, |rows| - 1)..] == rows[Min(n, |rows|)..];
    }
  }

  /** min(n, count) rows go, they are the first in scan order, and every one
      of them is at least as old as every row that stays. */
  lemma OldestRemovedSpec(rows: seq<OfflineMeasurement>, n: int)
    requires SortedByTime(rows)
    ensures n >= 0 ==> |OldestRemoved(rows, n)| == |rows| - Min(n, |rows|)
    ensures n < 0 ==> OldestRemoved(rows, n) == []
    ensures var kept := OldestRemoved(rows, n);
            && kept == rows[|rows| - |kept|..]
            && forall i, j :: 0 <= i < |rows| - |kept| <= j < |rows| ==> rows[i].timestamp <= rows[j].timestamp
  {
    OldestRemovedSuffix(rows, n);
    var kept := OldestRemoved(rows, n);
    forall i, j | 0 <= i < |rows| - |kept| <= j < |rows| ensures rows[i].timestamp <= rows[j].timestamp {
      assert NotNewer(rows[i], rows[j]);
    }
  }

  /** Deleting rows keeps the table invariant. */
  lemma OldestRemovedKeepsInvariant(rows: seq<OfflineMeasurement>, n: int)
    requires TableInvariant(rows)
    ensures TableInvariant(OldestRemoved(rows, n))
    ensures Ids(OldestRemoved(rows, n)) <= Ids(rows)
    ensures forall y :: y in OldestRemoved(rows, n) ==> y in rows
  {
    OldestRemovedSuffix(rows, n);
    var kept := OldestRemoved(rows, n);
    if n >= 0 {
      SuffixKeepsInvariant(rows, Min(n, |rows|));
    }
    forall y | y in kept ensures y in rows {
      if n >= 0 {
        var k := Min(n, |rows|);
        var j :| 0 <= j < |kept| && kept[j] == y;
        assert rows[k + j] == y;
      }
    }
  }

  // ---------------------------------------------------------------------
  // Delete by id

  /** An id that is not in the table leaves it unchanged. */
  lemma {:induction false} WithoutUnknownId(rows: seq<OfflineMeasurement>, id: string)
    requires id !in Ids(rows)
    ensures WithoutId(rows, id) == rows
  {
    if rows != [] {
      assert rows[0].id in Ids(rows);
      assert Ids(rows[1..]) <= Ids(rows) by {
        forall y | y in Ids(rows[1..]) ensures y in Ids(rows) {
          var k :| 0 <= k < |rows| - 1 && rows[1..][k].id == y;
          assert rows[k + 1].id == y;
        }
      }
      WithoutUnknownId(rows[1..], id);
      assert [rows[0]] + rows[1..] == rows;
    }
  }

  /** Dropping the k oldest rows keeps each half of the table invariant. */
  lemma SuffixKeepsInvariant(rows: seq<OfflineMeasurement>, k: nat)
    requires k <= |rows|
    ensures SortedByTime(rows) ==> SortedByTime(rows[k..])
    ensures UniqueIds(rows) ==> UniqueIds(rows[k..])
  {
    var tail := rows[k..];
    if SortedByTime(rows) {
      forall i, j | 0 <= i < j < |tail| ensures NotNewer(tail[i], tail[j]) {
        assert tail[i] == rows[i + k] && tail[j] == rows[j + k];
        assert NotNewer(rows[i + k], rows[j + k]);
      }
    }
    if UniqueIds(rows) {
      forall i, j | 0 <= i < j < |tail| ensures KeyedApart(tail[i], tail[j]) {
        assert tail[i] == rows[i + k] && tail[j] == rows[j + k];
        assert KeyedApart(rows[i + k], rows[j + k]);
      }
    }
  }

  /** A row in front of a sorted, uniquely keyed table that is older than,
      and keyed apart from, every row in it. */
  lemma ConsKeepsInvariant(h: OfflineMeasurement, rest: seq<OfflineMeasurement>)
    requires TableInvariant(rest)
    requires forall j :: 0 <= j < |rest| ==> h.timestamp <= rest[j].timestamp && h.id != rest[j].id
    ensures TableInvariant([h] + rest)
  {
    var r := [h] + rest;
    forall a, b | 0 <= a < b < |r| ensures NotNewer(r[a], r[b]) && KeyedApart(r[a], r[b]) {
      assert r[b] == rest[b - 1];
      if a > 0 {
        assert r[a] == rest[a - 1];
        assert NotNewer(rest[a - 1], rest[b - 1]) && KeyedApart(rest[a - 1], rest[b - 1]);
      }
    }
  }

  /** Deleting by id keeps scan order and key uniqueness. */
  lemma {:induction false} WithoutIdKeepsInvariant(rows: seq<OfflineMeasurement>, id: string)
    requires TableInvariant(rows)
    ensures TableInvariant(WithoutId(rows, id))
  {
    if rows != [] {
      var tail := rows[1..];
      SuffixKeepsInvariant(rows, 1);
      WithoutIdKeepsInvariant(tail, id);
      var rest := WithoutId(tail, id);
      WithoutIdContents(tail, id);
      if rows[0].id != id {
        forall j | 0 <= j < |rest|
          ensures rows[0].timestamp <= rest[j].timestamp && rows[0].id != rest[j].id
        {
          assert rest[j] in rest;
          var k :| 0 <= k < |tail| && tail[k] == rest[j];
          assert tail[k] == rows[k + 1];
          assert NotNewer(rows[0], rows[k + 1]) && KeyedApart(rows[0], rows[k + 1]);
        }
        ConsKeepsInvariant(rows[0], rest);
      }
    }
  }

  /** Deleting by id removes exactly that key from the key set. */
  lemma WithoutIdIds(rows: seq<OfflineMeasurement>, id: string)
    ensures Ids(WithoutId(rows, id)) == Ids(rows) - {id}
  {
    var r := WithoutId(rows, id);
    WithoutIdContents(rows, id);
    forall y | y in Ids(r) ensures y in Ids(rows) && y != id {
      var i :| 0 <= i < |r| && r[i].id == y;
      assert r[i] in r;
      var k :| 0 <= k < |rows| && rows[k] == r[i];
    }
    forall y | y in Ids(rows) && y != id ensures y in Ids(r) {
      var i :| 0 <= i < |rows| && rows[i].id == y;
      assert rows[i] in rows;
      assert rows[i] in r;
      var k :| 0 <= k < |r| && r[k] == rows[i];
    }
  }

  /** With unique keys, deleting the id of the oldest row drops exactly that row. */
  lemma WithoutFirstId(rows: seq<OfflineMeasurement>)
    requires UniqueIds(rows) && rows != []
    ensures WithoutId(rows, rows[0].id) == rows[1..]
  {
    var tail := rows[1..];
    forall k | 0 <= k < |tail| ensures tail[k].id != rows[0].id {
      assert tail[k] == rows[k + 1];
      assert KeyedApart(rows[0], rows[k + 1]);
    }
    WithoutUnknownId(tail, rows[0].id);
  }

  // ---------------------------------------------------------------------

  /** The Room data-access object over the table. */
  class OfflineMeasurementDao {
    var rows: seq<OfflineMeasurement>

    ghost predicate Valid()
      reads this
    {
      TableInvariant(rows)
    }

    constructor ()
      ensures Valid() && rows == []
    {
      rows := [];
    }

    /** @Insert with the default conflict strategy: a row whose primary key is
        already present aborts the insert (reported here as ok == false). */
    method InsertMeasurement(measurement: OfflineMeasurement) returns (ok: bool)
      requires Valid()
      modifies this
      ensures Valid()
      ensures ok <==> measurement.id !in Ids(old(rows))
      ensures rows == if ok then InsertByTime(old(rows), measurement) else old(rows)
    {
      ok := measurement.id !in Ids(rows);
      if ok {
        InsertByTimeSorted(rows, measurement);
        InsertByTimeUnique(rows, measurement);
        rows := InsertByTime(rows, measurement);
      }
    }

    /** SELECT * ORDER BY timestamp ASC: every row, oldest first. */
    method GetAllMeasurements() returns (r: seq<OfflineMeasurement>)
      requires Valid()
      ensures SortedByTime(r)
      ensures r == rows
    {
      r := rows;
    }

    method DeleteMeasurement(measurementId: string)
      requires Valid()
      modifies this
      ensures Valid()
      ensures rows == WithoutId(old(rows), measurementId)
    {
      WithoutIdKeepsInvariant(rows, measurementId);
      rows := WithoutId(rows, measurementId);
    }

    method DeleteAllMeasurements()
      requires Valid()
      modifies this
      ensures Valid()
      ensures rows == []
    {
      rows := [];
    }

    /** SELECT COUNT(*). */
    method GetCount() returns (count: int)
      requires Valid()
      ensures count == |rows|
    {
      count := |rows|;
    }

    method DeleteOldestMeasurements(count: int)
      requires Valid()
      modifies this
      ensures Valid()
      ensures rows == OldestRemoved(old(rows), count)
    {
      OldestRemovedKeepsInvariant(rows, count);
      rows := OldestRemoved(rows, count);
    }
  }
}
