/** The bounded offline queue on top of the measurement table: saving evicts
    the oldest rows once the table holds MAX_STORED_MEASUREMENTS, and the scan
    hands back every stored record, oldest first, tagged with its row id and
    timestamp. */
module MeasurementStorage {
  import opened Values
  import opened MeasurementDao

  const MAX_STORED_MEASUREMENTS: nat := 100

  /** Metadata keys the scan adds to each record. */
  const OFFLINE_ID_KEY: string := "_offline_id"
  const OFFLINE_TIMESTAMP_KEY: string := "_offline_timestamp"

  /** The rows that survive the eviction step of a save. */
  function Evicted(rows: seq<OfflineMeasurement>): seq<OfflineMeasurement>
  {
    if |rows| >= MAX_STORED_MEASUREMENTS
    then OldestRemoved(rows, |rows| - MAX_STORED_MEASUREMENTS + 1)
    else rows
  }

  /** The table after saving row x: evict, then insert. */
  function Saved(rows: seq<OfflineMeasurement>, x: OfflineMeasurement): seq<OfflineMeasurement>
  {
    InsertByTime(Evicted(rows), x)
  }

  /** One scanned record: the stored fields plus the two metadata fields. */
  function Tagged(row: OfflineMeasurement): Record
  {
    row.measurement[OFFLINE_ID_KEY := Text(row.id)][OFFLINE_TIMESTAMP_KEY := Int(row.timestamp)]
  }

  /** The scan's result for a table: one tagged record per row, in table order. */
  function PendingOf(rows: seq<OfflineMeasurement>): seq<Record>
  {
    seq(|rows|, i requires 0 <= i < |rows| => Tagged(rows[i]))
  }

  // ---------------------------------------------------------------------
  // Properties of save

  /** A save leaves min(count, 99) + 1 rows, so the table never holds more
      than MAX_STORED_MEASUREMENTS rows after a save. */
  lemma SavedSize(rows: seq<OfflineMeasurement>, x: OfflineMeasurement)
    ensures |Saved(rows, x)| == Min(|rows|, MAX_STORED_MEASUREMENTS - 1) + 1
    ensures |Saved(rows, x)| <= MAX_STORED_MEASUREMENTS
  {
    OldestRemovedSuffix(rows, |rows| - MAX_STORED_MEASUREMENTS + 1);
    InsertByTimeContents(Evicted(rows), x);
  }

  /** Below capacity a save deletes nothing and adds exactly the one row. */
  lemma SaveBelowCapacity(rows: seq<OfflineMeasurement>, x: OfflineMeasurement)
    requires |rows| < MAX_STORED_MEASUREMENTS
    ensures |Saved(rows, x)| == |rows| + 1
    ensures multiset(Saved(rows, x)) == multiset(rows) + multiset{x}
  {
    InsertByTimeContents(rows, x);
  }

  /** At MAX_STORED_MEASUREMENTS + k rows a save evicts the k + 1 oldest rows
      and inserts the new one, leaving exactly MAX_STORED_MEASUREMENTS rows. */
  lemma SaveAtCapacity(rows: seq<OfflineMeasurement>, x: OfflineMeasurement, k: nat)
    requires SortedByTime(rows)
    requires |rows| == MAX_STORED_MEASUREMENTS + k
    ensures |Saved(rows, x)| == MAX_STORED_MEASUREMENTS
    ensures multiset(Saved(rows, x)) == multiset(rows[k + 1..]) + multiset{x}
    ensures forall i, j :: 0 <= i <= k < j < |rows| ==> rows[i].timestamp <= rows[j].timestamp
  {
    OldestRemovedSuffix(rows, k + 1);
    assert Evicted(rows) == rows[k + 1..];
    InsertByTimeContents(rows[k + 1..], x);
    forall i, j | 0 <= i <= k < j < |rows| ensures rows[i].timestamp <= rows[j].timestamp {
      assert NotNewer(rows[i], rows[j]);
    }
  }

  /** A save always stores the record it was given (an empty one included),
      and keeps the table's invariant when the new id is fresh. */
  lemma SaveKeepsInvariant(rows: seq<OfflineMeasurement>, x: OfflineMeasurement)
    requires TableInvariant(rows) && x.id !in Ids(rows)
    ensures TableInvariant(Saved(rows, x))
    ensures x in Saved(rows, x)
    ensures Ids(Saved(rows, x)) <= Ids(rows) + {x.id}
  {
    var kept := Evicted(rows);
    OldestRemovedKeepsInvariant(rows, |rows| - MAX_STORED_MEASUREMENTS + 1);
    InsertByTimeSorted(kept, x);
    InsertByTimeUnique(kept, x);
    InsertByTimeIds(kept, x);
    InsertByTimeContents(kept, x);
    assert x in multiset(Saved(rows, x));
  }

  /** When the new row is strictly newer than every stored row, it is the
      newest row in scan order, whatever order rows with equal timestamps take. */
  lemma SaveNewestLast(rows: seq<OfflineMeasurement>, x: OfflineMeasurement)
    requires forall i :: 0 <= i < |rows| ==> rows[i].timestamp < x.timestamp
    ensures Saved(rows, x) == Evicted(rows) + [x]
  {
    var kept := Evicted(rows);
    forall i | 0 <= i < |kept| ensures kept[i].timestamp < x.timestamp {
      if |rows| >= MAX_STORED_MEASUREMENTS {
        OldestRemovedSuffix(rows, |rows| - MAX_STORED_MEASUREMENTS + 1);
        assert kept[i] == rows[i + (|rows| - |kept|)];
      }
    }
    InsertByTimeAppendsNewest(kept, x);
  }

  /** A save keeps the new row, and the only rows it can lose are the
      count - 99 oldest, which the eviction step deletes to make room. */
  lemma SaveEvictsOnlyOldest(rows: seq<OfflineMeasurement>, x: OfflineMeasurement)
    ensures x in Saved(rows, x)
    ensures forall i :: 0 <= i < |rows| && rows[i] !in Saved(rows, x) ==>
              i + MAX_STORED_MEASUREMENTS - 1 < |rows|
  {
    var kept := Evicted(rows);
    InsertByTimeContents(kept, x);
    assert x in multiset(Saved(rows, x));
    var cut := if |rows| >= MAX_STORED_MEASUREMENTS then |rows| - MAX_STORED_MEASUREMENTS + 1 else 0;
    if |rows| >= MAX_STORED_MEASUREMENTS {
      OldestRemovedSuffix(rows, cut);
    }
    assert kept == rows[cut..];
    forall i | cut <= i < |rows| ensures rows[i] in Saved(rows, x) {
      assert rows[i] == kept[i - cut];
      assert rows[i] in multiset(Saved(rows, x));
    }
  }

  // ---------------------------------------------------------------------

  class OfflineMeasurementStorage {
    const dao: OfflineMeasurementDao

    ghost predicate Valid()
      reads this, dao
    {
      dao.Valid()
    }

    constructor (dao: OfflineMeasurementDao)
      requires dao.Valid()
      ensures this.dao == dao && Valid()
    {
      this.dao := dao;
    }

    /** Store one record under a fresh id and the current time, evicting the
        oldest rows first when the table is full. */
    method SaveMeasurement(measurements: Record, id: string, now: int)
      requires Valid() && id !in Ids(dao.rows)
      modifies dao
      ensures Valid()
      ensures dao.rows == Saved(old(dao.rows), OfflineMeasurement(id, measurements, now))
    {
      var offlineMeasurement := OfflineMeasurement(id, measurements, now);
      var currentCount := dao.GetCount();
      if currentCount >= MAX_STORED_MEASUREMENTS {
        var excessCount := currentCount - MAX_STORED_MEASUREMENTS + 1;
        OldestRemovedKeepsInvariant(dao.rows, excessCount);
        dao.DeleteOldestMeasurements(excessCount);
      }
      var inserted := dao.InsertMeasurement(offlineMeasurement);
    }

    /** Every stored record, oldest first, each tagged with its row's id and
        timestamp. The table is not changed. */
    method GetAllPendingMeasurements() returns (pending: seq<Record>)
      requires Valid()
      ensures pending == PendingOf(dao.rows)
    {
      var storedMeasurements := dao.GetAllMeasurements();
      pending := [];
      var i := 0;
      while i < |storedMeasurements|
        invariant 0 <= i <= |storedMeasurements|
        invariant |pending| == i
        invariant forall j :: 0 <= j < i ==> pending[j] == Tagged(storedMeasurements[j])
      {
        var measurementMap := DecodeMeasurement(storedMeasurements[i]);
        pending := pending + [measurementMap];
        i := i + 1;
      }
    }

    /** Rebuild one row's record from its stored JSON object, key by key, and
        add the metadata fields. */
    static method DecodeMeasurement(row: OfflineMeasurement) returns (measurementMap: Record)
      ensures measurementMap == Tagged(row)
    {
      var jsonObject := row.measurement;
      measurementMap := map[];
      var keys := jsonObject.Keys;
      while keys != {}
        invariant keys <= jsonObject.Keys
        invariant measurementMap.Keys == jsonObject.Keys - keys
        invariant forall k :: k in measurementMap ==> measurementMap[k] == jsonObject[k]
        decreases keys
      {
        var key :| key in keys;
        measurementMap := measurementMap[key := if jsonObject[key].Null? then Null else jsonObject[key]];
        keys := keys - {key};
      }
      assert measurementMap == jsonObject;
      measurementMap := measurementMap[OFFLINE_ID_KEY := Text(row.id)];
      measurementMap := measurementMap[OFFLINE_TIMESTAMP_KEY := Int(row.timestamp)];
    }

    method DeleteMeasurement(measurementId: string)
      requires Valid()
      modifies dao
      ensures Valid()
      ensures dao.rows == WithoutId(old(dao.rows), measurementId)
    {
      dao.DeleteMeasurement(measurementId);
    }

    method DeleteAllMeasurements()
      requires Valid()
      modifies dao
      ensures Valid() && dao.rows == []
    {
      dao.DeleteAllMeasurements();
    }

    method GetStoredMeasurementsCount() returns (count: int)
      requires Valid()
      ensures count == |dao.rows|
    {
      count := dao.GetCount();
    }
  }
}
