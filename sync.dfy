/** The orchestrator's behaviour as functions over one world state: the
    offline table, the cached API key, the server's script and the requests
    it has received; the next request gets the script's reply at the log's
    length. Each operation of the orchestrator class is
    proved equal to one of these functions; the lemmas below state what a
    whole run does. */
module SyncModel {
  import opened Values
  import opened MeasurementDao
  import opened MeasurementStorage
  import opened Remote

  /** The body field that carries the API key on a send. */
  const KEY_API_KEY_IN_BODY: string := "api_key"

  datatype World = World(rows: seq<OfflineMeasurement>, apiKey: Option<string>,
                         replies: seq<Reply>, log: seq<Request>)

  /** The world after an operation together with what the operation returned. */
  datatype Step<T> = Step(world: World, value: T)

  /** One HTTP round trip. */
  function Exchange(w: World, request: Request): Step<Reply>
  {
    Step(w.(log := w.log + [request]), ReplyAt(w.replies, |w.log|))
  }

  /** Ask the server for a key for this device. */
  function FetchKey(w: World, androidId: Option<string>): Step<Option<string>>
  {
    if androidId.None? then Step(w, None)
    else
      var x := Exchange(w, GetKey(androidId.value));
      if !IsSuccessful(x.value) || x.value.apiKey.None? then Step(x.world, None)
      else Step(x.world.(apiKey := x.value.apiKey), x.value.apiKey)
  }

  /** The cached key, or a fetched one when nothing is cached. */
  function ResolveKey(w: World, androidId: Option<string>): Step<Option<string>>
  {
    if w.apiKey.Some? then Step(w, w.apiKey) else FetchKey(w, androidId)
  }

  function SendBody(apiKey: string, m: Record): Record
  {
    m[KEY_API_KEY_IN_BODY := Text(apiKey)]
  }

  /** Post one record; the result is whether the server answered 2xx. */
  function Send(w: World, apiKey: string, m: Record): Step<bool>
  {
    var x := Exchange(w, SendData(SendBody(apiKey, m)));
    Step(x.world, IsSuccessful(x.value))
  }

  /** A scanned record without the two metadata fields. */
  function Clean(m: Record): Record
  {
    m - {OFFLINE_ID_KEY, OFFLINE_TIMESTAMP_KEY}
  }

  /** The `_offline_id` field when it holds a string. */
  function OfflineIdOf(m: Record): Option<string>
  {
    if OFFLINE_ID_KEY in m && m[OFFLINE_ID_KEY].Text? then Some(m[OFFLINE_ID_KEY].s) else None
  }

  /** Send the scanned records in order, deleting each one the server
      accepted, and stop at the first failure. */
  function Drain(w: World, apiKey: string, pending: seq<Record>): Step<bool>
    decreases |pending|
  {
    if pending == [] then Step(w, true)
    else
      var offlineId := OfflineIdOf(pending[0]);
      var s := Send(w, apiKey, Clean(pending[0]));
      if !s.value then Step(s.world, false)
      else
        var w' := if offlineId.Some? then s.world.(rows := WithoutId(s.world.rows, offlineId.value)) else s.world;
        Drain(w', apiKey, pending[1..])
  }

  /** Queue a record in the offline table. */
  function Persist(w: World, m: Record, id: string, now: int): World
  {
    w.(rows := Saved(w.rows, OfflineMeasurement(id, m, now)))
  }

  /** One processAndSendData call. `collect(key, online)` is the record the
      measurement collector yields for that key and online flag, `id` and
      `now` the row id and time a save would use. */
  function Run(w: World, online: bool, androidId: Option<string>,
               collect: (Option<string>, bool) -> Record, id: string, now: int): World
  {
    if !online then
      var m := collect(None, false);
      if m != map[] then Persist(w, m, id, now) else w
    else
      var k := ResolveKey(w, androidId);
      if k.value.None? then
        var m := collect(None, false);
        if m != map[] then Persist(k.world, m, id, now) else k.world
      else
        var m := collect(k.value, true);
        if m == map[] then k.world else Sync(k.world, k.value.value, m, id, now)
  }

  /** The online path once a key is known and a record was collected: drain
      the backlog, send the current record, and queue it if that failed. */
  function Sync(w: World, apiKey: string, m: Record, id: string, now: int): World
  {
    var d := Drain(w, apiKey, PendingOf(w.rows));
    var s := Send(d.world, apiKey, m);
    if s.value then s.world else Persist(s.world, m, id, now)
  }

  // ---------------------------------------------------------------------
  // Reference definitions used to state the properties

  /** How many of the n calls starting with the from-th succeed before the
      first failure. */
  function SuccessRun(replies: seq<Reply>, from: nat, n: nat): (k: nat)
    ensures k <= n
    decreases n
  {
    if n == 0 || !IsSuccessful(ReplyAt(replies, from)) then 0 else 1 + SuccessRun(replies, from + 1, n - 1)
  }

  /** SuccessRun counts exactly the leading successful replies. */
  lemma {:induction false} SuccessRunMeaning(replies: seq<Reply>, from: nat, n: nat)
    ensures var k := SuccessRun(replies, from, n);
            && (forall i :: from <= i < from + k ==> IsSuccessful(ReplyAt(replies, i)))
            && (k < n ==> !IsSuccessful(ReplyAt(replies, from + k)))
    decreases n
  {
    if n > 0 && IsSuccessful(ReplyAt(replies, from)) {
      SuccessRunMeaning(replies, from + 1, n - 1);
    }
  }

  /** The send requests for a sequence of scanned records. */
  function SendRequests(apiKey: string, pending: seq<Record>): (r: seq<Request>)
    ensures |r| == |pending|
  {
    if pending == [] then []
    else [SendData(SendBody(apiKey, Clean(pending[0])))] + SendRequests(apiKey, pending[1..])
  }

  /** The i-th send request posts the i-th scanned record, stripped of its
      metadata, with the key added. */
  lemma {:induction false} SendRequestsAt(apiKey: string, pending: seq<Record>)
    ensures forall i :: 0 <= i < |pending| ==>
              SendRequests(apiKey, pending)[i] == SendData(SendBody(apiKey, Clean(pending[i])))
    decreases |pending|
  {
    if pending != [] {
      SendRequestsAt(apiKey, pending[1..]);
    }
  }

  function KeyRequests(log: seq<Request>): nat
  {
    if log == [] then 0 else KeyRequests(log[..|log| - 1]) + (if log[|log| - 1].GetKey? then 1 else 0)
  }

  function DataRequests(log: seq<Request>): nat
  {
    if log == [] then 0 else DataRequests(log[..|log| - 1]) + (if log[|log| - 1].SendData? then 1 else 0)
  }

  // ---------------------------------------------------------------------
  // Small facts

  lemma {:induction false} RequestCountsAppend(a: seq<Request>, b: seq<Request>)
    ensures KeyRequests(a + b) == KeyRequests(a) + KeyRequests(b)
    ensures DataRequests(a + b) == DataRequests(a) + DataRequests(b)
    decreases |b|
  {
    if b != [] {
      var b' := b[..|b| - 1];
      assert (a + b)[..|a + b| - 1] == a + b';
      RequestCountsAppend(a, b');
    } else {
      assert a + b == a;
    }
  }

  lemma {:induction false} SendRequestsCounts(apiKey: string, pending: seq<Record>)
    ensures KeyRequests(SendRequests(apiKey, pending)) == 0
    ensures DataRequests(SendRequests(apiKey, pending)) == |pending|
    decreases |pending|
  {
    if pending != [] {
      var r := SendRequests(apiKey, pending);
      SendRequestsCounts(apiKey, pending[1..]);
      RequestCountsAppend([r[0]], SendRequests(apiKey, pending[1..]));
      assert [r[0]][..0] == [];
    }
  }

  lemma PendingOfTail(rows: seq<OfflineMeasurement>)
    requires rows != []
    ensures PendingOf(rows[1..]) == PendingOf(rows)[1..]
  {
  }

  /** The scan's metadata round-trips: the id the drain reads back is the
      row's id, and stripping the metadata gives back the stored record
      whenever that record did not itself use the two reserved keys. */
  lemma TaggedRoundTrip(row: OfflineMeasurement)
    ensures OfflineIdOf(Tagged(row)) == Some(row.id)
    ensures Clean(Tagged(row)) == Clean(row.measurement)
    ensures OFFLINE_ID_KEY !in row.measurement && OFFLINE_TIMESTAMP_KEY !in row.measurement
            ==> Clean(Tagged(row)) == row.measurement
  {
    assert OFFLINE_ID_KEY != OFFLINE_TIMESTAMP_KEY;
    var t := Tagged(row);
    assert Clean(t).Keys == Clean(row.measurement).Keys;
    if OFFLINE_ID_KEY !in row.measurement && OFFLINE_TIMESTAMP_KEY !in row.measurement {
      assert Clean(row.measurement) == row.measurement;
    }
  }

  // ---------------------------------------------------------------------
  // Key fetch

  /** A fetch makes a request exactly when the device id is known, and
      yields a key exactly when that request was answered 2xx with an
      `api_key` field; the key is cached exactly when one is yielded. */
  lemma FetchKeyOutcome(w: World, androidId: Option<string>)
    ensures var f := FetchKey(w, androidId);
            var reply := ReplyAt(w.replies, |w.log|);
            && f.world.rows == w.rows && f.world.replies == w.replies
            && (androidId.None? ==> f.world == w)
            && (androidId.Some? ==> f.world.log == w.log + [GetKey(androidId.value)])
            && (f.value.Some? <==> androidId.Some? && IsSuccessful(reply) && reply.apiKey.Some?)
            && (f.value.Some? ==> f.value == reply.apiKey && f.world.apiKey == f.value)
            && (f.value.None? ==> f.world.apiKey == w.apiKey)
  {
  }

  /** A cached key is used as is: no request is made. Without one, the
      result is the fetch's. */
  lemma ResolveKeyOutcome(w: World, androidId: Option<string>)
    ensures var r := ResolveKey(w, androidId);
            && r.world.rows == w.rows && r.world.replies == w.replies
            && |w.log| <= |r.world.log|
            && (w.apiKey.Some? ==> r.world == w && r.value == w.apiKey)
            && (w.apiKey.None? ==> r == FetchKey(w, androidId))
            && (r.value.Some? ==> r.world.apiKey == r.value)
  {
  }

  /** Resolving the key makes one key request exactly when nothing is
      cached and the device id is known, and no data request. */
  lemma ResolveKeyCounts(w: World, androidId: Option<string>)
    ensures var r := ResolveKey(w, androidId);
            && KeyRequests(r.world.log) == KeyRequests(w.log)
                 + (if w.apiKey.None? && androidId.Some? then 1 else 0)
            && DataRequests(r.world.log) == DataRequests(w.log)
  {
    if w.apiKey.None? && androidId.Some? {
      RequestCountsAppend(w.log, [GetKey(androidId.value)]);
      assert [GetKey(androidId.value)][..0] == [];
    }
  }

  // ---------------------------------------------------------------------
  // Draining the backlog

  /** What a drain of a table's scan does, stated without recursion over
      the scan: with k the number of leading successful replies among the
      next |rows| the script gives, the first min(k + 1, |rows|) stored records are sent,
      oldest first and stripped of their metadata; exactly the first k rows
      are deleted; success is reported exactly when every stored record was
      accepted; the cached key is not touched. */
  function DrainEffect(w: World, apiKey: string): Step<bool>
  {
    var n := |w.rows|;
    var k := SuccessRun(w.replies, |w.log|, n);
    var sent := if k < n then k + 1 else n;
    Step(w.(rows := OldestRemoved(w.rows, k), log := w.log + SendRequests(apiKey, PendingOf(w.rows)[..sent])),
         k == n)
  }

  lemma SendRequestsPrefix(apiKey: string, pending: seq<Record>, m: nat)
    requires m < |pending|
    ensures SendRequests(apiKey, pending[..m + 1])
            == [SendData(SendBody(apiKey, Clean(pending[0])))] + SendRequests(apiKey, pending[1..][..m])
  {
    assert pending[..m + 1][1..] == pending[1..][..m];
  }

  /** The world after the first stored record was sent and its row deleted. */
  function AfterFirstSent(w: World, apiKey: string): World
    requires w.rows != []
  {
    w.(rows := w.rows[1..], log := w.log + [SendData(SendBody(apiKey, Clean(Tagged(w.rows[0]))))])
  }

  lemma DrainEffectTailLog(w: World, apiKey: string, m: nat)
    requires m < |w.rows|
    ensures AfterFirstSent(w, apiKey).log + SendRequests(apiKey, PendingOf(w.rows[1..])[..m])
            == w.log + SendRequests(apiKey, PendingOf(w.rows)[..m + 1])
  {
    PendingOfTail(w.rows);
    SendRequestsPrefix(apiKey, PendingOf(w.rows), m);
  }

  /** After one accepted send the remaining effect is the whole effect. */
  lemma DrainEffectTail(w: World, apiKey: string)
    requires w.rows != [] && IsSuccessful(ReplyAt(w.replies, |w.log|))
    ensures DrainEffect(AfterFirstSent(w, apiKey), apiKey) == DrainEffect(w, apiKey)
  {
    var n := |w.rows|;
    var w2 := AfterFirstSent(w, apiKey);
    var k2 := SuccessRun(w.replies, |w.log| + 1, n - 1);
    var sent2 := if k2 < n - 1 then k2 + 1 else n - 1;
    assert SuccessRun(w.replies, |w.log|, n) == k2 + 1;
    assert OldestRemoved(w.rows[1..], k2) == OldestRemoved(w.rows, k2 + 1);
    DrainEffectTailLog(w, apiKey, sent2);
    var e2, e := DrainEffect(w2, apiKey), DrainEffect(w, apiKey);
    assert e2.world.rows == e.world.rows;
    assert e2.world.log == e.world.log;
    assert e2.world == e.world;
  }

  /** The drain's first step on a scan of a table with unique ids: the
      first stored record is sent; on success its row, the first one, is
      deleted and the drain goes on with the rest of the scan. */
  lemma DrainHead(w: World, apiKey: string)
    requires UniqueIds(w.rows) && w.rows != []
    ensures var s := Send(w, apiKey, Clean(Tagged(w.rows[0])));
            Drain(w, apiKey, PendingOf(w.rows))
              == if s.value then Drain(s.world.(rows := w.rows[1..]), apiKey, PendingOf(w.rows[1..]))
                 else Step(s.world, false)
  {
    TaggedRoundTrip(w.rows[0]);
    WithoutFirstId(w.rows);
    PendingOfTail(w.rows);
  }

  /** The drain of a table's scan has exactly the effect DrainEffect states. */
  lemma {:induction false} DrainOutcome(w: World, apiKey: string)
    requires UniqueIds(w.rows)
    ensures Drain(w, apiKey, PendingOf(w.rows)) == DrainEffect(w, apiKey)
    decreases |w.rows|
  {
    var pending := PendingOf(w.rows);
    if w.rows == [] {
      assert pending[..0] == [];
    } else {
      DrainHead(w, apiKey);
      var s := Send(w, apiKey, Clean(Tagged(w.rows[0])));
      if s.value {
        var w2 := s.world.(rows := w.rows[1..]);
        assert w2 == AfterFirstSent(w, apiKey);
        assert UniqueIds(w2.rows);
        DrainOutcome(w2, apiKey);
        DrainEffectTail(w, apiKey);
      } else {
        var req0 := SendData(SendBody(apiKey, Clean(pending[0])));
        assert SendRequests(apiKey, pending[..1]) == [req0];
      }
    }
  }

  /** A drain keeps the table's invariant. */
  lemma DrainKeepsInvariant(w: World, apiKey: string)
    requires TableInvariant(w.rows)
    ensures TableInvariant(Drain(w, apiKey, PendingOf(w.rows)).world.rows)
  {
    DrainOutcome(w, apiKey);
    var k := SuccessRun(w.replies, |w.log|, |w.rows|);
    OldestRemovedKeepsInvariant(w.rows, k);
  }

  // ---------------------------------------------------------------------
  // Whole runs

  /** Without network no request is made and the cached key is untouched;
      the collected record is queued when it is non-empty, and below
      capacity that adds exactly the one row. */
  lemma RunOffline(w: World, androidId: Option<string>, collect: (Option<string>, bool) -> Record,
                   id: string, now: int)
    ensures var w' := Run(w, false, androidId, collect, id, now);
            var m := collect(None, false);
            var row := OfflineMeasurement(id, m, now);
            && w'.log == w.log && w'.replies == w.replies && w'.apiKey == w.apiKey
            && w'.rows == (if m != map[] then Saved(w.rows, row) else w.rows)
            && (m != map[] && |w.rows| < MAX_STORED_MEASUREMENTS
                ==> multiset(w'.rows) == multiset(w.rows) + multiset{row})
  {
    var m := collect(None, false);
    if |w.rows| < MAX_STORED_MEASUREMENTS {
      SaveBelowCapacity(w.rows, OfflineMeasurement(id, m, now));
    }
  }

  /** Online but without a key (none cached and the fetch gave none): no
      measurement is sent, and the record collected as if offline is queued
      when it is non-empty. */
  lemma RunWithoutKey(w: World, androidId: Option<string>, collect: (Option<string>, bool) -> Record,
                      id: string, now: int)
    requires ResolveKey(w, androidId).value.None?
    ensures var w' := Run(w, true, androidId, collect, id, now);
            var m := collect(None, false);
            && w.apiKey.None? && w'.apiKey.None?
            && DataRequests(w'.log) == DataRequests(w.log)
            && KeyRequests(w'.log) == KeyRequests(w.log) + (if androidId.Some? then 1 else 0)
            && w'.rows == (if m != map[] then Saved(w.rows, OfflineMeasurement(id, m, now)) else w.rows)
  {
    ResolveKeyOutcome(w, androidId);
    ResolveKeyCounts(w, androidId);
  }

  /** What the sync path does, stated without recursion: with k the number
      of leading successful replies among the next |rows|, the backlog is
      drained as DrainEffect states, then the current record is sent once
      whatever the drain's outcome; the table ends as the backlog minus its k
      accepted leading rows, plus the current record exactly when its send
      was not accepted. */
  function SyncEffect(w: World, apiKey: string, m: Record, id: string, now: int): World
  {
    var n := |w.rows|;
    var k := SuccessRun(w.replies, |w.log|, n);
    var sent := if k < n then k + 1 else n;
    var current := ReplyAt(w.replies, |w.log| + sent);
    w.(rows := if IsSuccessful(current) then OldestRemoved(w.rows, k) else Saved(OldestRemoved(w.rows, k), OfflineMeasurement(id, m, now)),
       log := w.log + SendRequests(apiKey, PendingOf(w.rows)[..sent]) + [SendData(SendBody(apiKey, m))])
  }

  /** The sync path has exactly the effect SyncEffect states. */
  lemma SyncOutcome(w: World, apiKey: string, m: Record, id: string, now: int)
    requires UniqueIds(w.rows)
    ensures Sync(w, apiKey, m, id, now) == SyncEffect(w, apiKey, m, id, now)
  {
    var n := |w.rows|;
    var k := SuccessRun(w.replies, |w.log|, n);
    var sent := if k < n then k + 1 else n;
    var d := Drain(w, apiKey, PendingOf(w.rows));
    DrainOutcome(w, apiKey);
    var dw := w.(rows := OldestRemoved(w.rows, k), log := w.log + SendRequests(apiKey, PendingOf(w.rows)[..sent]));
    assert d.world == dw;
    assert |dw.log| == |w.log| + sent;
    var s := Send(dw, apiKey, m);
    var current := ReplyAt(w.replies, |w.log| + sent);
    assert s.value == IsSuccessful(current);
    var sw := dw.(log := dw.log + [SendData(SendBody(apiKey, m))]);
    assert s.world == sw;
    var e := SyncEffect(w, apiKey, m, id, now);
    assert e.replies == sw.replies && e.log == sw.log && e.apiKey == sw.apiKey;
    if s.value {
      assert e.rows == sw.rows;
    } else {
      assert e.rows == Persist(sw, m, id, now).rows;
    }
  }

  /** Online with a key: if the collected record is empty nothing more
      happens after the key was resolved; otherwise the run has the sync
      path's effect, on the table as it was. */
  lemma RunSync(w: World, androidId: Option<string>, collect: (Option<string>, bool) -> Record,
                id: string, now: int)
    requires UniqueIds(w.rows)
    requires ResolveKey(w, androidId).value.Some?
    ensures var r := ResolveKey(w, androidId);
            var m := collect(r.value, true);
            && r.world.rows == w.rows
            && Run(w, true, androidId, collect, id, now)
                 == if m == map[] then r.world else SyncEffect(r.world, r.value.value, m, id, now)
  {
    var r := ResolveKey(w, androidId);
    ResolveKeyOutcome(w, androidId);
    var m := collect(r.value, true);
    if m != map[] {
      SyncOutcome(r.world, r.value.value, m, id, now);
    }
  }

  /** On the sync path a run makes the key request the resolution needed,
      then one data request per backlog record it reached plus one for the
      current record. */
  lemma RunSyncCounts(w: World, androidId: Option<string>, collect: (Option<string>, bool) -> Record,
                      id: string, now: int)
    requires UniqueIds(w.rows)
    requires ResolveKey(w, androidId).value.Some?
    requires collect(ResolveKey(w, androidId).value, true) != map[]
    ensures var w' := Run(w, true, androidId, collect, id, now);
            var r := ResolveKey(w, androidId);
            var n := |w.rows|;
            && KeyRequests(w'.log) == KeyRequests(w.log) + (if w.apiKey.None? && androidId.Some? then 1 else 0)
            && DataRequests(w'.log) == DataRequests(w.log) + Min(SuccessRun(r.world.replies, |r.world.log|, n) + 1, n) + 1
  {
    var r := ResolveKey(w, androidId);
    ResolveKeyCounts(w, androidId);
    ResolveKeyOutcome(w, androidId);
    var m := collect(r.value, true);
    RunSync(w, androidId, collect, id, now);
    var w' := Run(w, true, androidId, collect, id, now);
    var e := SyncEffect(r.world, r.value.value, m, id, now);
    assert w'.log == e.log;
    SyncEffectCounts(r.world, r.value.value, m, id, now);
    var n := |w.rows|;
    var k := SuccessRun(r.world.replies, |r.world.log|, n);
    assert DataRequests(e.log) == DataRequests(r.world.log) + Min(k + 1, n) + 1;
    assert DataRequests(r.world.log) == DataRequests(w.log);
  }

  /** Off the sync path a run makes only the key request the resolution
      needed, and no data request. */
  lemma RunOffSyncCounts(w: World, online: bool, androidId: Option<string>,
                         collect: (Option<string>, bool) -> Record, id: string, now: int)
    requires !(online && ResolveKey(w, androidId).value.Some?
               && collect(ResolveKey(w, androidId).value, true) != map[])
    ensures var w' := Run(w, online, androidId, collect, id, now);
            && KeyRequests(w'.log) == KeyRequests(w.log)
                 + (if online && w.apiKey.None? && androidId.Some? then 1 else 0)
            && DataRequests(w'.log) == DataRequests(w.log)
  {
    var r := ResolveKey(w, androidId);
    ResolveKeyCounts(w, androidId);
    if online {
      assert Run(w, online, androidId, collect, id, now).log == r.world.log;
    }
  }

  /** A run makes at most one key request, exactly when it is online with
      nothing cached and a device id; it posts data only on the sync path,
      once per backlog record it reached plus once for the current record. */
  lemma RunRequestCounts(w: World, online: bool, androidId: Option<string>,
                         collect: (Option<string>, bool) -> Record, id: string, now: int)
    requires UniqueIds(w.rows)
    ensures var w' := Run(w, online, androidId, collect, id, now);
            var r := ResolveKey(w, androidId);
            var synced := online && r.value.Some? && collect(r.value, true) != map[];
            var n := |w.rows|;
            var k := SuccessRun(r.world.replies, |r.world.log|, n);
            && KeyRequests(w'.log) == KeyRequests(w.log)
                 + (if online && w.apiKey.None? && androidId.Some? then 1 else 0)
            && DataRequests(w'.log) == DataRequests(w.log)
                 + (if synced then Min(k + 1, n) + 1 else 0)
  {
    var r := ResolveKey(w, androidId);
    if online && r.value.Some? && collect(r.value, true) != map[] {
      RunSyncCounts(w, androidId, collect, id, now);
    } else {
      RunOffSyncCounts(w, online, androidId, collect, id, now);
    }
  }

  /** Sending a batch of scanned records and then one more record adds no
      key request and one data request per record. */
  lemma SendAllCounts(log: seq<Request>, apiKey: string, pending: seq<Record>, m: Record)
    ensures var log' := log + SendRequests(apiKey, pending) + [SendData(SendBody(apiKey, m))];
            && KeyRequests(log') == KeyRequests(log)
            && DataRequests(log') == DataRequests(log) + |pending| + 1
  {
    var drained := SendRequests(apiKey, pending);
    var last := [SendData(SendBody(apiKey, m))];
    SendRequestsCounts(apiKey, pending);
    RequestCountsAppend(log, drained);
    RequestCountsAppend(log + drained, last);
    assert last[..0] == [];
  }

  /** The sync path's log: the drain's min(k + 1, n) posts, then the current
      record's post. */
  lemma SyncEffectLogShape(w: World, apiKey: string, m: Record, id: string, now: int)
    ensures var n := |w.rows|;
            var k := SuccessRun(w.replies, |w.log|, n);
            && Min(k + 1, n) <= |PendingOf(w.rows)|
            && SyncEffect(w, apiKey, m, id, now).log
               == w.log + SendRequests(apiKey, PendingOf(w.rows)[..Min(k + 1, n)]) + [SendData(SendBody(apiKey, m))]
  {
  }

  lemma SyncEffectCounts(w: World, apiKey: string, m: Record, id: string, now: int)
    ensures var n := |w.rows|;
            var k := SuccessRun(w.replies, |w.log|, n);
            var e := SyncEffect(w, apiKey, m, id, now);
            && KeyRequests(e.log) == KeyRequests(w.log)
            && DataRequests(e.log) == DataRequests(w.log) + Min(k + 1, n) + 1
  {
    var n := |w.rows|;
    var k := SuccessRun(w.replies, |w.log|, n);
    SyncEffectLogShape(w, apiKey, m, id, now);
    SendAllCounts(w.log, apiKey, PendingOf(w.rows)[..Min(k + 1, n)], m);
  }


  /** The table a run leaves: on the sync path, the backlog minus its k
      accepted leading rows, with the current record queued when its send
      failed; on every other path, the table with the collected record
      queued when it is non-empty. */
  lemma RunRows(w: World, online: bool, androidId: Option<string>,
                collect: (Option<string>, bool) -> Record, id: string, now: int)
    requires UniqueIds(w.rows)
    ensures var w' := Run(w, online, androidId, collect, id, now);
            var r := ResolveKey(w, androidId);
            var synced := online && r.value.Some?;
            var m := collect(if synced then r.value else None, synced);
            var row := OfflineMeasurement(id, m, now);
            && (synced && m != map[] ==>
                  var k := SuccessRun(r.world.replies, |r.world.log|, |w.rows|);
                  w'.rows == OldestRemoved(w.rows, k) || w'.rows == Saved(OldestRemoved(w.rows, k), row))
            && (!(synced && m != map[]) ==>
                  w'.rows == if m != map[] then Saved(w.rows, row) else w.rows)
  {
    ResolveKeyOutcome(w, androidId);
    if online && ResolveKey(w, androidId).value.Some? {
      RunSync(w, androidId, collect, id, now);
    }
  }

  /** A run never lets the table grow past MAX_STORED_MEASUREMENTS rows. */
  lemma RunCapacity(w: World, online: bool, androidId: Option<string>,
                    collect: (Option<string>, bool) -> Record, id: string, now: int)
    requires UniqueIds(w.rows) && |w.rows| <= MAX_STORED_MEASUREMENTS
    ensures |Run(w, online, androidId, collect, id, now).rows| <= MAX_STORED_MEASUREMENTS
  {
    RunRows(w, online, androidId, collect, id, now);
    var r := ResolveKey(w, androidId);
    var synced := online && r.value.Some?;
    var row := OfflineMeasurement(id, collect(if synced then r.value else None, synced), now);
    SavedSize(w.rows, row);
    var k := SuccessRun(r.world.replies, |r.world.log|, |w.rows|);
    OldestRemovedSuffix(w.rows, k);
    SavedSize(OldestRemoved(w.rows, k), row);
  }

  /** A run with a fresh row id keeps the table sorted by time with unique
      ids, and every row it leaves is an old row or the newly queued one. */
  lemma RunKeepsInvariant(w: World, online: bool, androidId: Option<string>,
                          collect: (Option<string>, bool) -> Record, id: string, now: int)
    requires TableInvariant(w.rows) && id !in Ids(w.rows)
    ensures var w' := Run(w, online, androidId, collect, id, now);
            && TableInvariant(w'.rows)
            && forall x :: x in w'.rows ==> x in w.rows || x.id == id
  {
    RunRows(w, online, androidId, collect, id, now);
    var r := ResolveKey(w, androidId);
    var synced := online && r.value.Some?;
    var row := OfflineMeasurement(id, collect(if synced then r.value else None, synced), now);
    var k := SuccessRun(r.world.replies, |r.world.log|, |w.rows|);
    SavedKeepsRows(w.rows, row);
    OldestRemovedKeepsInvariant(w.rows, k);
    SavedKeepsRows(OldestRemoved(w.rows, k), row);
  }

  /** Saving into a table with a fresh id keeps the invariant, and adds no
      row but the new one. */
  lemma SavedKeepsRows(rows: seq<OfflineMeasurement>, row: OfflineMeasurement)
    requires TableInvariant(rows) && row.id !in Ids(rows)
    ensures TableInvariant(Saved(rows, row))
    ensures forall x :: x in Saved(rows, row) ==> x in rows || x == row
  {
    SaveKeepsInvariant(rows, row);
    var kept := Evicted(rows);
    OldestRemovedSpec(rows, |rows| - MAX_STORED_MEASUREMENTS + 1);
    InsertByTimeContents(kept, row);
    assert forall x :: x in kept ==> x in rows;
    assert forall x :: x in Saved(rows, row) ==> x in multiset(kept) + multiset{row};
  }

  /** The sync path posts the first k stored records, in order, right after
      the log it started from. */
  lemma SyncEffectLog(w: World, apiKey: string, m: Record, id: string, now: int)
    ensures var e := SyncEffect(w, apiKey, m, id, now);
            var k := SuccessRun(w.replies, |w.log|, |w.rows|);
            && |w.log| + k <= |e.log|
            && forall i :: 0 <= i < k ==> e.log[|w.log| + i] == SendData(SendBody(apiKey, Clean(Tagged(w.rows[i]))))
  {
    var e := SyncEffect(w, apiKey, m, id, now);
    var n := |w.rows|;
    var k := SuccessRun(w.replies, |w.log|, n);
    var sent := if k < n then k + 1 else n;
    var drained := SendRequests(apiKey, PendingOf(w.rows)[..sent]);
    assert e.log == w.log + drained + [SendData(SendBody(apiKey, m))];
    SendRequestsAt(apiKey, PendingOf(w.rows)[..sent]);
    forall i | 0 <= i < k
      ensures e.log[|w.log| + i] == SendData(SendBody(apiKey, Clean(Tagged(w.rows[i]))))
    {
      assert e.log[|w.log| + i] == drained[i];
    }
  }

  /** Below capacity, the sync path keeps every row from the k-th on. */
  lemma SyncEffectKeepsTail(w: World, apiKey: string, m: Record, id: string, now: int)
    requires |w.rows| < MAX_STORED_MEASUREMENTS
    ensures var e := SyncEffect(w, apiKey, m, id, now);
            var k := SuccessRun(w.replies, |w.log|, |w.rows|);
            forall i :: k <= i < |w.rows| ==> w.rows[i] in e.rows
  {
    var e := SyncEffect(w, apiKey, m, id, now);
    var k := SuccessRun(w.replies, |w.log|, |w.rows|);
    var kept := OldestRemoved(w.rows, k);
    OldestRemovedSuffix(w.rows, k);
    SaveBelowCapacity(kept, OfflineMeasurement(id, m, now));
    forall i | k <= i < |w.rows| ensures w.rows[i] in e.rows {
      assert w.rows[i] == kept[i - k];
      assert w.rows[i] in multiset(e.rows);
    }
  }

  /** On the sync path a row from the k-th on can only leave the table by
      eviction: the current record's post failed, and queueing it into a full
      table evicted the row as one of the oldest. */
  lemma SyncEffectEvicts(w: World, apiKey: string, m: Record, id: string, now: int, i: int)
    requires SuccessRun(w.replies, |w.log|, |w.rows|) <= i < |w.rows|
    requires w.rows[i] !in SyncEffect(w, apiKey, m, id, now).rows
    ensures var e := SyncEffect(w, apiKey, m, id, now);
            && i + MAX_STORED_MEASUREMENTS - 1 < |w.rows|
            && 0 < |e.log| && !IsSuccessful(ReplyAt(w.replies, |e.log| - 1))
            && OfflineMeasurement(id, m, now) in e.rows
  {
    var e := SyncEffect(w, apiKey, m, id, now);
    var n := |w.rows|;
    var k := SuccessRun(w.replies, |w.log|, n);
    var sent := if k < n then k + 1 else n;
    var kept := OldestRemoved(w.rows, k);
    var row := OfflineMeasurement(id, m, now);
    assert |e.log| == |w.log| + sent + 1;
    OldestRemovedSuffix(w.rows, k);
    assert w.rows[i] == kept[i - k];
    assert e.rows != kept;
    assert e.rows == Saved(kept, row);
    SaveEvictsOnlyOldest(kept, row);
  }

  /** The sync path deletes a stored row only once that row's record,
      stripped of its metadata and carrying the run's key, was answered 2xx;
      the only other way a row leaves is eviction as one of the oldest rows,
      when the current record's post failed and saving it found the table
      full. */
  lemma SyncEffectAtLeastOnce(w: World, apiKey: string, m: Record, id: string, now: int)
    ensures var e := SyncEffect(w, apiKey, m, id, now);
            var k := SuccessRun(w.replies, |w.log|, |w.rows|);
            forall i :: 0 <= i < |w.rows| && w.rows[i] !in e.rows ==>
              || (&& i < k && |w.log| + i < |e.log|
                  && e.log[|w.log| + i] == SendData(SendBody(apiKey, Clean(Tagged(w.rows[i]))))
                  && IsSuccessful(ReplyAt(w.replies, |w.log| + i)))
              || (&& i + MAX_STORED_MEASUREMENTS - 1 < |w.rows|
                  && 0 < |e.log| && !IsSuccessful(ReplyAt(w.replies, |e.log| - 1))
                  && OfflineMeasurement(id, m, now) in e.rows)
  {
    var e := SyncEffect(w, apiKey, m, id, now);
    var k := SuccessRun(w.replies, |w.log|, |w.rows|);
    SyncEffectLog(w, apiKey, m, id, now);
    SuccessRunMeaning(w.replies, |w.log|, |w.rows|);
    forall i | 0 <= i < |w.rows| && w.rows[i] !in e.rows && k <= i
      ensures && i + MAX_STORED_MEASUREMENTS - 1 < |w.rows|
              && 0 < |e.log| && !IsSuccessful(ReplyAt(w.replies, |e.log| - 1))
              && OfflineMeasurement(id, m, now) in e.rows
    {
      SyncEffectEvicts(w, apiKey, m, id, now, i);
    }
  }

  /** Below capacity, a run that does not reach the sync path keeps every
      stored row. */
  lemma RunOffSyncKeepsRows(w: World, online: bool, androidId: Option<string>,
                            collect: (Option<string>, bool) -> Record, id: string, now: int)
    requires UniqueIds(w.rows) && |w.rows| < MAX_STORED_MEASUREMENTS
    requires !(online && ResolveKey(w, androidId).value.Some?
               && collect(ResolveKey(w, androidId).value, true) != map[])
    ensures forall x :: x in w.rows ==> x in Run(w, online, androidId, collect, id, now).rows
  {
    var r := ResolveKey(w, androidId);
    ResolveKeyOutcome(w, androidId);
    RunRows(w, online, androidId, collect, id, now);
    var synced := online && r.value.Some?;
    var m := collect(if synced then r.value else None, synced);
    SaveBelowCapacity(w.rows, OfflineMeasurement(id, m, now));
    forall x | x in w.rows ensures x in Run(w, online, androidId, collect, id, now).rows {
      assert x in multiset(w.rows);
    }
  }

  /** One row gone from the table after the sync path: its post, somewhere
      after position start, was answered 2xx, or it was evicted as one of
      the oldest after the current post failed and the record was queued. */
  lemma SyncEffectRowGone(w: World, apiKey: string, m: Record, id: string, now: int, i: int, start: nat)
    requires start <= |w.log|
    requires 0 <= i < |w.rows| && w.rows[i] !in SyncEffect(w, apiKey, m, id, now).rows
    ensures var e := SyncEffect(w, apiKey, m, id, now);
            || (exists j :: && start <= j < |e.log|
                            && e.log[j] == SendData(SendBody(apiKey, Clean(Tagged(w.rows[i]))))
                            && IsSuccessful(ReplyAt(w.replies, j)))
            || (&& i + MAX_STORED_MEASUREMENTS - 1 < |w.rows|
                && 0 < |e.log| && !IsSuccessful(ReplyAt(w.replies, |e.log| - 1))
                && id in Ids(e.rows))
  {
    var e := SyncEffect(w, apiKey, m, id, now);
    var k := SuccessRun(w.replies, |w.log|, |w.rows|);
    SyncEffectAtLeastOnce(w, apiKey, m, id, now);
    if && i < k && |w.log| + i < |e.log|
       && e.log[|w.log| + i] == SendData(SendBody(apiKey, Clean(Tagged(w.rows[i]))))
       && IsSuccessful(ReplyAt(w.replies, |w.log| + i)) {
      var j := |w.log| + i;
      assert start <= j < |e.log|;
    } else {
      var row := OfflineMeasurement(id, m, now);
      var p :| 0 <= p < |e.rows| && e.rows[p] == row;
      assert e.rows[p].id == id;
    }
  }

  /** On the sync path a stored row is deleted only once its record was
      posted with the resolved key and answered 2xx, or evicted as one of the
      oldest rows when the current record's post failed and was queued into a
      full table. */
  lemma RunSyncAtLeastOnce(w: World, androidId: Option<string>,
                           collect: (Option<string>, bool) -> Record, id: string, now: int)
    requires UniqueIds(w.rows)
    requires ResolveKey(w, androidId).value.Some?
    requires collect(ResolveKey(w, androidId).value, true) != map[]
    ensures var w' := Run(w, true, androidId, collect, id, now);
            forall i :: 0 <= i < |w.rows| && w.rows[i] !in w'.rows ==>
              || (&& w'.apiKey.Some?
                  && exists j :: && |w.log| <= j < |w'.log|
                                 && w'.log[j] == SendData(SendBody(w'.apiKey.value, Clean(Tagged(w.rows[i]))))
                                 && IsSuccessful(ReplyAt(w.replies, j)))
              || (&& i + MAX_STORED_MEASUREMENTS - 1 < |w.rows|
                  && 0 < |w'.log| && !IsSuccessful(ReplyAt(w.replies, |w'.log| - 1))
                  && id in Ids(w'.rows))
  {
    var r := ResolveKey(w, androidId);
    ResolveKeyOutcome(w, androidId);
    var m := collect(r.value, true);
    RunSync(w, androidId, collect, id, now);
    var w' := Run(w, true, androidId, collect, id, now);
    assert w' == SyncEffect(r.world, r.value.value, m, id, now);
    forall i | 0 <= i < |w.rows| && w.rows[i] !in w'.rows
      ensures || (exists j :: && |w.log| <= j < |w'.log|
                              && w'.log[j] == SendData(SendBody(w'.apiKey.value, Clean(Tagged(w.rows[i]))))
                              && IsSuccessful(ReplyAt(w.replies, j)))
              || (&& i + MAX_STORED_MEASUREMENTS - 1 < |w.rows|
                  && 0 < |w'.log| && !IsSuccessful(ReplyAt(w.replies, |w'.log| - 1))
                  && id in Ids(w'.rows))
    {
      SyncEffectRowGone(r.world, r.value.value, m, id, now, i, |w.log|);
    }
  }

  /** A run deletes a stored row only once it is online with a key and that
      row's record, stripped of its metadata, was posted with the key and
      answered 2xx; otherwise the row was one of the oldest, evicted when the
      run queued its own record into a full table. */
  lemma RunAtLeastOnce(w: World, online: bool, androidId: Option<string>,
                       collect: (Option<string>, bool) -> Record, id: string, now: int)
    requires UniqueIds(w.rows)
    ensures var w' := Run(w, online, androidId, collect, id, now);
            forall i :: 0 <= i < |w.rows| && w.rows[i] !in w'.rows ==>
              || (&& online && w'.apiKey.Some?
                  && exists j :: && |w.log| <= j < |w'.log|
                                 && w'.log[j] == SendData(SendBody(w'.apiKey.value, Clean(Tagged(w.rows[i]))))
                                 && IsSuccessful(ReplyAt(w.replies, j)))
              || (i + MAX_STORED_MEASUREMENTS - 1 < |w.rows| && id in Ids(w'.rows))
  {
    var r := ResolveKey(w, androidId);
    if online && r.value.Some? && collect(r.value, true) != map[] {
      RunSyncAtLeastOnce(w, androidId, collect, id, now);
    } else {
      var w' := Run(w, online, androidId, collect, id, now);
      RunRows(w, online, androidId, collect, id, now);
      var synced := online && r.value.Some?;
      var m := collect(if synced then r.value else None, synced);
      var row := OfflineMeasurement(id, m, now);
      SaveEvictsOnlyOldest(w.rows, row);
      forall i | 0 <= i < |w.rows| && w.rows[i] !in w'.rows
        ensures i + MAX_STORED_MEASUREMENTS - 1 < |w.rows| && id in Ids(w'.rows)
      {
        assert w'.rows == Saved(w.rows, row);
        var p :| 0 <= p < |w'.rows| && w'.rows[p] == row;
        assert w'.rows[p].id == id;
      }
    }
  }
}
