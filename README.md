# GIGA coverage library: offline queue and sync engine in Dafny

This project models the sync engine of the GIGA coverage Android library
(`com.example.giga_coverage`). It has four parts:

- **The offline measurement table** (`dao.dfy`, module `MeasurementDao`).
  The Room DAO over `offline_measurements` is a class whose state is the
  sequence of rows in scan order (`ORDER BY timestamp ASC`). It supports
  insert, the ordered scan, delete by id, delete all, count and delete the
  n oldest. The class invariant is that rows are sorted by timestamp and
  every primary key is unique.
- **The bounded queue** (`storage.dfy`, module `MeasurementStorage`).
  `OfflineMeasurementStorage` holds at most `MAX_STORED_MEASUREMENTS = 100`
  rows. When the table is full, a save first evicts `count - 100 + 1` of
  the oldest rows. The scan decodes each row key by key and tags it with
  `_offline_id` and `_offline_timestamp`.
- **The orchestrator** (`remote.dfy`, `sync.dfy` and `gather.dfy`, modules
  `Remote`, `SyncModel` and `Gather`).
  - `GatherAndSendData` is a class holding the cached API key (the
    `api_prefs` preference), the queue, and a scripted server.
  - The server is `RemoteServer`. It logs every request. The i-th request
    it receives gets reply i of a fixed script; a missing reply is a
    transport failure.
  - The class's key methods are proved equal to functions over a `World`
    record in `SyncModel`. That record holds the rows, the cached key, the
    script and the request log. Those functions are `FetchKey`, `Send`,
    `Drain` and `Run`.
  - Reference definitions in closed form in k describe whole runs:
    - `DrainEffect` is stated in terms of k, the number of leading
      accepted replies;
    - `SyncEffect` describes the whole online path.
  - Lemmas prove the run properties: the path taken, exact request counts,
    the capacity bound, the table invariant, and at-least-once delivery. A
    stored row leaves the table only after its record was posted with the
    key and answered 2xx, or when it is evicted as one of the oldest rows
    because the run queued a record into a full table.
- **Record shaping** (`coverage.dfy`, module `CoverageMeasurements`).
  - `getCoverageMeasurements` works on a `DeviceSnapshot`: what the
    permission, location, telephony, package and speed-test services would
    report.
  - It is an imperative method. The working record `Fields` has one slot
    per expected key. The record starts all-null, each section of the
    source overwrites the slots it reads, and `ToRecord` hands the result
    on as a string-keyed map.
  - The method is proved equal to the function `Measurements`. Lemmas state
    the key set, the null rules and the constant fields.
  - `getNetworkTypeString` is a function with a decoding inverse. The round
    trip shows that distinct codes get distinct names.

`values.dfy` (module `Values`) holds the shared types:

- `Option`;
- the JSON-like `Value` (null, boolean, integer, real, text);
- `Record`, a map from field names to values.

A stored measurement is kept as its `Record`, so JSON encoding is treated as
the identity. Android's `org.json` keeps null fields as `JSONObject.NULL`,
and the scan turns them back into null.

Where the code and the library's description differ, the model follows the
code:

- The scan order only sorts by `timestamp`. The code does not enforce an
  insertion-order tie-break. The model places a new row after every row with
  the same or an earlier timestamp, which is one of the orders the query
  allows.
- Both offline paths queue the collected record only when it is non-empty.
- The online path returns before draining when the collected record is
  empty.

## Model

Source paths are relative to the repository root.

| member | source | states |
|---|---|---|
| MeasurementDao.InsertPointSpec | GIGA-coverage/src/main/java/com/example/giga_coverage/data/OfflineMeasurementDao.kt:10-14 | Every row before the insert point for timestamp t is stamped at most t, and the row at the insert point, if any, is stamped later. So a new row stamped t keeps the `ORDER BY timestamp` scan order. |
| MeasurementDao.InsertByTimeContents | GIGA-coverage/src/main/java/com/example/giga_coverage/data/OfflineMeasurementDao.kt:10-11 | Insert adds exactly one row: the count grows by one and the multiset of rows gains exactly the new row. |
| MeasurementDao.InsertByTimeSorted | GIGA-coverage/src/main/java/com/example/giga_coverage/data/OfflineMeasurementDao.kt:10-14 | Inserting into a table in timestamp order leaves it in timestamp order. |
| MeasurementDao.InsertByTimeAt | GIGA-coverage/src/main/java/com/example/giga_coverage/data/OfflineMeasurementDao.kt:10-14 | Rows before the insert point keep their positions, and rows from it on move up by one. The new row sits at the insert point. |
| MeasurementDao.InsertByTimeUnique | GIGA-coverage/src/main/java/com/example/giga_coverage/data/OfflineMeasurement.kt:9-10 | Inserting a row with a fresh primary key keeps all keys distinct. |
| MeasurementDao.InsertByTimeIds | GIGA-coverage/src/main/java/com/example/giga_coverage/data/OfflineMeasurementDao.kt:10-11 | Insert adds exactly the new id to the key set. |
| MeasurementDao.InsertByTimeAppendsNewest | GIGA-coverage/src/main/java/com/example/giga_coverage/data/OfflineMeasurement.kt:12 | A new row strictly newer than every stored row (the default timestamp is the current time) is appended last, whatever order the query gives rows with equal timestamps. |
| MeasurementDao.OldestRemovedSuffix | GIGA-coverage/src/main/java/com/example/giga_coverage/data/OfflineMeasurementDao.kt:25-26 | `LIMIT n` with n ≥ 0 deletes exactly the first min(n, count) rows in scan order and keeps the rest in order. |
| MeasurementDao.OldestRemovedSpec | GIGA-coverage/src/main/java/com/example/giga_coverage/data/OfflineMeasurementDao.kt:25-26 | Deleting the n oldest leaves count − min(n, count) rows, or none when n < 0 (SQLite treats a negative LIMIT as no limit). The rows left are the tail of the scan, and every deleted row is no newer than every kept row. |
| MeasurementDao.OldestRemovedKeepsInvariant | GIGA-coverage/src/main/java/com/example/giga_coverage/data/OfflineMeasurementDao.kt:25-26 | Deleting the oldest rows keeps the table sorted with unique keys. It adds no row and no key. |
| MeasurementDao.WithoutIdContents | GIGA-coverage/src/main/java/com/example/giga_coverage/data/OfflineMeasurementDao.kt:16-17 | After a delete by id, a row remains exactly when it was in the table and has another id. |
| MeasurementDao.WithoutUnknownId | GIGA-coverage/src/main/java/com/example/giga_coverage/data/OfflineMeasurementDao.kt:16-17 | Deleting an id that is not in the table leaves the table unchanged. |
| MeasurementDao.WithoutIdKeepsInvariant | GIGA-coverage/src/main/java/com/example/giga_coverage/data/OfflineMeasurementDao.kt:16-17 | A delete by id keeps timestamp order and unique keys. |
| MeasurementDao.WithoutIdIds | GIGA-coverage/src/main/java/com/example/giga_coverage/data/OfflineMeasurementDao.kt:16-17 | A delete by id removes exactly that id from the key set. |
| MeasurementDao.WithoutFirstId | GIGA-coverage/src/main/java/com/example/giga_coverage/data/OfflineMeasurementDao.kt:16-17 | With unique keys, deleting the oldest row's id removes exactly that row. |
| MeasurementDao.OfflineMeasurementDao.InsertMeasurement | GIGA-coverage/src/main/java/com/example/giga_coverage/data/OfflineMeasurementDao.kt:10-11 | Insert succeeds exactly when the primary key is fresh, and then puts the row in scan order. A duplicate key aborts and leaves the table unchanged. The invariant is kept. |
| MeasurementDao.OfflineMeasurementDao.GetAllMeasurements | GIGA-coverage/src/main/java/com/example/giga_coverage/data/OfflineMeasurementDao.kt:13-14 | Returns every row, sorted by non-decreasing timestamp. |
| MeasurementDao.OfflineMeasurementDao.DeleteMeasurement | GIGA-coverage/src/main/java/com/example/giga_coverage/data/OfflineMeasurementDao.kt:16-17 | The table becomes the rows without that id, and the invariant is kept. |
| MeasurementDao.OfflineMeasurementDao.DeleteAllMeasurements | GIGA-coverage/src/main/java/com/example/giga_coverage/data/OfflineMeasurementDao.kt:19-20 | The table becomes empty. |
| MeasurementDao.OfflineMeasurementDao.GetCount | GIGA-coverage/src/main/java/com/example/giga_coverage/data/OfflineMeasurementDao.kt:22-23 | Returns the number of rows; the table is not changed. |
| MeasurementDao.OfflineMeasurementDao.DeleteOldestMeasurements | GIGA-coverage/src/main/java/com/example/giga_coverage/data/OfflineMeasurementDao.kt:25-26 | The table becomes the rows left after deleting the `count` oldest, and the invariant is kept. |
| MeasurementStorage.SavedSize | GIGA-coverage/src/main/java/com/example/giga_coverage/OfflineMeasurementStorage.kt:14-30 | After a save the table holds min(count, 99) + 1 rows, so never more than 100. |
| MeasurementStorage.SaveBelowCapacity | GIGA-coverage/src/main/java/com/example/giga_coverage/OfflineMeasurementStorage.kt:24-29 | Below 100 rows a save deletes nothing and adds exactly the new row. |
| MeasurementStorage.SaveAtCapacity | GIGA-coverage/src/main/java/com/example/giga_coverage/OfflineMeasurementStorage.kt:24-29 | At 100 + k rows a save evicts exactly the k + 1 oldest rows, which are no newer than any kept row. It then inserts, leaving exactly 100 rows. |
| MeasurementStorage.SaveKeepsInvariant | GIGA-coverage/src/main/java/com/example/giga_coverage/OfflineMeasurementStorage.kt:17-30 | A save always stores its record, an empty one included. With a fresh id it keeps the table invariant and adds no id but the new one. |
| MeasurementStorage.SaveEvictsOnlyOldest | GIGA-coverage/src/main/java/com/example/giga_coverage/OfflineMeasurementStorage.kt:24-29 | A save always keeps the new row. The only stored rows it can lose are the count − 99 oldest, which eviction deletes to make room. |
| MeasurementStorage.SaveNewestLast | GIGA-coverage/src/main/java/com/example/giga_coverage/OfflineMeasurementStorage.kt:24-29 | When the new row is strictly newer than every stored row, the saved row comes last in scan order, after the rows that survive eviction. |
| MeasurementStorage.OfflineMeasurementStorage.SaveMeasurement | GIGA-coverage/src/main/java/com/example/giga_coverage/OfflineMeasurementStorage.kt:17-30 | Count, then evict if full, then insert: the table becomes `Saved` of the old table with the new row, and the invariant is kept. |
| MeasurementStorage.OfflineMeasurementStorage.GetAllPendingMeasurements | GIGA-coverage/src/main/java/com/example/giga_coverage/OfflineMeasurementStorage.kt:32-55 | Returns one tagged record per row, in scan order; the table is not changed. |
| MeasurementStorage.OfflineMeasurementStorage.DecodeMeasurement | GIGA-coverage/src/main/java/com/example/giga_coverage/OfflineMeasurementStorage.kt:35-53 | The key-by-key rebuild gives back the stored fields, nulls included. It then adds `_offline_id` (the row id) and `_offline_timestamp` (the row's timestamp). |
| MeasurementStorage.OfflineMeasurementStorage.DeleteMeasurement | GIGA-coverage/src/main/java/com/example/giga_coverage/OfflineMeasurementStorage.kt:57-59 | Delegates to the table's delete by id. |
| MeasurementStorage.OfflineMeasurementStorage.DeleteAllMeasurements | GIGA-coverage/src/main/java/com/example/giga_coverage/OfflineMeasurementStorage.kt:61-63 | Empties the table. |
| MeasurementStorage.OfflineMeasurementStorage.GetStoredMeasurementsCount | GIGA-coverage/src/main/java/com/example/giga_coverage/OfflineMeasurementStorage.kt:65-67 | Returns the number of stored rows. |
| Remote.RemoteServer.Execute | GIGA-coverage/src/main/java/com/example/giga_coverage/GatherAndSendData.kt:127 | One call, with no retry. The request is logged and gets the script's reply at its position in the log. |
| SyncModel.SuccessRunMeaning | GIGA-coverage/src/main/java/com/example/giga_coverage/GatherAndSendData.kt:155-177 | `SuccessRun` counts exactly the leading accepted replies. Those calls succeed, and the next call, if it is within the batch, fails. This is where the drain stops. |
| SyncModel.SendRequestsAt | GIGA-coverage/src/main/java/com/example/giga_coverage/GatherAndSendData.kt:155-165 | The i-th backlog send posts the i-th scanned record, without its metadata and with `api_key` added. |
| SyncModel.TaggedRoundTrip | GIGA-coverage/src/main/java/com/example/giga_coverage/GatherAndSendData.kt:157-162 | The `_offline_id` the drain reads back is the row's id. Stripping the two metadata fields gives the stored record back whenever that record did not itself use those keys. |
| SyncModel.FetchKeyOutcome | GIGA-coverage/src/main/java/com/example/giga_coverage/GatherAndSendData.kt:64-110 | A fetch sends a request exactly when the device id is known; otherwise the world is unchanged. It yields a key exactly when that request was answered 2xx with an `api_key`. The key is cached exactly when one is yielded, and nothing else changes. |
| SyncModel.ResolveKeyOutcome | GIGA-coverage/src/main/java/com/example/giga_coverage/GatherAndSendData.kt:212-219 | A cached key is used as is, with no request. Otherwise the result is the fetch's. A resolved key is the cached key afterwards, and the table is untouched. |
| SyncModel.ResolveKeyCounts | GIGA-coverage/src/main/java/com/example/giga_coverage/GatherAndSendData.kt:212-219 | Key resolution makes one key request exactly when nothing is cached and the device id is known, and no data request. |
| SyncModel.DrainOutcome | GIGA-coverage/src/main/java/com/example/giga_coverage/GatherAndSendData.kt:146-182 | With k leading accepted replies among the next n (n = row count), the drain sends the first min(k + 1, n) records oldest first and deletes exactly the first k rows. It reports success exactly when k = n, and leaves the key untouched. |
| SyncModel.DrainKeepsInvariant | GIGA-coverage/src/main/java/com/example/giga_coverage/GatherAndSendData.kt:146-182 | A drain keeps the table sorted with unique keys. |
| SyncModel.RunOffline | GIGA-coverage/src/main/java/com/example/giga_coverage/GatherAndSendData.kt:193-209 | Offline: no request is sent and the key is untouched. The offline-shaped record is queued when it is non-empty; below capacity that adds exactly the one row. |
| SyncModel.RunWithoutKey | GIGA-coverage/src/main/java/com/example/giga_coverage/GatherAndSendData.kt:221-233 | Online without a key: no data request is sent, and one key request exactly when the device id is known. The offline-shaped record is queued when it is non-empty. |
| SyncModel.SyncOutcome | GIGA-coverage/src/main/java/com/example/giga_coverage/GatherAndSendData.kt:249-259 | The online path drains as `DrainEffect` says, then sends the current record once whatever the drain's outcome. It queues that record exactly when its send is not accepted. |
| SyncModel.RunSync | GIGA-coverage/src/main/java/com/example/giga_coverage/GatherAndSendData.kt:236-259 | Online with a key: an empty collected record ends the run right after key resolution. Otherwise the run has the sync path's effect on the unchanged table. |
| SyncModel.RunSyncCounts | GIGA-coverage/src/main/java/com/example/giga_coverage/GatherAndSendData.kt:212-259 | The sync path makes the key request resolution needs, plus min(k + 1, n) + 1 data requests. |
| SyncModel.RunOffSyncCounts | GIGA-coverage/src/main/java/com/example/giga_coverage/GatherAndSendData.kt:189-246 | Every other path makes at most the key request and no data request. |
| SyncModel.RunRequestCounts | GIGA-coverage/src/main/java/com/example/giga_coverage/GatherAndSendData.kt:189-268 | A run makes at most one key request: exactly when it is online with nothing cached and a device id. It sends min(k + 1, n) + 1 data requests on the sync path and none otherwise. |
| SyncModel.SyncEffectCounts | GIGA-coverage/src/main/java/com/example/giga_coverage/GatherAndSendData.kt:249-252 | The drain and the current send add min(k + 1, n) + 1 data requests and no key request. |
| SyncModel.RunRows | GIGA-coverage/src/main/java/com/example/giga_coverage/GatherAndSendData.kt:189-259 | On the sync path, the table becomes the backlog minus its k oldest rows, either alone or with the current record saved into it. On other paths, the collected record is queued when it is non-empty. |
| SyncModel.RunCapacity | GIGA-coverage/src/main/java/com/example/giga_coverage/GatherAndSendData.kt:189-259 | A run never takes the table past 100 rows. |
| SyncModel.RunKeepsInvariant | GIGA-coverage/src/main/java/com/example/giga_coverage/GatherAndSendData.kt:189-259 | With a fresh row id, a run keeps the table sorted with unique keys. Every row it leaves is an old row or the newly queued one. |
| SyncModel.SavedKeepsRows | GIGA-coverage/src/main/java/com/example/giga_coverage/OfflineMeasurementStorage.kt:17-30 | A save with a fresh id keeps the invariant and adds no row but the new one. |
| SyncModel.SyncEffectLog | GIGA-coverage/src/main/java/com/example/giga_coverage/GatherAndSendData.kt:155-177 | The sync path posts the k accepted backlog records oldest first, right after the requests that came before it. |
| SyncModel.SyncEffectKeepsTail | GIGA-coverage/src/main/java/com/example/giga_coverage/GatherAndSendData.kt:167-177 | Below capacity, the failed backlog row and every later row stay in the table. |
| SyncModel.SyncEffectEvicts | GIGA-coverage/src/main/java/com/example/giga_coverage/GatherAndSendData.kt:249-259 | On the sync path, the failed backlog row and every later row can leave the table only by eviction. That needs the current record's post to have failed and that record to be queued into a full table, with the row among the oldest. |
| SyncModel.SyncEffectAtLeastOnce | GIGA-coverage/src/main/java/com/example/giga_coverage/GatherAndSendData.kt:155-177 | On the sync path, a deleted row is one of the first k. The request at its position posted its record, without the metadata and with the key, and that request was answered 2xx. Otherwise the row was evicted as one of the oldest after the current post failed and its record was queued. |
| SyncModel.RunOffSyncKeepsRows | GIGA-coverage/src/main/java/com/example/giga_coverage/GatherAndSendData.kt:189-246 | Below capacity, a run that does not reach the sync path keeps every stored row. |
| SyncModel.RunSyncAtLeastOnce | GIGA-coverage/src/main/java/com/example/giga_coverage/GatherAndSendData.kt:249-259 | On the sync path, a row that leaves the table had its record posted during the run with the key the run holds, and that post was answered 2xx. Otherwise it was one of the count − 99 oldest, evicted after the run's last post failed and queued its record. |
| SyncModel.RunAtLeastOnce | GIGA-coverage/src/main/java/com/example/giga_coverage/GatherAndSendData.kt:189-268 | A run removes a stored row only when it is online with a key and that row's record was posted during the run and answered 2xx. Otherwise the row was one of the count − 99 oldest, evicted when the run queued its own record into a full table. |
| Gather.GatherAndSendData.GetCachedApiKey | GIGA-coverage/src/main/java/com/example/giga_coverage/GatherAndSendData.kt:38-40 | Returns the cached key, or None. |
| Gather.GatherAndSendData.StoreApiKey | GIGA-coverage/src/main/java/com/example/giga_coverage/GatherAndSendData.kt:42-44 | The given key becomes the cached key. |
| Gather.GatherAndSendData.FetchAndStoreApiKey | GIGA-coverage/src/main/java/com/example/giga_coverage/GatherAndSendData.kt:64-110 | The new state and the result are exactly `FetchKey`'s. |
| Gather.GatherAndSendData.SendMeasurements | GIGA-coverage/src/main/java/com/example/giga_coverage/GatherAndSendData.kt:112-144 | Posts the record with `api_key` set to the key, and returns exactly whether the reply was 2xx (`Send`). |
| Gather.GatherAndSendData.SendStoredMeasurementsOneByOne | GIGA-coverage/src/main/java/com/example/giga_coverage/GatherAndSendData.kt:146-182 | The loop has exactly `Drain`'s effect and result on the scanned backlog, and keeps the table invariant. |
| Gather.GatherAndSendData.ProcessAndSendData | GIGA-coverage/src/main/java/com/example/giga_coverage/GatherAndSendData.kt:189-268 | The whole call has exactly `Run`'s effect on the world and keeps the table invariant. |
| CoverageMeasurements.ToRecordKeys | GIGA-coverage/src/main/java/com/example/giga_coverage/CoverageMeasurements.kt:137-156 | The record always has exactly the eighteen declared keys. |
| CoverageMeasurements.ToRecordLocationFields | GIGA-coverage/src/main/java/com/example/giga_coverage/CoverageMeasurements.kt:137-156 | Each location key holds its own field. |
| CoverageMeasurements.ToRecordSpeedAndSignalFields | GIGA-coverage/src/main/java/com/example/giga_coverage/CoverageMeasurements.kt:137-156 | Each speed, signal and network-code key holds its own field. |
| CoverageMeasurements.ToRecordOtherFields | GIGA-coverage/src/main/java/com/example/giga_coverage/CoverageMeasurements.kt:137-156 | Each remaining key holds its own field. |
| CoverageMeasurements.MeasureUploadSpeed | GIGA-coverage/src/main/java/com/example/giga_coverage/CoverageMeasurements.kt:90-93 | Without a key the upload test yields null. With a key it yields what the test measured. |
| CoverageMeasurements.MeasurementRecord | GIGA-coverage/src/main/java/com/example/giga_coverage/CoverageMeasurements.kt:230-241 | `timestamp` is always set to the clock's value and `library_version` is always "v0.1". So the collected record is never empty. |
| CoverageMeasurements.SpeedsNeedNetwork | GIGA-coverage/src/main/java/com/example/giga_coverage/CoverageMeasurements.kt:223-229 | Offline, both speeds are null. Without a key, the upload speed is null. Online, the download speed is the measured one. |
| CoverageMeasurements.LocationFields | GIGA-coverage/src/main/java/com/example/giga_coverage/CoverageMeasurements.kt:159-173 | Without a location permission the four location fields are null. With a fix, the GPS flag says whether it came from GPS, and an accuracy is recorded exactly for a GPS fix. |
| CoverageMeasurements.TelephonyNeedsPermission | GIGA-coverage/src/main/java/com/example/giga_coverage/CoverageMeasurements.kt:176-247 | Without READ_PHONE_STATE, the signal, cell identity and both network-type fields are null. |
| CoverageMeasurements.PackageLookupIsolated | GIGA-coverage/src/main/java/com/example/giga_coverage/CoverageMeasurements.kt:233-239 | A failed package lookup leaves `app_name` and `app_version` null and changes no other field. |
| CoverageMeasurements.CollectLocation | GIGA-coverage/src/main/java/com/example/giga_coverage/CoverageMeasurements.kt:158-173 | The location section sets exactly the four location fields, to `Measurements`' values. |
| CoverageMeasurements.CollectCellInfo | GIGA-coverage/src/main/java/com/example/giga_coverage/CoverageMeasurements.kt:175-220 | The cell section sets exactly the signal and identity fields, for LTE, GSM and (from SDK 18) WCDMA primary cells. |
| CoverageMeasurements.CollectSpeeds | GIGA-coverage/src/main/java/com/example/giga_coverage/CoverageMeasurements.kt:222-229 | The speed section sets exactly the two speed fields. |
| CoverageMeasurements.CollectDeviceInfo | GIGA-coverage/src/main/java/com/example/giga_coverage/CoverageMeasurements.kt:230-241 | The device section sets exactly the timestamp, device id, app and library version fields. |
| CoverageMeasurements.CollectNetworkTypes | GIGA-coverage/src/main/java/com/example/giga_coverage/CoverageMeasurements.kt:242-247 | The network-type section sets the voice type and, from SDK 24, the data type, when READ_PHONE_STATE is held. |
| CoverageMeasurements.GetCoverageMeasurements | GIGA-coverage/src/main/java/com/example/giga_coverage/CoverageMeasurements.kt:135-250 | The step-by-step collection returns exactly `MeasurementRecord`: the eighteen fields under their keys. |
| CoverageMeasurements.NetworkTypeString | GIGA-coverage/src/main/java/com/example/giga_coverage/CoverageMeasurements.kt:252-275 | Each listed code maps to its fixed name, and any other code n maps to "UNKNOWN (n)". |
| CoverageMeasurements.IntToStringRoundTrip | GIGA-coverage/src/main/java/com/example/giga_coverage/CoverageMeasurements.kt:273 | Parsing the decimal text of the code inside "UNKNOWN (…)" gives back the code. |
| CoverageMeasurements.NetworkTypeStringRoundTrip | GIGA-coverage/src/main/java/com/example/giga_coverage/CoverageMeasurements.kt:252-275 | The name decodes back to its code, so distinct codes get distinct names. |

## Left out

- `measureDownloadSpeed` and `measureUploadSpeed` (CoverageMeasurements.kt:55-132) are network I/O with floating-point timing. Their results are inputs in the snapshot. Only the null-key guard is modelled.
- `isNetworkAvailable` (GatherAndSendData.kt:46-61) is an Android ConnectivityManager query. It is a boolean input.
- The device id, the UUID of a new row and the clock are inputs. `SaveMeasurement` requires a fresh id, standing in for UUID uniqueness.
- OkHttp request building, URLs, media types and response bodies are not modelled.
  - A call is a `Request` value, and its outcome is a scripted `Reply`.
  - An exception is `TransportFailure`.
  - `optString("api_key", null)` on the body becomes the reply's optional key. A missing or malformed body gives no key, which is the same outcome the code reaches through its null and exception branches.
- The script gives each request a reply by its position in the log. A real server's reply could depend on the request; a fixed script covers any outcome sequence of a single run.
- JSON encoding and decoding are the identity on `Record`. Numeric type fidelity (Float to Double, Int to Long) through org.json is not claimed. Key iteration order does not matter for a map.
- Coroutines, `withContext(Dispatchers.IO)` and all logging are not modelled. That includes the final log-only branch at GatherAndSendData.kt:261-267 and the count read for the log message at :203-204.
- SharedPreferences is the `cachedApiKey` field. Android permission, location, telephony and package APIs are read through `DeviceSnapshot`.
- The run takes `collect` as an arbitrary function, so it is not composed with `GetCoverageMeasurements`. `MeasurementRecord` shows the real collector never returns an empty record.
- Database failures other than a duplicate primary key are not modelled. Room's abort on a duplicate key is the `ok = false` result of `InsertMeasurement`. The table is left as it was.
- Concurrent runs of `processAndSendData` are not modelled; the model is sequential.
- The order of rows with equal timestamps is not fixed by the query. The model keeps them in insertion order.
- Kotlin `Int` and `Long` widths: counts, codes and timestamps are unbounded integers. From a table of at most 100 rows, the row count stays at most 100 (`RunCapacity`). A run sends at most min(k + 1, n) + 1 ≤ 101 data requests. The codes are small, so no wrap-around arises.
- `GigaCoverageConfig` holds URLs only and is not modelled. The stale un-packaged copies `src/main/CoverageMeasurements.kt` and `src/main/GatherAndSendData.kt` are not part of this model.
