/** The orchestrator: API key caching and fetch, posting records, draining
    the offline queue, and the decision logic of one collect-and-send call.
    Every method is proved to have exactly the effect of the matching
    function of SyncModel on the world it reads. */
module Gather {
  import opened Values
  import opened MeasurementDao
  import opened MeasurementStorage
  import opened Remote
  import opened SyncModel

  class GatherAndSendData {
    /** The "api_key" entry of the "api_prefs" preferences. */
    var cachedApiKey: Option<string>
    const offlineStorage: OfflineMeasurementStorage
    const client: RemoteServer

    ghost predicate Valid()
      reads this, offlineStorage, offlineStorage.dao
    {
      offlineStorage.Valid()
    }

    /** The part of the system state the orchestrator reads and changes. */
    ghost function CurrentWorld(): World
      reads this, offlineStorage, offlineStorage.dao, client
    {
      World(offlineStorage.dao.rows, cachedApiKey, client.replies, client.log)
    }

    constructor (offlineStorage: OfflineMeasurementStorage, client: RemoteServer, cachedApiKey: Option<string>)
      requires offlineStorage.Valid()
      ensures this.offlineStorage == offlineStorage && this.client == client
      ensures this.cachedApiKey == cachedApiKey
      ensures Valid()
    {
      this.offlineStorage := offlineStorage;
      this.client := client;
      this.cachedApiKey := cachedApiKey;
    }

    method GetCachedApiKey() returns (apiKey: Option<string>)
      ensures apiKey == cachedApiKey
    {
      apiKey := cachedApiKey;
    }

    method StoreApiKey(apiKey: string)
      modifies this
      ensures cachedApiKey == Some(apiKey)
    {
      cachedApiKey := Some(apiKey);
    }

    /** Ask the server for this device's key and cache it if one comes back. */
    method FetchAndStoreApiKey(androidId: Option<string>) returns (apiKey: Option<string>)
      modifies this, client
      ensures CurrentWorld() == FetchKey(old(CurrentWorld()), androidId).world
      ensures apiKey == FetchKey(old(CurrentWorld()), androidId).value
    {
      if androidId.None? {
        return None;
      }
      var response := client.Execute(GetKey(androidId.value));
      if !IsSuccessful(response) {
        return None;
      }
      apiKey := response.apiKey;
      if apiKey.Some? {
        StoreApiKey(apiKey.value);
      }
    }

    /** Post one record with the key added to its fields. */
    method SendMeasurements(apiKey: string, measurements: Record) returns (success: bool)
      modifies client
      ensures CurrentWorld() == Send(old(CurrentWorld()), apiKey, measurements).world
      ensures success == Send(old(CurrentWorld()), apiKey, measurements).value
    {
      var dataToSend := measurements;
      dataToSend := dataToSend[KEY_API_KEY_IN_BODY := Text(apiKey)];
      var response := client.Execute(SendData(dataToSend));
      success := IsSuccessful(response);
    }

    /** Send every queued record, oldest first, deleting each accepted one,
        and give up at the first failure. */
    method SendStoredMeasurementsOneByOne(apiKey: string) returns (allSent: bool)
      requires Valid()
      modifies client, offlineStorage.dao
      ensures Valid()
      ensures CurrentWorld() == Drain(old(CurrentWorld()), apiKey, PendingOf(old(offlineStorage.dao.rows))).world
      ensures allSent == Drain(old(CurrentWorld()), apiKey, PendingOf(old(offlineStorage.dao.rows))).value
    {
      var storedMeasurements := offlineStorage.GetAllPendingMeasurements();
      if |storedMeasurements| == 0 {
        return true;
      }
      ghost var target := Drain(CurrentWorld(), apiKey, storedMeasurements);
      var i := 0;
      while i < |storedMeasurements|
        invariant 0 <= i <= |storedMeasurements|
        invariant Valid()
        invariant target == Drain(CurrentWorld(), apiKey, storedMeasurements[i..])
      {
        var storedMeasurement := storedMeasurements[i];
        assert storedMeasurements[i..][0] == storedMeasurement;
        assert storedMeasurements[i..][1..] == storedMeasurements[i + 1..];
        var offlineId := OfflineIdOf(storedMeasurement);
        var cleanMeasurement := storedMeasurement - {OFFLINE_ID_KEY};
        cleanMeasurement := cleanMeasurement - {OFFLINE_TIMESTAMP_KEY};
        assert cleanMeasurement == Clean(storedMeasurement);
        var success := SendMeasurements(apiKey, cleanMeasurement);
        if success {
          if offlineId.Some? {
            offlineStorage.DeleteMeasurement(offlineId.value);
          }
        } else {
          return false;
        }
        i := i + 1;
      }
      assert storedMeasurements[i..] == [];
      allSent := true;
    }

    /** One collect-and-send cycle. The network state, the device id, the
        measurement collector and the id and time a queued row would get
        are the inputs the platform supplies. */
    method ProcessAndSendData(networkAvailable: bool, androidId: Option<string>,
                              collect: (Option<string>, bool) -> Record, newId: string, now: int)
      requires Valid() && newId !in Ids(offlineStorage.dao.rows)
      modifies this, client, offlineStorage.dao
      ensures Valid()
      ensures CurrentWorld() == Run(old(CurrentWorld()), networkAvailable, androidId, collect, newId, now)
    {
      ghost var w0 := CurrentWorld();
      if !networkAvailable {
        var offlineMeasurements := collect(None, false);
        if offlineMeasurements != map[] {
          offlineStorage.SaveMeasurement(offlineMeasurements, newId, now);
          var storedCount := offlineStorage.GetStoredMeasurementsCount();
        }
        return;
      }

      var apiKey := GetCachedApiKey();
      if apiKey.None? {
        apiKey := FetchAndStoreApiKey(androidId);
      }
      ghost var w1 := CurrentWorld();
      assert ResolveKey(w0, androidId) == Step(w1, apiKey);
      ResolveKeyOutcome(w0, androidId);

      if apiKey.None? {
        var offlineMeasurements := collect(None, false);
        if offlineMeasurements != map[] {
          offlineStorage.SaveMeasurement(offlineMeasurements, newId, now);
        }
        return;
      }

      var measurements := collect(apiKey, true);
      if measurements == map[] {
        return;
      }

      var storedSentSuccessfully := SendStoredMeasurementsOneByOne(apiKey.value);
      ghost var w2 := CurrentWorld();
      DrainOutcome(w1, apiKey.value);
      ghost var k := SuccessRun(w1.replies, |w1.log|, |w1.rows|);
      OldestRemovedKeepsInvariant(w1.rows, k);
      assert OldestRemoved(w1.rows, k) == w2.rows;

      var currentSentSuccessfully := SendMeasurements(apiKey.value, measurements);
      if !currentSentSuccessfully {
        offlineStorage.SaveMeasurement(measurements, newId, now);
      }
    }
  }
}
