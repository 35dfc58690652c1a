/** Shaping one coverage record from the device's readings. The Android
    sensor, permission, telephony and package services are read through a
    snapshot of what they would report; the record always carries the same
    eighteen fields, null where nothing was read. */
module CoverageMeasurements {
  import opened Values

  const KEY_LATITUDE: string := "latitude"
  const KEY_LONGITUDE: string := "longitude"
  const KEY_IS_POSITION_FROM_GPS: string := "is_position_from_GPS"
  const KEY_GPS_ACCURACY: string := "gps_accuracy"
  const DOWNLOAD_SPEED: string := "download_speed"
  const UPLOAD_SPEED: string := "upload_speed"
  const KEY_SIGNAL_STRENGTH_DBM: string := "signal_strength_dbm"
  const KEY_SIGNAL_STRENGTH_ASU: string := "signal_strength_asu"
  const KEY_NETWORK_CODE: string := "network_code"
  const KEY_MOBILE_COUNTRY_CODE: string := "mobile_country_code"
  const KEY_CELL_ID: string := "cell_id"
  const KEY_TIMESTAMP: string := "timestamp"
  const KEY_ANDROID_ID: string := "android_id"
  const KEY_APP_NAME: string := "app_name"
  const KEY_APP_VERSION: string := "app_version"
  const KEY_LIBRARY_VERSION: string := "library_version"
  const KEY_NETWORK_TYPE: string := "network_type"
  const KEY_DATA_NETWORK_TYPE: string := "data_network_type"

  const MEASUREMENT_KEYS: set<string> :=
    {KEY_LATITUDE, KEY_LONGITUDE, KEY_IS_POSITION_FROM_GPS, KEY_GPS_ACCURACY,
     DOWNLOAD_SPEED, UPLOAD_SPEED, KEY_SIGNAL_STRENGTH_DBM, KEY_SIGNAL_STRENGTH_ASU,
     KEY_NETWORK_CODE, KEY_MOBILE_COUNTRY_CODE, KEY_CELL_ID, KEY_TIMESTAMP,
     KEY_ANDROID_ID, KEY_APP_NAME, KEY_APP_VERSION, KEY_LIBRARY_VERSION,
     KEY_NETWORK_TYPE, KEY_DATA_NETWORK_TYPE}

  const LIBRARY_VERSION: string := "v0.1"

  /** The eighteen field names are pairwise distinct: the helper the
      ToRecord lemmas use to read each key's slot. */
  lemma FieldKeysDistinct()
    ensures KEY_LATITUDE != KEY_LONGITUDE && KEY_LATITUDE != KEY_IS_POSITION_FROM_GPS && KEY_LATITUDE != KEY_GPS_ACCURACY && KEY_LATITUDE != DOWNLOAD_SPEED && KEY_LATITUDE != UPLOAD_SPEED && KEY_LATITUDE != KEY_SIGNAL_STRENGTH_DBM && KEY_LATITUDE != KEY_SIGNAL_STRENGTH_ASU && KEY_LATITUDE != KEY_NETWORK_CODE && KEY_LATITUDE != KEY_MOBILE_COUNTRY_CODE && KEY_LATITUDE != KEY_CELL_ID && KEY_LATITUDE != KEY_TIMESTAMP && KEY_LATITUDE != KEY_ANDROID_ID && KEY_LATITUDE != KEY_APP_NAME && KEY_LATITUDE != KEY_APP_VERSION && KEY_LATITUDE != KEY_LIBRARY_VERSION && KEY_LATITUDE != KEY_NETWORK_TYPE && KEY_LATITUDE != KEY_DATA_NETWORK_TYPE
    ensures KEY_LONGITUDE != KEY_IS_POSITION_FROM_GPS && KEY_LONGITUDE != KEY_GPS_ACCURACY && KEY_LONGITUDE != DOWNLOAD_SPEED && KEY_LONGITUDE != UPLOAD_SPEED && KEY_LONGITUDE != KEY_SIGNAL_STRENGTH_DBM && KEY_LONGITUDE != KEY_SIGNAL_STRENGTH_ASU && KEY_LONGITUDE != KEY_NETWORK_CODE && KEY_LONGITUDE != KEY_MOBILE_COUNTRY_CODE && KEY_LONGITUDE != KEY_CELL_ID && KEY_LONGITUDE != KEY_TIMESTAMP && KEY_LONGITUDE != KEY_ANDROID_ID && KEY_LONGITUDE != KEY_APP_NAME && KEY_LONGITUDE != KEY_APP_VERSION && KEY_LONGITUDE != KEY_LIBRARY_VERSION && KEY_LONGITUDE != KEY_NETWORK_TYPE && KEY_LONGITUDE != KEY_DATA_NETWORK_TYPE
    ensures KEY_IS_POSITION_FROM_GPS != KEY_GPS_ACCURACY && KEY_IS_POSITION_FROM_GPS != DOWNLOAD_SPEED && KEY_IS_POSITION_FROM_GPS != UPLOAD_SPEED && KEY_IS_POSITION_FROM_GPS != KEY_SIGNAL_STRENGTH_DBM && KEY_IS_POSITION_FROM_GPS != KEY_SIGNAL_STRENGTH_ASU && KEY_IS_POSITION_FROM_GPS != KEY_NETWORK_CODE && KEY_IS_POSITION_FROM_GPS != KEY_MOBILE_COUNTRY_CODE && KEY_IS_POSITION_FROM_GPS != KEY_CELL_ID && KEY_IS_POSITION_FROM_GPS != KEY_TIMESTAMP && KEY_IS_POSITION_FROM_GPS != KEY_ANDROID_ID && KEY_IS_POSITION_FROM_GPS != KEY_APP_NAME && KEY_IS_POSITION_FROM_GPS != KEY_APP_VERSION && KEY_IS_POSITION_FROM_GPS != KEY_LIBRARY_VERSION && KEY_IS_POSITION_FROM_GPS != KEY_NETWORK_TYPE && KEY_IS_POSITION_FROM_GPS != KEY_DATA_NETWORK_TYPE
    ensures KEY_GPS_ACCURACY != DOWNLOAD_SPEED && KEY_GPS_ACCURACY != UPLOAD_SPEED && KEY_GPS_ACCURACY != KEY_SIGNAL_STRENGTH_DBM && KEY_GPS_ACCURACY != KEY_SIGNAL_STRENGTH_ASU && KEY_GPS_ACCURACY != KEY_NETWORK_CODE && KEY_GPS_ACCURACY != KEY_MOBILE_COUNTRY_CODE && KEY_GPS_ACCURACY != KEY_CELL_ID && KEY_GPS_ACCURACY != KEY_TIMESTAMP && KEY_GPS_ACCURACY != KEY_ANDROID_ID && KEY_GPS_ACCURACY != KEY_APP_NAME && KEY_GPS_ACCURACY != KEY_APP_VERSION && KEY_GPS_ACCURACY != KEY_LIBRARY_VERSION && KEY_GPS_ACCURACY != KEY_NETWORK_TYPE && KEY_GPS_ACCURACY != KEY_DATA_NETWORK_TYPE
    ensures DOWNLOAD_SPEED != UPLOAD_SPEED && DOWNLOAD_SPEED != KEY_SIGNAL_STRENGTH_DBM && DOWNLOAD_SPEED != KEY_SIGNAL_STRENGTH_ASU && DOWNLOAD_SPEED != KEY_NETWORK_CODE && DOWNLOAD_SPEED != KEY_MOBILE_COUNTRY_CODE && DOWNLOAD_SPEED != KEY_CELL_ID && DOWNLOAD_SPEED != KEY_TIMESTAMP && DOWNLOAD_SPEED != KEY_ANDROID_ID && DOWNLOAD_SPEED != KEY_APP_NAME && DOWNLOAD_SPEED != KEY_APP_VERSION && DOWNLOAD_SPEED != KEY_LIBRARY_VERSION && DOWNLOAD_SPEED != KEY_NETWORK_TYPE && DOWNLOAD_SPEED != KEY_DATA_NETWORK_TYPE
    ensures UPLOAD_SPEED != KEY_SIGNAL_STRENGTH_DBM && UPLOAD_SPEED != KEY_SIGNAL_STRENGTH_ASU && UPLOAD_SPEED != KEY_NETWORK_CODE && UPLOAD_SPEED != KEY_MOBILE_COUNTRY_CODE && UPLOAD_SPEED != KEY_CELL_ID && UPLOAD_SPEED != KEY_TIMESTAMP && UPLOAD_SPEED != KEY_ANDROID_ID && UPLOAD_SPEED != KEY_APP_NAME && UPLOAD_SPEED != KEY_APP_VERSION && UPLOAD_SPEED != KEY_LIBRARY_VERSION && UPLOAD_SPEED != KEY_NETWORK_TYPE && UPLOAD_SPEED != KEY_DATA_NETWORK_TYPE
    ensures KEY_SIGNAL_STRENGTH_DBM != KEY_SIGNAL_STRENGTH_ASU && KEY_SIGNAL_STRENGTH_DBM != KEY_NETWORK_CODE && KEY_SIGNAL_STRENGTH_DBM != KEY_MOBILE_COUNTRY_CODE && KEY_SIGNAL_STRENGTH_DBM != KEY_CELL_ID && KEY_SIGNAL_STRENGTH_DBM != KEY_TIMESTAMP && KEY_SIGNAL_STRENGTH_DBM != KEY_ANDROID_ID && KEY_SIGNAL_STRENGTH_DBM != KEY_APP_NAME && KEY_SIGNAL_STRENGTH_DBM != KEY_APP_VERSION && KEY_SIGNAL_STRENGTH_DBM != KEY_LIBRARY_VERSION && KEY_SIGNAL_STRENGTH_DBM != KEY_NETWORK_TYPE && KEY_SIGNAL_STRENGTH_DBM != KEY_DATA_NETWORK_TYPE
    ensures KEY_SIGNAL_STRENGTH_ASU != KEY_NETWORK_CODE && KEY_SIGNAL_STRENGTH_ASU != KEY_MOBILE_COUNTRY_CODE && KEY_SIGNAL_STRENGTH_ASU != KEY_CELL_ID && KEY_SIGNAL_STRENGTH_ASU != KEY_TIMESTAMP && KEY_SIGNAL_STRENGTH_ASU != KEY_ANDROID_ID && KEY_SIGNAL_STRENGTH_ASU != KEY_APP_NAME && KEY_SIGNAL_STRENGTH_ASU != KEY_APP_VERSION && KEY_SIGNAL_STRENGTH_ASU != KEY_LIBRARY_VERSION && KEY_SIGNAL_STRENGTH_ASU != KEY_NETWORK_TYPE && KEY_SIGNAL_STRENGTH_ASU != KEY_DATA_NETWORK_TYPE
    ensures KEY_NETWORK_CODE != KEY_MOBILE_COUNTRY_CODE && KEY_NETWORK_CODE != KEY_CELL_ID && KEY_NETWORK_CODE != KEY_TIMESTAMP && KEY_NETWORK_CODE != KEY_ANDROID_ID && KEY_NETWORK_CODE != KEY_APP_NAME && KEY_NETWORK_CODE != KEY_APP_VERSION && KEY_NETWORK_CODE != KEY_LIBRARY_VERSION && KEY_NETWORK_CODE != KEY_NETWORK_TYPE && KEY_NETWORK_CODE != KEY_DATA_NETWORK_TYPE
    ensures KEY_MOBILE_COUNTRY_CODE != KEY_CELL_ID && KEY_MOBILE_COUNTRY_CODE != KEY_TIMESTAMP && KEY_MOBILE_COUNTRY_CODE != KEY_ANDROID_ID && KEY_MOBILE_COUNTRY_CODE != KEY_APP_NAME && KEY_MOBILE_COUNTRY_CODE != KEY_APP_VERSION && KEY_MOBILE_COUNTRY_CODE != KEY_LIBRARY_VERSION && KEY_MOBILE_COUNTRY_CODE != KEY_NETWORK_TYPE && KEY_MOBILE_COUNTRY_CODE != KEY_DATA_NETWORK_TYPE
    ensures KEY_CELL_ID != KEY_TIMESTAMP && KEY_CELL_ID != KEY_ANDROID_ID && KEY_CELL_ID != KEY_APP_NAME && KEY_CELL_ID != KEY_APP_VERSION && KEY_CELL_ID != KEY_LIBRARY_VERSION && KEY_CELL_ID != KEY_NETWORK_TYPE && KEY_CELL_ID != KEY_DATA_NETWORK_TYPE
    ensures KEY_TIMESTAMP != KEY_ANDROID_ID && KEY_TIMESTAMP != KEY_APP_NAME && KEY_TIMESTAMP != KEY_APP_VERSION && KEY_TIMESTAMP != KEY_LIBRARY_VERSION && KEY_TIMESTAMP != KEY_NETWORK_TYPE && KEY_TIMESTAMP != KEY_DATA_NETWORK_TYPE
    ensures KEY_ANDROID_ID != KEY_APP_NAME && KEY_ANDROID_ID != KEY_APP_VERSION && KEY_ANDROID_ID != KEY_LIBRARY_VERSION && KEY_ANDROID_ID != KEY_NETWORK_TYPE && KEY_ANDROID_ID != KEY_DATA_NETWORK_TYPE
    ensures KEY_APP_NAME != KEY_APP_VERSION && KEY_APP_NAME != KEY_LIBRARY_VERSION && KEY_APP_NAME != KEY_NETWORK_TYPE && KEY_APP_NAME != KEY_DATA_NETWORK_TYPE
    ensures KEY_APP_VERSION != KEY_LIBRARY_VERSION && KEY_APP_VERSION != KEY_NETWORK_TYPE && KEY_APP_VERSION != KEY_DATA_NETWORK_TYPE
    ensures KEY_LIBRARY_VERSION != KEY_NETWORK_TYPE && KEY_LIBRARY_VERSION != KEY_DATA_NETWORK_TYPE
    ensures KEY_NETWORK_TYPE != KEY_DATA_NETWORK_TYPE
  {
  }

  /** LocationManager.GPS_PROVIDER. */
  const GPS_PROVIDER: string := "gps"
  /** Build.VERSION_CODES.JELLY_BEAN_MR2 and Build.VERSION_CODES.N. */
  const JELLY_BEAN_MR2: int := 18
  const VERSION_N: int := 24

  datatype Location = Location(latitude: real, longitude: real, provider: string, accuracy: real)

  datatype SignalStrength = SignalStrength(dbm: int, asuLevel: int)

  /** A cell's identity; `cellId` is `cid` for GSM and WCDMA cells and `ci`
      for LTE cells. */
  datatype CellIdentity = CellIdentity(mncString: Option<string>, mnc: int,
                                       mccString: Option<string>, mcc: int, cellId: int)

  datatype CellInfo =
    | CellInfoLte(signal: SignalStrength, identity: CellIdentity)
    | CellInfoGsm(signal: SignalStrength, identity: CellIdentity)
    | CellInfoWcdma(signal: SignalStrength, identity: CellIdentity)
    | OtherCellInfo

  datatype PackageInfo = PackageInfo(appLabel: string, versionName: Option<string>)

  /** What the platform reports during one collection. `downloadSpeed` and
      `uploadSpeed` are what the two speed tests would measure (None when a
      test fails); `packageInfo` is None when the package lookup throws. */
  datatype DeviceSnapshot = DeviceSnapshot(
    fineLocationGranted: bool,
    coarseLocationGranted: bool,
    phoneStateGranted: bool,
    gpsLocation: Option<Location>,
    networkLocation: Option<Location>,
    allCellInfo: Option<seq<CellInfo>>,
    sdkInt: int,
    networkType: int,
    dataNetworkType: int,
    downloadSpeed: Option<real>,
    uploadSpeed: Option<real>,
    now: int,
    androidId: Option<string>,
    packageInfo: Option<PackageInfo>)

  // ---------------------------------------------------------------------
  // The record, field by field

  /** The eighteen fields of a coverage record, in the order of the keys. */
  datatype Fields = Fields(
    latitude: Value, longitude: Value, isPositionFromGps: Value, gpsAccuracy: Value,
    downloadSpeed: Value, uploadSpeed: Value,
    signalStrengthDbm: Value, signalStrengthAsu: Value, networkCode: Value,
    mobileCountryCode: Value, cellId: Value,
    timestamp: Value, androidId: Value, appName: Value, appVersion: Value, libraryVersion: Value,
    networkType: Value, dataNetworkType: Value)

  /** Every expected field present and null. */
  const ALL_NULL: Fields :=
    Fields(Null, Null, Null, Null, Null, Null, Null, Null, Null, Null, Null, Null, Null, Null, Null, Null, Null, Null)

  /** The fields under their keys: the map the collector returns. */
  function ToRecord(f: Fields): Record
  {
    map[KEY_LATITUDE := f.latitude, KEY_LONGITUDE := f.longitude,
        KEY_IS_POSITION_FROM_GPS := f.isPositionFromGps, KEY_GPS_ACCURACY := f.gpsAccuracy,
        DOWNLOAD_SPEED := f.downloadSpeed, UPLOAD_SPEED := f.uploadSpeed,
        KEY_SIGNAL_STRENGTH_DBM := f.signalStrengthDbm, KEY_SIGNAL_STRENGTH_ASU := f.signalStrengthAsu,
        KEY_NETWORK_CODE := f.networkCode, KEY_MOBILE_COUNTRY_CODE := f.mobileCountryCode,
        KEY_CELL_ID := f.cellId, KEY_TIMESTAMP := f.timestamp, KEY_ANDROID_ID := f.androidId,
        KEY_APP_NAME := f.appName, KEY_APP_VERSION := f.appVersion,
        KEY_LIBRARY_VERSION := f.libraryVersion, KEY_NETWORK_TYPE := f.networkType,
        KEY_DATA_NETWORK_TYPE := f.dataNetworkType]
  }

  /** The record carries exactly the eighteen keys. */
  lemma ToRecordKeys(f: Fields)
    ensures ToRecord(f).Keys == MEASUREMENT_KEYS
  {
  }

  /** Each key holds its own field, so no field overwrites another: the
      location fields, ... */
  lemma ToRecordLocationFields(f: Fields)
    ensures var r := ToRecord(f);
            && r[KEY_LATITUDE] == f.latitude && r[KEY_LONGITUDE] == f.longitude
            && r[KEY_IS_POSITION_FROM_GPS] == f.isPositionFromGps && r[KEY_GPS_ACCURACY] == f.gpsAccuracy
  {
    FieldKeysDistinct();
  }

  /** ... the speed fields and the cell's signal and network code, ... */
  lemma ToRecordSpeedAndSignalFields(f: Fields)
    ensures var r := ToRecord(f);
            && r[DOWNLOAD_SPEED] == f.downloadSpeed && r[UPLOAD_SPEED] == f.uploadSpeed
            && r[KEY_SIGNAL_STRENGTH_DBM] == f.signalStrengthDbm && r[KEY_SIGNAL_STRENGTH_ASU] == f.signalStrengthAsu
            && r[KEY_NETWORK_CODE] == f.networkCode
  {
    FieldKeysDistinct();
  }

  /** ... and the cell identity, device, app and network type fields. */
  lemma ToRecordOtherFields(f: Fields)
    ensures var r := ToRecord(f);
            && r[KEY_MOBILE_COUNTRY_CODE] == f.mobileCountryCode
            && r[KEY_CELL_ID] == f.cellId && r[KEY_TIMESTAMP] == f.timestamp && r[KEY_ANDROID_ID] == f.androidId
            && r[KEY_APP_NAME] == f.appName && r[KEY_APP_VERSION] == f.appVersion
            && r[KEY_LIBRARY_VERSION] == f.libraryVersion && r[KEY_NETWORK_TYPE] == f.networkType
            && r[KEY_DATA_NETWORK_TYPE] == f.dataNetworkType
  {
    FieldKeysDistinct();
  }

  /** The upload test without a key never runs. */
  function MeasureUploadSpeed(apiKey: Option<string>, measured: Option<real>): (r: Option<real>)
    ensures apiKey.None? ==> r.None?
    ensures apiKey.Some? ==> r == measured
  {
    if apiKey.None? then None else measured
  }

  /** The last known location, GPS first, when a location permission is held. */
  function LastLocation(s: DeviceSnapshot): Option<Location>
  {
    if s.fineLocationGranted || s.coarseLocationGranted then
      if s.gpsLocation.Some? then s.gpsLocation else s.networkLocation
    else None
  }

  /** The first reported cell, when the phone-state permission is held. */
  function PrimaryCell(s: DeviceSnapshot): Option<CellInfo>
  {
    if s.phoneStateGranted && s.allCellInfo.Some? && |s.allCellInfo.value| > 0
    then Some(s.allCellInfo.value[0])
    else None
  }

  /** Whether the primary cell's fields are read: only for LTE, GSM and (on
      SDK 18 and later) WCDMA cells. */
  predicate CellRead(s: DeviceSnapshot)
  {
    var c := PrimaryCell(s);
    c.Some? && (c.value.CellInfoLte? || c.value.CellInfoGsm?
                || (c.value.CellInfoWcdma? && s.sdkInt >= JELLY_BEAN_MR2))
  }

  /** `mncString ?: mnc`: the textual code when there is one, else the number. */
  function CodeValue(text: Option<string>, code: int): Value
  {
    if text.Some? then Text(text.value) else Int(code)
  }

  /** The fields getCoverageMeasurements yields, each with its final value. */
  function Measurements(s: DeviceSnapshot, apiKey: Option<string>, isNetworkAvailable: bool): Fields
  {
    var loc := LastLocation(s);
    var cellRead := CellRead(s);
    var cell := PrimaryCell(s);
    Fields(
      latitude := if loc.Some? then Real(loc.value.latitude) else Null,
      longitude := if loc.Some? then Real(loc.value.longitude) else Null,
      isPositionFromGps := if loc.Some? then Bool(loc.value.provider == GPS_PROVIDER) else Null,
      gpsAccuracy :=
        if loc.Some? && loc.value.provider == GPS_PROVIDER then Real(loc.value.accuracy) else Null,
      downloadSpeed := if isNetworkAvailable then OptReal(s.downloadSpeed) else Null,
      uploadSpeed :=
        if isNetworkAvailable then OptReal(MeasureUploadSpeed(apiKey, s.uploadSpeed)) else Null,
      signalStrengthDbm := if cellRead then Int(cell.value.signal.dbm) else Null,
      signalStrengthAsu := if cellRead then Int(cell.value.signal.asuLevel) else Null,
      networkCode :=
        if cellRead then CodeValue(cell.value.identity.mncString, cell.value.identity.mnc) else Null,
      mobileCountryCode :=
        if cellRead then CodeValue(cell.value.identity.mccString, cell.value.identity.mcc) else Null,
      cellId := if cellRead then Int(cell.value.identity.cellId) else Null,
      timestamp := Int(s.now),
      androidId := OptText(s.androidId),
      appName := if s.packageInfo.Some? then Text(s.packageInfo.value.appLabel) else Null,
      appVersion := if s.packageInfo.Some? then OptText(s.packageInfo.value.versionName) else Null,
      libraryVersion := Text(LIBRARY_VERSION),
      networkType := if s.phoneStateGranted then Text(NetworkTypeString(s.networkType)) else Null,
      dataNetworkType :=
        if s.phoneStateGranted && s.sdkInt >= VERSION_N then Text(NetworkTypeString(s.dataNetworkType))
        else Null)
  }

  /** The record under its keys. */
  function MeasurementRecord(s: DeviceSnapshot, apiKey: Option<string>, isNetworkAvailable: bool): (r: Record)
    ensures KEY_TIMESTAMP in r && r[KEY_TIMESTAMP] == Int(s.now)
    ensures KEY_LIBRARY_VERSION in r && r[KEY_LIBRARY_VERSION] == Text(LIBRARY_VERSION)
  {
    ToRecordOtherFields(Measurements(s, apiKey, isNetworkAvailable));
    ToRecord(Measurements(s, apiKey, isNetworkAvailable))
  }

  /** The speed tests run only online, and the upload test only with a key. */
  lemma SpeedsNeedNetwork(s: DeviceSnapshot, apiKey: Option<string>, isNetworkAvailable: bool)
    ensures var r := Measurements(s, apiKey, isNetworkAvailable);
            !isNetworkAvailable ==> r.downloadSpeed == Null && r.uploadSpeed == Null
    ensures var r := Measurements(s, apiKey, isNetworkAvailable);
            apiKey.None? ==> r.uploadSpeed == Null
    ensures var r := Measurements(s, apiKey, isNetworkAvailable);
            isNetworkAvailable ==> r.downloadSpeed == OptReal(s.downloadSpeed)
  {
  }

  /** Nothing location-based without a location permission; with a fix, the
      GPS flag says where it came from and an accuracy is recorded exactly for
      a GPS fix. */
  lemma LocationFields(s: DeviceSnapshot, apiKey: Option<string>, isNetworkAvailable: bool)
    ensures var r := Measurements(s, apiKey, isNetworkAvailable);
            !(s.fineLocationGranted || s.coarseLocationGranted) ==>
              r.latitude == Null && r.longitude == Null && r.isPositionFromGps == Null && r.gpsAccuracy == Null
    ensures var r := Measurements(s, apiKey, isNetworkAvailable);
            r.gpsAccuracy != Null ==> r.isPositionFromGps == Bool(true)
    ensures var r := Measurements(s, apiKey, isNetworkAvailable);
            LastLocation(s).Some? ==>
              r.isPositionFromGps == Bool(LastLocation(s).value.provider == GPS_PROVIDER)
              && (r.gpsAccuracy != Null <==> LastLocation(s).value.provider == GPS_PROVIDER)
  {
  }

  /** Nothing from telephony without the phone-state permission. */
  lemma TelephonyNeedsPermission(s: DeviceSnapshot, apiKey: Option<string>, isNetworkAvailable: bool)
    ensures var r := Measurements(s, apiKey, isNetworkAvailable);
            !s.phoneStateGranted ==>
              r.signalStrengthDbm == Null && r.signalStrengthAsu == Null && r.networkCode == Null
              && r.mobileCountryCode == Null && r.cellId == Null && r.networkType == Null
              && r.dataNetworkType == Null
  {
  }

  /** A failed package lookup leaves the two app fields null and changes
      nothing else. */
  lemma PackageLookupIsolated(s: DeviceSnapshot, apiKey: Option<string>, isNetworkAvailable: bool)
    ensures Measurements(s.(packageInfo := None), apiKey, isNetworkAvailable)
            == Measurements(s, apiKey, isNetworkAvailable).(appName := Null, appVersion := Null)
  {
  }

  /** The last known location, when a location permission is held. */
  method CollectLocation(s: DeviceSnapshot, apiKey: Option<string>, isNetworkAvailable: bool, data: Fields)
    returns (data': Fields)
    requires data.latitude == Null && data.longitude == Null
    requires data.isPositionFromGps == Null && data.gpsAccuracy == Null
    ensures var r := Measurements(s, apiKey, isNetworkAvailable);
            data' == data.(latitude := r.latitude, longitude := r.longitude,
                           isPositionFromGps := r.isPositionFromGps, gpsAccuracy := r.gpsAccuracy)
  {
    data' := data;
    if s.fineLocationGranted || s.coarseLocationGranted {
      var location := if s.gpsLocation.Some? then s.gpsLocation else s.networkLocation;
      if location.Some? {
        var it := location.value;
        data' := data'.(latitude := Real(it.latitude));
        data' := data'.(longitude := Real(it.longitude));
        data' := data'.(isPositionFromGps := Bool(it.provider == GPS_PROVIDER));
        if it.provider == GPS_PROVIDER {
          data' := data'.(gpsAccuracy := Real(it.accuracy));
        }
      }
    }
  }

  /** Signal strength and identity of the primary cell, when the phone-state
      permission is held and the cell is of a kind that is read. */
  method CollectCellInfo(s: DeviceSnapshot, apiKey: Option<string>, isNetworkAvailable: bool, data: Fields)
    returns (data': Fields)
    requires data.signalStrengthDbm == Null && data.signalStrengthAsu == Null
    requires data.networkCode == Null && data.mobileCountryCode == Null && data.cellId == Null
    ensures var r := Measurements(s, apiKey, isNetworkAvailable);
            data' == data.(signalStrengthDbm := r.signalStrengthDbm, signalStrengthAsu := r.signalStrengthAsu,
                           networkCode := r.networkCode, mobileCountryCode := r.mobileCountryCode,
                           cellId := r.cellId)
  {
    data' := data;
    if s.phoneStateGranted {
      if s.allCellInfo.Some? && |s.allCellInfo.value| > 0 {
        var cellInfo := s.allCellInfo.value[0];
        match cellInfo {
          case CellInfoLte(signal, _) =>
            data' := data'.(signalStrengthDbm := Int(signal.dbm));
            data' := data'.(signalStrengthAsu := Int(signal.asuLevel));
          case CellInfoGsm(signal, _) =>
            data' := data'.(signalStrengthDbm := Int(signal.dbm));
            data' := data'.(signalStrengthAsu := Int(signal.asuLevel));
          case CellInfoWcdma(signal, _) =>
            if s.sdkInt >= JELLY_BEAN_MR2 {
              data' := data'.(signalStrengthDbm := Int(signal.dbm));
              data' := data'.(signalStrengthAsu := Int(signal.asuLevel));
            }
          case OtherCellInfo =>
        }
        match cellInfo {
          case CellInfoGsm(_, identity) =>
            data' := data'.(networkCode := CodeValue(identity.mncString, identity.mnc));
            data' := data'.(mobileCountryCode := CodeValue(identity.mccString, identity.mcc));
            data' := data'.(cellId := Int(identity.cellId));
          case CellInfoLte(_, identity) =>
            data' := data'.(networkCode := CodeValue(identity.mncString, identity.mnc));
            data' := data'.(mobileCountryCode := CodeValue(identity.mccString, identity.mcc));
            data' := data'.(cellId := Int(identity.cellId));
          case CellInfoWcdma(_, identity) =>
            if s.sdkInt >= JELLY_BEAN_MR2 {
              data' := data'.(networkCode := CodeValue(identity.mncString, identity.mnc));
              data' := data'.(mobileCountryCode := CodeValue(identity.mccString, identity.mcc));
              data' := data'.(cellId := Int(identity.cellId));
            }
          case OtherCellInfo =>
        }
      }
    }
  }

  /** The two speed tests, run only when the network is available. */
  method CollectSpeeds(s: DeviceSnapshot, apiKey: Option<string>, isNetworkAvailable: bool, data: Fields)
    returns (data': Fields)
    ensures var r := Measurements(s, apiKey, isNetworkAvailable);
            data' == data.(downloadSpeed := r.downloadSpeed, uploadSpeed := r.uploadSpeed)
  {
    data' := data;
    if isNetworkAvailable {
      data' := data'.(downloadSpeed := OptReal(s.downloadSpeed));
      data' := data'.(uploadSpeed := OptReal(MeasureUploadSpeed(apiKey, s.uploadSpeed)));
    } else {
      data' := data'.(downloadSpeed := Null);
      data' := data'.(uploadSpeed := Null);
    }
  }

  /** Time, device id, app name and version (when the package lookup
      succeeds) and library version. */
  method CollectDeviceInfo(s: DeviceSnapshot, apiKey: Option<string>, isNetworkAvailable: bool, data: Fields)
    returns (data': Fields)
    requires data.appName == Null && data.appVersion == Null
    ensures var r := Measurements(s, apiKey, isNetworkAvailable);
            data' == data.(timestamp := r.timestamp, androidId := r.androidId, appName := r.appName,
                           appVersion := r.appVersion, libraryVersion := r.libraryVersion)
  {
    data' := data;
    data' := data'.(timestamp := Int(s.now));
    data' := data'.(androidId := OptText(s.androidId));
    if s.packageInfo.Some? {
      data' := data'.(appName := Text(s.packageInfo.value.appLabel));
      data' := data'.(appVersion := OptText(s.packageInfo.value.versionName));
    }
    data' := data'.(libraryVersion := Text(LIBRARY_VERSION));
  }

  /** Voice and (on SDK 24 and later) data network types, when the
      phone-state permission is held. */
  method CollectNetworkTypes(s: DeviceSnapshot, apiKey: Option<string>, isNetworkAvailable: bool, data: Fields)
    returns (data': Fields)
    requires data.networkType == Null && data.dataNetworkType == Null
    ensures var r := Measurements(s, apiKey, isNetworkAvailable);
            data' == data.(networkType := r.networkType, dataNetworkType := r.dataNetworkType)
  {
    data' := data;
    if s.phoneStateGranted {
      data' := data'.(networkType := Text(NetworkTypeString(s.networkType)));
      if s.sdkInt >= VERSION_N {
        data' := data'.(dataNetworkType := Text(NetworkTypeString(s.dataNetworkType)));
      }
    }
  }

  /** Collect the record as the collector does: every field starts null, each
      section overwrites the fields it could read, and the fields are returned
      under their keys. */
  method GetCoverageMeasurements(s: DeviceSnapshot, apiKey: Option<string>, isNetworkAvailable: bool)
    returns (data: Record)
    ensures data == MeasurementRecord(s, apiKey, isNetworkAvailable)
  {
    var fields := ALL_NULL;
    fields := CollectLocation(s, apiKey, isNetworkAvailable, fields);
    fields := CollectCellInfo(s, apiKey, isNetworkAvailable, fields);
    fields := CollectSpeeds(s, apiKey, isNetworkAvailable, fields);
    fields := CollectDeviceInfo(s, apiKey, isNetworkAvailable, fields);
    fields := CollectNetworkTypes(s, apiKey, isNetworkAvailable, fields);
    assert fields == Measurements(s, apiKey, isNetworkAvailable);
    data := ToRecord(fields);
  }

  // ---------------------------------------------------------------------
  // Network type names

  /** TelephonyManager.NETWORK_TYPE_* codes. */
  const NETWORK_TYPE_GPRS: int := 1
  const NETWORK_TYPE_EDGE: int := 2
  const NETWORK_TYPE_UMTS: int := 3
  const NETWORK_TYPE_CDMA: int := 4
  const NETWORK_TYPE_EVDO_0: int := 5
  const NETWORK_TYPE_EVDO_A: int := 6
  const NETWORK_TYPE_1xRTT: int := 7
  const NETWORK_TYPE_HSDPA: int := 8
  const NETWORK_TYPE_HSUPA: int := 9
  const NETWORK_TYPE_HSPA: int := 10
  const NETWORK_TYPE_IDEN: int := 11
  const NETWORK_TYPE_EVDO_B: int := 12
  const NETWORK_TYPE_LTE: int := 13
  const NETWORK_TYPE_EHRPD: int := 14
  const NETWORK_TYPE_HSPAP: int := 15
  const NETWORK_TYPE_GSM: int := 16
  const NETWORK_TYPE_TD_SCDMA: int := 17
  const NETWORK_TYPE_IWLAN: int := 18
  const NETWORK_TYPE_NR: int := 20

  /** The named codes and their names, as a table. */
  const NETWORK_TYPE_NAMES: map<int, string> :=
    map[NETWORK_TYPE_GPRS := "GPRS", NETWORK_TYPE_EDGE := "EDGE", NETWORK_TYPE_UMTS := "UMTS",
        NETWORK_TYPE_CDMA := "CDMA", NETWORK_TYPE_EVDO_0 := "EVDO_0", NETWORK_TYPE_EVDO_A := "EVDO_A",
        NETWORK_TYPE_1xRTT := "1xRTT", NETWORK_TYPE_HSDPA := "HSDPA", NETWORK_TYPE_HSUPA := "HSUPA",
        NETWORK_TYPE_HSPA := "HSPA", NETWORK_TYPE_IDEN := "IDEN", NETWORK_TYPE_EVDO_B := "EVDO_B",
        NETWORK_TYPE_LTE := "LTE", NETWORK_TYPE_EHRPD := "EHRPD", NETWORK_TYPE_HSPAP := "HSPAP",
        NETWORK_TYPE_GSM := "GSM", NETWORK_TYPE_TD_SCDMA := "TD_SCDMA", NETWORK_TYPE_IWLAN := "IWLAN",
        NETWORK_TYPE_NR := "NR (5G)"]

  const UNKNOWN_PREFIX: string := "UNKNOWN ("
  const UNKNOWN_SUFFIX: string := ")"

  /** The display name of a network type code. */
  function NetworkTypeString(networkType: int): (r: string)
    ensures networkType in NETWORK_TYPE_NAMES ==> r == NETWORK_TYPE_NAMES[networkType]
    ensures networkType !in NETWORK_TYPE_NAMES ==> r == UNKNOWN_PREFIX + IntToString(networkType) + UNKNOWN_SUFFIX
  {
    if networkType == NETWORK_TYPE_GPRS then "GPRS"
    else if networkType == NETWORK_TYPE_EDGE then "EDGE"
    else if networkType == NETWORK_TYPE_UMTS then "UMTS"
    else if networkType == NETWORK_TYPE_HSDPA then "HSDPA"
    else if networkType == NETWORK_TYPE_HSUPA then "HSUPA"
    else if networkType == NETWORK_TYPE_HSPA then "HSPA"
    else if networkType == NETWORK_TYPE_CDMA then "CDMA"
    else if networkType == NETWORK_TYPE_EVDO_0 then "EVDO_0"
    else if networkType == NETWORK_TYPE_EVDO_A then "EVDO_A"
    else if networkType == NETWORK_TYPE_EVDO_B then "EVDO_B"
    else if networkType == NETWORK_TYPE_1xRTT then "1xRTT"
    else if networkType == NETWORK_TYPE_LTE then "LTE"
    else if networkType == NETWORK_TYPE_EHRPD then "EHRPD"
    else if networkType == NETWORK_TYPE_IDEN then "IDEN"
    else if networkType == NETWORK_TYPE_HSPAP then "HSPAP"
    else if networkType == NETWORK_TYPE_GSM then "GSM"
    else if networkType == NETWORK_TYPE_TD_SCDMA then "TD_SCDMA"
    else if networkType == NETWORK_TYPE_IWLAN then "IWLAN"
    else if networkType == NETWORK_TYPE_NR then "NR (5G)"
    else UNKNOWN_PREFIX + IntToString(networkType) + UNKNOWN_SUFFIX
  }

  // ---------------------------------------------------------------------
  // Decimal rendering of an Int in a string template, and its inverse

  predicate IsDigit(c: char)
  {
    '0' as int <= c as int <= '9' as int
  }

  function DigitChar(d: nat): (c: char)
    requires d < 10
    ensures IsDigit(c) && c as int - '0' as int == d
  {
    (('0' as int) + d) as char
  }

  function NatToString(n: nat): (r: string)
    ensures |r| > 0
    ensures forall i :: 0 <= i < |r| ==> IsDigit(r[i])
    decreases n
  {
    if n < 10 then [DigitChar(n)] else NatToString(n / 10) + [DigitChar(n % 10)]
  }

  function IntToString(n: int): (r: string)
    ensures |r| > 0
  {
    if n < 0 then "-" + NatToString(-n) else NatToString(n)
  }

  /** The number a string of digits denotes. */
  function DigitsValue(s: string): nat
    requires forall i :: 0 <= i < |s| ==> IsDigit(s[i])
  {
    if s == [] then 0
    else
      assert IsDigit(s[|s| - 1]);
      DigitsValue(s[..|s| - 1]) * 10 + (s[|s| - 1] as int - '0' as int)
  }

  predicate AllDigits(s: string)
  {
    |s| > 0 && forall i :: 0 <= i < |s| ==> IsDigit(s[i])
  }

  function ParseInt(s: string): Option<int>
  {
    if |s| > 0 && s[0] == '-' && AllDigits(s[1..]) then Some(0 - DigitsValue(s[1..]) as int)
    else if AllDigits(s) then Some(DigitsValue(s))
    else None
  }

  lemma {:induction false} NatToStringValue(n: nat)
    ensures DigitsValue(NatToString(n)) == n
    decreases n
  {
    var r := NatToString(n);
    if n >= 10 {
      NatToStringValue(n / 10);
      assert r[..|r| - 1] == NatToString(n / 10);
    }
  }

  /** Reading back a rendered number gives the number. */
  lemma IntToStringRoundTrip(n: int)
    ensures ParseInt(IntToString(n)) == Some(n)
  {
    if n < 0 {
      NatToStringValue(-n);
      assert IntToString(n)[1..] == NatToString(-n);
    } else {
      NatToStringValue(n);
      assert IntToString(n)[0] != '-';
    }
  }

  /** The code a network type name stands for: the names in the order
      NetworkTypeString tries the codes, then the UNKNOWN form. */
  function NetworkTypeFromString(name: string): Option<int>
  {
    if name == "GPRS" then Some(NETWORK_TYPE_GPRS)
    else if name == "EDGE" then Some(NETWORK_TYPE_EDGE)
    else if name == "UMTS" then Some(NETWORK_TYPE_UMTS)
    else if name == "HSDPA" then Some(NETWORK_TYPE_HSDPA)
    else if name == "HSUPA" then Some(NETWORK_TYPE_HSUPA)
    else if name == "HSPA" then Some(NETWORK_TYPE_HSPA)
    else if name == "CDMA" then Some(NETWORK_TYPE_CDMA)
    else if name == "EVDO_0" then Some(NETWORK_TYPE_EVDO_0)
    else if name == "EVDO_A" then Some(NETWORK_TYPE_EVDO_A)
    else if name == "EVDO_B" then Some(NETWORK_TYPE_EVDO_B)
    else if name == "1xRTT" then Some(NETWORK_TYPE_1xRTT)
    else if name == "LTE" then Some(NETWORK_TYPE_LTE)
    else if name == "EHRPD" then Some(NETWORK_TYPE_EHRPD)
    else if name == "IDEN" then Some(NETWORK_TYPE_IDEN)
    else if name == "HSPAP" then Some(NETWORK_TYPE_HSPAP)
    else if name == "GSM" then Some(NETWORK_TYPE_GSM)
    else if name == "TD_SCDMA" then Some(NETWORK_TYPE_TD_SCDMA)
    else if name == "IWLAN" then Some(NETWORK_TYPE_IWLAN)
    else if name == "NR (5G)" then Some(NETWORK_TYPE_NR)
    else if |name| >= |UNKNOWN_PREFIX| + |UNKNOWN_SUFFIX|
            && name[..|UNKNOWN_PREFIX|] == UNKNOWN_PREFIX
            && name[|name| - |UNKNOWN_SUFFIX|..] == UNKNOWN_SUFFIX
    then ParseInt(name[|UNKNOWN_PREFIX|..|name| - |UNKNOWN_SUFFIX|])
    else None
  }

  /** Every name decodes to its code, so distinct codes get distinct names. */
  lemma NetworkTypeStringRoundTrip(networkType: int)
    ensures NetworkTypeFromString(NetworkTypeString(networkType)) == Some(networkType)
  {
    var name := NetworkTypeString(networkType);
    if networkType !in NETWORK_TYPE_NAMES {
      var digits := IntToString(networkType);
      assert |name| > 10;
      assert name[..|UNKNOWN_PREFIX|] == UNKNOWN_PREFIX;
      assert name[|name| - |UNKNOWN_SUFFIX|..] == UNKNOWN_SUFFIX;
      assert name[|UNKNOWN_PREFIX|..|name| - |UNKNOWN_SUFFIX|] == digits;
      IntToStringRoundTrip(networkType);
    }
  }
}
