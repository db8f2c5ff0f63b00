/** The real-device collector (`RealOBDCollector` and `main` of obd_collector.py):
    what it does with the values the OBD library returns, once the device,
    file and network calls are taken out. */
module ObdCollector {
  import opened Wrappers
  import opened Telemetry
  import History

  const MaxConnectionRetries: nat := 3
  /** Seconds slept between two connection attempts. */
  const RetryDelay: nat := 5

  // ---------------------------------------------------------------------
  // Sensor responses
  // ---------------------------------------------------------------------

  /** The payload of a non-null response: a quantity that converts to a float,
      or something `float(...)` rejects (the `except` path). */
  datatype RawValue = Magnitude(m: real) | NotNumeric

  /** A query response: its null flag and its `value` attribute. */
  datatype Response = Response(isNull: bool, value: Option<RawValue>)

  /** `_extract_value`: a reading is present exactly when the response is not
      null, has a value, and that value converts to a number. */
  function ExtractValue(resp: Response): (r: Option<real>)
    ensures r.Some? <==> !resp.isNull && resp.value.Some? && resp.value.value.Magnitude?
    ensures r.Some? ==> r.value == resp.value.value.m
  {
    if resp.isNull then None
    else match resp.value
      case None => None
      case Some(Magnitude(m)) => Some(m)
      case Some(NotNumeric) => None
  }

  // ---------------------------------------------------------------------
  // Trouble codes
  // ---------------------------------------------------------------------

  /** One element of the DTC list: a tuple of strings, or any other value,
      given here by its `str(...)`. */
  datatype RawCode = TupleCode(items: seq<string>) | OtherCode(text: string)

  /** How `_format_dtc` turns one element into a record. The empty tuple is
      not a tuple of length >= 1, so it is printed: `str(())` is "()". */
  function FormatCode(c: RawCode): (r: Dtc)
    ensures c.TupleCode? && |c.items| >= 1 ==> r.code == c.items[0]
    ensures c.TupleCode? && |c.items| >= 2 ==> r.description == c.items[1]
    ensures c.TupleCode? && c.items == [] ==> r.code == "()"
    ensures c.OtherCode? ==> r.code == c.text
    ensures c.OtherCode? || |c.items| < 2 ==> r.description == "Unknown"
  {
    match c
    case TupleCode(items) =>
      if |items| >= 1 then Dtc(items[0], if |items| > 1 then items[1] else "Unknown")
      else Dtc("()", "Unknown")
    case OtherCode(text) => Dtc(text, "Unknown")
  }

  /** `_format_dtc(dtc)`: nothing for a missing or empty list; otherwise one
      record per code, in order. */
  method FormatDtc(dtc: Option<seq<RawCode>>) returns (formatted: seq<Dtc>)
    ensures dtc.None? ==> formatted == []
    ensures dtc.Some? ==> |formatted| == |dtc.value|
    ensures dtc.Some? ==> forall i :: 0 <= i < |dtc.value| ==> formatted[i] == FormatCode(dtc.value[i])
    ensures dtc.Some? ==> forall i :: 0 <= i < |dtc.value| && dtc.value[i].TupleCode? && |dtc.value[i].items| >= 2 ==>
              formatted[i] == Dtc(dtc.value[i].items[0], dtc.value[i].items[1])
    ensures dtc.Some? ==> forall i :: 0 <= i < |dtc.value| && dtc.value[i].TupleCode? && |dtc.value[i].items| == 1 ==>
              formatted[i] == Dtc(dtc.value[i].items[0], "Unknown")
    ensures dtc.Some? ==> forall i :: 0 <= i < |dtc.value| && dtc.value[i].OtherCode? ==>
              formatted[i] == Dtc(dtc.value[i].text, "Unknown")
    ensures dtc.Some? ==> forall i :: 0 <= i < |dtc.value| && dtc.value[i] == TupleCode([]) ==>
              formatted[i] == Dtc("()", "Unknown")
  {
    formatted := [];
    if dtc.None? || dtc.value == [] {
      return;
    }
    var codes := dtc.value;
    for i := 0 to |codes|
      invariant |formatted| == i
      invariant forall j :: 0 <= j < i ==> formatted[j] == FormatCode(codes[j])
    {
      formatted := formatted + [FormatCode(codes[i])];
    }
  }

  // ---------------------------------------------------------------------
  // Snapshot
  // ---------------------------------------------------------------------

  /** One reading of the real device (the dictionary built by
      `get_current_snapshot`), with the rounding left out. */
  datatype Snapshot = Snapshot(
    timestamp: string,
    vehicleId: string,
    vehicleType: string,
    vin: Option<string>,
    coolantTempCelsius: Option<real>,
    rpm: Option<real>,
    speedKmh: Option<real>,
    fuelLevelPercent: Option<real>,
    mafGs: Option<real>,
    fuelConsumptionKml: Option<real>,
    fuelFlowLh: Option<real>,
    distanceTraveledKm: real,
    dtcCodes: seq<Dtc>,
    hasErrors: bool,
    tripStart: string)

  /** The trip odometer after one reading: `speed * (dt / 3600)` is added only
      when a speed was read. */
  function AccumulateDistance(distance: real, speed: Option<real>, dt: real): (d: real)
    ensures speed.None? ==> d == distance
    ensures speed.Some? ==> (d - distance) * 3600.0 == speed.value * dt
  {
    if speed.Some? then distance + speed.value * (dt / 3600.0) else distance
  }

  /** The odometer never runs backwards for a non-negative speed and a
      clock that does not go back. */
  lemma DistanceMonotone(distance: real, speed: Option<real>, dt: real)
    requires speed.Some? ==> speed.value >= 0.0
    requires dt >= 0.0
    ensures AccumulateDistance(distance, speed, dt) >= distance
  {
    if speed.Some? {
      assert speed.value * (dt / 3600.0) >= 0.0;
    }
  }

  /** Integrating a constant speed over two intervals in a row covers the
      same distance as integrating it once over their sum. */
  lemma DistanceAdditive(distance: real, speed: Option<real>, dt1: real, dt2: real)
    ensures AccumulateDistance(AccumulateDistance(distance, speed, dt1), speed, dt2)
            == AccumulateDistance(distance, speed, dt1 + dt2)
  {
    if speed.Some? {
      var v := speed.value;
      assert v * (dt1 / 3600.0) + v * (dt2 / 3600.0) == v * ((dt1 + dt2) / 3600.0);
    }
  }

  /** The field mapping of `get_current_snapshot`: a sensor value is kept
      whenever it was read (zero included); km/L and L/h are dropped when zero
      or missing; the error flag is set exactly when there are codes. */
  method BuildSnapshot(
    timestamp: string, vehicleId: string, vehicleType: string, vin: Option<string>,
    temp: Option<real>, rpm: Option<real>, speed: Option<real>, fuel: Option<real>,
    maf: Option<real>, dtc: Option<seq<RawCode>>, distance: real, tripStart: string)
    returns (snap: Snapshot)
    ensures snap.timestamp == timestamp && snap.vehicleId == vehicleId
    ensures snap.vehicleType == vehicleType && snap.vin == vin && snap.tripStart == tripStart
    ensures snap.coolantTempCelsius == temp && snap.rpm == rpm && snap.speedKmh == speed
    ensures snap.fuelLevelPercent == fuel && snap.mafGs == maf
    ensures snap.distanceTraveledKm == distance
    ensures var c := CalculateFuelConsumption(speed, maf);
            snap.fuelConsumptionKml == IfTruthy(c.kmPerLiter) && snap.fuelFlowLh == IfTruthy(c.fuelFlow)
    ensures speed.None? || maf.None? || speed == Some(0.0) || maf == Some(0.0) ==>
              snap.fuelConsumptionKml.None? && snap.fuelFlowLh.None?
    ensures dtc.Some? ==> |snap.dtcCodes| == |dtc.value|
    ensures dtc.Some? ==> forall i :: 0 <= i < |dtc.value| ==> snap.dtcCodes[i] == FormatCode(dtc.value[i])
    ensures dtc.None? ==> snap.dtcCodes == []
    ensures snap.hasErrors <==> snap.dtcCodes != []
  {
    var c := CalculateFuelConsumption(speed, maf);
    var codes := FormatDtc(dtc);
    var hasErrors := dtc.Some? && |dtc.value| > 0;
    snap := Snapshot(timestamp, vehicleId, vehicleType, vin, temp, rpm, speed, fuel, maf,
                     IfTruthy(c.kmPerLiter), IfTruthy(c.fuelFlow), distance, codes, hasErrors, tripStart);
  }

  // ---------------------------------------------------------------------
  // The collector object
  // ---------------------------------------------------------------------

  class RealObdCollector {
    const vehicleId: string
    const vehicleType: string
    const tripStart: string
    /** Read once at connection; `_read_vin` is a device call and not modelled. */
    var vin: Option<string>
    var distance: real
    var lastTime: real
    var allReadings: seq<Snapshot>

    predicate Valid()
      reads this
    {
      |allReadings| <= History.MaxReadings
    }

    /** `__init__`, with `time.time()` and `datetime.now()` given as `now`
        and `tripStart`. */
    constructor (vehicleId: string, vehicleType: string, now: real, tripStart: string)
      ensures Valid()
      ensures this.vehicleId == vehicleId && this.vehicleType == vehicleType
      ensures this.tripStart == tripStart && vin == None
      ensures distance == 0.0 && lastTime == now && allReadings == []
    {
      this.vehicleId := vehicleId;
      this.vehicleType := vehicleType;
      this.tripStart := tripStart;
      vin := None;
      distance := 0.0;
      lastTime := now;
      allReadings := [];
    }

    /** `get_current_snapshot`: the six query responses are parameters, as
        are the clock reading `now` and the ISO `timestamp`. */
    method GetCurrentSnapshot(
      tempResp: Response, rpmResp: Response, speedResp: Response,
      fuelResp: Response, mafResp: Response, dtcResp: Option<seq<RawCode>>,
      now: real, timestamp: string)
      returns (snap: Snapshot)
      modifies this`distance, this`lastTime
      ensures lastTime == now
      ensures distance == AccumulateDistance(old(distance), ExtractValue(speedResp), now - old(lastTime))
      ensures ExtractValue(speedResp).None? ==> distance == old(distance)
      ensures now >= old(lastTime) && (ExtractValue(speedResp).Some? ==> ExtractValue(speedResp).value >= 0.0)
              ==> distance >= old(distance)
      ensures snap.distanceTraveledKm == distance
      ensures snap.speedKmh == ExtractValue(speedResp) && snap.coolantTempCelsius == ExtractValue(tempResp)
      ensures snap.rpm == ExtractValue(rpmResp) && snap.fuelLevelPercent == ExtractValue(fuelResp)
      ensures snap.mafGs == ExtractValue(mafResp)
      ensures snap.vin == vin && snap.tripStart == tripStart && snap.timestamp == timestamp
      ensures var c := CalculateFuelConsumption(ExtractValue(speedResp), ExtractValue(mafResp));
              snap.fuelConsumptionKml == IfTruthy(c.kmPerLiter) && snap.fuelFlowLh == IfTruthy(c.fuelFlow)
      ensures snap.vehicleId == vehicleId && snap.vehicleType == vehicleType
      ensures dtcResp.None? ==> snap.dtcCodes == []
      ensures dtcResp.Some? ==> |snap.dtcCodes| == |dtcResp.value|
      ensures dtcResp.Some? ==> forall i :: 0 <= i < |dtcResp.value| ==> snap.dtcCodes[i] == FormatCode(dtcResp.value[i])
      ensures snap.hasErrors <==> dtcResp.Some? && dtcResp.value != []
    {
      var temp := ExtractValue(tempResp);
      var rpm := ExtractValue(rpmResp);
      var speed := ExtractValue(speedResp);
      var fuel := ExtractValue(fuelResp);
      var maf := ExtractValue(mafResp);

      var dt := now - lastTime;
      if speed.Some? {
        distance := distance + speed.value * (dt / 3600.0);
      }
      lastTime := now;
      if dt >= 0.0 && (speed.Some? ==> speed.value >= 0.0) {
        DistanceMonotone(old(distance), speed, dt);
      }

      snap := BuildSnapshot(timestamp, vehicleId, vehicleType, vin, temp, rpm, speed, fuel,
                            maf, dtcResp, distance, tripStart);
    }

    /** `save_local`: the snapshot is appended and the history truncated before
        the file is written, so the list changes even when the write fails;
        `writeSucceeds` stands for the outcome of that write. */
    method SaveLocal(snapshot: Snapshot, writeSucceeds: bool) returns (saved: bool)
      requires Valid()
      modifies this`allReadings
      ensures Valid()
      ensures allReadings == History.Append(old(allReadings), snapshot)
      ensures allReadings[|allReadings| - 1] == snapshot
      ensures saved == writeSucceeds
    {
      allReadings := allReadings + [snapshot];
      if |allReadings| > History.MaxReadings {
        allReadings := allReadings[|allReadings| - History.MaxReadings..];
      }
      saved := writeSucceeds;
    }
  }

  // ---------------------------------------------------------------------
  // Connection retries in `main`
  // ---------------------------------------------------------------------

  /** The retry loop of `main`: `outcomes[k]` is what `connect()` returns on
      attempt k + 1. It stops at the first success, sleeps `RetryDelay`
      seconds only between attempts, and gives up after the last one. */
  method ConnectWithRetries(outcomes: seq<bool>) returns (connected: bool, attempts: nat, slept: nat)
    requires |outcomes| == MaxConnectionRetries
    ensures 1 <= attempts <= MaxConnectionRetries
    ensures connected <==> exists k :: 0 <= k < MaxConnectionRetries && outcomes[k]
    ensures connected ==> outcomes[attempts - 1]
    ensures forall k :: 0 <= k < attempts - 1 ==> !outcomes[k]
    ensures !connected ==> attempts == MaxConnectionRetries
    ensures slept == RetryDelay * (attempts - 1)
  {
    connected, attempts, slept := false, 0, 0;
    var attempt := 1;
    while attempt <= MaxConnectionRetries && !connected
      invariant 1 <= attempt <= MaxConnectionRetries + 1
      invariant attempts == attempt - 1
      invariant connected ==> attempts >= 1 && outcomes[attempts - 1]
      invariant forall k :: 0 <= k < attempts - 1 ==> !outcomes[k]
      invariant !connected ==> forall k :: 0 <= k < attempts ==> !outcomes[k]
      invariant connected ==> slept == RetryDelay * (attempts - 1)
      invariant !connected ==>
                  slept == RetryDelay * (if attempts == MaxConnectionRetries then attempts - 1 else attempts)
    {
      attempts := attempt;
      if outcomes[attempt - 1] {
        connected := true;
      } else if attempt < MaxConnectionRetries {
        slept := slept + RetryDelay;
      }
      attempt := attempt + 1;
    }
  }
}
