/** The self-generating simulator of obd_simulator.py (`CustomOBDSimulator`)
    and the simulator path of its `VehicleDataCollector`. Every
    `random.random()` draw is a parameter in [0, 1); `random.uniform` is
    `Telemetry.Uniform` of such a draw. */
module ObdSimulator {
  import opened Wrappers
  import opened Telemetry
  import History

  /** "10% chance to change" the moving flag on each update. */
  const ToggleChance: real := 0.10
  /** "2% chance" of reporting a trouble code. */
  const DtcChance: real := 0.02
  const MinFuelLevel: real := 5.0

  /** The fields of `CustomOBDSimulator` that `update` changes. */
  datatype SimState = SimState(isMoving: bool, speed: real, distance: real, fuelLevel: real, lastTime: real)

  /** The four draws `update` may take: the toggle coin, the restart speed,
      the cruising change and the braking decrement. */
  datatype UpdateDraws = UpdateDraws(toggle: real, restart: real, change: real, brake: real)

  predicate ValidUpdateDraws(d: UpdateDraws)
  {
    IsUnit(d.toggle) && IsUnit(d.restart) && IsUnit(d.change) && IsUnit(d.brake)
  }

  /** What holds of the simulator between updates: speed within [0, 85],
      at least 10 while moving, fuel within [5, 95]. */
  predicate ValidState(s: SimState)
  {
    0.0 <= s.speed <= 85.0 && (s.isMoving ==> 10.0 <= s.speed) &&
    MinFuelLevel <= s.fuelLevel <= 95.0
  }

  /** Fuel burnt per update at speed `v`. */
  function BurnRate(v: real): (r: real)
    ensures v >= 0.0 ==> r >= 0.002
  {
    0.002 + v / 10000.0
  }

  /** The moving flag after the 10% toggle. */
  function NextMoving(moving: bool, d: UpdateDraws): (m: bool)
    ensures m != moving <==> d.toggle < ToggleChance
  {
    if d.toggle < ToggleChance then !moving else moving
  }

  /** The speed after `update`: a restart speed when the vehicle has just
      started, then the cruising change clamped to [10, 85] while moving, or
      the braking decrement floored at 0 while stopped. */
  function NextSpeed(wasMoving: bool, speed: real, d: UpdateDraws): (v: real)
    requires ValidUpdateDraws(d)
    ensures v >= 0.0
    ensures NextMoving(wasMoving, d) ==> 10.0 <= v <= 85.0
    ensures !NextMoving(wasMoving, d) ==> v <= MaxReal(0.0, speed)
  {
    var moving := NextMoving(wasMoving, d);
    var start := if d.toggle < ToggleChance && moving then Uniform(20.0, 40.0, d.restart) else speed;
    if moving then MaxReal(10.0, MinReal(start + Uniform(-3.0, 5.0, d.change), 85.0))
    else MaxReal(0.0, start - Uniform(8.0, 15.0, d.brake))
  }

  /** The odometer after `dt` seconds at `speed`, integrated only when moving. */
  function Travel(distance: real, speed: real, dt: real): (r: real)
    ensures speed <= 0.0 ==> r == distance
    ensures speed > 0.0 && dt >= 0.0 ==> r >= distance
  {
    if speed > 0.0 then distance + speed * (dt / 3600.0) else distance
  }

  /** The fuel level after one update at `speed`, floored at 5. */
  function Burn(fuel: real, speed: real): (r: real)
    ensures speed <= 0.0 ==> r == fuel
    ensures speed > 0.0 ==> MinFuelLevel <= r && (fuel >= MinFuelLevel ==> r <= fuel)
  {
    if speed > 0.0 then MaxReal(MinFuelLevel, fuel - BurnRate(speed)) else fuel
  }

  /** `update()`, as a function of the state before it, its draws and the
      clock reading `now`. */
  function Tick(s: SimState, d: UpdateDraws, now: real): (t: SimState)
    requires ValidUpdateDraws(d)
    ensures t.lastTime == now && t.isMoving == NextMoving(s.isMoving, d)
    ensures t.isMoving ==> 10.0 <= t.speed <= 85.0
  {
    var speed := NextSpeed(s.isMoving, s.speed, d);
    SimState(NextMoving(s.isMoving, d), speed, Travel(s.distance, speed, now - s.lastTime),
             Burn(s.fuelLevel, speed), now)
  }

  /** What one update does: the moving flag flips on a 10% draw; while moving
      the speed stays in [10, 85] (in [17, 45] right after starting); while
      stopped it decays toward 0 by at least 8 and never rises or goes
      negative; distance and fuel change only while the speed is positive,
      the distance never shrinks for a clock that does not go back, and the
      fuel never rises nor drops below 5. */
  lemma TickSpec(s: SimState, d: UpdateDraws, now: real)
    requires ValidUpdateDraws(d)
    ensures var t := Tick(s, d, now);
            t.isMoving == (if d.toggle < ToggleChance then !s.isMoving else s.isMoving) &&
            (t.isMoving ==> 10.0 <= t.speed <= 85.0) &&
            (t.isMoving && !s.isMoving ==> 17.0 <= t.speed <= 45.0) &&
            (!t.isMoving ==> 0.0 <= t.speed <= MaxReal(0.0, s.speed)) &&
            (!t.isMoving ==> t.speed == 0.0 || t.speed <= s.speed - 8.0) &&
            (!t.isMoving ==> t.speed >= s.speed - 15.0) &&
            (s.isMoving && t.isMoving && 10.0 <= s.speed <= 85.0 ==> s.speed - 3.0 <= t.speed <= s.speed + 5.0) &&
            t.lastTime == now
    ensures var t := Tick(s, d, now);
            (t.speed > 0.0 ==> (t.distance - s.distance) * 3600.0 == t.speed * (now - s.lastTime)) &&
            (t.speed <= 0.0 ==> t.distance == s.distance) &&
            (now >= s.lastTime ==> t.distance >= s.distance)
    ensures var t := Tick(s, d, now);
            (t.speed <= 0.0 ==> t.fuelLevel == s.fuelLevel) &&
            (t.speed > 0.0 ==> t.fuelLevel >= MinFuelLevel) &&
            (t.speed > 0.0 && t.fuelLevel > MinFuelLevel ==> s.fuelLevel - t.fuelLevel == BurnRate(t.speed)) &&
            (t.speed > 0.0 && t.fuelLevel == MinFuelLevel ==> s.fuelLevel - BurnRate(t.speed) <= MinFuelLevel) &&
            (s.fuelLevel >= MinFuelLevel ==> t.fuelLevel <= s.fuelLevel)
    ensures ValidState(s) ==> ValidState(Tick(s, d, now))
  {
    var t := Tick(s, d, now);
    if now >= s.lastTime && t.speed > 0.0 {
      assert t.speed * ((now - s.lastTime) / 3600.0) >= 0.0;
    }
  }

  /** Clock readings that never go back. */
  predicate NonDecreasing(times: seq<real>)
  {
    forall i, j :: 0 <= i <= j < |times| ==> times[i] <= times[j]
  }

  /** A run of updates, one per clock reading. */
  function Run(s: SimState, ds: seq<UpdateDraws>, times: seq<real>): (e: SimState)
    requires |ds| == |times|
    requires forall k :: 0 <= k < |ds| ==> ValidUpdateDraws(ds[k])
    ensures ds == [] ==> e == s
    ensures ds != [] ==> e.lastTime == times[|times| - 1]
    decreases |ds|
  {
    if ds == [] then s else Run(Tick(s, ds[0], times[0]), ds[1..], times[1..])
  }

  /** Over any run of updates with a clock that does not go back, the
      bounds hold throughout, the odometer never decreases and the fuel
      level never increases. */
  lemma {:induction false} RunMonotone(s: SimState, ds: seq<UpdateDraws>, times: seq<real>)
    requires ValidState(s)
    requires |ds| == |times|
    requires forall k :: 0 <= k < |ds| ==> ValidUpdateDraws(ds[k])
    requires NonDecreasing(times)
    requires times != [] ==> s.lastTime <= times[0]
    ensures var e := Run(s, ds, times);
            ValidState(e) && e.distance >= s.distance && e.fuelLevel <= s.fuelLevel
    decreases |ds|
  {
    if ds != [] {
      var t := Tick(s, ds[0], times[0]);
      TickSpec(s, ds[0], times[0]);
      assert NonDecreasing(times[1..]) by {
        forall i, j | 0 <= i <= j < |times[1..]| ensures times[1..][i] <= times[1..][j] {
          assert times[1..][i] == times[i + 1] && times[1..][j] == times[j + 1];
        }
      }
      assert |times| > 1 ==> t.lastTime <= times[1..][0];
      RunMonotone(t, ds[1..], times[1..]);
    }
  }

  // ---------------------------------------------------------------------
  // Readings
  // ---------------------------------------------------------------------

  /** `get_coolant_temp`: warmer above 40 km/h, always clamped to [75, 105]. */
  function CoolantTemp(speed: real, baseTemp: real, u: real): (t: real)
    requires IsUnit(u)
    ensures 75.0 <= t <= 105.0
    ensures 78.0 <= baseTemp <= 97.0 && speed > 40.0 ==> baseTemp + 2.0 <= t <= baseTemp + 8.0
    ensures 78.0 <= baseTemp <= 97.0 && speed <= 40.0 ==> baseTemp - 3.0 <= t <= baseTemp + 3.0
  {
    var temp := if speed > 40.0 then baseTemp + Uniform(2.0, 8.0, u) else baseTemp + Uniform(-3.0, 3.0, u);
    MaxReal(75.0, MinReal(temp, 105.0))
  }

  /** `get_rpm`: idle plus or minus 50 below 1 km/h, otherwise 40 rpm per km/h
      above idle with an offset in [-100, 150]. */
  function Rpm(speed: real, idle: real, u: real): (r: real)
    requires IsUnit(u)
    ensures speed < 1.0 ==> idle - 50.0 <= r <= idle + 50.0
    ensures speed >= 1.0 ==> idle + 40.0 * speed - 100.0 <= r <= idle + 40.0 * speed + 150.0
    ensures speed >= 0.0 ==> r >= idle - 60.0
  {
    if speed < 1.0 then idle + Uniform(-50.0, 50.0, u)
    else idle + speed * 40.0 + Uniform(-100.0, 150.0, u)
  }

  /** `get_maf`: within half a g/s of 2.5 g/s per 1000 rpm, the rpm being a
      fresh `get_rpm` draw. */
  function Maf(speed: real, idle: real, uRpm: real, uMaf: real): (m: real)
    requires IsUnit(uRpm) && IsUnit(uMaf)
    ensures var base := Rpm(speed, idle, uRpm) / 1000.0 * 2.5;
            base - 0.5 <= m <= base + 0.5
    ensures idle >= 700.0 && speed >= 0.0 ==> m >= 1.1
  {
    Rpm(speed, idle, uRpm) / 1000.0 * 2.5 + Uniform(-0.5, 0.5, uMaf)
  }

  /** `get_dtc_codes`: one thermostat code with probability 2%, none otherwise. */
  function DtcCodes(u: real): (codes: seq<(string, string)>)
    requires IsUnit(u)
    ensures codes != [] <==> u < DtcChance
    ensures codes != [] ==> codes == [("P0128", "Coolant Thermostat Temperature")]
  {
    if u < DtcChance then [("P0128", "Coolant Thermostat Temperature")] else []
  }

  /** The draws taken by the getters in `get_current_snapshot`: coolant,
      rpm, the rpm inside `get_maf`, the MAF jitter, and the DTC coin. */
  datatype ReadDraws = ReadDraws(coolant: real, rpm: real, mafRpm: real, maf: real, dtc: real)

  predicate ValidReadDraws(r: ReadDraws)
  {
    IsUnit(r.coolant) && IsUnit(r.rpm) && IsUnit(r.mafRpm) && IsUnit(r.maf) && IsUnit(r.dtc)
  }

  /** One reading of the simulator path, with the rounding left out. Unlike
      the real-device collector, every field here goes through Python's
      truthiness: a zero reading is reported as absent. */
  datatype SimSnapshot = SimSnapshot(
    timestamp: string,
    vehicleId: string,
    vehicleType: string,
    vinSerial: int,
    coolantTempCelsius: Option<real>,
    rpm: Option<real>,
    speedKmh: Option<real>,
    fuelLevelPercent: Option<real>,
    mafGs: Option<real>,
    fuelConsumptionKml: Option<real>,
    fuelFlowLh: Option<real>,
    distanceTraveledKm: Option<real>,
    dtcCodes: seq<Dtc>,
    hasErrors: bool,
    tripStart: real)

  /** The constant per-vehicle values drawn by `CustomOBDSimulator.__init__`. */
  datatype Profile = Profile(baseTemp: real, baseRpmIdle: real, vinSerial: int, tripStartTime: real)

  predicate ValidProfile(p: Profile)
  {
    82.0 <= p.baseTemp <= 90.0 && 700.0 <= p.baseRpmIdle <= 850.0 && 100000 <= p.vinSerial <= 999999
  }

  /** The snapshot that `get_current_snapshot` builds once `update` has run. */
  function TakeSnapshot(vehicleId: string, vehicleType: string, timestamp: string,
                        s: SimState, p: Profile, r: ReadDraws): (snap: SimSnapshot)
    requires ValidReadDraws(r)
    ensures snap.vehicleId == vehicleId && snap.vehicleType == vehicleType && snap.timestamp == timestamp
    ensures snap.coolantTempCelsius == Some(CoolantTemp(s.speed, p.baseTemp, r.coolant))
    ensures snap.coolantTempCelsius.Some? && 75.0 <= snap.coolantTempCelsius.value <= 105.0
    ensures snap.rpm == IfTruthy(Some(Rpm(s.speed, p.baseRpmIdle, r.rpm)))
    ensures var maf := Maf(s.speed, p.baseRpmIdle, r.mafRpm, r.maf);
            snap.mafGs == IfTruthy(Some(maf)) &&
            var c := CalculateFuelConsumption(Some(s.speed), Some(maf));
            snap.fuelConsumptionKml == IfTruthy(c.kmPerLiter) && snap.fuelFlowLh == IfTruthy(c.fuelFlow)
    ensures snap.speedKmh == (if s.speed == 0.0 then None else Some(s.speed))
    ensures snap.fuelLevelPercent == (if s.fuelLevel == 0.0 then None else Some(s.fuelLevel))
    ensures snap.distanceTraveledKm == (if s.distance == 0.0 then None else Some(s.distance))
    ensures s.speed == 0.0 ==> snap.fuelConsumptionKml.None? && snap.fuelFlowLh.None?
    ensures snap.hasErrors <==> snap.dtcCodes != []
    ensures snap.hasErrors <==> r.dtc < DtcChance
    ensures snap.hasErrors ==> snap.dtcCodes == [Dtc("P0128", "Coolant Thermostat Temperature")]
    ensures snap.vinSerial == p.vinSerial && snap.tripStart == p.tripStartTime
  {
    var temp := CoolantTemp(s.speed, p.baseTemp, r.coolant);
    var rpm := Rpm(s.speed, p.baseRpmIdle, r.rpm);
    var maf := Maf(s.speed, p.baseRpmIdle, r.mafRpm, r.maf);
    var dtc := DtcCodes(r.dtc);
    var c := CalculateFuelConsumption(Some(s.speed), Some(maf));
    var codes := seq(|dtc|, i requires 0 <= i < |dtc| => Dtc(dtc[i].0, dtc[i].1));
    SimSnapshot(timestamp, vehicleId, vehicleType, p.vinSerial,
                IfTruthy(Some(temp)), IfTruthy(Some(rpm)), IfTruthy(Some(s.speed)),
                IfTruthy(Some(s.fuelLevel)), IfTruthy(Some(maf)),
                IfTruthy(c.kmPerLiter), IfTruthy(c.fuelFlow), IfTruthy(Some(s.distance)),
                codes, dtc != [], p.tripStartTime)
  }

  /** In every state the simulator can reach, its snapshot reports a fuel
      level in [5, 95], a positive rpm, and a speed that is absent or in
      (0, 85]; while moving, speed is at least 10 and both km/L and L/h are
      present and positive. */
  lemma SnapshotPlausible(vehicleId: string, vehicleType: string, timestamp: string,
                          s: SimState, p: Profile, r: ReadDraws)
    requires ValidState(s) && ValidProfile(p) && ValidReadDraws(r)
    ensures var snap := TakeSnapshot(vehicleId, vehicleType, timestamp, s, p, r);
            snap.fuelLevelPercent.Some? && MinFuelLevel <= snap.fuelLevelPercent.value <= 95.0 &&
            snap.rpm.Some? && snap.rpm.value > 0.0 &&
            (snap.speedKmh.None? || 0.0 < snap.speedKmh.value <= 85.0) &&
            (s.isMoving ==>
               snap.speedKmh.Some? && snap.speedKmh.value >= 10.0 &&
               snap.fuelConsumptionKml.Some? && snap.fuelConsumptionKml.value > 0.0 &&
               snap.fuelFlowLh.Some? && snap.fuelFlowLh.value > 0.0)
  {
    var rpm := Rpm(s.speed, p.baseRpmIdle, r.rpm);
    assert rpm > 0.0;
    if s.isMoving {
      var maf := Maf(s.speed, p.baseRpmIdle, r.mafRpm, r.maf);
      PositiveFlowGivesEfficiency(s.speed, maf);
    }
  }

  // ---------------------------------------------------------------------
  // The simulator and collector objects
  // ---------------------------------------------------------------------

  class CustomObdSimulator {
    const vehicleId: string
    var distance: real
    var fuelLevel: real
    var speed: real
    var isMoving: bool
    var lastTime: real
    const baseTemp: real
    const baseRpmIdle: real
    const vinSerial: int
    const tripStartTime: real

    function State(): SimState
      reads this
    {
      SimState(isMoving, speed, distance, fuelLevel, lastTime)
    }

    function GetProfile(): Profile
    {
      Profile(baseTemp, baseRpmIdle, vinSerial, tripStartTime)
    }

    predicate Valid()
      reads this
    {
      ValidState(State()) && ValidProfile(GetProfile())
    }

    /** `__init__`: `tripClock` and `updateClock` are its two clock readings,
        for the trip start and the last update; the other parameters are its
        random draws. */
    constructor (vehicleId: string, tripClock: real, updateClock: real,
                 uFuel: real, uTemp: real, uIdle: real,
                 coin: real, uSpeed: real, vinSerial: int)
      requires IsUnit(uFuel) && IsUnit(uTemp) && IsUnit(uIdle) && IsUnit(coin) && IsUnit(uSpeed)
      requires 100000 <= vinSerial <= 999999
      ensures Valid()
      ensures this.vehicleId == vehicleId && this.vinSerial == vinSerial
      ensures distance == 0.0 && lastTime == updateClock && tripStartTime == tripClock
      ensures fuelLevel == Uniform(40.0, 95.0, uFuel)
      ensures baseTemp == Uniform(82.0, 90.0, uTemp) && baseRpmIdle == Uniform(700.0, 850.0, uIdle)
      ensures isMoving == (coin > 0.5)
      ensures speed == if coin > 0.5 then Uniform(30.0, 60.0, uSpeed) else 0.0
    {
      this.vehicleId := vehicleId;
      distance := 0.0;
      fuelLevel := Uniform(40.0, 95.0, uFuel);
      speed := 0.0;
      isMoving := false;
      tripStartTime := tripClock;
      lastTime := updateClock;
      baseTemp := Uniform(82.0, 90.0, uTemp);
      baseRpmIdle := Uniform(700.0, 850.0, uIdle);
      this.vinSerial := vinSerial;
      new;
      if coin > 0.5 {
        isMoving := true;
        speed := Uniform(30.0, 60.0, uSpeed);
      }
    }

    /** `update()`, step by step as the source does it. */
    method Update(d: UpdateDraws, now: real)
      requires Valid() && ValidUpdateDraws(d)
      modifies this
      ensures Valid()
      ensures State() == Tick(old(State()), d, now)
    {
      var moving, v := isMoving, speed;
      if d.toggle < ToggleChance {
        moving := !moving;
        if moving {
          v := Uniform(20.0, 40.0, d.restart);
        }
      }

      if moving {
        var change := Uniform(-3.0, 5.0, d.change);
        v := v + change;
        v := MaxReal(10.0, MinReal(v, 85.0));
      } else {
        v := MaxReal(0.0, v - Uniform(8.0, 15.0, d.brake));
      }
      assert moving == NextMoving(isMoving, d) && v == NextSpeed(isMoving, speed, d);

      var dt := now - lastTime;
      var travelled := distance;
      if v > 0.0 {
        travelled := travelled + v * (dt / 3600.0);
      }
      assert travelled == Travel(distance, v, dt);

      var fuel := fuelLevel;
      if v > 0.0 {
        var rate := BurnRate(v);
        fuel := fuel - rate;
        fuel := MaxReal(MinFuelLevel, fuel);
      }
      assert fuel == Burn(fuelLevel, v);

      isMoving, speed, distance, lastTime, fuelLevel := moving, v, travelled, now, fuel;
      TickSpec(old(State()), d, now);
    }
  }

  class VehicleDataCollector {
    const vehicleId: string
    const vehicleType: string
    const simulator: CustomObdSimulator
    var allReadings: seq<SimSnapshot>

    predicate Valid()
      reads this, simulator
    {
      simulator.Valid() && |allReadings| <= History.MaxReadings
    }

    /** `__init__` with `use_simulator=True`: the collector builds its own
        simulator for `vehicleId`; the remaining parameters are that
        simulator's clock readings and draws. */
    constructor (vehicleId: string, vehicleType: string, tripClock: real, updateClock: real,
                 uFuel: real, uTemp: real, uIdle: real, coin: real, uSpeed: real, vinSerial: int)
      requires IsUnit(uFuel) && IsUnit(uTemp) && IsUnit(uIdle) && IsUnit(coin) && IsUnit(uSpeed)
      requires 100000 <= vinSerial <= 999999
      ensures Valid() && fresh(simulator)
      ensures this.vehicleId == vehicleId && this.vehicleType == vehicleType && allReadings == []
      ensures simulator.vehicleId == vehicleId && simulator.vinSerial == vinSerial
      ensures simulator.State() ==
                SimState(coin > 0.5, if coin > 0.5 then Uniform(30.0, 60.0, uSpeed) else 0.0,
                         0.0, Uniform(40.0, 95.0, uFuel), updateClock)
      ensures simulator.tripStartTime == tripClock
    {
      this.vehicleId := vehicleId;
      this.vehicleType := vehicleType;
      simulator := new CustomObdSimulator(vehicleId, tripClock, updateClock,
                                          uFuel, uTemp, uIdle, coin, uSpeed, vinSerial);
      allReadings := [];
    }

    /** `get_current_snapshot` on the simulator path: advance the simulator,
        then read it. */
    method GetCurrentSnapshot(u: UpdateDraws, r: ReadDraws, now: real, timestamp: string)
      returns (snap: SimSnapshot)
      requires Valid() && ValidUpdateDraws(u) && ValidReadDraws(r)
      modifies simulator
      ensures Valid()
      ensures simulator.State() == Tick(old(simulator.State()), u, now)
      ensures snap == TakeSnapshot(vehicleId, vehicleType, timestamp, simulator.State(), simulator.GetProfile(), r)
    {
      simulator.Update(u, now);
      snap := TakeSnapshot(vehicleId, vehicleType, timestamp, simulator.State(), simulator.GetProfile(), r);
    }

    /** `save_local`: append, truncate to the most recent 1000, then write;
        `writeSucceeds` stands for the outcome of the write. */
    method SaveLocal(snapshot: SimSnapshot, writeSucceeds: bool) returns (saved: bool)
      requires Valid()
      modifies this`allReadings
      ensures Valid()
      ensures allReadings == History.Append(old(allReadings), snapshot)
      ensures allReadings[|allReadings| - 1] == snapshot
      ensures saved == writeSucceeds
    {
      allReadings := allReadings + [snapshot];
      if |allReadings| > History.MaxReadings {
        allReadings := allReadings[|allReadings| - History.MaxReadings..];
      }
      saved := writeSucceeds;
    }
  }
}
