/** The simplified simulator of index.py (`OBDSimulator`): a speed/rpm/
    temperature state advanced once per tick according to a driving mode,
    and the payload it sends. `random.randint` draws are integer parameters
    whose range depends on the mode; `random.uniform` is `Telemetry.Uniform`
    of a `random.random()` draw. */
module SimpleSimulator {
  import opened Telemetry

  const MaxSpeed: int := 120
  /** Seconds between two ticks of `simular_viagem`. */
  const TickInterval: int := 2
  const PayloadSource: string := "simulador_v3_simples"

  /** The driving modes 'parado', 'acelerando', 'rodando' and 'freando', and
      any other string, which matches none of the branches. */
  datatype Mode = Idle | Accelerating | Cruising | Braking | Unrecognised

  /** The string comparisons of `gerar_dados`. */
  function ModeOf(name: string): (m: Mode)
    ensures m == Idle <==> name == "parado"
    ensures m == Accelerating <==> name == "acelerando"
    ensures m == Cruising <==> name == "rodando"
    ensures m == Braking <==> name == "freando"
  {
    if name == "parado" then Idle
    else if name == "acelerando" then Accelerating
    else if name == "rodando" then Cruising
    else if name == "freando" then Braking
    else Unrecognised
  }

  /** `velocidade_atual`, `rpm_atual` and `temperatura`. */
  datatype CarState = CarState(speed: int, rpm: int, temperature: real)

  const Initial: CarState := CarState(0, 800, 60.0)

  /** What holds after any number of ticks from `Initial`. */
  predicate ValidCar(s: CarState)
  {
    0 <= s.speed <= MaxSpeed && 700 <= s.rpm <= 4500 && 60.0 <= s.temperature <= 95.0
  }

  /** The draws of one tick: the speed step (or new speed), the rpm, the
      km/L draw, the temperature draw and `nivelCombustivel`. */
  datatype TickDraws = TickDraws(step: int, rpm: int, consumption: real, temperature: real, fuelLevel: int)

  /** The `randint` ranges of the branch `mode` takes. */
  predicate DrawsFit(mode: Mode, d: TickDraws)
  {
    IsUnit(d.consumption) && IsUnit(d.temperature) && 40 <= d.fuelLevel <= 90 &&
    match mode
    case Idle => 700 <= d.rpm <= 900
    case Accelerating => 5 <= d.step <= 15 && 2000 <= d.rpm <= 4500
    case Cruising => 60 <= d.step <= 90 && 1500 <= d.rpm <= 2500
    case Braking => 10 <= d.step <= 20 && 1000 <= d.rpm <= 2000
    case Unrecognised => true
  }

  /** The JSON body sent by `enviar_dados`, with the rounding left out. */
  datatype Payload = Payload(
    speed: int, rpm: int, temperature: real, fuelLevel: int,
    consumption: real, distance: real,
    milStatus: bool, dtcCount: int, source: string)

  /** The temperature rule: 0.5 degrees warmer per tick below 90, otherwise
      a fresh value in [88, 95]. */
  function NextTemperature(t: real, u: real): (r: real)
    requires IsUnit(u)
    ensures t < 90.0 ==> r == t + 0.5
    ensures t >= 90.0 ==> 88.0 <= r <= 95.0
    ensures t >= 88.0 ==> r >= 88.0
    ensures t <= 95.0 ==> r <= 95.0
    ensures t < 88.0 ==> r > t
  {
    if t < 90.0 then t + 0.5 else Uniform(88.0, 95.0, u)
  }

  /** `distanciaPercorrida`: (speed / 3600) * interval, in km. */
  function IntervalDistance(speed: int, interval: int): (d: real)
    ensures d * 3600.0 == (speed * interval) as real
    ensures speed >= 0 && interval >= 0 ==> d >= 0.0
    ensures speed == 0 ==> d == 0.0
  {
    (speed as real / 3600.0) * interval as real
  }

  /** One call of `gerar_dados(modo, intervalo_segundos)`: the new state and
      the payload. */
  function Generate(s: CarState, mode: Mode, interval: int, d: TickDraws): (r: (CarState, Payload))
    requires DrawsFit(mode, d)
    ensures r.1.speed == r.0.speed && r.1.rpm == r.0.rpm && r.1.temperature == r.0.temperature
    ensures r.1.source == PayloadSource && !r.1.milStatus && r.1.dtcCount == 0
  {
    var (speed, rpm, consumption) :=
      match mode
      case Idle => (0, d.rpm, 0.0)
      case Accelerating =>
        (if s.speed + d.step <= MaxSpeed then s.speed + d.step else MaxSpeed, d.rpm, Uniform(4.0, 6.0, d.consumption))
      case Cruising => (d.step, d.rpm, Uniform(10.0, 14.0, d.consumption))
      case Braking =>
        (if s.speed - d.step >= 0 then s.speed - d.step else 0, d.rpm, Uniform(18.0, 25.0, d.consumption))
      case Unrecognised => (s.speed, s.rpm, 0.0);
    var temperature := NextTemperature(s.temperature, d.temperature);
    var distance := IntervalDistance(speed, interval);
    (CarState(speed, rpm, temperature),
     Payload(speed, rpm, temperature, d.fuelLevel, consumption, distance, false, 0, PayloadSource))
  }

  /** What one tick promises: the payload echoes the new state with no
      error flag, the speed and rpm follow the mode's branch, the
      temperature rule applies, and a valid state stays valid. */
  lemma GenerateSpec(s: CarState, mode: Mode, interval: int, d: TickDraws)
    requires DrawsFit(mode, d)
    ensures var (t, p) := Generate(s, mode, interval, d);
            p.speed == t.speed && p.rpm == t.rpm && p.temperature == t.temperature &&
            !p.milStatus && p.dtcCount == 0 && p.source == PayloadSource &&
            40 <= p.fuelLevel <= 90 &&
            p.distance * 3600.0 == (t.speed * interval) as real
    ensures var (t, p) := Generate(s, mode, interval, d);
            mode == Idle ==> t.speed == 0 && 700 <= t.rpm <= 900 && p.consumption == 0.0 && p.distance == 0.0
    ensures var (t, p) := Generate(s, mode, interval, d);
            mode == Accelerating ==>
              t.speed <= MaxSpeed && (t.speed == MaxSpeed || t.speed == s.speed + d.step) &&
              (s.speed + d.step >= MaxSpeed ==> t.speed == MaxSpeed) &&
              (s.speed + d.step < MaxSpeed ==> t.speed == s.speed + d.step) &&
              2000 <= t.rpm <= 4500 && 4.0 <= p.consumption <= 6.0
    ensures var (t, p) := Generate(s, mode, interval, d);
            mode == Cruising ==> 60 <= t.speed <= 90 && 1500 <= t.rpm <= 2500 && 10.0 <= p.consumption <= 14.0
    ensures var (t, p) := Generate(s, mode, interval, d);
            mode == Braking ==>
              t.speed >= 0 && (t.speed == 0 || t.speed == s.speed - d.step) &&
              (s.speed <= d.step ==> t.speed == 0) &&
              (s.speed > d.step ==> t.speed == s.speed - d.step) &&
              1000 <= t.rpm <= 2000 && 18.0 <= p.consumption <= 25.0
    ensures var (t, p) := Generate(s, mode, interval, d);
            mode == Unrecognised ==> t.speed == s.speed && t.rpm == s.rpm && p.consumption == 0.0
    ensures Generate(s, mode, interval, d).0.temperature == NextTemperature(s.temperature, d.temperature)
    ensures ValidCar(s) ==> ValidCar(Generate(s, mode, interval, d).0)
  {
  }

  /** The worked example: accelerating from 50 km/h over 2 s gives a speed in
      [55, 65] and covers that speed times 2/3600 km. */
  lemma AcceleratingFromFifty(d: TickDraws)
    requires DrawsFit(Accelerating, d)
    ensures var (t, p) := Generate(CarState(50, 800, 60.0), Accelerating, 2, d);
            55 <= t.speed <= 65 && p.distance == t.speed as real * 2.0 / 3600.0
  {
    GenerateSpec(CarState(50, 800, 60.0), Accelerating, 2, d);
  }

  // ---------------------------------------------------------------------
  // The trip schedule of `simular_viagem`
  // ---------------------------------------------------------------------

  /** The mode chosen for elapsed time `t` (in seconds). */
  function ScheduledMode(t: real): (name: string)
    ensures ModeOf(name) != Unrecognised
  {
    if t < 10.0 then "parado"
    else if t < 25.0 then "acelerando"
    else if t < 50.0 then "rodando"
    else "freando"
  }

  /** Position of a mode in the trip. */
  function Phase(m: Mode): (p: nat)
  {
    match m
    case Idle => 0
    case Accelerating => 1
    case Cruising => 2
    case Braking => 3
    case Unrecognised => 4
  }

  /** The phases of a trip never go backwards as time goes on. */
  lemma ScheduleMonotone(t1: real, t2: real)
    requires t1 <= t2
    ensures Phase(ModeOf(ScheduledMode(t1))) <= Phase(ModeOf(ScheduledMode(t2)))
  {
  }

  predicate TripDrawsFit(times: seq<real>, draws: seq<TickDraws>)
  {
    |draws| == |times| &&
    forall k :: 0 <= k < |times| ==> DrawsFit(ModeOf(ScheduledMode(times[k])), draws[k])
  }

  /** The ticks of a trip whose clock read `times`, oldest first: the final
      state and the payloads sent. */
  function Trip(s: CarState, times: seq<real>, draws: seq<TickDraws>): (r: (CarState, seq<Payload>))
    requires TripDrawsFit(times, draws)
    ensures |r.1| == |times|
    decreases |times|
  {
    if times == [] then (s, [])
    else
      var n := |times| - 1;
      assert TripDrawsFit(times[..n], draws[..n]) by {
        forall k | 0 <= k < n ensures DrawsFit(ModeOf(ScheduledMode(times[..n][k])), draws[..n][k]) {
          assert times[..n][k] == times[k] && draws[..n][k] == draws[k];
        }
      }
      var (before, sent) := Trip(s, times[..n], draws[..n]);
      var (after, p) := Generate(before, ModeOf(ScheduledMode(times[n])), TickInterval, draws[n]);
      (after, sent + [p])
  }

  /** Any prefix of a trip's readings still fits its draws. */
  lemma PrefixFits(times: seq<real>, draws: seq<TickDraws>, n: nat)
    requires TripDrawsFit(times, draws) && n <= |times|
    ensures TripDrawsFit(times[..n], draws[..n])
  {
    forall k | 0 <= k < n ensures DrawsFit(ModeOf(ScheduledMode(times[..n][k])), draws[..n][k]) {
      assert times[..n][k] == times[k] && draws[..n][k] == draws[k];
    }
  }

  /** Extending a trip by one reading adds one tick at its end. */
  lemma TripExtend(s: CarState, times: seq<real>, draws: seq<TickDraws>, i: nat)
    requires TripDrawsFit(times, draws) && i < |times|
    ensures TripDrawsFit(times[..i], draws[..i]) && TripDrawsFit(times[..i + 1], draws[..i + 1])
    ensures var (before, sent) := Trip(s, times[..i], draws[..i]);
            var (after, p) := Generate(before, ModeOf(ScheduledMode(times[i])), TickInterval, draws[i]);
            Trip(s, times[..i + 1], draws[..i + 1]) == (after, sent + [p])
  {
    PrefixFits(times, draws, i);
    PrefixFits(times, draws, i + 1);
    assert times[..i + 1][..i] == times[..i] && draws[..i + 1][..i] == draws[..i];
    assert times[..i + 1][i] == times[i] && draws[..i + 1][i] == draws[i];
  }

  /** Over a whole trip from a valid state: one payload per tick, every
      payload within the bounds (speed in [0, 120], temperature in [60, 95],
      non-negative distance, no error flag), and a temperature that has
      reached 88 never drops below it again. */
  lemma {:induction false} TripBounds(s: CarState, times: seq<real>, draws: seq<TickDraws>)
    requires ValidCar(s) && TripDrawsFit(times, draws)
    ensures var (e, sent) := Trip(s, times, draws);
            ValidCar(e) && |sent| == |times| &&
            (s.temperature >= 88.0 ==> e.temperature >= 88.0) &&
            forall k :: 0 <= k < |sent| ==>
              0 <= sent[k].speed <= MaxSpeed && 60.0 <= sent[k].temperature <= 95.0 &&
              sent[k].distance >= 0.0 && !sent[k].milStatus && sent[k].dtcCount == 0 &&
              (s.temperature >= 88.0 ==> sent[k].temperature >= 88.0)
    ensures var (e, sent) := Trip(s, times, draws);
            sent != [] ==> e.temperature == sent[|sent| - 1].temperature
    ensures var (e, sent) := Trip(s, times, draws);
            forall j, k :: 0 <= j <= k < |sent| && sent[j].temperature >= 88.0 ==> sent[k].temperature >= 88.0
    decreases |times|
  {
    if times != [] {
      var n := |times| - 1;
      PrefixFits(times, draws, n);
      TripBounds(s, times[..n], draws[..n]);
      var (before, sent) := Trip(s, times[..n], draws[..n]);
      GenerateSpec(before, ModeOf(ScheduledMode(times[n])), TickInterval, draws[n]);
      var (after, p) := Generate(before, ModeOf(ScheduledMode(times[n])), TickInterval, draws[n]);
      assert Trip(s, times, draws) == (after, sent + [p]);
      assert p.distance >= 0.0 by {
        assert p.distance * 3600.0 == (after.speed * TickInterval) as real;
      }
    }
  }

  // ---------------------------------------------------------------------
  // The simulator object
  // ---------------------------------------------------------------------

  class SimpleObdSimulator {
    const apiUrl: string
    const carId: string
    const endpoint: string
    var speed: int
    var rpm: int
    var temperature: real

    function State(): CarState
      reads this
    {
      CarState(speed, rpm, temperature)
    }

    predicate Valid()
      reads this
    {
      ValidCar(State())
    }

    /** `__init__`: speed 0, rpm 800, temperature 60, and the endpoint
        `{api_url}/api/vehicle/{carro_id}/dados-obd`. */
    constructor (apiUrl: string, carId: string)
      ensures Valid() && State() == Initial
      ensures this.apiUrl == apiUrl && this.carId == carId
      ensures endpoint == apiUrl + "/api/vehicle/" + carId + "/dados-obd"
    {
      this.apiUrl := apiUrl;
      this.carId := carId;
      endpoint := apiUrl + "/api/vehicle/" + carId + "/dados-obd";
      speed := 0;
      rpm := 800;
      temperature := 60.0;
    }

    /** `gerar_dados(modo, intervalo_segundos)`, step by step. */
    method GenerateData(mode: string, interval: int, d: TickDraws) returns (p: Payload)
      requires Valid() && DrawsFit(ModeOf(mode), d)
      modifies this
      ensures Valid()
      ensures (State(), p) == Generate(old(State()), ModeOf(mode), interval, d)
    {
      ghost var m := ModeOf(mode);
      var consumption := 0.0;

      if mode == "parado" {
        speed := 0;
        rpm := d.rpm;
        consumption := 0.0;
      } else if mode == "acelerando" {
        speed := if speed + d.step <= MaxSpeed then speed + d.step else MaxSpeed;
        rpm := d.rpm;
        consumption := Uniform(4.0, 6.0, d.consumption);
      } else if mode == "rodando" {
        speed := d.step;
        rpm := d.rpm;
        consumption := Uniform(10.0, 14.0, d.consumption);
      } else if mode == "freando" {
        speed := if speed - d.step >= 0 then speed - d.step else 0;
        rpm := d.rpm;
        consumption := Uniform(18.0, 25.0, d.consumption);
      } else {
        assert m == Unrecognised;
      }

      if temperature < 90.0 {
        temperature := temperature + 0.5;
      } else {
        temperature := Uniform(88.0, 95.0, d.temperature);
      }

      var distance := (speed as real / 3600.0) * interval as real;
      assert distance == IntervalDistance(speed, interval);
      ghost var expected := Generate(old(State()), m, interval, d);
      assert State() == expected.0;
      GenerateSpec(old(State()), m, interval, d);

      p := Payload(speed, rpm, temperature, d.fuelLevel, consumption, distance, false, 0, PayloadSource);
    }

    /** `simular_viagem(duracao_segundos)`: `times[k]` is the elapsed time the
        loop reads on its k-th check, and `draws[k]` the draws of that tick.
        The loop runs while the elapsed time is below `duration`; the
        payloads it hands to `enviar_dados` are returned. */
    method SimulateTrip(duration: real, times: seq<real>, draws: seq<TickDraws>)
      returns (sent: seq<Payload>)
      requires Valid() && TripDrawsFit(times, draws)
      modifies this
      ensures Valid()
      ensures |sent| <= |times|
      ensures forall k :: 0 <= k < |sent| ==> times[k] < duration
      ensures |sent| < |times| ==> times[|sent|] >= duration
      ensures TripDrawsFit(times[..|sent|], draws[..|sent|])
      ensures (State(), sent) == Trip(old(State()), times[..|sent|], draws[..|sent|])
    {
      ghost var start := State();
      PrefixFits(times, draws, 0);
      sent := [];
      var i := 0;
      while i < |times| && times[i] < duration
        invariant 0 <= i <= |times| && |sent| == i
        invariant Valid()
        invariant forall k :: 0 <= k < i ==> times[k] < duration
        invariant TripDrawsFit(times[..i], draws[..i])
        invariant (State(), sent) == Trip(start, times[..i], draws[..i])
      {
        assert forall k :: 0 <= k < i + 1 ==> times[k] < duration;
        TripExtend(start, times, draws, i);
        assert DrawsFit(ModeOf(ScheduledMode(times[i])), draws[i]);
        var p := GenerateData(ScheduledMode(times[i]), TickInterval, draws[i]);
        sent := sent + [p];
        i := i + 1;
      }
    }
  }
}
