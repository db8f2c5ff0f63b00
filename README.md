# Vehicle telemetry simulators and collectors, modelled in Dafny

The repository holds three near-duplicate telemetry scripts:

- `obd_collector.py` reads a real OBD-II device. It normalises the readings
  into a snapshot, integrates a trip odometer, keeps a bounded in-memory
  history and retries the device connection a bounded number of times.
- `obd_simulator.py` generates the readings itself. A `CustomOBDSimulator`
  toggles between moving and stopped, clamps its speed, integrates distance
  and burns fuel. A `VehicleDataCollector` turns its readings into snapshots
  and keeps the same bounded history.
- `index.py` is a simpler simulator. It has four driving modes ('parado',
  'acelerando', 'rodando', 'freando'), a warm-up temperature rule and a
  time-based trip schedule. It builds the payload it would send.

This project models the state evolution and the snapshot logic of all three.
It leaves out the device, file, network, clock and console plumbing.
Every random draw is a parameter. A `random.random()` draw is a real in [0, 1).
`random.uniform(a, b)` is `Telemetry.Uniform`, which is `a + (b - a) * u`, the
way CPython defines it. A `random.randint(a, b)` draw is an integer parameter,
and the `requires` clause gives its range as it applies in the branch that
takes it. Each clock reading (`time.time()`) is a parameter too.

Modules:

- `Wrappers` (wrappers.dfy) has `Option`, which stands for Python's `None`.
- `History` (history.dfy) models the `all_readings` truncation that both
  `save_local` methods perform.
- `Telemetry` (telemetry.dfy) holds what the scripts share: the
  `{code, description}` record, Python's `x if x else None`,
  `random.uniform`, and `_calculate_fuel_consumption`. That function is
  identical in obd_collector.py:233-247 and obd_simulator.py:241-255.
- `ObdCollector` (obd_collector.dfy) models obd_collector.py.
- `ObdSimulator` (obd_simulator.dfy) models obd_simulator.py.
- `SimpleSimulator` (index.dfy) models index.py.

An object whose fields the source updates in place is a class, and its
methods change those fields step by step. Each class method is tied to a
pure function of the old state (`Tick`, `Generate`, `History.Append`).
The lemmas are about these functions: bounds that hold over any run of
ticks, monotone odometers and fuel levels, and the retained history after any
number of saves.

Some facts about the code that the model keeps:

- `_calculate_fuel_consumption` returns 0 km/L, not None, when the fuel
  flow is not positive. The snapshot drops that 0, because it tests
  truthiness.
- A zero MAF gives absent consumption only at the snapshot level
  (`Telemetry.SnapshotConsumptionAbsent`). The function itself returns
  `(0, 0)` for a zero MAF and a non-zero speed.
- No script keeps a cumulative fuel-consumed total.
- Only `get_coolant_temp` clamps temperature to [75, 105]. The temperature
  in index.py starts at 60 and stays within [60, 95].
- After a save, the history holds the last 999 earlier entries plus the new
  snapshot. The append happens before the truncation to 1000.

Some behaviour of the source is easy to miss, and the model keeps it:

- The simulator path in obd_simulator.py maps every reading (temperature,
  rpm, speed, fuel, MAF, consumption and odometer) through truthiness. The
  timestamp, the ids, the VIN and the trip start pass through unchanged. A stopped vehicle therefore reports its speed as absent, and so
  does a zero odometer. The real-device collector keeps a present 0.
- `save_local` updates the list before it writes the file, so the list
  changes even when the write fails.
- An empty tuple in the DTC list is not "a tuple of length >= 1". It is
  formatted as `str(())`, which is "()".

## Model

| member | source | states |
|---|---|---|
| History.KeepRecent | obd_collector.py:254-256 | the kept history is the suffix of length min(n, 1000) of the list |
| History.Append | obd_collector.py:252-256 | after a save the history has 1 to 1000 entries and ends with the new snapshot; below 1000 nothing is evicted; at 1000 or more it is the last 999 earlier entries plus the snapshot |
| History.AppendAll | obd_collector.py:252-256 | a run of saves: no saves leave the history unchanged; after one or more the history has 1 to 1000 entries and ends with the last snapshot saved |
| History.KeepRecentAbsorbs | obd_collector.py:254-256 | truncating a truncated list after further appends is the same as truncating once at the end |
| History.AppendAllKeepsMostRecent | obd_collector.py:252-256 | from any history of at most 1000 entries, any run of saves leaves exactly the most recent 1000 of everything seen, oldest evicted first |
| History.FromEmptyKeepsLastThousand | obd_simulator.py:260-264 | from an empty history, 1000 or more saves leave exactly the last 1000 snapshots, in order |
| Telemetry.Uniform | obd_simulator.py:65 | `random.uniform(a, b)` lies in [a, b] |
| Telemetry.IfTruthy | obd_collector.py:180-181 | `x if x else None` is present exactly when x is present and non-zero, and then equals x |
| Telemetry.FuelFlow | obd_collector.py:242 | flow · (14.7 · 720) = maf · 3600; the flow is positive (zero) exactly when the MAF is positive (zero) |
| Telemetry.CalculateFuelConsumption | obd_collector.py:233-247 | both results are absent exactly when speed or MAF is missing or speed is 0; otherwise flow = maf·3600/(14.7·720), and km/L · flow = speed when flow > 0, km/L = 0 when flow <= 0 |
| Telemetry.WorkedExample | obd_collector.py:239-245 | 80 km/h at 8 g/s gives 28800/10584 L/h and 29.4 km/L |
| Telemetry.PositiveFlowGivesEfficiency | obd_collector.py:242-243 | a non-zero speed and a positive MAF give a positive flow and a km/L figure that is positive exactly when the speed is |
| Telemetry.SnapshotConsumptionAbsent | obd_collector.py:180-181 | for a missing or zero speed, or a missing or zero MAF, the snapshot reports neither km/L nor L/h |
| ObdCollector.ExtractValue | obd_collector.py:190-209 | a reading is present exactly when the response is not null, has a value and that value is numeric; it then equals the magnitude |
| ObdCollector.FormatCode | obd_collector.py:219-228 | a tuple of length >= 1 gives its first element as the code, its second as the description when there is one, and "Unknown" otherwise; any other value, and the empty tuple as "()", gives its string form as the code and "Unknown" as the description |
| ObdCollector.FormatDtc | obd_collector.py:211-231 | an absent or empty list gives []; otherwise one record per code, in order, each the formatting of its own raw code: a tuple of 2 or more gives (c[0], c[1]), a 1-tuple (c[0], "Unknown"), a non-tuple (str(c), "Unknown"), the empty tuple ("()", "Unknown") |
| ObdCollector.AccumulateDistance | obd_collector.py:160-164 | a missing speed leaves the odometer unchanged; a present one adds speed·dt/3600 |
| ObdCollector.DistanceMonotone | obd_collector.py:160-164 | for a non-negative speed and elapsed time the odometer never decreases |
| ObdCollector.DistanceAdditive | obd_collector.py:163 | integrating a speed over two intervals equals integrating it over their sum |
| ObdCollector.BuildSnapshot | obd_collector.py:166-186 | present readings (0 included) are kept and missing ones are absent; km/L and L/h are absent when zero or missing, and always absent for a missing or zero speed or MAF; the i-th DTC record is `_format_dtc`'s record for the i-th raw code; has_errors holds exactly when there are codes |
| ObdCollector.RealObdCollector.constructor | obd_collector.py:47-61 | a new collector has odometer 0, no readings, no VIN, and its last time is the creation time |
| ObdCollector.RealObdCollector.GetCurrentSnapshot | obd_collector.py:140-188 | the last time becomes now; the odometer advances only with a speed reading and never backwards for a forward clock; the snapshot carries the vehicle id and type, the extracted readings, the new odometer, the derived consumption and one formatted record per raw DTC code, in order; has_errors holds exactly when there are codes |
| ObdCollector.RealObdCollector.SaveLocal | obd_collector.py:249-270 | the history becomes the appended and truncated list, ends with the snapshot and keeps at most 1000 entries; the result is the outcome of the file write |
| ObdCollector.ConnectWithRetries | obd_collector.py:316-340 | at most 3 attempts; connected exactly when some attempt could succeed, and then the last attempt made is the first success; it gives up only after all 3 attempts; it sleeps 5 s between attempts and never after the last one |
| ObdSimulator.NextMoving | obd_simulator.py:61-62 | the moving flag changes exactly on a draw below 10% |
| ObdSimulator.NextSpeed | obd_simulator.py:61-76 | the new speed is never negative; it is in [10, 85] when the vehicle is now moving, and otherwise at most the old speed (or 0) |
| ObdSimulator.Travel | obd_simulator.py:79-83 | the odometer is unchanged at a speed of 0 or less, and never decreases at a positive speed over a non-negative dt |
| ObdSimulator.Burn | obd_simulator.py:86-90 | the fuel level is unchanged at a speed of 0 or less; at a positive speed it is at least 5 and, from 5 or more, never rises |
| ObdSimulator.Tick | obd_simulator.py:58-90 | one `update`: the last time becomes the clock reading, the moving flag is the toggled one, and a moving vehicle has a speed in [10, 85] |
| ObdSimulator.Run | obd_simulator.py:58-90 | a run of updates: no updates leave the state unchanged, and otherwise the last time is the last clock reading |
| ObdSimulator.TickSpec | obd_simulator.py:58-90 | the moving flag flips with probability 10%; while moving the speed is in [10, 85], and in [17, 45] just after starting; while it stays moving from a speed in [10, 85] the new speed is within −3..+5 of the old one; while stopped it is max(0, v − d) with 8 <= d <= 15, never negative and never higher; the distance grows by speed·dt/3600 only when speed > 0 and never shrinks for dt >= 0; while moving the fuel drops by exactly 0.002 + v/10000 unless that would go below 5, when it stops at 5; it never rises; the bounds are preserved |
| ObdSimulator.RunMonotone | obd_simulator.py:58-90 | over any run of updates with a clock that does not go back, the state bounds hold, the odometer never decreases and the fuel level never increases |
| ObdSimulator.CoolantTemp | obd_simulator.py:92-98 | the temperature is always in [75, 105]; without clamping it is base+[2, 8] above 40 km/h and base+[−3, 3] otherwise |
| ObdSimulator.Rpm | obd_simulator.py:100-109 | below 1 km/h the rpm is idle ± 50; otherwise idle + 40·speed plus an offset in [−100, 150] |
| ObdSimulator.Maf | obd_simulator.py:119-123 | the MAF is within 0.5 g/s of 2.5 g/s per 1000 rpm, and at least 1.1 g/s for an idle of 700 or more |
| ObdSimulator.DtcCodes | obd_simulator.py:125-129 | the list is non-empty exactly on a 2% draw, and then it is exactly [("P0128", "Coolant Thermostat Temperature")] |
| ObdSimulator.TakeSnapshot | obd_simulator.py:187-239 | the vehicle id, type and timestamp are passed through; the coolant temperature is the `get_coolant_temp` reading, present and in [75, 105]; rpm and MAF are the `get_rpm` and `get_maf` readings, absent when zero; km/L and L/h are `_calculate_fuel_consumption` of the speed and that MAF, absent when zero; speed, fuel and distance are absent exactly when zero; there is no consumption at speed 0; has_errors holds exactly when there are codes, and the codes are none or the single P0128 record |
| ObdSimulator.SnapshotPlausible | obd_simulator.py:217-237 | from any valid state the snapshot has fuel in [5, 95], a positive rpm, and a speed that is absent or in (0, 85]; while moving the speed is at least 10 and km/L and L/h are present and positive |
| ObdSimulator.CustomObdSimulator.constructor | obd_simulator.py:35-56 | fuel is drawn in [40, 95], the base temperature in [82, 90] and the idle rpm in [700, 850]; the trip start and the last update time are the two clock readings; the simulator is moving with a speed in [30, 60] exactly on a coin above 0.5, and otherwise stopped at 0 |
| ObdSimulator.CustomObdSimulator.Update | obd_simulator.py:58-90 | the new state is `Tick` of the old one, and the simulator invariant is kept |
| ObdSimulator.VehicleDataCollector.constructor | obd_simulator.py:165-173 | a new collector builds its own fresh simulator for its vehicle id, in the simulator's start state, and has an empty history |
| ObdSimulator.VehicleDataCollector.GetCurrentSnapshot | obd_simulator.py:181-196 | it advances the simulator by one `Tick`, then returns `TakeSnapshot` of the new state |
| ObdSimulator.VehicleDataCollector.SaveLocal | obd_simulator.py:257-278 | the history becomes the appended and truncated list, ends with the snapshot and keeps at most 1000 entries; the result is the outcome of the file write |
| SimpleSimulator.ModeOf | index.py:32-47 | each of the four mode strings selects its own branch, and any other string selects none |
| SimpleSimulator.NextTemperature | index.py:53-54 | below 90 the temperature rises by exactly 0.5; otherwise it is resampled in [88, 95]; once at 88 or more it stays there; it never exceeds 95 from 95 or less |
| SimpleSimulator.IntervalDistance | index.py:57 | distance · 3600 = speed · interval; it is non-negative for non-negative inputs and 0 at speed 0 |
| SimpleSimulator.Generate | index.py:26-77 | one `gerar_dados`: the payload echoes the new speed, rpm and temperature, with milStatus false, dtcCount 0 and source "simulador_v3_simples" |
| SimpleSimulator.GenerateSpec | index.py:26-77 | the payload carries the new speed, rpm and temperature, milStatus false, dtcCount 0 and source "simulador_v3_simples"; parado gives speed 0, rpm in [700, 900], consumption 0 and distance 0; acelerando gives exactly v + k below 120 and 120 otherwise; rodando gives [60, 90]; freando gives exactly v − k above 0 and 0 otherwise; an unrecognised mode leaves speed and rpm unchanged with consumption 0; the consumption bands are as in the source; the state bounds are preserved |
| SimpleSimulator.AcceleratingFromFifty | index.py:37-40 | accelerating from 50 km/h over 2 s gives a speed in [55, 65] and a distance of speed·2/3600 |
| SimpleSimulator.ScheduledMode | index.py:100-103 | every elapsed time maps to one of the four recognised modes |
| SimpleSimulator.ScheduleMonotone | index.py:100-103 | as time grows the trip phases never go backwards: parado, then acelerando, then rodando, then freando |
| SimpleSimulator.Trip | index.py:97-109 | the ticks of a trip, one per clock reading with the scheduled mode: one payload per reading |
| SimpleSimulator.TripBounds | index.py:92-111 | over a whole trip from a valid state there is one payload per tick; every payload has speed in [0, 120], temperature in [60, 95], a non-negative distance and no error flag; the final temperature is the last payload's; once any payload reports 88 or more, every later payload does too, and so does every payload of a trip that starts at 88 or more |
| SimpleSimulator.SimpleObdSimulator.constructor | index.py:16-24 | the start state is speed 0, rpm 800 and temperature 60, and the endpoint is `{api_url}/api/vehicle/{carro_id}/dados-obd` |
| SimpleSimulator.SimpleObdSimulator.GenerateData | index.py:26-77 | the new state and the payload are `Generate` of the old state, and the bounds are kept |
| SimpleSimulator.SimpleObdSimulator.SimulateTrip | index.py:92-111 | it ticks once per clock reading below the duration and stops at the first reading that is not; the final state and the payloads sent are `Trip` of the readings taken |

## Left out

- HTTP transmission is not modelled: `send_to_api`, `enviar_dados` and the once-per-streak API warning in both `main` loops. This is network I/O.
- The JSON file written by `save_local` is not modelled. The write's outcome is a parameter (`writeSucceeds`).
- The OBD library is a foreign call and is not modelled: `obd.OBD`, `obd.Async`, `connect`, `query`, `_read_vin`, `_check_supported_commands`, `is_connected`, `stop` and `connect_real_obd`. Each response is a parameter, and `connect()`'s result is one entry of `outcomes`.
- ObdCollector.ExtractValue: the Pint unit conversion (`value.to(unit)`) is not modelled. A response value is either a magnitude or non-numeric.
- ObdCollector.FormatDtc: the `except` path that returns [] is not modelled. It can only fire on a value that is not iterable, and a DTC list is always iterable.
- `VehicleDataCollector.get_current_snapshot` on the real-device path (`use_simulator=False`, obd_simulator.py:197-215) is left out together with the OBD library it queries. Besides the queries, that path takes each value's magnitude only when the value is truthy (otherwise None), uses `[]` for a falsy DTC value, reads the VIN as a string when present, and sets the distance to 0, which the shared snapshot mapping then reports as absent.
- `round(...)` and `float(f"{...:.6f}")` are not modelled, because they are IEEE float behaviour. The snapshot and payload fields hold unrounded reals.
- The VIN string `1HGBH41JXMN{n}` is not built. The model keeps its six-digit serial `n`.
- Clock readings, `datetime.now()` timestamps and `time.sleep` are not computed. Clock readings and timestamps are parameters. The retry loop reports the seconds it would sleep.
- ObdSimulator.TickSpec: distance is non-decreasing only when the clock does not go backwards. The source does not guard against a backwards clock either.
- SimpleSimulator.SimpleObdSimulator.SimulateTrip uses one clock reading per tick for both the loop guard and the schedule. The source reads the clock twice. The run also ends when the given readings run out, which stands in for the process being interrupted.
- SimpleSimulator.SimpleObdSimulator.GenerateData and SimpleSimulator.SimpleObdSimulator.SimulateTrip take every argument explicitly. The defaults `modo='rodando'`, `intervalo_segundos=2` and `duracao_segundos=60` are not modelled.
- Console output, the `KeyboardInterrupt` handling that prints the final totals, the iteration counter, and configuration constants other than the numeric limits are not modelled.
