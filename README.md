# Beacon firmware: buzzer melody and sensor conversion

This project models two pieces of the environmental beacon's firmware and
proves properties of them in Dafny.

- **`Buzzer`** (`zumbador.dfy`) models the class `Zumbador`. It plays a fixed
  eight-note melody on a buzzer pin without blocking. Its state is three
  mutable fields: `isPlaying`, `currentNote` and `lastNoteTime`. `activar`
  starts the melody, `desactivar` stops it, and `update` is polled from the
  main loop. When the current note's duration has elapsed, `update` silences
  the pin, moves to the next note (modulo 8), sounds it and restamps the time.
  The class keeps the same fields and methods. `millis()` becomes a `now`
  parameter holding a 32-bit unsigned value. `tone` and `noTone` append events
  to a ghost log. Pure functions over a `BuzzerState` value (`Step`,
  `StepEvents`, `Run`, `RunEvents`) specify what the methods do. The lemmas
  about several updates in a row are stated over those functions.
- **`GasSensor`** (`sensor.dfy`) models the class `Sensor` and the struct
  `SensorData`. The sensor's fields are all constant, and each conversion is
  one arithmetic expression, so the sensor is a datatype and the conversions
  are functions over `real`. A raw 12-bit count is scaled by `3.3/4096` to
  volts. The slope is `m = sensitivityCode * 499 * 1e-9 * 1e3`. Ozone is
  `int(50 - (vgas - vref)/m)` and temperature is `int(vtemp + 20)`. The C++
  `int(...)` cast truncates toward zero; `TruncateToInt` models it.

The model follows the code as written; in particular:
- `activar` writes nothing to the pin. The first write after it comes from
  the first `update` that advances: `noTone`, then note 1 (294 Hz). Note 0
  (262 Hz) is first heard at the eighth note change.
- Neither `activar` nor `iniciar` calls `noTone`, so a tone that is sounding
  when either is called keeps sounding until the next advancing `update` or
  `desactivar`.
- The ozone formula has no absolute value and no X/Y calibration mode.
- There is only one temperature formula.
- No measurement is clamped to the 16-bit beacon fields.
- The sensor does not reject a zero slope. The model makes a non-zero
  sensitivity code a precondition of the constructor, because every ozone
  computation divides by the slope.
- The ADC scaling `3.3/4096` is hard-coded in the code, not configured.

## Model

| member | source | states |
|---|---|---|
| `Buzzer.Elapsed` | src/BeaconTransmitter/Zumbador.h:69-72 | The elapsed time is `now - last` when the clock has not wrapped. It is `2^32 - last + now` after a `millis()` rollover, as `unsigned long` subtraction gives. |
| `Buzzer.Step` | src/BeaconTransmitter/Zumbador.h:66-79 | One `update` keeps the note index in `0..7` and never starts or stops the melody. It either changes nothing, or advances exactly one note (modulo 8) and restamps the time to `now`. |
| `Buzzer.StepEvents` | src/BeaconTransmitter/Zumbador.h:72-77 | `update` writes to the pin exactly when it changes the state. It then writes `noTone` followed by `tone` at the new note's frequency. |
| `Buzzer.DeactivateIdempotent` | src/BeaconTransmitter/Zumbador.h:61-67 | Stopping twice gives the same state as stopping once. An `update` after stopping changes nothing and writes nothing. |
| `Buzzer.RolloverDoesNotStall` | src/BeaconTransmitter/Zumbador.h:69-72 | For any reading taken `d` ms after the last note, with `d` at least the note's duration and less than 2^32, the wrapped elapsed time is exactly `d` and `update` advances. This holds also when the reading has wrapped past zero. |
| `Buzzer.ActivationWritesNothing` | src/BeaconTransmitter/Zumbador.h:56-78 | `activar`, and every `update` while less than the first duration (300 ms) has elapsed since it, write nothing to the pin. The first write after `activar` is `noTone` and then note 1, not note 0. |
| `Buzzer.RunKeepsPlaying` | src/BeaconTransmitter/Zumbador.h:66-79 | Any sequence of `update` calls keeps the note index valid and leaves `isPlaying` as it was. |
| `Buzzer.AdvancingRunNote` | src/BeaconTransmitter/Zumbador.h:72-77 | `k` advancing updates move the note index on by `k` modulo 8. |
| `Buzzer.AdvancingRunEvents` | src/BeaconTransmitter/Zumbador.h:72-77 | `k` advancing updates write `noTone` and then the tone of each following note, in melody order. |
| `Buzzer.MelodyLoops` | src/BeaconTransmitter/Zumbador.h:72-78 | Eight advancing updates, or any multiple of eight, return the note index to where it started. The melody loops and never stops by itself. |
| `Buzzer.OnScheduleAdvances` | src/BeaconTransmitter/Zumbador.h:69-72 | Clock readings taken exactly when each note falls due make every `update` advance, across rollovers too. |
| `Buzzer.TuneAt` | src/BeaconTransmitter/Zumbador.h:21-27 | The `i`-th note change after note `n` silences the pin and sounds `melody[(n+i+1) % 8]`. |
| `Buzzer.TonesAfterActivation` | src/BeaconTransmitter/Zumbador.h:56-78 | After `activar`, `k` updates on schedule make exactly `2k` pin writes. The `i`-th note change sounds `melody[(i+1) % 8]`, so the melody plays 1..7, 0 and then repeats. |
| `Buzzer.Zumbador.constructor` | src/BeaconTransmitter/Zumbador.h:37 | A new buzzer is idle at note 0 with `lastNoteTime = 0`. It has written nothing to the pin. |
| `Buzzer.Zumbador.Iniciar` | src/BeaconTransmitter/Zumbador.h:44-48 | `iniciar` clears `isPlaying` and rewinds to note 0. It keeps `lastNoteTime` and writes nothing to the pin, so a sounding tone is not silenced. |
| `Buzzer.Zumbador.Activar` | src/BeaconTransmitter/Zumbador.h:56-60 | `activar` sets playing, note 0 and `lastNoteTime = now`. It writes nothing to the pin, so it neither sounds note 0 nor silences a sounding tone. |
| `Buzzer.Zumbador.Desactivar` | src/BeaconTransmitter/Zumbador.h:61-64 | `desactivar` clears `isPlaying` and writes exactly one `noTone`. It leaves the note and the time unchanged. |
| `Buzzer.Zumbador.Update` | src/BeaconTransmitter/Zumbador.h:66-79 | `update` moves the fields exactly as `Step` does and appends exactly the writes of `StepEvents`. When idle, or when the note is not yet due, nothing changes. When due, it advances one note, restamps the time, and writes `noTone` and then the new note's tone. |
| `Buzzer.Zumbador.EstaActivo` | src/BeaconTransmitter/Zumbador.h:81-83 | `estaActivo` reports whether the melody is playing. |
| `GasSensor.TruncateToInt` | src/BeaconTransmitter/Sensor.h:90 | The C++ `int` cast keeps the integer part. For `x >= 0` it is the largest integer not above `x`. For `x < 0` it is the smallest integer not below `x`. |
| `GasSensor.TruncateUnique` | src/BeaconTransmitter/Sensor.h:90 | Those bounds determine the cast's result uniquely. |
| `GasSensor.TruncateIsNotFloor` | src/BeaconTransmitter/Sensor.h:99 | The cast is symmetric about zero: `int(-0.5) == 0`, whereas the floor of -0.5 is -1. For negative non-integers the cast is the floor plus one. |
| `GasSensor.TruncateTowardZero` | src/BeaconTransmitter/Sensor.h:90 | The cast keeps the sign of its input and moves it by less than one unit. |
| `GasSensor.TruncateMonotone` | src/BeaconTransmitter/Sensor.h:99 | The cast preserves order. |
| `GasSensor.NewSensor` | src/BeaconTransmitter/Sensor.h:51-55 | The constructor keeps the pins and the sensitivity code, fixes the TIA gain at 499, and computes the slope once as `sensitivityCode * 0.000499`. The slope is non-zero and has the sign of the sensitivity code. |
| `GasSensor.AdcToVolts` | src/BeaconTransmitter/Sensor.h:71-73 | A raw count in `0..4095` scales to a voltage in `[0, 3.3)`. The voltage is zero only for count 0. |
| `GasSensor.CalculateOzone` | src/BeaconTransmitter/Sensor.h:89-91 | When the gas and reference voltages are equal, the ozone reading is exactly 50. |
| `GasSensor.OzoneNearExact` | src/BeaconTransmitter/Sensor.h:89-91 | The ozone reading is within one unit of the exact `50 - (vgas - vref)/m`. When that exact value is non-negative, the reading does not exceed it. When it is negative, the reading is not below it. So the reading is never farther from zero than the exact value. |
| `GasSensor.OzoneMonotone` | src/BeaconTransmitter/Sensor.h:89-91 | With `m > 0` the ozone reading never increases as `vgas - vref` grows. With `m < 0` it never decreases. |
| `GasSensor.CalculateTemperature` | src/BeaconTransmitter/Sensor.h:98-100 | 0 V reads exactly 20 degrees. Any non-negative voltage reads at least 20. |
| `GasSensor.TemperatureMonotone` | src/BeaconTransmitter/Sensor.h:98-100 | The temperature reading never decreases as its voltage rises. |
| `GasSensor.MeasuredTemperatureRange` | src/BeaconTransmitter/Sensor.h:98-100 | From a real ADC count, the temperature is 20 below count 1242 (1 V), 21 below 2483, 22 below 3724, and 23 above that. It always lies in `20..23`. |
| `GasSensor.MeasureData` | src/BeaconTransmitter/Sensor.h:70-80 | Each pin's count is scaled to volts on its own. The ozone reading comes from the gas and reference voltages and the temperature from the temperature voltage. Equal gas and reference counts read 50 ppm, and the temperature lies in `20..23`. |

## Left out

- `pinMode` in `iniciar` (src/BeaconTransmitter/Zumbador.h:45) and in `initializeSensor` (src/BeaconTransmitter/Sensor.h:60-64): pin configuration is hardware setup with no state the model could observe.
- `millis()`, `tone`, `noTone` and `analogRead` are hardware calls. The clock reading and the raw counts become parameters, and the pin writes become a ghost event log. `update` takes `now` as a parameter, which equals the one `millis()` call the source makes when playing.
- `update` never blocks. The model shows this only in that `Update` has no loop.
- Single-precision `float` rounding is left out. All sensor arithmetic is over exact `real`, including the `3.3/4096` factor and the `1e-9 * 1e3` product.
- `GasSensor.NewSensor`: requires a non-zero sensitivity code. The source does not check it, but a zero slope would make every ozone computation divide by zero; the model excludes that configuration instead of modelling the resulting infinity.
- `GasSensor.CalculateOzone`: requires only `m != 0`. The `Sensor` datatype admits any slope, not only `sensitivityCode * 0.000499` as `NewSensor` builds it, so the ozone lemmas hold for every non-zero slope.
- `GasSensor.TruncateToInt`: returns an unbounded integer. A C++ cast of a value outside the range of `int` is undefined behaviour. A very small sensitivity code could produce such a value, and the model does not capture it.
- `BLETransmitter.h`, `SerialPort.h` and `Publisher.h` are not part of this model. They are radio and serial I/O, plus glue that narrows the two readings to `int16_t` and sends a fixed power byte of 73.
