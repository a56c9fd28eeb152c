/** The measurement conversion of the gas/temperature sensor (class Sensor).
 *
 *  All fields of the sensor are constant and set by its constructor, and
 *  every conversion is a single arithmetic expression, so the sensor is a
 *  datatype value and the conversions are functions over `real`, an
 *  idealisation of the firmware's single-precision `float`. The C++ `int(...)`
 *  cast is modelled by `TruncateToInt`. `analogRead` is replaced by the raw
 *  12-bit count it would return, passed in as a parameter.
 */
module GasSensor {

  /** Trans-impedance amplifier gain fixed by the constructor. */
  const TiaGain: real := 499.0

  /** A raw reading of the 12-bit analog-to-digital converter. */
  type AdcCount = r: int | 0 <= r < 4096

  /** One measurement: ozone in parts per million, temperature in degrees. */
  datatype SensorData = SensorData(ozonePPM: int, temperature: int)

  /** The sensor's constant configuration: the three analog pins, the
   *  sensitivity code, the TIA gain and the slope `m` derived from them. */
  datatype Sensor = Sensor(pinVgas: int, pinVref: int, pinVtemp: int,
                           sensitivityCode: real, tiaGain: real, m: real)

  /** C++ `int(x)`: the integer part of `x`, truncated toward zero. */
  function TruncateToInt(x: real): (r: int)
    ensures 0.0 <= x ==> r as real <= x < r as real + 1.0
    ensures x < 0.0 ==> r as real - 1.0 < x <= r as real
  {
    if x >= 0.0 then x.Floor else -((-x).Floor)
  }

  /** The constructor: the slope is `sensitivityCode * 499 * 1e-9 * 1e3`,
   *  computed once. A zero sensitivity code would make every ozone
   *  computation divide by zero, so it is excluded. */
  function NewSensor(pinVgas: int, pinVref: int, pinVtemp: int, sensitivityCode: real): (s: Sensor)
    requires sensitivityCode != 0.0
    ensures s.pinVgas == pinVgas && s.pinVref == pinVref && s.pinVtemp == pinVtemp
    ensures s.sensitivityCode == sensitivityCode && s.tiaGain == TiaGain
    ensures s.m == sensitivityCode * 0.000499
    ensures s.m != 0.0 && (s.m > 0.0 <==> sensitivityCode > 0.0)
  {
    Sensor(pinVgas, pinVref, pinVtemp, sensitivityCode, TiaGain,
           sensitivityCode * TiaGain * 1e-9 * 1e3)
  }

  /** `analogRead(pin) * (3.3 / 4096)`: a raw count scaled to volts, within
   *  the converter's range `[0, 3.3)`. */
  function AdcToVolts(raw: AdcCount): (v: real)
    ensures 0.0 <= v < 3.3
    ensures raw == 0 <==> v == 0.0
  {
    raw as real * (3.3 / 4096.0)
  }

  /** `calculateOzone`: `int(50 - (vgas - vref) / m)`. With both inputs at
   *  the same voltage the reading is exactly 50. */
  function CalculateOzone(s: Sensor, vgas: real, vref: real): (ppm: int)
    requires s.m != 0.0
    ensures vgas == vref ==> ppm == 50
  {
    TruncateToInt(50.0 - (vgas - vref) / s.m)
  }

  /** `calculateTemperature`: `int(vtemp + 20)`. Any non-negative voltage
   *  reads at least 20 degrees, and 0 V reads exactly 20. */
  function CalculateTemperature(vtemp: real): (t: int)
    ensures 0.0 <= vtemp ==> 20 <= t
    ensures vtemp == 0.0 ==> t == 20
  {
    TruncateToInt(vtemp + 20.0)
  }

  /** `measureData`: each pin's raw count is scaled to volts on its own, then
   *  the ozone reading comes from the gas and reference voltages and the
   *  temperature from the temperature voltage. */
  function MeasureData(s: Sensor, rawGas: AdcCount, rawRef: AdcCount, rawTemp: AdcCount): (d: SensorData)
    requires s.m != 0.0
    ensures d.ozonePPM == CalculateOzone(s, AdcToVolts(rawGas), AdcToVolts(rawRef))
    ensures d.temperature == CalculateTemperature(AdcToVolts(rawTemp))
    ensures rawGas == rawRef ==> d.ozonePPM == 50
    ensures 20 <= d.temperature <= 23
  {
    var vgas := AdcToVolts(rawGas);
    var vref := AdcToVolts(rawRef);
    var vtemp := AdcToVolts(rawTemp);
    MeasuredTemperatureRange(rawTemp);
    SensorData(CalculateOzone(s, vgas, vref), CalculateTemperature(vtemp))
  }

  // ---------------------------------------------------------------------
  // Truncation toward zero

  /** The bracketing in `TruncateToInt`'s contract determines its result. */
  lemma TruncateUnique(x: real, k: int)
    requires 0.0 <= x ==> k as real <= x < k as real + 1.0
    requires x < 0.0 ==> k as real - 1.0 < x <= k as real
    ensures k == TruncateToInt(x)
  {
  }

  /** Truncation is symmetric about zero, which flooring is not: at -0.5 the
   *  cast gives 0 while the floor gives -1. */
  lemma TruncateIsNotFloor(x: real)
    ensures TruncateToInt(-x) == -TruncateToInt(x)
    ensures TruncateToInt(-0.5) == 0 && (-0.5).Floor == -1
    ensures x < 0.0 && x.Floor as real != x ==> TruncateToInt(x) == x.Floor + 1
  {
  }

  /** Truncation never moves a value away from zero nor by a whole unit. */
  lemma TruncateTowardZero(x: real)
    ensures 0.0 <= x ==> 0 <= TruncateToInt(x)
    ensures x <= 0.0 ==> TruncateToInt(x) <= 0
    ensures -1.0 < x - TruncateToInt(x) as real < 1.0
  {
  }

  /** Truncation preserves order (not strictly). */
  lemma TruncateMonotone(x: real, y: real)
    requires x <= y
    ensures TruncateToInt(x) <= TruncateToInt(y)
  {
  }

  // ---------------------------------------------------------------------
  // Ozone and temperature

  /** The ozone reading is the exact value `50 - (vgas - vref) / m` truncated
   *  toward zero: within one unit of it and never farther from zero. */
  lemma OzoneNearExact(s: Sensor, vgas: real, vref: real)
    requires s.m != 0.0
    ensures -1.0 < (50.0 - (vgas - vref) / s.m) - CalculateOzone(s, vgas, vref) as real < 1.0
    ensures 50.0 - (vgas - vref) / s.m >= 0.0 ==>
      CalculateOzone(s, vgas, vref) as real <= 50.0 - (vgas - vref) / s.m
    ensures 50.0 - (vgas - vref) / s.m < 0.0 ==>
      50.0 - (vgas - vref) / s.m <= CalculateOzone(s, vgas, vref) as real
  {
    TruncateTowardZero(50.0 - (vgas - vref) / s.m);
  }

  /** With a positive slope the ozone reading never increases as the gas
   *  voltage rises above the reference; with a negative slope it never
   *  decreases. */
  lemma OzoneMonotone(s: Sensor, vgas1: real, vref1: real, vgas2: real, vref2: real)
    requires s.m != 0.0
    requires vgas1 - vref1 <= vgas2 - vref2
    ensures s.m > 0.0 ==> CalculateOzone(s, vgas2, vref2) <= CalculateOzone(s, vgas1, vref1)
    ensures s.m < 0.0 ==> CalculateOzone(s, vgas1, vref1) <= CalculateOzone(s, vgas2, vref2)
  {
    var x1, x2 := (vgas1 - vref1) / s.m, (vgas2 - vref2) / s.m;
    if s.m > 0.0 {
      DivideMonotone(vgas1 - vref1, vgas2 - vref2, s.m);
      TruncateMonotone(50.0 - x2, 50.0 - x1);
    } else {
      DivideAntitone(vgas1 - vref1, vgas2 - vref2, s.m);
      TruncateMonotone(50.0 - x1, 50.0 - x2);
    }
  }

  /** Dividing by a positive number preserves order. */
  lemma DivideMonotone(a: real, b: real, c: real)
    requires a <= b && 0.0 < c
    ensures a / c <= b / c
  {
    assert b / c - a / c == (b - a) / c;
  }

  /** Dividing by a negative number reverses order. */
  lemma DivideAntitone(a: real, b: real, c: real)
    requires a <= b && c < 0.0
    ensures b / c <= a / c
  {
    assert a / c - b / c == (b - a) / -c;
  }

  /** The temperature reading never decreases as its voltage rises. */
  lemma TemperatureMonotone(v1: real, v2: real)
    requires v1 <= v2
    ensures CalculateTemperature(v1) <= CalculateTemperature(v2)
  {
    TruncateMonotone(v1 + 20.0, v2 + 20.0);
  }

  /** The temperature read from a real converter count is whole volts above
   *  20: 20 below count 1242 (1 V), 21 below 2483 (2 V), 22 below 3724
   *  (3 V), and 23 up to the top count. */
  lemma MeasuredTemperatureRange(raw: AdcCount)
    ensures CalculateTemperature(AdcToVolts(raw)) ==
      if raw < 1242 then 20 else if raw < 2483 then 21 else if raw < 3724 then 22 else 23
    ensures 20 <= CalculateTemperature(AdcToVolts(raw)) <= 23
  {
    var v := AdcToVolts(raw);
    var k := if raw < 1242 then 20 else if raw < 2483 then 21 else if raw < 3724 then 22 else 23;
    assert k as real <= v + 20.0 < k as real + 1.0;
    TruncateUnique(v + 20.0, k);
  }
}
