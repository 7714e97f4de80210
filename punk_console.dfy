/** A model of the computational core of `cedargrove_punk_console`, a
    CircuitPython emulation of the Atari Punk Console stepped-tone generator:
    the range-mapping helper `map_range`, the input conditioning done by the
    `Punk_Console` constructor, and the sample-buffer length clamp of `tone`.
    All arithmetic is over `real`: the Python code works on floats, and its
    intent is exact range mapping and clamping, not IEEE rounding. */
module PunkConsoleCore {
  import opened RealArith

  // ---------------------------------------------------------------------
  // Python's built-in min and max on two numbers
  // ---------------------------------------------------------------------

  /** Python `min(a, b)`: `b` only when it is strictly smaller. */
  function Min(a: real, b: real): (r: real)
    ensures r <= a && r <= b
    ensures r == a || r == b
  {
    if b < a then b else a
  }

  /** Python `max(a, b)`: `b` only when it is strictly larger. */
  function Max(a: real, b: real): (r: real)
    ensures r >= a && r >= b
    ensures r == a || r == b
  {
    if b > a then b else a
  }

  // ---------------------------------------------------------------------
  // map_range
  // ---------------------------------------------------------------------

  /** The scale factor `map_range` computes before it scales to the output
      range: the position of `x` as a fraction of the input range, the raw
      distance from `inMin` when the input range is empty, and one half when
      `x` sits exactly on an empty input range. */
  function Fraction(x: real, inMin: real, inMax: real): real {
    var inRange := Span(inMin, inMax);
    var inDelta := Span(inMin, x);
    if inRange != 0.0 then inDelta / inRange
    else if inDelta != 0.0 then inDelta
    else 0.5
  }

  /** The scale factor stretched over the output range and offset by
      `outMin`, before clamping. */
  function Scale(t: real, outMin: real, outMax: real): real {
    t * Span(outMin, outMax) + outMin
  }

  /** The closing clamp of `map_range`: to [outMin, outMax] when the output
      range is increasing, to [outMax, outMin] when it is reversed. */
  function ClampToRange(v: real, outMin: real, outMax: real): (r: real)
    ensures Between(r, outMin, outMax)
    ensures Between(v, outMin, outMax) ==> r == v
    ensures outMin <= outMax && v <= outMin ==> r == outMin
    ensures outMin <= outMax && v >= outMax ==> r == outMax
  {
    if outMin <= outMax then Max(Min(v, outMax), outMin)
    else Min(Max(v, outMax), outMin)
  }

  /** `map_range(x, in_min, in_max, out_min, out_max)`: maps `x` linearly from
      the input range to the output range and clamps the result to the output
      range, which may be given in either order. */
  function MapRange(x: real, inMin: real, inMax: real, outMin: real, outMax: real): (r: real)
    ensures outMin <= outMax ==> outMin <= r <= outMax
    ensures outMin > outMax ==> outMax <= r <= outMin
  {
    ClampToRange(Scale(Fraction(x, inMin, inMax), outMin, outMax), outMin, outMax)
  }

  /** The straight line through (inMin, outMin) and (inMax, outMax), without
      clamping: the textbook definition `map_range` is meant to follow. */
  function Interpolate(x: real, inMin: real, inMax: real, outMin: real, outMax: real): real
    requires inMin != inMax
  {
    outMin + Span(inMin, x) * Span(outMin, outMax) / Span(inMin, inMax)
  }

  /** Clamping to an increasing range keeps the order of its arguments. */
  lemma ClampToRangeMonotone(a: real, b: real, outMin: real, outMax: real)
    requires a <= b && outMin <= outMax
    ensures ClampToRange(a, outMin, outMax) <= ClampToRange(b, outMin, outMax)
  {
  }

  /** The scale factor of a proper input range is the input's distance from
      `inMin` measured in input-range widths. */
  lemma FractionScales(x: real, inMin: real, inMax: real)
    requires inMin != inMax
    ensures Fraction(x, inMin, inMax) * Span(inMin, inMax) == Span(inMin, x)
  {
    DivMul(Span(inMin, x), Span(inMin, inMax));
  }

  /** The scale factor of a point inside a proper input range lies in [0, 1]. */
  lemma FractionInUnit(x: real, inMin: real, inMax: real)
    requires inMin != inMax && Between(x, inMin, inMax)
    ensures 0.0 <= Fraction(x, inMin, inMax) <= 1.0
  {
    FractionScales(x, inMin, inMax);
    FactorInUnit(Fraction(x, inMin, inMax), Span(inMin, inMax), Span(inMin, x));
  }

  /** A scale factor in [0, 1] lands between the output endpoints. */
  lemma ScaleBetween(t: real, outMin: real, outMax: real)
    requires 0.0 <= t <= 1.0
    ensures Between(Scale(t, outMin, outMax), outMin, outMax)
  {
    ProductBetween(t, Span(outMin, outMax));
  }

  /** A scale factor in [0, 1] is never clamped: `map_range` returns the
      scaled point itself. */
  lemma MapRangeUnclamped(x: real, inMin: real, inMax: real, outMin: real, outMax: real)
    requires 0.0 <= Fraction(x, inMin, inMax) <= 1.0
    ensures MapRange(x, inMin, inMax, outMin, outMax) == Scale(Fraction(x, inMin, inMax), outMin, outMax)
  {
    ScaleBetween(Fraction(x, inMin, inMax), outMin, outMax);
  }

  /** Measuring a scaled point against the same proper range gives back the
      scale factor. */
  lemma FractionOfScale(t: real, lo: real, hi: real)
    requires lo != hi
    ensures Fraction(Scale(t, lo, hi), lo, hi) == t
  {
    FractionScales(Scale(t, lo, hi), lo, hi);
    Cancel(Fraction(Scale(t, lo, hi), lo, hi), t, Span(lo, hi));
  }

  /** For a proper input range, scaling the scale factor to the output range
      reaches the point of the straight line through the two ranges' ends. */
  lemma ScaleOfFraction(x: real, inMin: real, inMax: real, outMin: real, outMax: real)
    requires inMin != inMax
    ensures Scale(Fraction(x, inMin, inMax), outMin, outMax) == Interpolate(x, inMin, inMax, outMin, outMax)
  {
    assert Fraction(x, inMin, inMax) == Span(inMin, x) / Span(inMin, inMax);
    MulDivAssoc(Span(inMin, x), Span(outMin, outMax), Span(inMin, inMax));
  }

  /** For a proper input range and every `x`, inside the range or not,
      `map_range` is the straight line through (inMin, outMin) and
      (inMax, outMax), clamped to the output range. */
  lemma MapRangeClampedLine(x: real, inMin: real, inMax: real, outMin: real, outMax: real)
    requires inMin != inMax
    ensures MapRange(x, inMin, inMax, outMin, outMax)
            == ClampToRange(Interpolate(x, inMin, inMax, outMin, outMax), outMin, outMax)
  {
    ScaleOfFraction(x, inMin, inMax, outMin, outMax);
  }

  /** With a proper input range and `x` inside it, no clamping happens and the
      result is exactly the straight-line interpolation. */
  lemma MapRangeLinear(x: real, inMin: real, inMax: real, outMin: real, outMax: real)
    requires inMin != inMax && Between(x, inMin, inMax)
    ensures MapRange(x, inMin, inMax, outMin, outMax) == Interpolate(x, inMin, inMax, outMin, outMax)
  {
    FractionInUnit(x, inMin, inMax);
    ScaleBetween(Fraction(x, inMin, inMax), outMin, outMax);
    ScaleOfFraction(x, inMin, inMax, outMin, outMax);
  }

  /** The input endpoints map to the output endpoints: `in_min` to `out_min`
      and `in_max` to `out_max`, whichever order either range is given in. */
  lemma MapRangeEndpoints(inMin: real, inMax: real, outMin: real, outMax: real)
    requires inMin != inMax
    ensures MapRange(inMin, inMin, inMax, outMin, outMax) == outMin
    ensures MapRange(inMax, inMin, inMax, outMin, outMax) == outMax
  {
    ZeroDiv(Span(inMin, inMin), Span(inMin, inMax));
    SelfDiv(Span(inMin, inMax), Span(inMin, inMax));
    MapRangeUnclamped(inMin, inMin, inMax, outMin, outMax);
    MapRangeUnclamped(inMax, inMin, inMax, outMin, outMax);
    ZeroFactor(Fraction(inMin, inMin, inMax), Span(outMin, outMax));
    UnitFactor(Fraction(inMax, inMin, inMax), Span(outMin, outMax));
  }

  /** An empty input range with `x` on it maps to the midpoint of the output
      range. */
  lemma MapRangeDegenerateMidpoint(x: real, outMin: real, outMax: real)
    ensures MapRange(x, x, x, outMin, outMax) == (outMin + outMax) / 2.0
  {
    MapRangeUnclamped(x, x, x, outMin, outMax);
    HalfFactor(Fraction(x, x, x), Span(outMin, outMax));
  }

  /** An empty input range with `x` off it uses the raw distance `x - in_min`
      as the scale factor: the result is `out_min` plus that distance times
      the output width, clamped, which is the same as treating the input
      range as one unit wide. For an increasing output range a distance of
      one or more saturates at `out_max`, and any negative distance at
      `out_min`. */
  lemma MapRangeDegenerateDelta(x: real, inMin: real, outMin: real, outMax: real)
    requires x != inMin
    ensures MapRange(x, inMin, inMin, outMin, outMax)
            == ClampToRange(outMin + Span(inMin, x) * Span(outMin, outMax), outMin, outMax)
    ensures MapRange(x, inMin, inMin, outMin, outMax) == MapRange(x, inMin, inMin + 1.0, outMin, outMax)
    ensures outMin <= outMax && x >= inMin + 1.0 ==> MapRange(x, inMin, inMin, outMin, outMax) == outMax
    ensures outMin <= outMax && x < inMin ==> MapRange(x, inMin, inMin, outMin, outMax) == outMin
  {
    DivOne(Span(inMin, x), Span(inMin, inMin + 1.0));
    assert Fraction(x, inMin, inMin) == Fraction(x, inMin, inMin + 1.0) == Span(inMin, x);
    if outMin <= outMax && x >= inMin + 1.0 {
      AtLeastUnit(Span(inMin, x), Span(outMin, outMax));
    }
    if outMin <= outMax && x < inMin {
      NonPositiveFactor(Span(inMin, x), Span(outMin, outMax));
    }
  }

  /** With an increasing input range and an increasing output range,
      `map_range` never decreases as `x` grows. */
  lemma MapRangeMonotone(x: real, y: real, inMin: real, inMax: real, outMin: real, outMax: real)
    requires inMin < inMax && outMin <= outMax && x <= y
    ensures MapRange(x, inMin, inMax, outMin, outMax) <= MapRange(y, inMin, inMax, outMin, outMax)
  {
    FractionScales(x, inMin, inMax);
    FractionScales(y, inMin, inMax);
    FactorMonotone(Fraction(x, inMin, inMax), Fraction(y, inMin, inMax), Span(inMin, inMax));
    MulMonotone(Fraction(x, inMin, inMax), Fraction(y, inMin, inMax), Span(outMin, outMax));
    ClampToRangeMonotone(Scale(Fraction(x, inMin, inMax), outMin, outMax),
                         Scale(Fraction(y, inMin, inMax), outMin, outMax), outMin, outMax);
  }

  /** Reversing both ranges at once changes nothing: mapping onto a reversed
      output range is the same line read from the other end. */
  lemma MapRangeReverseBoth(x: real, inMin: real, inMax: real, outMin: real, outMax: real)
    requires inMin != inMax
    ensures MapRange(x, inMin, inMax, outMin, outMax) == MapRange(x, inMax, inMin, outMax, outMin)
  {
    var t, u := Fraction(x, inMin, inMax), Fraction(x, inMax, inMin);
    FractionScales(x, inMin, inMax);
    FractionScales(x, inMax, inMin);
    Complement(t, u, Span(inMin, inMax), Span(inMax, inMin), Span(inMin, x), Span(inMax, x));
    ReverseScale(t, u, Span(outMin, outMax), Span(outMax, outMin), outMin, outMax);
  }

  /** Mapping a point of a proper input range onto a proper output range and
      back again returns the point. */
  lemma MapRangeRoundTrip(x: real, inMin: real, inMax: real, outMin: real, outMax: real)
    requires inMin != inMax && outMin != outMax && Between(x, inMin, inMax)
    ensures MapRange(MapRange(x, inMin, inMax, outMin, outMax), outMin, outMax, inMin, inMax) == x
  {
    var t := Fraction(x, inMin, inMax);
    FractionInUnit(x, inMin, inMax);
    MapRangeUnclamped(x, inMin, inMax, outMin, outMax);
    FractionOfScale(t, outMin, outMax);
    MapRangeUnclamped(Scale(t, outMin, outMax), outMin, outMax, inMin, inMax);
    FractionScales(x, inMin, inMax);
  }

  // ---------------------------------------------------------------------
  // tone: sample-buffer length clamp
  // ---------------------------------------------------------------------

  /** The most samples times the frequency that a tone buffer may hold. */
  const MAX_SAMPLE_PRODUCT: real := 350000.0

  /** The guard and reassignment at the head of `tone`: a buffer whose length
      times the frequency exceeds 350000 is shortened to `350000 // frequency`
      (Python's floor division, which yields a whole number). The guard can
      only hold for a non-zero frequency, so the division never fails.
      `length` is a `real` because Python multiplies it by the float
      frequency and `//` on floats yields a float. */
  function ToneLength(length: real, frequency: real): (r: real)
    ensures length * frequency <= MAX_SAMPLE_PRODUCT ==> r == length
    ensures length * frequency > MAX_SAMPLE_PRODUCT ==>
              frequency != 0.0 && r == r.Floor as real &&
              r <= MAX_SAMPLE_PRODUCT / frequency < r + 1.0
  {
    if length * frequency > MAX_SAMPLE_PRODUCT then
      (MAX_SAMPLE_PRODUCT / frequency).Floor as real
    else
      length
  }

  /** For a positive frequency the clamped length is the largest whole number
      of samples whose product with the frequency stays within 350000. */
  lemma ToneLengthFits(length: real, frequency: real)
    requires frequency > 0.0 && length * frequency > MAX_SAMPLE_PRODUCT
    ensures ToneLength(length, frequency) * frequency <= MAX_SAMPLE_PRODUCT
    ensures ToneLength(length, frequency) * frequency + frequency > MAX_SAMPLE_PRODUCT
  {
    var r := ToneLength(length, frequency);
    var q := MAX_SAMPLE_PRODUCT / frequency;
    DivMul(MAX_SAMPLE_PRODUCT, frequency);
    MulMonotone(r, q, frequency);
    MulStrictShift(q, r, frequency);
  }

  /** For a positive frequency the clamp is idempotent: a clamped length is
      never shortened again. */
  lemma ToneLengthIdempotent(length: real, frequency: real)
    requires frequency > 0.0
    ensures ToneLength(ToneLength(length, frequency), frequency) == ToneLength(length, frequency)
  {
    if length * frequency > MAX_SAMPLE_PRODUCT {
      ToneLengthFits(length, frequency);
    }
  }

  // ---------------------------------------------------------------------
  // Punk_Console construction
  // ---------------------------------------------------------------------

  const MIN_FREQUENCY: real := 20.0
  const MAX_FREQUENCY: real := 20000.0
  const MIN_PULSE_WIDTH: real := 0.00005
  const MAX_PULSE_WIDTH: real := 0.050

  /** The constructor's frequency clamp, `min(max(frequency, 20), 20000)`. */
  function ClampFrequency(frequency: real): (r: real)
    ensures MIN_FREQUENCY <= r <= MAX_FREQUENCY
    ensures MIN_FREQUENCY <= frequency <= MAX_FREQUENCY ==> r == frequency
    ensures frequency < MIN_FREQUENCY ==> r == MIN_FREQUENCY
    ensures frequency > MAX_FREQUENCY ==> r == MAX_FREQUENCY
  {
    Min(Max(frequency, MIN_FREQUENCY), MAX_FREQUENCY)
  }

  /** The constructor's pulse-width clamp, `min(max(pulse_width, 0.00005), 0.050)`,
      in seconds. */
  function ClampPulseWidth(pulseWidth: real): (r: real)
    ensures MIN_PULSE_WIDTH <= r <= MAX_PULSE_WIDTH
    ensures MIN_PULSE_WIDTH <= pulseWidth <= MAX_PULSE_WIDTH ==> r == pulseWidth
    ensures pulseWidth < MIN_PULSE_WIDTH ==> r == MIN_PULSE_WIDTH
    ensures pulseWidth > MAX_PULSE_WIDTH ==> r == MAX_PULSE_WIDTH
  {
    Min(Max(pulseWidth, MIN_PULSE_WIDTH), MAX_PULSE_WIDTH)
  }

  /** Clamping an already clamped input changes nothing. */
  lemma ClampIdempotent(frequency: real, pulseWidth: real)
    ensures ClampFrequency(ClampFrequency(frequency)) == ClampFrequency(frequency)
    ensures ClampPulseWidth(ClampPulseWidth(pulseWidth)) == ClampPulseWidth(pulseWidth)
  {
  }

  /** The wavelength `1 / frequency` of the oscillator input, in seconds. */
  function Wavelength(frequency: real): (r: real)
    requires frequency != 0.0
    ensures r * frequency == 1.0
    ensures frequency > 0.0 ==> r > 0.0
  {
    1.0 / frequency
  }

  /** The wavelength of a clamped frequency lies between 50 microseconds
      (20 kHz) and 50 milliseconds (20 Hz). */
  lemma WavelengthBounds(frequency: real)
    requires MIN_FREQUENCY <= frequency <= MAX_FREQUENCY
    ensures 1.0 / MAX_FREQUENCY <= Wavelength(frequency) <= 1.0 / MIN_FREQUENCY
  {
    ReciprocalAntitone(frequency, MAX_FREQUENCY);
    ReciprocalAntitone(MIN_FREQUENCY, frequency);
  }

  /** Failures Python raises while constructing a `Punk_Console`. */
  datatype InitError = AttributeError(name: string) | ZeroDivisionError

  datatype Result<T> = Ok(value: T) | Failure(error: InitError)

  /** Reading attribute `name` from an instance dictionary: a missing name
      raises `AttributeError`. */
  function GetAttr(attrs: map<string, real>, name: string): (r: Result<real>)
    ensures r.Ok? <==> name in attrs
    ensures r.Ok? ==> r.value == attrs[name]
    ensures r.Failure? ==> r.error == AttributeError(name)
  {
    if name in attrs then Ok(attrs[name]) else Failure(AttributeError(name))
  }

  /** Python's `1 / x`. */
  function Reciprocal(x: real): (r: Result<real>)
    ensures r.Failure? <==> x == 0.0
    ensures r.Ok? ==> r.value * x == 1.0
  {
    if x == 0.0 then Failure(ZeroDivisionError) else Ok(1.0 / x)
  }

  /** The numeric instance attributes `Punk_Console.__init__` stores, step by
      step, exactly as written: the two clamped inputs, then the wavelength
      read from the attribute named `_freq_input`. The pin is not numeric and
      is not part of this dictionary. */
  function InitAsWritten(frequency: real, pulseWidth: real): (r: Result<map<string, real>>)
    ensures r.Failure? ==> r.error == AttributeError("_freq_input") || r.error == ZeroDivisionError
    ensures r.Ok? ==> r.value.Keys == {"_freq_in", "_pulse_width_in", "_lambda_freq_in"}
    ensures r.Ok? ==> r.value["_freq_in"] == ClampFrequency(frequency)
                      && r.value["_pulse_width_in"] == ClampPulseWidth(pulseWidth)
  {
    var attrs := map["_freq_in" := ClampFrequency(frequency),
                     "_pulse_width_in" := ClampPulseWidth(pulseWidth)];
    match GetAttr(attrs, "_freq_input")
    case Failure(e) => Failure(e)
    case Ok(f) =>
      match Reciprocal(f)
      case Failure(e) => Failure(e)
      case Ok(w) => Ok(attrs["_lambda_freq_in" := w])
  }

  /** As written, construction raises `AttributeError` for every input: the
      wavelength line reads `_freq_input`, a name no earlier line assigns. */
  lemma InitAsWrittenRaises(frequency: real, pulseWidth: real)
    ensures InitAsWritten(frequency, pulseWidth) == Failure(AttributeError("_freq_input"))
  {
    var attrs := map["_freq_in" := ClampFrequency(frequency),
                     "_pulse_width_in" := ClampPulseWidth(pulseWidth)];
    assert |"_freq_input"| != |"_freq_in"|;
    assert "_freq_input" !in attrs;
  }

  /** `Punk_Console` with the wavelength line as evidently intended: the
      wavelength is `1 / _freq_in`. */
  class PunkConsole<Pin> {
    var pin: Pin
    var freqIn: real
    var pulseWidthIn: real
    var lambdaFreqIn: real

    /** The ranges every constructed console keeps. */
    ghost predicate Valid()
      reads this
    {
      && MIN_FREQUENCY <= freqIn <= MAX_FREQUENCY
      && MIN_PULSE_WIDTH <= pulseWidthIn <= MAX_PULSE_WIDTH
      && lambdaFreqIn * freqIn == 1.0
      && 1.0 / MAX_FREQUENCY <= lambdaFreqIn <= 1.0 / MIN_FREQUENCY
    }

    constructor (pin: Pin, frequency: real, pulseWidth: real)
      ensures Valid()
      ensures this.pin == pin
      ensures freqIn == ClampFrequency(frequency)
      ensures pulseWidthIn == ClampPulseWidth(pulseWidth)
      ensures lambdaFreqIn == Wavelength(freqIn)
      ensures MIN_FREQUENCY <= frequency <= MAX_FREQUENCY ==> freqIn == frequency
      ensures MIN_PULSE_WIDTH <= pulseWidth <= MAX_PULSE_WIDTH ==> pulseWidthIn == pulseWidth
    {
      this.pin := pin;
      freqIn := ClampFrequency(frequency);
      pulseWidthIn := ClampPulseWidth(pulseWidth);
      new;
      // Line 100 reads `_freq_input`, which is never assigned; the wavelength
      // is derived here from `_freq_in`, the attribute just clamped.
      lambdaFreqIn := Wavelength(freqIn);
      WavelengthBounds(freqIn);
    }
  }
}
