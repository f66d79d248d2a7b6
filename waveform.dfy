/** The waveform generator: the shape dispatch of `get_primary_function`,
    the sampled time axis, and the offset composition y = f(t - xOffset) + yOffset.
    Samples are exact reals; the library wave shapes are uninterpreted. */
module Waveform {

  /** Fixed sampling rate in samples per second, and the sample step dt = 1 / rate. */
  const SampleRate: nat := 100
  const Dt: real := 1.0 / 100.0

  /** numpy's `np.pi`, written as the shortest decimal that reads back as that
      double; the double itself is 3.141592653589793115997963... */
  const Pi: real := 3.141592653589793

  /** The library wave shapes the generator dispatches to: `np.sin`,
      `signal.square` and `signal.sawtooth(x, width)`. Their values are not
      modelled; every statement below holds for any choice of them. */
  datatype Library = Library(sin: real -> real, square: real -> real, sawtooth: (real, real) -> real)

  /** The shapes a classification selects. */
  datatype Shape = Sine | Square | Sawtooth | Triangle

  /** The user's parameters for one signal. */
  datatype WaveSpec = WaveSpec(classification: string, frequency: real, amplitude: real, xOffset: real, yOffset: real)

  /** The recognised classifications; every other string means a sine wave. */
  function Classify(classification: string): (s: Shape)
    ensures s == Square <==> classification == "Square"
    ensures s == Sawtooth <==> classification == "Sawtooth"
    ensures s == Triangle <==> classification == "Triangle"
    ensures s == Sine <==> classification !in {"Square", "Sawtooth", "Triangle"}
  {
    if classification == "Square" then Square
    else if classification == "Sawtooth" then Sawtooth
    else if classification == "Triangle" then Triangle
    else Sine
  }

  /** The unit-amplitude wave of a shape: a triangle is a sawtooth of width 0.5,
      a plain sawtooth has the library's default width 1. */
  function ShapeWave(lib: Library, s: Shape): real -> real
  {
    match s
    case Sine => lib.sin
    case Square => lib.square
    case Sawtooth => x => lib.sawtooth(x, 1.0)
    case Triangle => x => lib.sawtooth(x, 0.5)
  }

  /** The angle 2·π·f·t handed to the wave shape. */
  function Phase(frequency: real, t: real): real
  {
    2.0 * Pi * frequency * t
  }

  /** `get_primary_function` at one time value (numpy applies it element by element). */
  function Primary(lib: Library, t: real, frequency: real, amplitude: real, classification: string): real
  {
    var x := Phase(frequency, t);
    if classification == "Square" then amplitude * lib.square(x)
    else if classification == "Sawtooth" then amplitude * lib.sawtooth(x, 1.0)
    else if classification == "Triangle" then amplitude * lib.sawtooth(x, 0.5)
    else amplitude * lib.sin(x)
  }

  /** The dispatch scales the classified shape, taken at 2·π·f·t, by the amplitude;
      any unrecognised classification yields the sine wave. */
  lemma PrimaryIsScaledShape(lib: Library, t: real, frequency: real, amplitude: real, classification: string)
    ensures Primary(lib, t, frequency, amplitude, classification)
            == amplitude * ShapeWave(lib, Classify(classification))(Phase(frequency, t))
    ensures classification !in {"Square", "Sawtooth", "Triangle"} ==>
            Primary(lib, t, frequency, amplitude, classification) == amplitude * lib.sin(Phase(frequency, t))
  {
  }

  /** When the shape stays in [-1, 1] (as the four library shapes do), the
      generated value stays in [-amplitude, amplitude]. */
  lemma PrimaryBounded(lib: Library, t: real, frequency: real, amplitude: real, classification: string)
    requires amplitude >= 0.0
    requires -1.0 <= ShapeWave(lib, Classify(classification))(Phase(frequency, t)) <= 1.0
    ensures -amplitude <= Primary(lib, t, frequency, amplitude, classification) <= amplitude
  {
    var v := ShapeWave(lib, Classify(classification))(Phase(frequency, t));
    PrimaryIsScaledShape(lib, t, frequency, amplitude, classification);
    NonnegativeProduct(amplitude, 1.0 - v);
    NonnegativeProduct(amplitude, v + 1.0);
    assert amplitude - amplitude * v == amplitude * (1.0 - v);
    assert amplitude * v + amplitude == amplitude * (v + 1.0);
  }

  lemma NonnegativeProduct(a: real, b: real)
    requires a >= 0.0 && b >= 0.0
    ensures a * b >= 0.0
  {
  }

  /** One sample of a signal with its offsets applied: f(t - xOffset) + yOffset. */
  function Sample(lib: Library, w: WaveSpec, t: real): real
  {
    Primary(lib, t - w.xOffset, w.frequency, w.amplitude, w.classification) + w.yOffset
  }

  /** The offset composition is a pure time shift followed by a level shift of
      the same wave without offsets. */
  lemma SampleIsShiftedWave(lib: Library, w: WaveSpec, t: real)
    ensures Sample(lib, w, t) == Sample(lib, w.(xOffset := 0.0, yOffset := 0.0), t - w.xOffset) + w.yOffset
  {
  }

  /** A whole sampled signal over a time axis. */
  function Generate(lib: Library, w: WaveSpec, axis: seq<real>): (y: seq<real>)
    ensures |y| == |axis|
    ensures forall i :: 0 <= i < |axis| ==> y[i] == Sample(lib, w, axis[i])
  {
    seq(|axis|, i requires 0 <= i < |axis| => Sample(lib, w, axis[i]))
  }

  /** The number of samples, int(sampling_rate * duration); the duration is a whole number of seconds. */
  function SampleCount(duration: nat): nat
  {
    SampleRate * duration
  }

  /** numpy's `linspace(start, stop, num, endpoint=False)`: num points spaced (stop - start) / num apart. */
  function Linspace(start: real, stop: real, num: nat): (s: seq<real>)
    ensures |s| == num
  {
    seq(num, i requires 0 <= i < num => (i as real) * ((stop - start) / (num as real)) + start)
  }

  /** The shared time axis of both signals and of every frame. */
  function TimeAxis(duration: nat): (tau: seq<real>)
    ensures |tau| == SampleCount(duration)
  {
    Linspace(0.0, duration as real, SampleCount(duration))
  }

  /** The time axis has int(100 * duration) points and point i is exactly i * dt. */
  lemma TimeAxisGrid(duration: nat)
    ensures |TimeAxis(duration)| == SampleCount(duration)
    ensures forall i :: 0 <= i < |TimeAxis(duration)| ==> TimeAxis(duration)[i] == (i as real) * Dt
  {
    if duration > 0 {
      var d := duration as real;
      var step := (d - 0.0) / (SampleCount(duration) as real);
      assert SampleCount(duration) as real == 100.0 * d;
      assert step * (100.0 * d) == d;
      assert (step * 100.0) * d == 1.0 * d;
      assert step == Dt;
    }
  }
}
