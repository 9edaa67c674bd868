/**
 * The signal generator window: four fixed discrete signals and a
 * parameterised continuous sine or cosine. The window owns one set of axes,
 * modelled as the figure currently drawn on it; each plot command clears the
 * axes and draws one new figure, except that input that does not parse as a
 * number leaves the axes as they were.
 */
module SignalGui {
  import opened Wrappers
  import opened Numeric

  /** A plot title: a fixed text, or a waveform name rendered with the parameters A and T. */
  datatype Title = Text(text: string) | WithParameters(name: string, a: real, period: real)

  /** The samples of a stem plot: the integer arrays of the pulses, or the real samples of the sinusoid. */
  datatype Amplitudes = Ints(ints: seq<int>) | Reals(reals: seq<real>)

  /** What the axes show: a stem plot over sample indices, or a line over time. */
  datatype Figure =
    | Stem(n: seq<int>, samples: Amplitudes, title: Title, xLabel: string, yLabel: string)
    | Line(t: seq<real>, y: seq<real>, title: Title, xLabel: string, yLabel: string)

  /** The axis labels of every stem plot (signal_gui.py:123-124). */
  const IndexLabel := "Sample Index (n)"
  const AmplitudeLabel := "Amplitude"

  /** The only failure of the continuous command: an entry that is not a number. */
  datatype InputError = NotANumber

  // ----- discrete signals -----

  /** The index range of the step, impulse and rectangular signals: arange(-5, 6). */
  function PulseRange(): (r: seq<int>)
    ensures |r| == 11 && r[0] == -5 && r[10] == 5
  {
    Arange(-5, 6)
  }

  /** The index range of the discrete sinusoid: arange(0, 10). */
  function SineRange(): (r: seq<int>)
    ensures |r| == 10 && r[0] == 0 && r[9] == 9
  {
    Arange(0, 10)
  }

  /** where(n >= 0, 1, 0) */
  function UnitStep(n: seq<int>): (y: seq<int>)
    ensures |y| == |n|
    ensures forall i :: 0 <= i < |n| ==> (y[i] == 1 <==> n[i] >= 0) && (y[i] == 0 <==> n[i] < 0)
  {
    Where(n, k => k >= 0, 1, 0)
  }

  /** where(n == 0, 1, 0) */
  function UnitImpulse(n: seq<int>): (y: seq<int>)
    ensures |y| == |n|
    ensures forall i :: 0 <= i < |n| ==> (y[i] == 1 <==> n[i] == 0) && (y[i] == 0 <==> n[i] != 0)
  {
    Where(n, k => k == 0, 1, 0)
  }

  /** where((n >= -2) & (n <= 2), 1, 0) */
  function RectPulse(n: seq<int>): (y: seq<int>)
    ensures |y| == |n|
    ensures forall i :: 0 <= i < |n| ==> (y[i] == 1 <==> -2 <= n[i] <= 2) && (y[i] == 0 <==> !(-2 <= n[i] <= 2))
  {
    Where(n, k => k >= -2 && k <= 2, 1, 0)
  }

  /** The angle 2 * pi * k / 5 of sample k of the discrete sinusoid. */
  function SampleAngle(k: int, pi: real): real
  {
    2.0 * pi * (k as real) / 5.0
  }

  /** Five samples on, the angle of the discrete sinusoid has grown by 2 pi. */
  lemma AngleShift(k: int, pi: real)
    ensures SampleAngle(k + 5, pi) == SampleAngle(k, pi) + 2.0 * pi
  {
    assert ((k + 5) as real) == (k as real) + 5.0;
  }

  lemma AngleShiftAll(pi: real)
    ensures forall k :: SampleAngle(k + 5, pi) == SampleAngle(k, pi) + 2.0 * pi
  {
    forall k ensures SampleAngle(k + 5, pi) == SampleAngle(k, pi) + 2.0 * pi {
      AngleShift(k, pi);
    }
  }

  /**
   * sin(2 * pi * n / 5), evaluated with the abstract sine and pi of m: one
   * sample per index, zero at index 0 when sin(0) = 0, and the same at
   * indices five apart when sine has period 2 pi.
   */
  function DiscreteSine(n: seq<int>, m: Trig): (y: seq<real>)
    ensures |y| == |n|
    ensures SinOfZero(m) ==> forall i :: 0 <= i < |n| && n[i] == 0 ==> y[i] == 0.0
    ensures SinPeriodic(m) ==> forall i, j :: 0 <= i < |n| && 0 <= j < |n| && n[j] == n[i] + 5 ==> y[j] == y[i]
  {
    AngleShiftAll(m.pi);
    assert SampleAngle(0, m.pi) == 0.0;
    seq(|n|, i requires 0 <= i < |n| => m.sin(SampleAngle(n[i], m.pi)))
  }

  // ----- continuous signals -----

  /** The time grid of the continuous command: linspace(-2, 2, 1000). */
  function TimeGrid(): (t: seq<real>)
    ensures |t| == 1000 && t[0] == -2.0 && t[999] == 2.0
  {
    Linspace(-2.0, 2.0, 1000)
  }

  /** The phase 2 * pi * freq * t at time t. */
  function Phase(pi: real, freq: real, t: real): real
  {
    2.0 * pi * freq * t
  }

  /** a * f(2 * pi * freq * t) at every time t. */
  function Oscillation(t: seq<real>, a: real, freq: real, f: real -> real, pi: real): seq<real>
  {
    seq(|t|, i requires 0 <= i < |t| => a * f(Phase(pi, freq, t[i])))
  }

  /**
   * The figure drawn once A and T are known: the waveform "sine" gives
   * the sine, every other choice the cosine.
   */
  function ContinuousFigure(wave: string, a: real, period: real, m: Trig): (f: Figure)
    requires period != 0.0
    ensures f.Line? && f.t == TimeGrid() && |f.y| == |f.t|
    ensures f.title == WithParameters(if wave == "sine" then "Sinusoidal signal" else "Cosine signal", a, period)
    ensures f.xLabel == "Time (s)" && f.yLabel == "Amplitude"
  {
    var t := TimeGrid();
    var freq := 1.0 / period;
    if wave == "sine" then
      Line(t, Oscillation(t, a, freq, m.sin, m.pi), WithParameters("Sinusoidal signal", a, period), "Time (s)", "Amplitude")
    else
      Line(t, Oscillation(t, a, freq, m.cos, m.pi), WithParameters("Cosine signal", a, period), "Time (s)", "Amplitude")
  }

  /**
   * The continuous command on the raw entry texts: parse the amplitude, then
   * the period; if either is not a number nothing is drawn.
   */
  function ContinuousCommand(wave: string, amplitudeText: string, periodText: string,
                             parse: string -> Option<real>, m: Trig): (r: Result<Figure, InputError>)
    requires parse(amplitudeText).Some? ==> parse(periodText) != Some(0.0)
    ensures r.Failure? <==> parse(amplitudeText).None? || parse(periodText).None?
    ensures r.Success? ==> r.value == ContinuousFigure(wave, parse(amplitudeText).value, parse(periodText).value, m)
  {
    match parse(amplitudeText)
    case None => Failure(NotANumber)
    case Some(a) =>
      match parse(periodText)
      case None => Failure(NotANumber)
      case Some(period) => Success(ContinuousFigure(wave, a, period, m))
  }

  // ----- properties of the discrete signals -----

  /** The pulse range is -5, -4, ..., 5: eleven consecutive integers. */
  lemma PulseRangeShape()
    ensures |PulseRange()| == 11
    ensures PulseRange()[0] == -5 && PulseRange()[10] == 5
    ensures forall i :: 0 <= i < 11 ==> PulseRange()[i] == i - 5
    ensures forall i :: 0 < i < 11 ==> PulseRange()[i] == PulseRange()[i - 1] + 1
  {
  }

  /** The sinusoid's range is 0, 1, ..., 9: ten consecutive integers. */
  lemma SineRangeShape()
    ensures |SineRange()| == 10
    ensures SineRange()[0] == 0 && SineRange()[9] == 9
    ensures forall i :: 0 <= i < 10 ==> SineRange()[i] == i
    ensures forall i :: 0 < i < 10 ==> SineRange()[i] == SineRange()[i - 1] + 1
  {
  }

  /** Over any range lo..hi-1 that contains 0, the unit step holds -lo zeros and then hi ones. */
  lemma UnitStepCounts(lo: int, hi: int)
    requires lo <= 0 < hi
    ensures IsBlock(UnitStep(Arange(lo, hi)), -lo, hi - lo)
    ensures Count(UnitStep(Arange(lo, hi)), 1) == hi
    ensures Count(UnitStep(Arange(lo, hi)), 0) == -lo
  {
    BlockOnes(UnitStep(Arange(lo, hi)), -lo, hi - lo);
    BlockZeros(UnitStep(Arange(lo, hi)), -lo, hi - lo);
  }

  /** Over any range lo..hi-1 that contains 0, the unit impulse holds a single one and sums to one. */
  lemma UnitImpulseCounts(lo: int, hi: int)
    requires lo <= 0 < hi
    ensures IsBlock(UnitImpulse(Arange(lo, hi)), -lo, 1 - lo)
    ensures Count(UnitImpulse(Arange(lo, hi)), 1) == 1
    ensures Count(UnitImpulse(Arange(lo, hi)), 0) == hi - lo - 1
    ensures Sum(UnitImpulse(Arange(lo, hi))) == 1
  {
    BlockOnes(UnitImpulse(Arange(lo, hi)), -lo, 1 - lo);
    BlockZeros(UnitImpulse(Arange(lo, hi)), -lo, 1 - lo);
    BlockSum(UnitImpulse(Arange(lo, hi)), -lo, 1 - lo);
  }

  /** Over any range lo..hi-1 that contains -2..2, the rectangular pulse holds exactly five ones. */
  lemma RectPulseCounts(lo: int, hi: int)
    requires lo <= -2 && 2 < hi
    ensures IsBlock(RectPulse(Arange(lo, hi)), -2 - lo, 3 - lo)
    ensures Count(RectPulse(Arange(lo, hi)), 1) == 5
    ensures Count(RectPulse(Arange(lo, hi)), 0) == hi - lo - 5
  {
    BlockOnes(RectPulse(Arange(lo, hi)), -2 - lo, 3 - lo);
    BlockZeros(RectPulse(Arange(lo, hi)), -2 - lo, 3 - lo);
  }

  /** The unit step over the pulse range: five zeros for n < 0, then six ones. */
  lemma UnitStepShape()
    ensures |UnitStep(PulseRange())| == |PulseRange()|
    ensures forall i :: 0 <= i < 11 ==> UnitStep(PulseRange())[i] in {0, 1}
    ensures Count(UnitStep(PulseRange()), 1) == 6
    ensures Count(UnitStep(PulseRange()), 0) == 5
  {
    UnitStepCounts(-5, 6);
  }

  /** The unit impulse over the pulse range is one only at n = 0, so its samples sum to one. */
  lemma UnitImpulseShape()
    ensures |UnitImpulse(PulseRange())| == |PulseRange()|
    ensures forall i :: 0 <= i < 11 ==> UnitImpulse(PulseRange())[i] in {0, 1}
    ensures Count(UnitImpulse(PulseRange()), 1) == 1
    ensures Sum(UnitImpulse(PulseRange())) == 1
  {
    UnitImpulseCounts(-5, 6);
  }

  /** The rectangular pulse over the pulse range is one exactly for -2 <= n <= 2: five ones, six zeros. */
  lemma RectPulseShape()
    ensures |RectPulse(PulseRange())| == |PulseRange()|
    ensures forall i :: 0 <= i < 11 ==> RectPulse(PulseRange())[i] in {0, 1}
    ensures Count(RectPulse(PulseRange()), 1) == 5
    ensures Count(RectPulse(PulseRange()), 0) == 6
  {
    RectPulseCounts(-5, 6);
  }

  /** impulse[n] == step[n] - step[n - 1] for n = -4, ..., 5. */
  lemma ImpulseIsStepDifference()
    ensures forall i :: 0 < i < 11 ==>
      UnitImpulse(PulseRange())[i] == UnitStep(PulseRange())[i] - UnitStep(PulseRange())[i - 1]
  {
  }

  /** sin(2 pi 0 / 5) = sin(0): the discrete sinusoid starts at zero. */
  lemma DiscreteSineStartsAtZero(m: Trig)
    requires SinOfZero(m)
    ensures |DiscreteSine(SineRange(), m)| == 10
    ensures DiscreteSine(SineRange(), m)[0] == 0.0
  {
    assert SineRange()[0] == 0;
  }

  /** The discrete sinusoid has period five: samples 5..9 repeat samples 0..4. */
  lemma DiscreteSinePeriodFive(m: Trig)
    requires SinPeriodic(m)
    ensures forall i :: 0 <= i < 5 ==> DiscreteSine(SineRange(), m)[i + 5] == DiscreteSine(SineRange(), m)[i]
  {
    var n := SineRange();
    assert forall i :: 0 <= i < 5 ==> n[i + 5] == n[i] + 5;
  }

  // ----- properties of the continuous signals -----

  /** The time grid: 1000 increasing points from -2 to 2, t[i] = -2 + 4 i / 999. */
  lemma TimeGridShape()
    ensures forall i :: 0 <= i < 1000 ==> TimeGrid()[i] == -2.0 + 4.0 * (i as real) / 999.0
    ensures forall i, j :: 0 <= i < j < 1000 ==> TimeGrid()[i] < TimeGrid()[j]
  {
    LinspaceIncreasing(-2.0, 2.0, 1000);
  }

  /** The grid is symmetric about zero, and zero itself is not a grid point. */
  lemma TimeGridSymmetric()
    ensures forall i :: 0 <= i < 1000 ==> TimeGrid()[999 - i] == -TimeGrid()[i]
    ensures forall i :: 0 <= i < 1000 ==> TimeGrid()[i] != 0.0
  {
    TimeGridShape();
  }

  /** Nor is t = 1/4, the first peak of the sine of period 1: 16 i = 8991 has no integer solution. */
  lemma TimeGridMissesQuarter()
    ensures forall i :: 0 <= i < 1000 ==> TimeGrid()[i] != 0.25
  {
    TimeGridShape();
    forall i | 0 <= i < 1000 ensures TimeGrid()[i] != 0.25 {
      assert 16 * i != 8991;
    }
  }

  /**
   * The waveform choice: "sine" selects the samples A sin(2 pi t / T), any
   * other value the samples A cos(2 pi t / T), one per point of the grid.
   */
  lemma ContinuousWaveChoice(wave: string, a: real, period: real, m: Trig)
    requires period != 0.0
    ensures wave == "sine" ==> forall i :: 0 <= i < 1000 ==>
      ContinuousFigure(wave, a, period, m).y[i] == a * m.sin(Phase(m.pi, 1.0 / period, TimeGrid()[i]))
    ensures wave != "sine" ==> forall i :: 0 <= i < 1000 ==>
      ContinuousFigure(wave, a, period, m).y[i] == a * m.cos(Phase(m.pi, 1.0 / period, TimeGrid()[i]))
  {
    var f := ContinuousFigure(wave, a, period, m);
    var freq := 1.0 / period;
    var w := if wave == "sine" then m.sin else m.cos;
    assert f.y == Oscillation(TimeGrid(), a, freq, w, m.pi);
  }

  lemma PhaseOdd(pi: real, freq: real, t: real, u: real)
    requires u == -t
    ensures Phase(pi, freq, u) == -Phase(pi, freq, t)
  {
  }

  /** With an odd sine, the sine figure is odd: y[999 - i] == -y[i]. */
  lemma ContinuousSineOdd(a: real, period: real, m: Trig)
    requires period != 0.0 && SinOdd(m)
    ensures forall i :: 0 <= i < 1000 ==>
      ContinuousFigure("sine", a, period, m).y[999 - i] == -ContinuousFigure("sine", a, period, m).y[i]
  {
    var t := TimeGrid();
    var y := ContinuousFigure("sine", a, period, m).y;
    var freq := 1.0 / period;
    TimeGridSymmetric();
    forall i | 0 <= i < 1000 ensures y[999 - i] == -y[i] {
      PhaseOdd(m.pi, freq, t[i], t[999 - i]);
    }
  }

  /** With an even cosine, the cosine figure is even: y[999 - i] == y[i]. */
  lemma ContinuousCosineEven(wave: string, a: real, period: real, m: Trig)
    requires period != 0.0 && wave != "sine" && CosEven(m)
    ensures forall i :: 0 <= i < 1000 ==>
      ContinuousFigure(wave, a, period, m).y[999 - i] == ContinuousFigure(wave, a, period, m).y[i]
  {
    var t := TimeGrid();
    var y := ContinuousFigure(wave, a, period, m).y;
    var freq := 1.0 / period;
    TimeGridSymmetric();
    forall i | 0 <= i < 1000 ensures y[999 - i] == y[i] {
      PhaseOdd(m.pi, freq, t[i], t[999 - i]);
    }
  }

  /** The window: the wave-type choice, the two entries and the axes. */
  class SignalApp {
    var waveType: string
    var amplitudeText: string
    var periodText: string
    var figure: Option<Figure>

    /** The initial window: sine selected, both entries "1.0", empty axes. */
    constructor ()
      ensures waveType == "sine" && amplitudeText == "1.0" && periodText == "1.0"
      ensures figure == None
    {
      waveType := "sine";
      amplitudeText := "1.0";
      periodText := "1.0";
      figure := None;
    }

    method PlotDiscrete(n: seq<int>, y: Amplitudes, title: string)
      modifies this`figure
      ensures figure == Some(Stem(n, y, Text(title), IndexLabel, AmplitudeLabel))
    {
      figure := Some(Stem(n, y, Text(title), IndexLabel, AmplitudeLabel));
    }

    method PlotStep()
      modifies this`figure
      ensures figure == Some(Stem(PulseRange(), Ints(UnitStep(PulseRange())), Text("Unit Step Signal"), IndexLabel, AmplitudeLabel))
    {
      var n := PulseRange();
      var y := UnitStep(n);
      PlotDiscrete(n, Ints(y), "Unit Step Signal");
    }

    method PlotImpulse()
      modifies this`figure
      ensures figure == Some(Stem(PulseRange(), Ints(UnitImpulse(PulseRange())), Text("Unit Impulse Signal"), IndexLabel, AmplitudeLabel))
    {
      var n := PulseRange();
      var y := UnitImpulse(n);
      PlotDiscrete(n, Ints(y), "Unit Impulse Signal");
    }

    method PlotRect()
      modifies this`figure
      ensures figure == Some(Stem(PulseRange(), Ints(RectPulse(PulseRange())), Text("Rectangular Signal"), IndexLabel, AmplitudeLabel))
    {
      var n := PulseRange();
      var y := RectPulse(n);
      PlotDiscrete(n, Ints(y), "Rectangular Signal");
    }

    method PlotSin(m: Trig)
      modifies this`figure
      ensures figure == Some(Stem(SineRange(), Reals(DiscreteSine(SineRange(), m)), Text("Discrete Sinusoidal Signal"), IndexLabel, AmplitudeLabel))
    {
      var n := SineRange();
      var y := DiscreteSine(n, m);
      PlotDiscrete(n, Reals(y), "Discrete Sinusoidal Signal");
    }

    /**
     * Reads both entries; on a parse failure returns before the axes are
     * cleared, otherwise replaces the figure with the chosen waveform.
     */
    method PlotContinuous(parse: string -> Option<real>, m: Trig)
      requires parse(amplitudeText).Some? ==> parse(periodText) != Some(0.0)
      modifies this`figure
      ensures var r := ContinuousCommand(waveType, amplitudeText, periodText, parse, m);
        (r.Failure? ==> figure == old(figure)) && (r.Success? ==> figure == Some(r.value))
      ensures parse(amplitudeText).None? || parse(periodText).None? ==> figure == old(figure)
    {
      var r := ContinuousCommand(waveType, amplitudeText, periodText, parse, m);
      if r.Failure? {
        return;
      }
      figure := Some(r.value);
    }
  }
}
