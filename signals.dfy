/**
 * The stand-alone script: a cosine over a 1000-point time grid and a unit
 * step over the indices -5..5, computed once at top level before plotting.
 */
module Signals {
  import opened Numeric
  import SignalGui

  /** t = linspace(-2, 2, 1000): 1000 points from -2 to 2. */
  function Time(): (t: seq<real>)
    ensures |t| == 1000 && t[0] == -2.0 && t[999] == 2.0
  {
    Linspace(-2.0, 2.0, 1000)
  }

  /** y_continuous = cos(2 * pi * t): one sample per time, and even about t = 0 when cosine is even. */
  function YContinuous(m: Trig): (y: seq<real>)
    ensures |y| == |Time()|
    ensures CosEven(m) ==> forall i :: 0 <= i < 1000 ==> y[999 - i] == y[i]
  {
    SignalGui.TimeGridSymmetric();
    AngleOdd(m.pi);
    seq(|Time()|, i requires 0 <= i < |Time()| => m.cos(Angle(m.pi, Time()[i])))
  }

  /** The angle 2 * pi * t at time t. */
  function Angle(pi: real, t: real): real
  {
    2.0 * pi * t
  }

  lemma AngleOdd(pi: real)
    ensures forall t :: Angle(pi, -t) == -Angle(pi, t)
  {
  }

  /** n = arange(-5, 6): 11 indices from -5 to 5. */
  function N(): (n: seq<int>)
    ensures |n| == 11 && n[0] == -5 && n[10] == 5
  {
    Arange(-5, 6)
  }

  /** y_discrete = where(n >= 0, 1, 0): one entry per index of n (the values: YDiscreteShape). */
  function YDiscrete(): (y: seq<int>)
    ensures |y| == |N()|
  {
    Where(N(), k => k >= 0, 1, 0)
  }

  /**
   * The script's time grid is the window's: 1000 increasing points,
   * t[i] = -2 + 4 i / 999, from -2 to 2.
   */
  lemma TimeShape()
    ensures Time() == SignalGui.TimeGrid()
    ensures forall i :: 0 <= i < 1000 ==> Time()[i] == -2.0 + 4.0 * (i as real) / 999.0
    ensures forall i, j :: 0 <= i < j < 1000 ==> Time()[i] < Time()[j]
  {
    SignalGui.TimeGridShape();
  }

  /** n is -5, -4, ..., 5: eleven consecutive increasing integers. */
  lemma NShape()
    ensures |N()| == 11
    ensures N()[0] == -5 && N()[10] == 5
    ensures forall i :: 0 <= i < 11 ==> N()[i] == i - 5
    ensures forall i :: 0 < i < 11 ==> N()[i] == N()[i - 1] + 1
  {
  }

  /** y_discrete matches n entry for entry: 1 where n >= 0, 0 where n < 0. */
  lemma YDiscreteShape()
    ensures forall i :: 0 <= i < |N()| ==> (YDiscrete()[i] == 1 <==> N()[i] >= 0) && (YDiscrete()[i] == 0 <==> N()[i] < 0)
    ensures forall i :: 0 <= i < |N()| ==> YDiscrete()[i] in {0, 1}
  {
  }

  /** The script's step is the window's unit step, index for index and value for value. */
  lemma StepMatchesWindow()
    ensures N() == SignalGui.PulseRange()
    ensures YDiscrete() == SignalGui.UnitStep(SignalGui.PulseRange())
  {
    var y, z := YDiscrete(), SignalGui.UnitStep(SignalGui.PulseRange());
    assert |y| == |z|;
    forall i | 0 <= i < |y| ensures y[i] == z[i] {
    }
  }

  /**
   * The script's cosine is what the window's continuous command draws for
   * the cosine with amplitude 1 and period 1.
   */
  lemma CosineMatchesWindow(wave: string, m: Trig)
    requires wave != "sine"
    ensures Time() == SignalGui.ContinuousFigure(wave, 1.0, 1.0, m).t
    ensures YContinuous(m) == SignalGui.ContinuousFigure(wave, 1.0, 1.0, m).y
  {
    var y, z := YContinuous(m), SignalGui.ContinuousFigure(wave, 1.0, 1.0, m).y;
    SignalGui.ContinuousWaveChoice(wave, 1.0, 1.0, m);
    assert |y| == |z|;
    forall i | 0 <= i < |y| ensures y[i] == z[i] {
      assert SignalGui.Phase(m.pi, 1.0 / 1.0, Time()[i]) == Angle(m.pi, Time()[i]);
    }
  }
}
