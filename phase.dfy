/**
 * The oscillator's arithmetic: the phase increment per sub-frame, the wrap
 * of the phase into [0, 2*pi), the phases reached after n samples and the
 * samples themselves. Arithmetic is exact real arithmetic.
 */
module Phase {
  /** 2*pi, written as the shortest decimal that rounds to the double `2 * np.pi`. */
  const TwoPi: real := 6.283185307179586
  const Pi: real := TwoPi / 2.0

  /** Sub-frames the projector shows per host frame. */
  const SubFrames: nat := 12

  /** Whole turns contained in x (rounded toward minus infinity). */
  function Turns(x: real): int {
    (x / TwoPi).Floor
  }

  /** `np.mod(x, 2 * np.pi)`: x brought into [0, 2*pi) by whole turns. */
  function Wrap(x: real): (r: real)
    ensures 0.0 <= r < TwoPi
    ensures 0.0 <= x < TwoPi ==> r == x
  {
    x - Turns(x) as real * TwoPi
  }

  /** Adding whole turns does not change the wrapped phase. */
  lemma WrapShift(x: real, k: int)
    ensures Wrap(x + k as real * TwoPi) == Wrap(x)
  {
    var f := Turns(x);
    assert (x + k as real * TwoPi) / TwoPi == x / TwoPi + k as real;
    assert f as real <= x / TwoPi < f as real + 1.0;
    assert Turns(x + k as real * TwoPi) == f + k;
  }

  /** Wrapping an intermediate sum does not change the final wrapped phase. */
  lemma WrapAdd(a: real, b: real)
    ensures Wrap(Wrap(a) + b) == Wrap(a + b)
  {
    WrapShift(a + b, -Turns(a));
    assert Wrap(a) + b == (a + b) + (-Turns(a)) as real * TwoPi;
  }

  /**
   * Phase advance per sub-frame for a flicker of `freq` Hz on a host that
   * draws `rate` frames per second, twelve sub-frames each.
   */
  function Increment(freq: real, rate: nat): (inc: real)
    requires rate > 0
    ensures inc * (SubFrames * rate) as real == freq * TwoPi
    ensures freq >= 0.0 ==> inc >= 0.0
    ensures inc == 0.0 <==> freq == 0.0
  {
    freq * TwoPi / rate as real / 12.0
  }

  /** The phase after n samples from phase p, each advancing by inc and wrapping. */
  function PhaseAfter(p: real, inc: real, n: nat): (r: real)
    ensures n == 0 ==> r == p
    ensures n > 0 || 0.0 <= p < TwoPi ==> 0.0 <= r < TwoPi
  {
    if n == 0 then p else Wrap(PhaseAfter(p, inc, n - 1) + inc)
  }

  /** p advanced by n increments of inc, without wrapping. */
  function Unwrapped(p: real, inc: real, n: nat): (x: real)
    ensures x == p + n as real * inc
  {
    if n == 0 then p else Unwrapped(p, inc, n - 1) + inc
  }

  /** n samples land where one unwrapped jump of n increments lands. */
  lemma {:induction false} PhaseAfterClosedForm(p: real, inc: real, n: nat)
    requires 0.0 <= p < TwoPi
    ensures PhaseAfter(p, inc, n) == Wrap(Unwrapped(p, inc, n))
  {
    if n > 0 {
      PhaseAfterClosedForm(p, inc, n - 1);
      WrapAdd(Unwrapped(p, inc, n - 1), inc);
    }
  }

  /** When n increments make m whole turns, the phase is back where it started. */
  lemma PhaseReturns(p: real, inc: real, n: nat, m: int)
    requires 0.0 <= p < TwoPi
    requires n as real * inc == m as real * TwoPi
    ensures PhaseAfter(p, inc, n) == p
  {
    PhaseAfterClosedForm(p, inc, n);
    assert Unwrapped(p, inc, n) == p + m as real * TwoPi;
    WrapShift(p, m);
  }

  /**
   * At `freq` Hz, `12 * rate / freq` samples (when that is a whole number n)
   * take exactly one period, so the phase returns to its start.
   */
  lemma PeriodInSamples(p: real, freq: real, rate: nat, n: nat)
    requires 0.0 <= p < TwoPi
    requires rate > 0 && freq > 0.0
    requires n as real * freq == (SubFrames * rate) as real
    ensures PhaseAfter(p, Increment(freq, rate), n) == p
  {
    var inc := Increment(freq, rate);
    calc {
      n as real * inc * freq;
      (SubFrames * rate) as real * inc;
      freq * TwoPi;
    }
    assert n as real * inc == TwoPi by {
      assert (n as real * inc - TwoPi) * freq == 0.0;
    }
    PhaseReturns(p, inc, n, 1);
  }

  /**
   * One second of sub-frames (12 per host frame, `rate` host frames) at
   * `freq` Hz advances the phase by exactly `freq` turns.
   */
  lemma OneSecond(p: real, freq: real, rate: nat)
    requires 0.0 <= p < TwoPi
    requires rate > 0
    ensures PhaseAfter(p, Increment(freq, rate), SubFrames * rate) == Wrap(p + freq * TwoPi)
  {
    var inc := Increment(freq, rate);
    var n := SubFrames * rate;
    PhaseAfterClosedForm(p, inc, n);
    assert n as real * inc == inc * (SubFrames * rate) as real;
  }

  /** A whole-hertz flicker is back at its starting phase after each second. */
  lemma WholeHertzInPhaseEachSecond(p: real, hz: nat, rate: nat)
    requires 0.0 <= p < TwoPi
    requires rate > 0
    ensures PhaseAfter(p, Increment(hz as real, rate), SubFrames * rate) == p
  {
    OneSecond(p, hz as real, rate);
    WrapShift(p, hz);
  }

  /** A waveform maps every phase in [0, 2*pi) to a value in [0, 1]. */
  ghost predicate WaveformInRange(wave: real -> real) {
    forall phi :: 0.0 <= phi < TwoPi ==> 0.0 <= wave(phi) <= 1.0
  }

  /**
   * The values of n consecutive samples from phase p: sample i is the
   * waveform at the phase reached after i + 1 advances.
   */
  function Samples(wave: real -> real, p: real, inc: real, n: nat): (s: seq<real>)
    ensures |s| == n
    ensures forall i :: 0 <= i < n ==> s[i] == wave(PhaseAfter(p, inc, i + 1))
  {
    if n == 0 then [] else Samples(wave, p, inc, n - 1) + [wave(PhaseAfter(p, inc, n))]
  }

  /** Every sample of an in-range waveform lies in [0, 1]. */
  lemma {:induction false} SamplesInRange(wave: real -> real, p: real, inc: real, n: nat)
    requires WaveformInRange(wave)
    requires 0.0 <= p < TwoPi
    ensures forall i :: 0 <= i < n ==> 0.0 <= Samples(wave, p, inc, n)[i] <= 1.0
  {
    if n > 0 {
      SamplesInRange(wave, p, inc, n - 1);
      var phi := PhaseAfter(p, inc, n);
      assert 0.0 <= phi < TwoPi;
      assert 0.0 <= wave(phi) <= 1.0;
    }
  }

  /** The square wave offered as an alternative: bright for the first half-period. */
  function Square(phase: real): (v: real)
    ensures v == 0.0 || v == 1.0
    ensures 0.0 <= phase <= Pi ==> v == 1.0
    ensures Pi < phase ==> v == 0.0
  {
    if phase <= Pi then 1.0 else 0.0
  }

  /** The sawtooth offered as an alternative: rises linearly over one period. */
  function Sawtooth(phase: real): (v: real)
    ensures 0.0 <= phase < TwoPi ==> 0.0 <= v < 1.0
    ensures v * TwoPi == phase
  {
    phase / TwoPi
  }

  lemma AlternativeWaveformsInRange()
    ensures WaveformInRange(Square)
    ensures WaveformInRange(Sawtooth)
  {
  }
}
