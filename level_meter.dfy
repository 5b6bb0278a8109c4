/**
 * The horizontal audio level meter: a smoothing/decay accumulator over the
 * amplitude samples, a peak tracker, the recording gate and the choice of
 * what the next redraw shows. Levels are reals; floating-point rounding is
 * not modelled. The widget's lock makes each method atomic, so each method
 * below is one step.
 */
module LevelMeter {

  function Min(a: real, b: real): real { if a <= b then a else b }

  /** The gated step of update_audio_data: smooth toward the amplitude, clipped at 1.0. */
  function Smoothed(current: real, amplitude: real): (r: real)
  {
    0.7 * current + 0.3 * Min(1.0, amplitude)
  }

  /** The ungated step of update_audio_data: decay toward 0. */
  function Decayed(current: real): (r: real)
  {
    current * 0.9
  }

  /** The peak after a gated sample: replaced only by a larger raw amplitude. */
  function NewPeak(peak: real, amplitude: real): (r: real)
    ensures r >= peak && r >= amplitude
    ensures r == peak || r == amplitude
  {
    if amplitude > peak then amplitude else peak
  }

  /** A gated step keeps the level in [0, 1] when the amplitude is not negative. */
  lemma SmoothedInRange(current: real, amplitude: real)
    requires 0.0 <= current <= 1.0 && 0.0 <= amplitude
    ensures 0.0 <= Smoothed(current, amplitude) <= 1.0
  {
  }

  /** An ungated step never raises a non-negative level and keeps it non-negative. */
  lemma DecayNeverRises(current: real)
    requires 0.0 <= current
    ensures 0.0 <= Decayed(current) <= current
    ensures current > 0.0 ==> Decayed(current) < current
  {
  }

  /**
   * The peak follows the raw amplitude while the level is clipped: a gated
   * sample of 1.5 leaves the peak at 1.5 and the level at most 1.
   */
  lemma PeakIsNotClipped(current: real)
    requires 0.0 <= current <= 1.0
    ensures NewPeak(0.0, 1.5) == 1.5 && Smoothed(current, 1.5) <= 1.0
  {
  }

  function Pow(b: real, k: nat): real {
    if k == 0 then 1.0 else b * Pow(b, k - 1)
  }

  /** The level after `k` gated samples of full amplitude 1.0, starting at `current`. */
  function Rise(current: real, k: nat): real {
    if k == 0 then current else Smoothed(Rise(current, k - 1), 1.0)
  }

  /** The level after `k` ungated samples, starting at `current`. */
  function Decay(current: real, k: nat): real {
    if k == 0 then current else Decayed(Decay(current, k - 1))
  }

  lemma {:induction false} PowPositive(b: real, k: nat)
    requires 0.0 < b < 1.0
    ensures 0.0 < Pow(b, k) <= 1.0
    ensures Pow(b, k + 1) < Pow(b, k)
  {
    if k > 0 {
      PowPositive(b, k - 1);
    }
  }

  /** From an empty meter, `k` full-amplitude samples give exactly 1 - 0.7^k. */
  lemma {:induction false} RiseClosedForm(k: nat)
    ensures Rise(0.0, k) == 1.0 - Pow(0.7, k)
  {
    if k > 0 {
      RiseClosedForm(k - 1);
    }
  }

  /** The full-amplitude rise from an empty meter is strictly increasing and stays below 1. */
  lemma RiseIncreasesBelowOne(k: nat)
    ensures 0.0 <= Rise(0.0, k) < Rise(0.0, k + 1) < 1.0
  {
    RiseClosedForm(k);
    RiseClosedForm(k + 1);
    PowPositive(0.7, k);
    PowPositive(0.7, k + 1);
  }

  /** `k` ungated samples scale the level by exactly 0.9^k. */
  lemma {:induction false} DecayClosedForm(current: real, k: nat)
    ensures Decay(current, k) == Pow(0.9, k) * current
  {
    if k > 0 {
      DecayClosedForm(current, k - 1);
    }
  }

  /** Colour band of the level bar. */
  datatype Band = Low | Mid | High

  function BandOf(level: real): Band {
    if level < 0.5 then Low else if level < 0.8 then Mid else High
  }

  lemma BandThresholds(level: real)
    ensures BandOf(level) == Low <==> level < 0.5
    ensures BandOf(level) == Mid <==> 0.5 <= level < 0.8
    ensures BandOf(level) == High <==> 0.8 <= level
  {
  }

  /** Python's `int(x)` for a float: truncation toward zero. */
  function Truncate(x: real): int {
    if x >= 0.0 then x.Floor else -((-x).Floor)
  }

  /** `level_width` in _draw_meter. */
  function LevelWidth(meterWidth: int, level: real): int {
    Truncate(meterWidth as real * Min(1.0, level))
  }

  /** For a non-negative level the bar never extends past the meter, and fills it at level 1. */
  lemma LevelWidthBounded(meterWidth: int, level: real)
    requires 0.0 <= level
    ensures LevelWidth(meterWidth, level) <= if meterWidth >= 0 then meterWidth else 0
    ensures 0 < LevelWidth(meterWidth, level) ==> 0 < meterWidth
    ensures 1.0 <= level ==> LevelWidth(meterWidth, level) == meterWidth
  {
    var m := Min(1.0, level);
    var x := meterWidth as real * m;
    ScaleBetween(meterWidth as real, m);
    if meterWidth >= 0 {
      assert LevelWidth(meterWidth, level) == x.Floor;
    } else {
      assert LevelWidth(meterWidth, level) <= 0;
      if 1.0 <= level {
        assert x == meterWidth as real;
        assert (-x).Floor == -meterWidth;
      }
    }
  }

  /** Scaling by a factor in [0, 1] moves a value toward zero without crossing it. */
  lemma ScaleBetween(w: real, m: real)
    requires 0.0 <= m <= 1.0
    ensures 0.0 <= w ==> 0.0 <= w * m <= w
    ensures w < 0.0 ==> w <= w * m <= 0.0
    ensures m == 1.0 ==> w * m == w
  {
    assert w - w * m == w * (1.0 - m);
  }

  /** What a redraw shows beyond the background bar and markers. */
  datatype MeterView =
    | LevelBar(width: int, band: Band)  // the coloured bar
    | InactiveStub                      // the short grey stub drawn while not recording
    | BackgroundOnly                    // recording, but nothing to fill

  /** The choice _draw_meter makes. */
  function ViewOf(meterWidth: int, level: real, recording: bool): MeterView {
    var w := LevelWidth(meterWidth, level);
    if w > 0 && recording then LevelBar(w, BandOf(level))
    else if !recording then InactiveStub
    else BackgroundOnly
  }

  /** The bar is drawn exactly when its width is positive and the gate is on. */
  lemma BarDrawnIff(meterWidth: int, level: real, recording: bool)
    ensures ViewOf(meterWidth, level, recording).LevelBar? <==> LevelWidth(meterWidth, level) > 0 && recording
    ensures ViewOf(meterWidth, level, recording).LevelBar? ==>
      ViewOf(meterWidth, level, recording) == LevelBar(LevelWidth(meterWidth, level), BandOf(level))
    ensures ViewOf(meterWidth, level, recording) == InactiveStub <==> !recording
  {
  }

  /** The meter widget's state. */
  class WaveformVisualizer {
    var currentLevel: real
    var peakLevel: real
    var recordingState: bool
    var isActive: bool
    /** Redraws queued with `self.after(0, self._draw_meter)`. */
    var scheduledDraws: nat

    /** The level stays in [0, 1] and the peak is not negative. */
    ghost predicate Valid()
      reads this
    {
      0.0 <= currentLevel <= 1.0 && 0.0 <= peakLevel
    }

    /** What the next redraw of a meter `meterWidth` pixels wide shows. */
    function View(meterWidth: int): MeterView
      reads this
    {
      ViewOf(meterWidth, currentLevel, recordingState)
    }

    constructor ()
      ensures Valid()
      ensures currentLevel == 0.0 && peakLevel == 0.0
      ensures !recordingState && !isActive && scheduledDraws == 0
    {
      currentLevel := 0.0;
      peakLevel := 0.0;
      recordingState := false;
      isActive := false;
      scheduledDraws := 0;
    }

    /** update_audio_data: one amplitude sample (0.0 to 1.0 by its documentation). */
    method UpdateAudioData(amplitude: real)
      requires Valid() && 0.0 <= amplitude
      modifies this
      ensures Valid()
      ensures old(recordingState) ==> currentLevel == Smoothed(old(currentLevel), amplitude)
      ensures old(recordingState) ==> peakLevel == NewPeak(old(peakLevel), amplitude)
      ensures !old(recordingState) ==> currentLevel == Decayed(old(currentLevel))
      ensures !old(recordingState) ==> peakLevel == old(peakLevel)
      ensures recordingState == old(recordingState) && isActive == old(isActive)
      ensures scheduledDraws == old(scheduledDraws) + if isActive then 1 else 0
    {
      if recordingState {
        SmoothedInRange(currentLevel, amplitude);
        currentLevel := 0.7 * currentLevel + 0.3 * Min(1.0, amplitude);
        if amplitude > peakLevel {
          peakLevel := amplitude;
        }
      } else {
        currentLevel := currentLevel * 0.9;
      }
      if isActive {
        scheduledDraws := scheduledDraws + 1;
      }
    }

    /** set_recording_state: switching the gate off is a hard reset of level and peak. */
    method SetRecordingState(isRecording: bool)
      requires Valid()
      modifies this
      ensures Valid()
      ensures recordingState == isRecording
      ensures !isRecording ==> currentLevel == 0.0 && peakLevel == 0.0
      ensures isRecording ==> currentLevel == old(currentLevel) && peakLevel == old(peakLevel)
      ensures isActive == old(isActive) && scheduledDraws == old(scheduledDraws)
      ensures !isRecording ==> forall w :: View(w) == InactiveStub
    {
      recordingState := isRecording;
      if !isRecording {
        currentLevel := 0.0;
        peakLevel := 0.0;
      }
    }

    /** clear_waveform: zeroes level and peak and nothing else. */
    method ClearWaveform()
      requires Valid()
      modifies this
      ensures Valid()
      ensures currentLevel == 0.0 && peakLevel == 0.0
      ensures recordingState == old(recordingState) && isActive == old(isActive)
      ensures scheduledDraws == old(scheduledDraws)
      ensures forall w :: !View(w).LevelBar?
    {
      currentLevel := 0.0;
      peakLevel := 0.0;
      forall w
        ensures !View(w).LevelBar?
      {
        assert LevelWidth(w, 0.0) == 0;
      }
    }

    /** start_animation: only sets the active flag. */
    method StartAnimation()
      modifies this`isActive
      ensures isActive
    {
      isActive := true;
    }

    /** stop_animation: only clears the active flag. */
    method StopAnimation()
      modifies this`isActive
      ensures !isActive
    {
      isActive := false;
    }
  }
}
