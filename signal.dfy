/**
 * The per-tick audio signal conditioner of the radial visualizer
 * (src/components/MainCanvas.tsx): the play gate, the energy average, the
 * bucketing of frequency bins into 48 bands, the exponential smoothing of
 * the band heights and of the energy, and the pulsing radius the bars start
 * at. The frequency snapshot is an input in decibels; `Math.pow(norm, 1.5)`
 * is the `curve` parameter, and the bars are recorded in polar form (bar
 * index, inner and outer radius) instead of being drawn with cos and sin.
 */
module Signal {
  import opened Layout
  import Color
  import Canvas

  const VisualizerHeight: real := 50.0
  const MinDb: real := -60.0
  const MaxDb: real := 0.0

  const NumBars: nat := 48
  /** Weight of the new target in each band's smoothing step. */
  const BandEase: real := 0.2
  /** Weight of the new average in the energy's smoothing step. */
  const EnergyEase: real := 0.05
  /** The analyser's FFT size set by resizeCanvasEl. */
  const FftSize: nat := 128
  const LowColor: int := 0x00cfff
  const HighColor: int := 0xff0055
  const StrokeWidth: real := 2.2

  function Max(a: real, b: real): real { if a >= b then a else b }
  function Min(a: real, b: real): real { if a <= b then a else b }

  // ---------------------------------------------------------------------
  // dBToHeight

  /** dBToHeight: clamp to [-60, 0] dB and map linearly onto [0, 50]. */
  function DbToHeight(dB: real): real
  {
    var clamped := Max(MinDb, Min(MaxDb, dB));
    var norm := (clamped - MinDb) / (MaxDb - MinDb);
    norm * VisualizerHeight
  }

  /** dBToHeight lies in [0, 50], is 0 at or below -60 dB, 50 at or above 0 dB, and grows with dB. */
  lemma DbToHeightProperties(d1: real, d2: real)
    ensures 0.0 <= DbToHeight(d1) <= VisualizerHeight
    ensures d1 <= MinDb ==> DbToHeight(d1) == 0.0
    ensures d1 >= MaxDb ==> DbToHeight(d1) == VisualizerHeight
    ensures MinDb <= d1 <= MaxDb ==> DbToHeight(d1) == (d1 + 60.0) * 50.0 / 60.0
    ensures d1 <= d2 ==> DbToHeight(d1) <= DbToHeight(d2)
  {
  }

  // ---------------------------------------------------------------------
  // Band bucketing

  /** frequencyBinCount of an analyser with the given FFT size. */
  function BinCount(fftSize: nat): nat
  {
    fftSize / 2
  }

  /** binsPerBar = Math.floor(bufferLength / 48). */
  function BinsPerBar(bufferLength: nat): nat
  {
    bufferLength / NumBars
  }

  /** Every bin the band loop reads, i * binsPerBar + j, is inside the snapshot. */
  lemma BandIndexInBounds(bufferLength: nat, i: nat, j: nat)
    requires i < NumBars && j < BinsPerBar(bufferLength)
    ensures i * BinsPerBar(bufferLength) + j < bufferLength
  {
    BandSpanInBounds(bufferLength, i);
  }

  /** Band i spans [i * binsPerBar, (i + 1) * binsPerBar], inside the snapshot. */
  lemma BandSpanInBounds(bufferLength: nat, i: nat)
    requires i < NumBars
    ensures i * BinsPerBar(bufferLength) + BinsPerBar(bufferLength) <= bufferLength
  {
    var b := BinsPerBar(bufferLength);
    MulLeq(i + 1, NumBars, b);
    assert NumBars * b <= bufferLength;
    assert i * b + b == (i + 1) * b;
  }

  lemma MulLeq(x: nat, y: nat, b: nat)
    requires x <= y
    ensures x * b <= y * b
  {
  }

  /** With the FFT size 128 the snapshot has 64 bins and each band is one bin. */
  lemma DefaultBucketing()
    ensures BinCount(FftSize) == 64 && BinsPerBar(BinCount(FftSize)) == 1
  {
  }

  // ---------------------------------------------------------------------
  // The specification functions of the callback

  /** One bin's share of the overall energy: max(0, dB + 100). */
  function EnergyOf(dB: real): real
  {
    Max(0.0, dB + 100.0)
  }

  /** totalEnergy after the loop over the snapshot. */
  function EnergySum(s: seq<real>): real
  {
    if s == [] then 0.0 else EnergySum(s[..|s| - 1]) + EnergyOf(s[|s| - 1])
  }

  /** avgEnergy: the total over the bin count, divided by 100. */
  function AvgEnergy(s: seq<real>): real
    requires |s| > 0
  {
    EnergySum(s) / |s| as real / 100.0
  }

  /** The sum the band loop accumulates. */
  function Sum(s: seq<real>): real
  {
    if s == [] then 0.0 else Sum(s[..|s| - 1]) + s[|s| - 1]
  }

  /** The bins of band i. */
  function Band(s: seq<real>, i: nat): (band: seq<real>)
    requires |s| >= NumBars && i < NumBars
    ensures |band| == BinsPerBar(|s|)
  {
    BandSpanInBounds(|s|, i);
    var b := BinsPerBar(|s|);
    var lo := i * b;
    s[lo .. lo + b]
  }

  /** Bin m of band i is bin i * binsPerBar + m of the snapshot. */
  lemma BandAt(s: seq<real>, i: nat, m: nat)
    requires |s| >= NumBars && i < NumBars && m < BinsPerBar(|s|)
    ensures i * BinsPerBar(|s|) + m < |s|
    ensures Band(s, i)[m] == s[i * BinsPerBar(|s|) + m]
  {
    BandIndexInBounds(|s|, i, m);
    BandSpanInBounds(|s|, i);
    var b := BinsPerBar(|s|);
    var lo := i * b;
    assert Band(s, i) == s[lo .. lo + b];
  }

  /** avgDb: the mean level of band i. */
  function BandAverage(s: seq<real>, i: nat): real
    requires |s| >= NumBars && i < NumBars
  {
    Sum(Band(s, i)) / BinsPerBar(|s|) as real
  }

  /** norm: the band level mapped from [-100, 0] dB to [0, 1], never negative. */
  function Norm(avgDb: real): real
  {
    Max(0.0, (avgDb + 100.0) / 100.0)
  }

  /** targetHeight of band i: curve(norm) * baseRadius * 0.7. */
  function TargetHeight(s: seq<real>, i: nat, baseRadius: real, curve: real -> real): real
    requires |s| >= NumBars && i < NumBars
  {
    curve(Norm(BandAverage(s, i))) * baseRadius * 0.7
  }

  /** One exponential smoothing step: move the fraction k of the way to the target. */
  function Ease(current: real, target: real, k: real): real
  {
    current + (target - current) * k
  }

  /** dynamicRadius: the base radius pulsed by up to 40 % with the smoothed energy. */
  function DynamicRadius(baseRadius: real, energy: real): real
  {
    baseRadius * (1.0 + energy * 0.4)
  }

  /** The 48 band heights after one smoothing step towards their targets. */
  function SmoothedHeights(prev: seq<real>, s: seq<real>, baseRadius: real, curve: real -> real): seq<real>
    requires |prev| == NumBars && |s| >= NumBars
  {
    seq(NumBars, i requires 0 <= i < NumBars => Ease(prev[i], TargetHeight(s, i, baseRadius, curve), BandEase))
  }

  /** One bar as drawn: width, colour, centre, bar index (the angle is index * 2pi/48) and its two radii. */
  datatype Stroke = Stroke(width: real, color: int, centerX: real, centerY: real,
                           bar: nat, innerRadius: real, outerRadius: real)

  function BarStroke(height: real, i: nat, centerX: real, centerY: real, radius: real): Stroke
  {
    Stroke(StrokeWidth, Color.LerpColor(LowColor, HighColor, i as real / NumBars as real),
           centerX, centerY, i, radius, radius + height)
  }

  /** The drawing of one tick: one stroke per band, in band order. */
  function Strokes(heights: seq<real>, centerX: real, centerY: real, radius: real): (bars: seq<Stroke>)
    ensures |bars| == |heights|
  {
    if heights == [] then []
    else
      var n := |heights| - 1;
      Strokes(heights[..n], centerX, centerY, radius) + [BarStroke(heights[n], n, centerX, centerY, radius)]
  }

  /** Stroke k is the bar drawn for band k, with height heights[k]. */
  lemma {:induction false} StrokesAt(heights: seq<real>, centerX: real, centerY: real, radius: real, k: nat)
    requires k < |heights|
    ensures Strokes(heights, centerX, centerY, radius)[k] == BarStroke(heights[k], k, centerX, centerY, radius)
  {
    var n := |heights| - 1;
    if k < n {
      StrokesAt(heights[..n], centerX, centerY, radius, k);
    }
  }

  /**
   * The pow(·, 1.5) curve is only assumed to fix 0 and 1, to be
   * non-negative on non-negative inputs and at most 1 on [0, 1].
   */
  ghost predicate ValidCurve(curve: real -> real)
  {
    curve(0.0) == 0.0 && curve(1.0) == 1.0 &&
    (forall x :: 0.0 <= x ==> 0.0 <= curve(x)) &&
    (forall x :: 0.0 <= x <= 1.0 ==> curve(x) <= 1.0)
  }

  // ---------------------------------------------------------------------
  // The loops of the callback

  /** The energy loop over all bins. */
  method TotalEnergy(s: seq<real>) returns (total: real)
    ensures total == EnergySum(s)
  {
    total := 0.0;
    var i := 0;
    while i < |s|
      invariant 0 <= i <= |s|
      invariant total == EnergySum(s[..i])
    {
      assert s[..i + 1][..i] == s[..i];
      total := total + Max(0.0, s[i] + 100.0);
      i := i + 1;
    }
    assert s[..|s|] == s;
  }

  /** The sum loop over the bins of one band. */
  method BandSum(s: seq<real>, start: nat, count: nat) returns (sum: real)
    requires start + count <= |s|
    ensures sum == Sum(s[start..start + count])
  {
    sum := 0.0;
    var j := 0;
    while j < count
      invariant 0 <= j <= count
      invariant sum == Sum(s[start..start + j])
    {
      assert s[start..start + j + 1][..j] == s[start..start + j];
      sum := sum + s[start + j];
      j := j + 1;
    }
  }

  /**
   * The visualizer's persistent state: the module-level smoothHeights array
   * and smoothedEnergy, and the audioVisualizer drawable (its strokes).
   */
  class Visualizer {
    var smoothHeights: array<real>
    var smoothedEnergy: real
    var strokes: seq<Stroke>

    ghost predicate Valid()
      reads this
    {
      smoothHeights.Length == NumBars
    }

    /** `new Array(48).fill(0)`, an energy of 0 and an empty drawing. */
    constructor ()
      ensures Valid() && fresh(smoothHeights)
      ensures forall i :: 0 <= i < NumBars ==> smoothHeights[i] == 0.0
      ensures smoothedEnergy == 0.0 && strokes == []
    {
      smoothHeights := new real[NumBars](_ => 0.0);
      smoothedEnergy := 0.0;
      strokes := [];
    }

    /**
     * The ticker callback registered by resizeCanvasEl for a canvas of the
     * given width. Paused: nothing changes. Playing: the energy and every
     * band height take one smoothing step and the bars are redrawn.
     */
    method Tick(isPlaying: bool, snapshot: seq<real>, width: real, curve: real -> real)
      requires Valid() && |snapshot| >= NumBars
      modifies this, smoothHeights
      ensures Valid() && smoothHeights == old(smoothHeights)
      ensures !isPlaying ==> unchanged(this) && unchanged(smoothHeights)
      ensures isPlaying ==>
        smoothedEnergy == Ease(old(smoothedEnergy), AvgEnergy(snapshot), EnergyEase) &&
        smoothHeights[..] == SmoothedHeights(old(smoothHeights[..]), snapshot,
                                             width * AudioVisualizerSprite.widthPercent, curve) &&
        strokes == Strokes(smoothHeights[..], width * AudioVisualizerSprite.xPercent,
                           width * AudioVisualizerSprite.yPercent,
                           DynamicRadius(width * AudioVisualizerSprite.widthPercent, smoothedEnergy))
    {
      if !isPlaying {
        return;
      }
      var centerX := width * AudioVisualizerSprite.xPercent;
      var centerY := width * AudioVisualizerSprite.yPercent;
      var baseRadius := width * AudioVisualizerSprite.widthPercent;
      var bufferLength := |snapshot|;

      var totalEnergy := TotalEnergy(snapshot);
      var avgEnergy := totalEnergy / bufferLength as real / 100.0;
      smoothedEnergy := smoothedEnergy + (avgEnergy - smoothedEnergy) * EnergyEase;
      var dynamicRadius := baseRadius * (1.0 + smoothedEnergy * 0.4);
      assert dynamicRadius == DynamicRadius(baseRadius, smoothedEnergy);
      DrawBars(snapshot, baseRadius, centerX, centerY, dynamicRadius, curve);
    }

    /**
     * The per-band loop of the callback: every band height takes one
     * smoothing step towards its target and its bar is drawn, in band order.
     */
    method DrawBars(snapshot: seq<real>, baseRadius: real, centerX: real, centerY: real,
                    dynamicRadius: real, curve: real -> real)
      requires Valid() && |snapshot| >= NumBars
      modifies this`strokes, smoothHeights
      ensures smoothHeights[..] == SmoothedHeights(old(smoothHeights[..]), snapshot, baseRadius, curve)
      ensures strokes == Strokes(smoothHeights[..], centerX, centerY, dynamicRadius)
    {
      var heights := smoothHeights;
      var bars := [];
      ghost var prev := heights[..];
      ghost var next := SmoothedHeights(prev, snapshot, baseRadius, curve);
      var i := 0;
      while i < NumBars
        invariant 0 <= i <= NumBars
        invariant heights[..] == next[..i] + prev[i..]
        invariant bars == Strokes(next[..i], centerX, centerY, dynamicRadius)
      {
        var targetHeight := BandTarget(snapshot, i, baseRadius, curve);
        ghost var before := heights[..];
        assert before[i] == prev[i];
        SmoothedAt(prev, snapshot, baseRadius, curve, i);
        heights[i] := heights[i] + (targetHeight - heights[i]) * BandEase;
        assert heights[i] == next[i];
        assert heights[..] == before[i := heights[i]];
        DrawStep(before, prev, next, bars, i, centerX, centerY, dynamicRadius);
        bars := bars + [BarStroke(heights[i], i, centerX, centerY, dynamicRadius)];
        i := i + 1;
      }
      assert next[..NumBars] == next;
      assert prev[NumBars..] == [];
      assert heights[..] == next;
      assert bars == Strokes(next, centerX, centerY, dynamicRadius);
      strokes := bars;
    }
  }

  /** The body of the band loop up to targetHeight: the band's mean level, normalised and curved. */
  method BandTarget(snapshot: seq<real>, i: nat, baseRadius: real, curve: real -> real)
    returns (targetHeight: real)
    requires |snapshot| >= NumBars && i < NumBars
    ensures targetHeight == TargetHeight(snapshot, i, baseRadius, curve)
  {
    var binsPerBar := |snapshot| / NumBars;
    BandSpanInBounds(|snapshot|, i);
    var sum := BandSum(snapshot, i * binsPerBar, binsPerBar);
    var avgDb := sum / binsPerBar as real;
    var norm := Max(0.0, (avgDb + 100.0) / 100.0);
    targetHeight := curve(norm) * baseRadius * 0.7;
    assert avgDb == BandAverage(snapshot, i);
    TargetHeightOf(snapshot, i, baseRadius, curve, curve(norm));
  }

  /** The target height in terms of the curve's value at the band's level. */
  lemma TargetHeightOf(s: seq<real>, i: nat, baseRadius: real, curve: real -> real, c: real)
    requires |s| >= NumBars && i < NumBars && c == curve(Norm(BandAverage(s, i)))
    ensures TargetHeight(s, i, baseRadius, curve) == c * baseRadius * 0.7
  {
  }

  /** Height i after the step is one smoothing step from height i before it. */
  lemma SmoothedAt(prev: seq<real>, s: seq<real>, baseRadius: real, curve: real -> real, i: nat)
    requires |prev| == NumBars && |s| >= NumBars && i < NumBars
    ensures SmoothedHeights(prev, s, baseRadius, curve)[i] == Ease(prev[i], TargetHeight(s, i, baseRadius, curve), BandEase)
  {
  }

  /**
   * One iteration of the band loop: writing height i extends the updated
   * prefix by one, and drawing its bar extends the drawing by one stroke.
   */
  lemma DrawStep(current: seq<real>, prev: seq<real>, next: seq<real>, bars: seq<Stroke>, i: nat,
                 centerX: real, centerY: real, radius: real)
    requires |next| == |prev| && i < |prev|
    requires current == next[..i] + prev[i..]
    requires bars == Strokes(next[..i], centerX, centerY, radius)
    ensures current[i := next[i]] == next[..i + 1] + prev[i + 1..]
    ensures bars + [BarStroke(next[i], i, centerX, centerY, radius)] == Strokes(next[..i + 1], centerX, centerY, radius)
  {
    assert next[..i + 1] == next[..i] + [next[i]];
    StrokesSnoc(next[..i], next[i], centerX, centerY, radius);
  }

  /** Drawing one more band appends one stroke. */
  lemma StrokesSnoc(heights: seq<real>, h: real, centerX: real, centerY: real, radius: real)
    ensures Strokes(heights + [h], centerX, centerY, radius) ==
            Strokes(heights, centerX, centerY, radius) + [BarStroke(h, |heights|, centerX, centerY, radius)]
  {
    assert (heights + [h])[..|heights|] == heights;
  }

  // ---------------------------------------------------------------------
  // Properties of the conditioner

  /** Every bin's energy is at least 0, and at most 100 for a level of at most 0 dB. */
  lemma {:induction false} EnergySumBounds(s: seq<real>)
    ensures EnergySum(s) >= 0.0
    ensures (forall k :: 0 <= k < |s| ==> s[k] <= 0.0) ==> EnergySum(s) <= 100.0 * |s| as real
  {
    if s != [] {
      var init := s[..|s| - 1];
      EnergySumBounds(init);
      if forall k :: 0 <= k < |s| ==> s[k] <= 0.0 {
        assert forall k :: 0 <= k < |init| ==> init[k] <= 0.0 by {
          forall k | 0 <= k < |init| ensures init[k] <= 0.0 {
            assert init[k] == s[k];
          }
        }
        assert s[|s| - 1] <= 0.0;
      }
    }
  }

  /** The normalised energy is never negative, and at most 1 when no bin exceeds 0 dB. */
  lemma AvgEnergyRange(s: seq<real>)
    requires |s| > 0
    ensures AvgEnergy(s) >= 0.0
    ensures (forall k :: 0 <= k < |s| ==> s[k] <= 0.0) ==> AvgEnergy(s) <= 1.0
  {
    EnergySumBounds(s);
    var n := |s| as real;
    assert EnergySum(s) / n >= 0.0;
    if forall k :: 0 <= k < |s| ==> s[k] <= 0.0 {
      assert EnergySum(s) / n <= 100.0;
    }
  }

  /** A snapshot whose bins are all c sums to c times its length. */
  lemma {:induction false} ConstantSums(s: seq<real>, c: real)
    requires forall k :: 0 <= k < |s| ==> s[k] == c
    ensures Sum(s) == c * |s| as real
    ensures EnergySum(s) == EnergyOf(c) * |s| as real
  {
    if s != [] {
      var init := s[..|s| - 1];
      assert forall k :: 0 <= k < |init| ==> init[k] == c by {
        forall k | 0 <= k < |init| ensures init[k] == c {
          assert init[k] == s[k];
        }
      }
      ConstantSums(init, c);
      assert s[|s| - 1] == c;
    }
  }

  /** A sum of levels of at most 0 dB is at most 0. */
  lemma {:induction false} SumNonPositive(s: seq<real>)
    requires forall k :: 0 <= k < |s| ==> s[k] <= 0.0
    ensures Sum(s) <= 0.0
  {
    if s != [] {
      var init := s[..|s| - 1];
      assert forall k :: 0 <= k < |init| ==> init[k] <= 0.0 by {
        forall k | 0 <= k < |init| ensures init[k] <= 0.0 {
          assert init[k] == s[k];
        }
      }
      SumNonPositive(init);
      assert s[|s| - 1] <= 0.0;
    }
  }

  lemma DivCancel(c: real, n: real)
    requires n != 0.0
    ensures c * n / n == c
  {
  }

  lemma ScaleDown(d: real, k: real)
    requires 0.0 <= d && 0.0 <= k <= 1.0
    ensures 0.0 <= d * k <= d
  {
    assert d * (1.0 - k) >= 0.0;
  }

  /**
   * One smoothing step with a weight in [0, 1] lands between the old value
   * and the target, and closes the gap to the target by exactly the weight.
   */
  lemma EaseBetween(current: real, target: real, k: real)
    requires 0.0 <= k <= 1.0
    ensures Min(current, target) <= Ease(current, target, k) <= Max(current, target)
    ensures Ease(current, target, k) - target == (1.0 - k) * (current - target)
  {
    var d := target - current;
    var e := Ease(current, target, k);
    assert e == current + d * k;
    assert (1.0 - k) * (current - target) == -(d - d * k);
    if current <= target {
      ScaleDown(d, k);
      assert current <= e <= target;
    } else {
      var m := current - target;
      ScaleDown(m, k);
      assert d * k == -(m * k);
      assert e == current - m * k;
      assert target <= e <= current;
    }
  }

  /**
   * One step of the callback for every band: each height moves 20 % of the
   * way to a target that is never negative.
   */
  lemma SmoothingStep(prev: seq<real>, s: seq<real>, baseRadius: real, curve: real -> real, i: nat)
    requires |prev| == NumBars && |s| >= NumBars && i < NumBars
    requires ValidCurve(curve) && baseRadius >= 0.0
    ensures TargetHeight(s, i, baseRadius, curve) >= 0.0
    ensures SmoothedHeights(prev, s, baseRadius, curve)[i] - prev[i] ==
            (TargetHeight(s, i, baseRadius, curve) - prev[i]) * BandEase
    ensures Min(prev[i], TargetHeight(s, i, baseRadius, curve)) <= SmoothedHeights(prev, s, baseRadius, curve)[i]
    ensures SmoothedHeights(prev, s, baseRadius, curve)[i] <= Max(prev[i], TargetHeight(s, i, baseRadius, curve))
  {
    var t := TargetHeight(s, i, baseRadius, curve);
    var n := Norm(BandAverage(s, i));
    assert curve(n) >= 0.0;
    assert curve(n) * baseRadius >= 0.0;
    EaseBetween(prev[i], t, BandEase);
  }

  /** When no bin exceeds 0 dB, a band's target height lies in [0, 0.7 * baseRadius]. */
  lemma TargetHeightBounded(s: seq<real>, baseRadius: real, curve: real -> real, i: nat)
    requires |s| >= NumBars && i < NumBars
    requires ValidCurve(curve) && baseRadius >= 0.0
    requires forall k :: 0 <= k < |s| ==> s[k] <= 0.0
    ensures 0.0 <= TargetHeight(s, i, baseRadius, curve) <= baseRadius * 0.7
  {
    var band := Band(s, i);
    forall m | 0 <= m < |band| ensures band[m] <= 0.0 {
      BandAt(s, i, m);
    }
    SumNonPositive(band);
    assert BinsPerBar(|s|) >= 1;
    assert BandAverage(s, i) <= 0.0;
    var n := Norm(BandAverage(s, i));
    assert 0.0 <= n <= 1.0;
    var c := curve(n);
    assert 0.0 <= c <= 1.0;
    ScaleDown(baseRadius, c);
    TargetHeightOf(s, i, baseRadius, curve, c);
  }

  /**
   * When no bin exceeds 0 dB, band heights in [0, 0.7 * baseRadius] stay in
   * that range after a step.
   */
  lemma HeightsStayBounded(prev: seq<real>, s: seq<real>, baseRadius: real, curve: real -> real)
    requires |prev| == NumBars && |s| >= NumBars
    requires ValidCurve(curve) && baseRadius >= 0.0
    requires forall k :: 0 <= k < |s| ==> s[k] <= 0.0
    requires forall k :: 0 <= k < NumBars ==> 0.0 <= prev[k] <= baseRadius * 0.7
    ensures forall k :: 0 <= k < NumBars ==>
      0.0 <= SmoothedHeights(prev, s, baseRadius, curve)[k] <= baseRadius * 0.7
  {
    forall k | 0 <= k < NumBars
      ensures 0.0 <= SmoothedHeights(prev, s, baseRadius, curve)[k] <= baseRadius * 0.7
    {
      TargetHeightBounded(s, baseRadius, curve, k);
      EaseBetween(prev[k], TargetHeight(s, k, baseRadius, curve), BandEase);
    }
  }

  /** The pulse never shrinks the radius, and adds at most 40 % while the energy is at most 1. */
  lemma DynamicRadiusBounds(baseRadius: real, energy: real)
    requires baseRadius >= 0.0
    ensures energy >= 0.0 ==> DynamicRadius(baseRadius, energy) >= baseRadius
    ensures energy <= 1.0 ==> DynamicRadius(baseRadius, energy) <= 1.4 * baseRadius
  {
    assert DynamicRadius(baseRadius, energy) == baseRadius + baseRadius * energy * 0.4;
    if energy >= 0.0 {
      assert baseRadius * energy >= 0.0;
    }
    if energy <= 1.0 {
      assert baseRadius * energy <= baseRadius;
    }
  }

  /** The energy stays in [0, 1] from tick to tick while no bin exceeds 0 dB. */
  lemma EnergyStaysInUnitRange(energy: real, s: seq<real>)
    requires |s| > 0 && 0.0 <= energy <= 1.0
    requires forall k :: 0 <= k < |s| ==> s[k] <= 0.0
    ensures 0.0 <= Ease(energy, AvgEnergy(s), EnergyEase) <= 1.0
  {
    AvgEnergyRange(s);
    EaseBetween(energy, AvgEnergy(s), EnergyEase);
  }

  /**
   * The bars start outside the emblem: for a positive width and a
   * non-negative energy a bar's inner radius exceeds the mask's radius, and
   * the bar shares the mask's centre (with StrokesAt: every bar a tick draws).
   */
  lemma BarsStartOutsideEmblem(width: real, energy: real, height: real, i: nat)
    requires width > 0.0 && energy >= 0.0
    ensures BarStroke(height, i, width * AudioVisualizerSprite.xPercent, width * AudioVisualizerSprite.yPercent,
                      DynamicRadius(width * AudioVisualizerSprite.widthPercent, energy)).innerRadius
            > Canvas.MaskCircle(width, MajorSprite).radius
    ensures BarStroke(height, i, width * AudioVisualizerSprite.xPercent, width * AudioVisualizerSprite.yPercent,
                      DynamicRadius(width * AudioVisualizerSprite.widthPercent, energy)).centerX
            == Canvas.MaskCircle(width, MajorSprite).cx
    ensures BarStroke(height, i, width * AudioVisualizerSprite.xPercent, width * AudioVisualizerSprite.yPercent,
                      DynamicRadius(width * AudioVisualizerSprite.widthPercent, energy)).centerY
            == Canvas.MaskCircle(width, MajorSprite).cy
  {
    var base := width * AudioVisualizerSprite.widthPercent;
    DynamicRadiusBounds(base, energy);
    assert Canvas.MaskCircle(width, MajorSprite).radius == width * 0.075;
  }

  /** Every stroke has a valid 24-bit colour, goes outward from the radius, and bar 0 is the low colour. */
  lemma StrokesWellFormed(heights: seq<real>, centerX: real, centerY: real, radius: real)
    requires |heights| == NumBars
    requires forall k :: 0 <= k < NumBars ==> heights[k] >= 0.0
    ensures forall k :: 0 <= k < NumBars ==>
      Color.IsColor24(Strokes(heights, centerX, centerY, radius)[k].color) &&
      Strokes(heights, centerX, centerY, radius)[k].innerRadius == radius &&
      Strokes(heights, centerX, centerY, radius)[k].outerRadius >= radius
    ensures Strokes(heights, centerX, centerY, radius)[0].color == LowColor
  {
    forall k | 0 <= k < NumBars
      ensures Color.IsColor24(Strokes(heights, centerX, centerY, radius)[k].color)
      ensures Strokes(heights, centerX, centerY, radius)[k].innerRadius == radius
      ensures Strokes(heights, centerX, centerY, radius)[k].outerRadius >= radius
    {
      StrokesAt(heights, centerX, centerY, radius, k);
      Color.LerpColorChannels(LowColor, HighColor, k as real / NumBars as real);
    }
    StrokesAt(heights, centerX, centerY, radius, 0);
    Color.LerpColorEndpoints(LowColor, HighColor);
    assert 0 as real / NumBars as real == 0.0;
  }

  // ---------------------------------------------------------------------
  // Repeated ticks

  /** The value after n smoothing steps towards a fixed target. */
  function EaseN(v: real, target: real, k: real, n: nat): real
  {
    if n == 0 then v else Ease(EaseN(v, target, k, n - 1), target, k)
  }

  function Power(x: real, n: nat): real
  {
    if n == 0 then 1.0 else x * Power(x, n - 1)
  }

  /** After n steps the gap to the target is (1 - k)^n times the initial gap. */
  lemma {:induction false} EaseNGap(v: real, target: real, k: real, n: nat)
    ensures EaseN(v, target, k, n) - target == Power(1.0 - k, n) * (v - target)
  {
    if n > 0 {
      EaseNGap(v, target, k, n - 1);
      var prev := EaseN(v, target, k, n - 1);
      assert Ease(prev, target, k) - target == (1.0 - k) * (prev - target);
      assert (1.0 - k) * (Power(1.0 - k, n - 1) * (v - target)) == Power(1.0 - k, n) * (v - target);
    }
  }

  /**
   * Towards a constant target with a weight in [0, 1] the value moves
   * monotonically and never overshoots; towards 0 from a non-negative value
   * it never goes negative.
   */
  lemma {:induction false} EaseNMonotone(v: real, target: real, k: real, n: nat)
    requires 0.0 <= k <= 1.0
    ensures v <= target ==> v <= EaseN(v, target, k, n) <= EaseN(v, target, k, n + 1) <= target
    ensures target <= v ==> target <= EaseN(v, target, k, n + 1) <= EaseN(v, target, k, n) <= v
  {
    if n > 0 {
      EaseNMonotone(v, target, k, n - 1);
    }
    EaseBetween(EaseN(v, target, k, n), target, k);
  }

  /** In a snapshot whose bins are all c, every band averages c. */
  lemma ConstantBandAverage(s: seq<real>, c: real, i: nat)
    requires |s| >= NumBars && i < NumBars
    requires forall k :: 0 <= k < |s| ==> s[k] == c
    ensures BandAverage(s, i) == c
  {
    var band := Band(s, i);
    forall m | 0 <= m < |band| ensures band[m] == c {
      BandAt(s, i, m);
    }
    assert BinsPerBar(|s|) >= 1;
    ConstantAverage(band, c);
  }

  /** A non-empty run of equal levels c averages c. */
  lemma ConstantAverage(band: seq<real>, c: real)
    requires |band| >= 1
    requires forall m :: 0 <= m < |band| ==> band[m] == c
    ensures Sum(band) / |band| as real == c
  {
    ConstantSums(band, c);
    DivCancel(c, |band| as real);
  }

  /**
   * Silence (every bin at -100 dB): the energy target is 0 and every band's
   * target height is 0, so the values decay to 0 and the radius to its base.
   */
  lemma SilenceTargets(s: seq<real>, baseRadius: real, curve: real -> real, i: nat)
    requires |s| >= NumBars && i < NumBars && ValidCurve(curve)
    requires forall k :: 0 <= k < |s| ==> s[k] == -100.0
    ensures AvgEnergy(s) == 0.0
    ensures TargetHeight(s, i, baseRadius, curve) == 0.0
    ensures DynamicRadius(baseRadius, 0.0) == baseRadius
  {
    ConstantSums(s, -100.0);
    ConstantBandAverage(s, -100.0, i);
    assert Norm(-100.0) == 0.0;
  }

  /**
   * Full scale (every bin at 0 dB): the energy target is 1 and every band's
   * target is 0.7 * baseRadius, and at energy 1 the radius is 1.4 * baseRadius.
   */
  lemma FullScaleTargets(s: seq<real>, baseRadius: real, curve: real -> real, i: nat)
    requires |s| >= NumBars && i < NumBars && ValidCurve(curve)
    requires forall k :: 0 <= k < |s| ==> s[k] == 0.0
    ensures AvgEnergy(s) == 1.0
    ensures TargetHeight(s, i, baseRadius, curve) == baseRadius * 0.7
    ensures DynamicRadius(baseRadius, 1.0) == 1.4 * baseRadius
  {
    ConstantSums(s, 0.0);
    var n := |s| as real;
    assert EnergySum(s) == 100.0 * n;
    assert EnergySum(s) / n == 100.0;
    ConstantBandAverage(s, 0.0, i);
    assert Norm(0.0) == 1.0;
  }
}
