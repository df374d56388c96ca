/**
 * The level-meter widget (`AudioMeter`): the current level and the held
 * peak in dB, the peak-hold timer, the colour table, the tick values of the
 * scale and the clamped position a value maps to.
 *
 * Levels are exact `real`s. A repaint request is counted in `repaints`;
 * painting itself is not modelled. The timer is its running flag and
 * interval.
 */
module AudioMeter {
  import opened Strings

  datatype Color = Color(red: int, green: int, blue: int, alpha: int)

  /** The colour roles and their defaults. */
  const DEFAULT_COLORS: map<string, Color> := map[
    "background" := Color(50, 50, 50, 255),
    "border" := Color(100, 100, 100, 255),
    "level_low" := Color(0, 200, 0, 255),
    "level_med" := Color(255, 200, 0, 255),
    "level_high" := Color(255, 0, 0, 255),
    "tick" := Color(200, 200, 200, 150),
    "text" := Color(255, 255, 255, 255)]

  /** `max(lo, min(hi, v))`. */
  function Clamp(lo: real, hi: real, v: real): (r: real)
    ensures lo <= hi ==> lo <= r <= hi
    ensures lo <= v <= hi ==> r == v
    ensures hi < lo ==> r == lo
    ensures lo <= hi && v < lo ==> r == lo
    ensures lo <= hi && hi < v ==> r == hi
  {
    var m := if hi <= v then hi else v;
    if lo >= m then lo else m
  }

  function Ceil(x: real): int { -((-x).Floor) }

  /** `range(a, b, 10)`. */
  function Range10(a: int, b: int): (r: seq<int>)
    decreases b - a
  {
    if a >= b then [] else [a] + Range10(a + 10, b)
  }

  /** The tick values `_draw_ticks` draws: every multiple of 10 in the scale, from the bottom up. */
  function TickValues(minValue: real, maxValue: real): (r: seq<int>)
  {
    Inside(Range10(Ceil(minValue / 10.0) * 10, (maxValue / 10.0).Floor * 10 + 1), minValue, maxValue)
  }

  /** The values within `[lo, hi]`, in order (the loop's `continue` for values outside). */
  function Inside(vs: seq<int>, lo: real, hi: real): (r: seq<int>)
  {
    if |vs| == 0 then []
    else (if lo <= vs[0] as real <= hi then [vs[0]] else []) + Inside(vs[1..], lo, hi)
  }

  lemma {:induction false} InsideMembership(vs: seq<int>, lo: real, hi: real, v: int)
    ensures v in Inside(vs, lo, hi) <==> v in vs && lo <= v as real <= hi
  {
    if |vs| > 0 {
      InsideMembership(vs[1..], lo, hi, v);
      assert vs == [vs[0]] + vs[1..];
    }
  }

  lemma {:induction false} RangeMembership(a: int, b: int, v: int)
    ensures v in Range10(a, b) <==> a <= v < b && (v - a) % 10 == 0
    decreases b - a
  {
    if a < b {
      RangeMembership(a + 10, b, v);
    }
  }

  /** The ticks are exactly the multiples of 10 between the two ends of the scale. */
  lemma TickValuesMembership(minValue: real, maxValue: real, v: int)
    ensures v in TickValues(minValue, maxValue) <==> v % 10 == 0 && minValue <= v as real <= maxValue
  {
    var a := Ceil(minValue / 10.0) * 10;
    var b := (maxValue / 10.0).Floor * 10 + 1;
    InsideMembership(Range10(a, b), minValue, maxValue, v);
    RangeMembership(a, b, v);
    if v % 10 == 0 && minValue <= v as real <= maxValue {
      var k := v / 10;
      assert v == k * 10;
      assert minValue / 10.0 <= k as real <= maxValue / 10.0;
      assert Ceil(minValue / 10.0) <= k;
      assert k <= (maxValue / 10.0).Floor;
      assert (v - a) % 10 == 0 by {
        assert v - a == (k - Ceil(minValue / 10.0)) * 10;
      }
    }
  }

  /** The ticks rise in steps of 10. */
  lemma {:induction false} RangeAscends(a: int, b: int)
    ensures forall i :: 0 <= i < |Range10(a, b)| ==> Range10(a, b)[i] == a + 10 * i
    decreases b - a
  {
    if a < b {
      RangeAscends(a + 10, b);
    }
  }

  predicate Ascending(vs: seq<int>)
  {
    forall i, j :: 0 <= i < j < |vs| ==> vs[i] < vs[j]
  }

  lemma {:induction false} InsideAscending(vs: seq<int>, lo: real, hi: real)
    requires Ascending(vs)
    ensures Ascending(Inside(vs, lo, hi))
  {
    if |vs| > 0 {
      InsideAscending(vs[1..], lo, hi);
      var rest := Inside(vs[1..], lo, hi);
      forall k | 0 <= k < |rest|
        ensures vs[0] < rest[k]
      {
        InsideMembership(vs[1..], lo, hi, rest[k]);
        var m :| 0 <= m < |vs[1..]| && vs[1..][m] == rest[k];
        assert vs[1..][m] == vs[m + 1];
      }
    }
  }

  /** The ticks are drawn from the bottom of the scale upwards, each value once. */
  lemma TickValuesAscend(minValue: real, maxValue: real)
    ensures Ascending(TickValues(minValue, maxValue))
  {
    var a := Ceil(minValue / 10.0) * 10;
    var b := (maxValue / 10.0).Floor * 10 + 1;
    RangeAscends(a, b);
    InsideAscending(Range10(a, b), minValue, maxValue);
  }

  /** A tick's label: the value followed by "dB" (the separate "0dB" case gives the same text). */
  function TickLabel(v: int): (r: string)
    ensures r == IntToString(v) + "dB"
    ensures v == 0 ==> r == "0dB"
  {
    if v != 0 then IntToString(v) + "dB" else "0dB"
  }


  class AudioMeter {
    const minValue: real
    const maxValue: real
    const warnThreshold: real
    const critThreshold: real
    var level: real
    var peak: real
    var peakHoldTime: int
    var timerRunning: bool
    var timerInterval: int
    var colors: map<string, Color>
    var repaints: nat

    /** A level or peak is the bottom of the scale or a value on it. */
    predicate OnScale(x: real)
      reads this
    {
      x == minValue || minValue <= x <= maxValue
    }

    predicate Valid()
      reads this
    {
      OnScale(level) && OnScale(peak) && colors.Keys == DEFAULT_COLORS.Keys
    }

    constructor (minValue: real, maxValue: real, warnThreshold: real, critThreshold: real, peakHoldTime: int)
      ensures Valid()
      ensures this.minValue == minValue && this.maxValue == maxValue
      ensures this.warnThreshold == warnThreshold && this.critThreshold == critThreshold
      ensures level == minValue && peak == minValue && this.peakHoldTime == peakHoldTime
      ensures !timerRunning && colors == DEFAULT_COLORS && repaints == 0
    {
      this.minValue := minValue;
      this.maxValue := maxValue;
      this.warnThreshold := warnThreshold;
      this.critThreshold := critThreshold;
      this.peakHoldTime := peakHoldTime;
      level := minValue;
      peak := minValue;
      timerRunning := false;
      timerInterval := 0;
      colors := DEFAULT_COLORS;
      repaints := 0;
    }

    /**
     * `set_level`: the clamped value becomes the level; a value above the
     * peak becomes the peak and, with a positive hold time, restarts the
     * hold timer.
     */
    method SetLevel(value: real)
      requires Valid()
      modifies this`level, this`peak, this`timerRunning, this`timerInterval, this`repaints
      ensures Valid()
      ensures level == Clamp(minValue, maxValue, value)
      ensures peak == (if level > old(peak) then level else old(peak))
      ensures level > old(peak) && peakHoldTime > 0 ==> timerRunning && timerInterval == peakHoldTime
      ensures !(level > old(peak) && peakHoldTime > 0) ==>
        timerRunning == old(timerRunning) && timerInterval == old(timerInterval)
      ensures repaints == old(repaints) + 1
    {
      var v := Clamp(minValue, maxValue, value);
      level := v;
      if v > peak {
        peak := v;
        if peakHoldTime > 0 {
          // stop(), then start(peak_hold_time)
          timerRunning, timerInterval := true, peakHoldTime;
        }
      }
      repaints := repaints + 1;
    }

    /** `set_peak_hold_time`: a negative time is stored as 0, which disables the hold timer. */
    method SetPeakHoldTime(ms: int)
      modifies this`peakHoldTime
      ensures peakHoldTime == if ms > 0 then ms else 0
    {
      peakHoldTime := if 0 >= ms then 0 else ms;
    }

    /** `reset_peak`: the peak drops to the bottom of the scale. */
    method ResetPeak()
      requires Valid()
      modifies this`peak, this`repaints
      ensures Valid() && peak == minValue && repaints == old(repaints) + 1
    {
      peak := minValue;
      repaints := repaints + 1;
    }

    /** `_on_peak_timeout`: the held peak drops to the bottom of the scale and the timer stops. */
    method OnPeakTimeout()
      requires Valid()
      modifies this`peak, this`timerRunning, this`repaints
      ensures Valid() && peak == minValue && !timerRunning && repaints == old(repaints) + 1
    {
      peak := minValue;
      timerRunning := false;
      repaints := repaints + 1;
    }

    /** `set_color`: only a role that exists is recoloured; an unknown role changes nothing. */
    method SetColor(role: string, color: Color)
      requires Valid()
      modifies this`colors, this`repaints
      ensures Valid()
      ensures role in old(colors) ==> colors == old(colors)[role := color] && repaints == old(repaints) + 1
      ensures role !in old(colors) ==> colors == old(colors) && repaints == old(repaints)
    {
      if role in colors {
        colors := colors[role := color];
        repaints := repaints + 1;
      }
    }

    /**
     * `_value_to_pos` before its power curve: the clamped value's fraction of
     * the scale, 0 at or below the bottom. The guard also keeps the division
     * away from an empty or inverted scale.
     */
    function ValueToPos(value: real): (r: real)
      reads this
      ensures value <= minValue ==> r == 0.0
      ensures minValue < maxValue ==> 0.0 <= r <= 1.0
      ensures minValue < maxValue && maxValue <= value ==> r == 1.0
      ensures maxValue <= minValue ==> r == 0.0
    {
      var v := Clamp(minValue, maxValue, value);
      if v <= minValue then 0.0
      else (v - minValue) / (maxValue - minValue)
    }

    /** `_draw_ticks`'s loop: walk the 10 dB steps and keep those inside the scale, with their labels. */
    method TickMarks() returns (marks: seq<(int, string)>)
      ensures marks == Labelled(TickValues(minValue, maxValue))
    {
      var steps := Range10(Ceil(minValue / 10.0) * 10, (maxValue / 10.0).Floor * 10 + 1);
      marks := [];
      var i := 0;
      while i < |steps|
        invariant 0 <= i <= |steps|
        invariant marks == Labelled(Inside(steps[..i], minValue, maxValue))
      {
        var value := steps[i];
        InsideSnoc(steps[..i], value, minValue, maxValue);
        assert steps[..i + 1] == steps[..i] + [value];
        if value as real < minValue || value as real > maxValue {
          i := i + 1;
          continue;
        }
        LabelledSnoc(Inside(steps[..i], minValue, maxValue), value);
        marks := marks + [(value, TickLabel(value))];
        i := i + 1;
      }
      assert steps[..i] == steps;
    }
  }

  /** Each tick value beside its label. */
  function Labelled(vs: seq<int>): (r: seq<(int, string)>)
    ensures |r| == |vs|
    ensures forall i :: 0 <= i < |vs| ==> r[i] == (vs[i], TickLabel(vs[i]))
  {
    seq(|vs|, i requires 0 <= i < |vs| => (vs[i], TickLabel(vs[i])))
  }

  lemma LabelledSnoc(vs: seq<int>, v: int)
    ensures Labelled(vs + [v]) == Labelled(vs) + [(v, TickLabel(v))]
  {
    var a, b := Labelled(vs + [v]), Labelled(vs) + [(v, TickLabel(v))];
    assert |a| == |b|;
    forall i | 0 <= i < |a|
      ensures a[i] == b[i]
    {
      if i < |vs| {
        assert (vs + [v])[i] == vs[i];
      }
    }
  }

  /** Keeping the values inside the scale works piecewise over a split. */
  lemma {:induction false} InsideAppend(a: seq<int>, b: seq<int>, lo: real, hi: real)
    ensures Inside(a + b, lo, hi) == Inside(a, lo, hi) + Inside(b, lo, hi)
  {
    if |a| == 0 {
      assert a + b == b;
    } else {
      assert (a + b)[0] == a[0];
      assert (a + b)[1..] == a[1..] + b;
      InsideAppend(a[1..], b, lo, hi);
    }
  }

  lemma InsideSnoc(a: seq<int>, v: int, lo: real, hi: real)
    ensures Inside(a + [v], lo, hi) == Inside(a, lo, hi) + (if lo <= v as real <= hi then [v] else [])
  {
    InsideAppend(a, [v], lo, hi);
    assert [v][1..] == [];
  }

  /** With no hold time a new peak starts no timer, so only `reset_peak` lowers it again. */
  method PeakWithoutHold(m: AudioMeter, value: real)
    requires m.Valid() && m.peakHoldTime == 0 && !m.timerRunning
    modifies m
    ensures !m.timerRunning && m.peak >= old(m.peak)
  {
    m.SetLevel(value);
  }
}
