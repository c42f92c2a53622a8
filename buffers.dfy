/**
 * Position buffers of the animated point clouds and of the wave plane.
 *
 * A buffer is a flat sequence of reals read as [x, y, z] triples: slot
 * j % 3 == 0 is an x, 1 a y, 2 a z.  Each per-frame rule is first given as a
 * pure function on the sequence (what one tick computes), with lemmas about
 * it; the in-place loops over the array are then proved to compute exactly
 * that function.
 */
module Buffers {

  /** Distance a point falls per frame, in both drifting clouds. */
  const FallSpeed: real := 0.02
  /** The starfield wraps y into [-75, 75]. */
  const StarfieldBound: real := 75.0
  /** The project-preview particle field wraps y into [-10, 10]. */
  const FieldBound: real := 10.0
  /** Scale of the starfield's sideways sway. */
  const SwayScale: real := 0.01
  /** Height of the wave surface. */
  const WaveAmplitude: real := 0.5

  // ---------------------------------------------------------------------
  // Drift and wrap
  // ---------------------------------------------------------------------

  /** A y coordinate after one tick: it falls, and a point that has fallen
      below -bound is put back at the top, +bound. */
  function Fall(y: real, bound: real): (next: real)
    requires 0.0 <= bound
    ensures next == y - FallSpeed || next == bound
    ensures next == bound <== y - FallSpeed < -bound
    ensures next == y - FallSpeed <== -bound <= y - FallSpeed
    ensures -bound <= next
    ensures y <= bound + FallSpeed ==> next <= bound
  {
    if y - FallSpeed < -bound then bound else y - FallSpeed
  }

  /** Every y slot of the buffer lies in [-bound, bound]. */
  ghost predicate YWithin(s: seq<real>, bound: real)
  {
    forall j :: 0 <= j < |s| && j % 3 == 1 ==> -bound <= s[j] <= bound
  }

  /** Slot j of the starfield after one tick at the given time: y falls and
      wraps, x sways by sin(time + j) scaled (j is the raw array offset of
      the x slot, not the particle number), z is kept. */
  function StarfieldSlot(s: seq<real>, j: nat, time: real, sin: real -> real): real
    requires j < |s|
  {
    if j % 3 == 0 then s[j] + sin(time + j as real) * SwayScale
    else if j % 3 == 1 then Fall(s[j], StarfieldBound)
    else s[j]
  }

  /** The whole starfield buffer after one tick. */
  function StarfieldTick(s: seq<real>, time: real, sin: real -> real): (r: seq<real>)
    ensures |r| == |s|
    ensures forall j :: 0 <= j < |s| && j % 3 == 2 ==> r[j] == s[j]
    ensures forall j :: 0 <= j < |s| && j % 3 == 0 ==> r[j] == s[j] + sin(time + j as real) * SwayScale
    ensures forall j :: 0 <= j < |s| && j % 3 == 1 ==>
      -StarfieldBound <= r[j] &&
      (s[j] - FallSpeed < -StarfieldBound ==> r[j] == StarfieldBound) &&
      (-StarfieldBound <= s[j] - FallSpeed ==> r[j] == s[j] - FallSpeed)
  {
    seq(|s|, j requires 0 <= j < |s| => StarfieldSlot(s, j, time, sin))
  }

  /** The starfield after one tick per entry of `times`, in order. */
  function StarfieldRun(s: seq<real>, times: seq<real>, sin: real -> real): seq<real>
    decreases |times|
  {
    if times == [] then s else StarfieldRun(StarfieldTick(s, times[0], sin), times[1..], sin)
  }

  lemma StarfieldTickKeepsBounds(s: seq<real>, time: real, sin: real -> real)
    requires YWithin(s, StarfieldBound)
    ensures YWithin(StarfieldTick(s, time, sin), StarfieldBound)
  {
    var r := StarfieldTick(s, time, sin);
    forall j | 0 <= j < |r| && j % 3 == 1
      ensures -StarfieldBound <= r[j] <= StarfieldBound
    {
      assert r[j] == Fall(s[j], StarfieldBound);
    }
  }

  /** The wrap invariant of the starfield holds after any number of ticks,
      whatever the clock reads at each of them. */
  lemma {:induction false} StarfieldRunKeepsBounds(s: seq<real>, times: seq<real>, sin: real -> real)
    requires YWithin(s, StarfieldBound)
    ensures |StarfieldRun(s, times, sin)| == |s|
    ensures YWithin(StarfieldRun(s, times, sin), StarfieldBound)
    decreases |times|
  {
    if times != [] {
      StarfieldTickKeepsBounds(s, times[0], sin);
      StarfieldRunKeepsBounds(StarfieldTick(s, times[0], sin), times[1..], sin);
    }
  }

  /** Slot j of the project-preview field after one tick: only y moves. */
  function FieldSlot(s: seq<real>, j: nat): real
    requires j < |s|
  {
    if j % 3 == 1 then Fall(s[j], FieldBound) else s[j]
  }

  /** The project-preview field buffer after one tick: x and z slots are
      untouched, each y falls or wraps to the top. */
  function FieldTick(s: seq<real>): (r: seq<real>)
    ensures |r| == |s|
    ensures forall j :: 0 <= j < |s| && j % 3 != 1 ==> r[j] == s[j]
    ensures forall j :: 0 <= j < |s| && j % 3 == 1 ==>
      -FieldBound <= r[j] &&
      (s[j] - FallSpeed < -FieldBound ==> r[j] == FieldBound) &&
      (-FieldBound <= s[j] - FallSpeed ==> r[j] == s[j] - FallSpeed)
  {
    seq(|s|, j requires 0 <= j < |s| => FieldSlot(s, j))
  }

  /** The project-preview field after n ticks. */
  function FieldRun(s: seq<real>, n: nat): seq<real>
    decreases n
  {
    if n == 0 then s else FieldRun(FieldTick(s), n - 1)
  }

  lemma FieldTickKeepsBounds(s: seq<real>)
    requires YWithin(s, FieldBound)
    ensures YWithin(FieldTick(s), FieldBound)
  {
    var r := FieldTick(s);
    forall j | 0 <= j < |r| && j % 3 == 1
      ensures -FieldBound <= r[j] <= FieldBound
    {
      assert r[j] == Fall(s[j], FieldBound);
    }
  }

  /** After any number of ticks the field keeps its length, every y is still
      in [-10, 10], and no x or z slot has moved. */
  lemma {:induction false} FieldRunKeepsBoundsAndFrame(s: seq<real>, n: nat)
    requires YWithin(s, FieldBound)
    ensures |FieldRun(s, n)| == |s|
    ensures YWithin(FieldRun(s, n), FieldBound)
    ensures forall j :: 0 <= j < |s| && j % 3 != 1 ==> FieldRun(s, n)[j] == s[j]
    decreases n
  {
    if n > 0 {
      FieldTickKeepsBounds(s);
      FieldRunKeepsBoundsAndFrame(FieldTick(s), n - 1);
    }
  }

  // ---------------------------------------------------------------------
  // Wave surface
  // ---------------------------------------------------------------------

  /** Slot j of the wave plane after a tick at the given time: a z slot
      becomes sin(x + time) * cos(y + time) * 0.5 from its own triple's x
      and y; x and y are kept. */
  function WaveSlot(s: seq<real>, j: nat, time: real, sin: real -> real, cos: real -> real): real
    requires j < |s|
  {
    if j % 3 == 2 then sin(s[j - 2] + time) * cos(s[j - 1] + time) * WaveAmplitude
    else s[j]
  }

  /** The wave plane buffer after one tick. */
  function WaveTick(s: seq<real>, time: real, sin: real -> real, cos: real -> real): (r: seq<real>)
    ensures |r| == |s|
    ensures forall j :: 0 <= j < |s| && j % 3 != 2 ==> r[j] == s[j]
    ensures forall j :: 2 <= j < |s| && j % 3 == 2 ==>
      r[j] == sin(s[j - 2] + time) * cos(s[j - 1] + time) * WaveAmplitude
  {
    seq(|s|, j requires 0 <= j < |s| => WaveSlot(s, j, time, sin, cos))
  }

  /** A height depends on nothing but its own triple's x and y (and the
      time): two buffers that agree there get the same new height, whatever
      else they hold. */
  lemma WaveHeightIsLocal(s: seq<real>, t: seq<real>, j: nat, time: real, sin: real -> real, cos: real -> real)
    requires 2 <= j < |s| && j < |t| && j % 3 == 2
    requires s[j - 2] == t[j - 2] && s[j - 1] == t[j - 1]
    ensures WaveTick(s, time, sin, cos)[j] == WaveTick(t, time, sin, cos)[j]
  {
  }

  /** Two buffers whose x and y slots agree give the same surface at the same
      time: a new height depends only on its triple's x, y and the time, not
      on the heights written before. */
  lemma WaveTickIgnoresHeights(s: seq<real>, t: seq<real>, time: real, sin: real -> real, cos: real -> real)
    requires |s| == |t|
    requires forall j :: 0 <= j < |s| && j % 3 != 2 ==> s[j] == t[j]
    ensures WaveTick(s, time, sin, cos) == WaveTick(t, time, sin, cos)
  {
    var a, b := WaveTick(s, time, sin, cos), WaveTick(t, time, sin, cos);
    forall j | 0 <= j < |s| ensures a[j] == b[j] {
      if j % 3 == 2 {
        assert (j - 2) % 3 == 0 && (j - 1) % 3 == 1;
      }
    }
  }

  /** Repeating the wave tick with the same time leaves the buffer as it is. */
  lemma WaveTickIdempotent(s: seq<real>, time: real, sin: real -> real, cos: real -> real)
    ensures WaveTick(WaveTick(s, time, sin, cos), time, sin, cos) == WaveTick(s, time, sin, cos)
  {
    WaveTickIgnoresHeights(WaveTick(s, time, sin, cos), s, time, sin, cos);
  }

  // ---------------------------------------------------------------------
  // The in-place loops
  // ---------------------------------------------------------------------

  /** The starfield's drift loop: one pass over the triples, i += 3. */
  method DriftStarfield(pos: array<real>, time: real, sin: real -> real)
    requires pos.Length % 3 == 0
    modifies pos
    ensures pos[..] == StarfieldTick(old(pos[..]), time, sin)
  {
    ghost var s := pos[..];
    var i := 0;
    while i < pos.Length
      invariant 0 <= i <= pos.Length && i % 3 == 0
      invariant forall j :: 0 <= j < i ==> pos[j] == StarfieldSlot(s, j, time, sin)
      invariant forall j :: i <= j < pos.Length ==> pos[j] == s[j]
    {
      pos[i + 1] := pos[i + 1] - FallSpeed;
      if pos[i + 1] < -StarfieldBound {
        pos[i + 1] := StarfieldBound;
      }
      pos[i] := pos[i] + sin(time + i as real) * SwayScale;
      i := i + 3;
    }
  }

  /** The project-preview field's drift loop. */
  method DriftField(pos: array<real>)
    requires pos.Length % 3 == 0
    modifies pos
    ensures pos[..] == FieldTick(old(pos[..]))
  {
    ghost var s := pos[..];
    var i := 0;
    while i < pos.Length
      invariant 0 <= i <= pos.Length && i % 3 == 0
      invariant forall j :: 0 <= j < i ==> pos[j] == FieldSlot(s, j)
      invariant forall j :: i <= j < pos.Length ==> pos[j] == s[j]
    {
      pos[i + 1] := pos[i + 1] - FallSpeed;
      if pos[i + 1] < -FieldBound {
        pos[i + 1] := FieldBound;
      }
      i := i + 3;
    }
  }

  /** The wave plane's loop: rewrites each z from its triple's x and y. */
  method DeformWave(pos: array<real>, time: real, sin: real -> real, cos: real -> real)
    requires pos.Length % 3 == 0
    modifies pos
    ensures pos[..] == WaveTick(old(pos[..]), time, sin, cos)
  {
    ghost var s := pos[..];
    var i := 0;
    while i < pos.Length
      invariant 0 <= i <= pos.Length && i % 3 == 0
      invariant forall j :: 0 <= j < i ==> pos[j] == WaveSlot(s, j, time, sin, cos)
      invariant forall j :: i <= j < pos.Length ==> pos[j] == s[j]
    {
      var x := pos[i];
      var y := pos[i + 1];
      pos[i + 2] := sin(x + time) * cos(y + time) * WaveAmplitude;
      i := i + 3;
    }
  }
}
