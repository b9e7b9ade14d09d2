/** The pitch overlay of the render loop: which history entries are visible in the
    time window, the coordinates handed to the line and dots, and what the pitch label says. */
module Render {
  import opened Samples
  import Notes

  /** A point of the pitch line and dots: the x-coordinate the code gives it,
      `t - now + duration`, and its pitch in Hz. */
  datatype Point = Point(t: real, hz: real)

  /** The pitch label: "Pitch: <hz> Hz (<note>)", or "Pitch: — Hz (—)" when nothing is visible. */
  datatype Label = NoPitchLabel | PitchLabel(hz: real, note: string)

  /** What one render step does to the pitch line, the pitch dots and the label. */
  datatype Overlay =
    | Untouched                                 // empty history: all three keep what they showed
    | Update(points: seq<Point>, pitchLabel: Label)  // line and dots both set to `points`

  /** The x-coordinate the code gives an entry: `t - now + duration`, its age measured
      from `now - duration`. The axis itself is set to absolute clock times. */
  function RelativeTime(e: PitchSample, now: real, duration: real): real
  {
    e.time - now + duration
  }

  /** The render mask: relative time in `(0, duration]` (timestamp in
      `(now - duration, now]`) and a positive pitch (NaN is never positive). */
  predicate IsVisible(e: PitchSample, now: real, duration: real)
  {
    var rel := RelativeTime(e, now, duration);
    0.0 < rel && rel <= duration && IsPositive(e.pitch)
  }

  function ToPoint(e: PitchSample, now: real, duration: real): Point
    requires e.pitch.Num?
  {
    Point(RelativeTime(e, now, duration), e.pitch.val)
  }

  /** The entries that pass the mask, as points, in history order. */
  function Visible(values: seq<PitchSample>, now: real, duration: real): (r: seq<Point>)
    ensures |r| <= |values|
    ensures forall k :: 0 <= k < |r| ==> 0.0 < r[k].t <= duration && r[k].hz > 0.0
    decreases |values|
  {
    if values == [] then []
    else
      var head := if IsVisible(values[0], now, duration) then [ToPoint(values[0], now, duration)] else [];
      head + Visible(values[1..], now, duration)
  }

  /** The filter commutes with concatenation: it keeps the order of the history. */
  lemma {:induction false} VisibleAppend(a: seq<PitchSample>, b: seq<PitchSample>, now: real, duration: real)
    ensures Visible(a + b, now, duration) == Visible(a, now, duration) + Visible(b, now, duration)
    decreases |a|
  {
    if a == [] {
      assert a + b == b;
    } else {
      assert (a + b)[0] == a[0];
      assert (a + b)[1..] == a[1..] + b;
      VisibleAppend(a[1..], b, now, duration);
    }
  }

  /** A point is shown exactly when some visible entry maps to it. */
  lemma {:induction false} VisibleMembership(values: seq<PitchSample>, now: real, duration: real, p: Point)
    ensures p in Visible(values, now, duration) <==>
            exists i :: 0 <= i < |values| && IsVisible(values[i], now, duration) && ToPoint(values[i], now, duration) == p
    decreases |values|
  {
    if values != [] {
      VisibleMembership(values[1..], now, duration, p);
      if p in Visible(values[1..], now, duration) {
        var i :| 0 <= i < |values[1..]| && IsVisible(values[1..][i], now, duration) && ToPoint(values[1..][i], now, duration) == p;
        assert values[i + 1] == values[1..][i];
      }
      if exists i :: 0 <= i < |values| && IsVisible(values[i], now, duration) && ToPoint(values[i], now, duration) == p {
        var i :| 0 <= i < |values| && IsVisible(values[i], now, duration) && ToPoint(values[i], now, duration) == p;
        if i > 0 {
          assert values[1..][i - 1] == values[i];
        }
      }
    }
  }

  /** Nothing is shown exactly when no entry is visible. */
  lemma {:induction false} VisibleEmpty(values: seq<PitchSample>, now: real, duration: real)
    ensures Visible(values, now, duration) == [] <==> forall i :: 0 <= i < |values| ==> !IsVisible(values[i], now, duration)
    decreases |values|
  {
    if values != [] {
      VisibleEmpty(values[1..], now, duration);
      assert forall i :: 1 <= i < |values| ==> values[i] == values[1..][i - 1];
    }
  }

  /** The last point shown comes from the last visible entry of the history. */
  lemma LatestVisible(values: seq<PitchSample>, now: real, duration: real, k: nat)
    requires k < |values| && IsVisible(values[k], now, duration)
    requires forall j :: k < j < |values| ==> !IsVisible(values[j], now, duration)
    ensures var r := Visible(values, now, duration); r != [] && r[|r| - 1] == ToPoint(values[k], now, duration)
  {
    var before, after := values[..k], values[k + 1..];
    assert values == before + [values[k]] + after;
    VisibleAppend(before + [values[k]], after, now, duration);
    VisibleAppend(before, [values[k]], now, duration);
    VisibleEmpty(after, now, duration);
    assert Visible([values[k]], now, duration) == [ToPoint(values[k], now, duration)];
  }

  /** The pitch part of one render step. `noteNumber` stands for the rounded MIDI note
      number of a frequency, as in `Notes.HzToNote`. */
  function UpdatePlot(values: seq<PitchSample>, now: real, duration: real, noteNumber: real -> int): (o: Overlay)
    ensures o.Untouched? <==> values == []
    ensures o.Update? ==> o.points == Visible(values, now, duration)
    ensures o.Update? ==> (o.pitchLabel == NoPitchLabel <==> o.points == [])
    ensures o.Update? && o.pitchLabel.PitchLabel? ==>
              o.pitchLabel.hz > 0.0 && o.pitchLabel.note == Notes.NoteName(noteNumber(o.pitchLabel.hz))
  {
    if values == [] then Untouched
    else
      var points := Visible(values, now, duration);
      if points == [] then Update([], NoPitchLabel)
      else
        var latest := points[|points| - 1].hz;
        Update(points, PitchLabel(latest, Notes.HzToNote(Num(latest), noteNumber)))
  }

  /** The label names the pitch of the last visible entry, and its note. */
  lemma LabelIsLatestVisible(values: seq<PitchSample>, now: real, duration: real, noteNumber: real -> int, k: nat)
    requires k < |values| && IsVisible(values[k], now, duration)
    requires forall j :: k < j < |values| ==> !IsVisible(values[j], now, duration)
    ensures UpdatePlot(values, now, duration, noteNumber).pitchLabel
            == PitchLabel(values[k].pitch.val, Notes.NoteName(noteNumber(values[k].pitch.val)))
  {
    LatestVisible(values, now, duration, k);
  }

  /** With a non-empty history and no visible entry, the overlay is cleared. */
  lemma ClearedWhenNothingVisible(values: seq<PitchSample>, now: real, duration: real, noteNumber: real -> int)
    requires values != []
    requires forall i :: 0 <= i < |values| ==> !IsVisible(values[i], now, duration)
    ensures UpdatePlot(values, now, duration, noteNumber) == Update([], NoPitchLabel)
  {
    VisibleEmpty(values, now, duration);
  }
}
