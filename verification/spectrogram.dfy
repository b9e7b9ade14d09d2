/** The spectrogram ring buffer, seen as a sequence of columns (one per audio block,
    oldest first), and the column that each block contributes. */
module Spectrogram {
  import opened Window

  /** numpy's `clip(x, 0, 1)`. */
  function Clip01(x: real): (r: real)
    ensures 0.0 <= r <= 1.0
    ensures 0.0 <= x <= 1.0 ==> r == x
    ensures x < 0.0 ==> r == 0.0
    ensures x > 1.0 ==> r == 1.0
  {
    if x < 0.0 then 0.0 else if x > 1.0 then 1.0 else x
  }

  /** The displayed intensity of one FFT magnitude: scaled by `gain / fftSize` and
      clipped to [0, 1]. */
  function Intensity(magnitude: real, gain: real, fftSize: nat): (r: real)
    requires fftSize > 0
    ensures 0.0 <= r <= 1.0
  {
    Clip01(magnitude * gain / fftSize as real)
  }

  /** The column written for one block: the intensity of every FFT magnitude, bin by bin. */
  function ScaledColumn(magnitudes: seq<real>, gain: real, fftSize: nat): (c: seq<real>)
    requires fftSize > 0
    ensures |c| == |magnitudes|
    ensures forall i :: 0 <= i < |c| ==> 0.0 <= c[i] <= 1.0
  {
    seq(|magnitudes|, i requires 0 <= i < |magnitudes| => Intensity(magnitudes[i], gain, fftSize))
  }

  /** Raising the gain never lowers an intensity, and strictly raises one that was
      positive and below the clip at the lower gain. */
  lemma GainMonotone(magnitude: real, low: real, high: real, fftSize: nat)
    requires fftSize > 0 && low <= high && magnitude >= 0.0
    ensures Intensity(magnitude, low, fftSize) <= Intensity(magnitude, high, fftSize)
    ensures magnitude > 0.0 && low < high && 0.0 < low && Intensity(magnitude, low, fftSize) < 1.0
            ==> Intensity(magnitude, low, fftSize) < Intensity(magnitude, high, fftSize)
  {
    var m, f := magnitude, fftSize as real;
    var x, y := m * low, m * high;
    assert x <= y by {
      assert y - x == m * (high - low);
      assert m * (high - low) >= 0.0;
    }
    assert x / f <= y / f by {
      assert y / f - x / f == (y - x) / f;
      assert (y - x) / f >= 0.0;
    }
    if m > 0.0 && low < high {
      assert x < y by {
        var d := high - low;
        assert y - x == m * d;
        assert m * d >= 0.0 && m * d != 0.0;
      }
      assert x / f < y / f by {
        assert y / f - x / f == (y - x) / f;
        assert (y - x) / f > 0.0;
      }
    }
  }

  /** One block's update of the matrix: every column moves one place towards the oldest
      end, the oldest is discarded, and the new column becomes the newest. */
  function Shift(cols: seq<seq<real>>, column: seq<real>): (r: seq<seq<real>>)
    requires |cols| > 0
    ensures |r| == |cols|
    ensures r == Last(cols + [column], |cols|)
    ensures forall j :: 0 <= j < |cols| - 1 ==> r[j] == cols[j + 1]
    ensures r[|r| - 1] == column
  {
    cols[1..] + [column]
  }

  /** The matrix after one update per element of `columns`, in order. */
  function ShiftAll(cols: seq<seq<real>>, columns: seq<seq<real>>): (r: seq<seq<real>>)
    requires |cols| > 0
    ensures |r| == |cols|
    decreases |columns|
  {
    if columns == [] then cols else ShiftAll(Shift(cols, columns[0]), columns[1..])
  }

  /** After any number of updates the matrix holds the most recent columns, oldest first. */
  lemma {:induction false} ShiftAllIsLast(cols: seq<seq<real>>, columns: seq<seq<real>>)
    requires |cols| > 0
    ensures ShiftAll(cols, columns) == Last(cols + columns, |cols|)
    decreases |columns|
  {
    if columns == [] {
      assert cols + columns == cols;
    } else {
      var next := Shift(cols, columns[0]);
      ShiftAllIsLast(next, columns[1..]);
      LastOfLast(cols + [columns[0]], columns[1..], |cols|);
      assert cols + [columns[0]] + columns[1..] == cols + columns;
    }
  }

  /** After at least as many updates as there are columns, the matrix is exactly the last
      `|cols|` columns written, oldest at index 0; nothing of the initial contents is left. */
  lemma LastColumnsAfterEnoughUpdates(cols: seq<seq<real>>, columns: seq<seq<real>>)
    requires 0 < |cols| <= |columns|
    ensures ShiftAll(cols, columns) == columns[|columns| - |cols|..]
  {
    ShiftAllIsLast(cols, columns);
    LastOfLongTail(cols, columns, |cols|);
    var tail := Last(columns, |cols|);
    assert |tail| == |cols|;
    assert tail == columns[|columns| - |cols|..];
  }
}
