/** The audio callback's buffer updates: once per captured block it scrolls the
    spectrogram, slides the raw-sample pitch window, counts the block and, every
    `PitchIntervalFrames`-th block, appends a pitch estimate to the bounded history.

    The FFT magnitudes of the block, the slider's gain, the clock reading and the pitch
    estimator are inputs: they come from numpy, the UI, `time.time()` and parselmouth. */
module AudioCapture {
  import opened Samples
  import opened Window
  import opened Spectrogram

  // Settings of the visualizer.
  const SampleRate: nat := 44100
  const BlockSize: nat := 1024
  /** Seconds of scrollback. */
  const Duration: nat := 5
  const FftSize: nat := 1024
  const PitchIntervalFrames: nat := 5
  /** `int(samplerate * 0.3)`: 0.3 seconds of samples. */
  const PitchBufferTargetSize: nat := 13230
  /** `int(duration * samplerate / blocksize)`: spectrogram columns. */
  const NBlocks: nat := 215
  /** `len(rfftfreq(fft_size))`: frequency bins of a real FFT. */
  const NFreqBins: nat := 513

  /** The derived sizes agree with the settings they come from (`int` truncates). */
  lemma DerivedSizes()
    ensures PitchBufferTargetSize == SampleRate * 3 / 10
    ensures NBlocks == Duration * SampleRate / BlockSize
    ensures NFreqBins == FftSize / 2 + 1
  {
  }

  /** The matrix seen column by column: column `j` (time) lists rows `i` (frequency bins). */
  ghost function ColumnsOf(a: array2<real>): (cols: seq<seq<real>>)
    reads a
    ensures |cols| == a.Length1
    ensures forall j :: 0 <= j < |cols| ==> |cols[j]| == a.Length0
  {
    seq(a.Length1, j requires 0 <= j < a.Length1 reads a =>
      seq(a.Length0, i requires 0 <= i < a.Length0 reads a => a[i, j]))
  }

  /** The column that `np.roll(_, -1, axis=1)` moves into place `j`: the next one, the
      first column wrapping round to the last place. */
  function NextColumn(j: nat, n: nat): (k: nat)
    requires j < n
    ensures k < n
    ensures j + 1 < n ==> k == j + 1
    ensures j + 1 == n ==> k == 0
  {
    if j + 1 == n then 0 else j + 1
  }

  /** `np.roll(a, -1, axis=1)`: a new matrix whose column `j` is column `j + 1` of `a`,
      the first column wrapping round to the last place. */
  method RollLeft(a: array2<real>) returns (r: array2<real>)
    ensures fresh(r) && r.Length0 == a.Length0 && r.Length1 == a.Length1
    ensures forall i, j :: 0 <= i < a.Length0 && 0 <= j < a.Length1 ==> r[i, j] == a[i, NextColumn(j, a.Length1)]
  {
    r := new real[a.Length0, a.Length1]((i, j) reads a requires 0 <= i < a.Length0 && 0 <= j < a.Length1 =>
      a[i, NextColumn(j, a.Length1)]);
  }

  /** Every value of the matrix is in the display range [0, 1]. */
  ghost predicate UnitRange(a: array2<real>)
    reads a
  {
    forall i, j :: 0 <= i < a.Length0 && 0 <= j < a.Length1 ==> 0.0 <= a[i, j] <= 1.0
  }

  /** `b` is `a` with every column moved one place left and `column` written last. */
  ghost predicate ShiftedBy(a: array2<real>, b: array2<real>, column: seq<real>)
    reads a, b
  {
    && a.Length0 == b.Length0 == |column|
    && a.Length1 == b.Length1 > 0
    && (forall i, j :: 0 <= i < a.Length0 && 0 <= j < a.Length1 - 1 ==> b[i, j] == a[i, j + 1])
    && (forall i :: 0 <= i < a.Length0 ==> b[i, a.Length1 - 1] == column[i])
  }

  /** Column by column, a matrix shifted by `column` is `Shift` of the old columns. */
  lemma ColumnsOfShifted(a: array2<real>, b: array2<real>, column: seq<real>)
    requires ShiftedBy(a, b, column)
    ensures ColumnsOf(b) == Shift(ColumnsOf(a), column)
  {
    var before, after := ColumnsOf(a), ColumnsOf(b);
    var shifted := Shift(before, column);
    forall j | 0 <= j < |after|
      ensures after[j] == shifted[j]
    {
      if j < a.Length1 - 1 {
        assert after[j] == before[j + 1];
      } else {
        assert after[j] == column;
      }
    }
  }

  /** Shifting in a column of display values keeps the whole matrix in the display range. */
  lemma ShiftedKeepsRange(a: array2<real>, b: array2<real>, column: seq<real>)
    requires ShiftedBy(a, b, column) && UnitRange(a)
    requires forall i :: 0 <= i < |column| ==> 0.0 <= column[i] <= 1.0
    ensures UnitRange(b)
  {
    forall i, j | 0 <= i < b.Length0 && 0 <= j < b.Length1
      ensures 0.0 <= b[i, j] <= 1.0
    {
      if j < b.Length1 - 1 {
        assert b[i, j] == a[i, j + 1];
      } else {
        assert b[i, j] == column[i];
      }
    }
  }

  /** The spectrogram update of one block: `np.roll` one column left, then `column`
      written into the last column of the new matrix. */
  method Scroll(a: array2<real>, column: seq<real>) returns (r: array2<real>)
    requires a.Length1 > 0 && |column| == a.Length0
    ensures fresh(r) && ShiftedBy(a, r, column)
    ensures ColumnsOf(r) == Shift(ColumnsOf(a), column)
  {
    var last := a.Length1 - 1;
    r := RollLeft(a);
    for i := 0 to a.Length0
      invariant forall i', j :: 0 <= i' < a.Length0 && 0 <= j < last ==> r[i', j] == a[i', j + 1]
      invariant forall i' :: 0 <= i' < i ==> r[i', last] == column[i']
    {
      r[i, last] := column[i];
    }
    ColumnsOfShifted(a, r, column);
  }

  /** Timestamps never decrease along the history. */
  ghost predicate TimeOrdered(history: seq<PitchSample>)
  {
    forall i, j :: 0 <= i < j < |history| ==> history[i].time <= history[j].time
  }

  /** Any suffix of a time-ordered history is time-ordered. */
  lemma SuffixStaysOrdered(history: seq<PitchSample>, k: nat)
    requires TimeOrdered(history) && k <= |history|
    ensures TimeOrdered(history[k..])
  {
    var r := history[k..];
    forall i, j | 0 <= i < j < |r|
      ensures r[i].time <= r[j].time
    {
      assert r[i] == history[k + i] && r[j] == history[k + j];
    }
  }

  /** The history keeps time order when the clock does: appending an entry no older than
      the newest and evicting from the front preserve it. The clock itself is an input,
      so the order is only as good as the readings it gives. */
  lemma HistoryStaysOrdered(history: seq<PitchSample>, entry: PitchSample, n: nat)
    requires TimeOrdered(history)
    requires history != [] ==> history[|history| - 1].time <= entry.time
    ensures TimeOrdered(Last(history + [entry], n))
  {
    var h := history + [entry];
    forall i, j | 0 <= i < j < |h|
      ensures h[i].time <= h[j].time
    {
      if j == |history| {
        assert h[i] == history[i] && h[j] == entry;
        assert history[i].time <= history[|history| - 1].time;
      } else {
        assert h[i] == history[i] && h[j] == history[j];
      }
    }
    SuffixStaysOrdered(h, |h| - |Last(h, n)|);
  }

  /** `append` followed by at most one `pop(0)` keeps the last `n` entries, provided the
      history was within its cap before. */
  lemma AppendThenEvict(history: seq<PitchSample>, entry: PitchSample, n: nat)
    requires |history| <= n
    ensures var h := history + [entry]; (if |h| > n then h[1..] else h) == Last(h, n)
  {
  }

  /** The state the audio callback updates: the spectrogram matrix (frequency bins by
      blocks), the raw-sample window for pitch estimation, the block counter and the
      time-stamped pitch history. */
  class AudioState {
    var specData: array2<real>
    var pitchBuffer: seq<real>
    var frameCounter: nat
    var pitchValues: seq<PitchSample>

    /** The matrix keeps its shape and its display range; both buffers keep their caps. */
    ghost predicate Valid()
      reads this, specData
    {
      && specData.Length0 == NFreqBins
      && specData.Length1 == NBlocks
      && UnitRange(specData)
      && |pitchBuffer| <= PitchBufferTargetSize
      && |pitchValues| <= NBlocks
    }

    /** Start-up: a silent spectrogram, an empty sample window, no blocks, no pitches. */
    constructor ()
      ensures Valid() && fresh(specData)
      ensures forall i, j :: 0 <= i < NFreqBins && 0 <= j < NBlocks ==> specData[i, j] == 0.0
      ensures pitchBuffer == [] && frameCounter == 0 && pitchValues == []
    {
      specData := new real[NFreqBins, NBlocks]((i, j) => 0.0);
      pitchBuffer := [];
      frameCounter := 0;
      pitchValues := [];
    }

    /** One invocation of the audio callback for the samples `block` of channel 0, whose
        FFT magnitudes are `magnitudes`, with the slider at `gain`, the clock at `now`,
        and `estimator` standing for the pitch estimator. */
    method AudioCallback(block: seq<real>, magnitudes: seq<real>, gain: real, now: real,
                         estimator: seq<real> -> Float)
      requires Valid()
      requires |magnitudes| == NFreqBins
      modifies this
      ensures Valid() && fresh(specData)
      // Spectrogram: scrolled one column left, new clipped column written last.
      ensures ColumnsOf(specData) == Shift(old(ColumnsOf(specData)), ScaledColumn(magnitudes, gain, FftSize))
      // Pitch window: the most recent samples, prefix dropped.
      ensures pitchBuffer == Last(old(pitchBuffer) + block, PitchBufferTargetSize)
      // Counter and history: one entry every PitchIntervalFrames blocks, oldest evicted.
      ensures frameCounter == old(frameCounter) + 1
      ensures frameCounter % PitchIntervalFrames == 0 ==>
                pitchValues == Last(old(pitchValues) + [PitchSample(now, estimator(pitchBuffer))], NBlocks)
      ensures frameCounter % PitchIntervalFrames != 0 ==> pitchValues == old(pitchValues)
    {
      // Spectrogram roll and write.
      var column := ScaledColumn(magnitudes, gain, FftSize);
      ghost var previous := specData;
      specData := Scroll(specData, column);
      ShiftedKeepsRange(previous, specData, column);

      // Pitch buffer update.
      pitchBuffer := pitchBuffer + block;
      if |pitchBuffer| > PitchBufferTargetSize {
        pitchBuffer := pitchBuffer[|pitchBuffer| - PitchBufferTargetSize..];
      }

      frameCounter := frameCounter + 1;
      if frameCounter % PitchIntervalFrames == 0 {
        var pitch := estimator(pitchBuffer);
        AppendThenEvict(pitchValues, PitchSample(now, pitch), NBlocks);
        pitchValues := pitchValues + [PitchSample(now, pitch)];
        if |pitchValues| > NBlocks {
          pitchValues := pitchValues[1..];
        }
      }
    }
  }
}
