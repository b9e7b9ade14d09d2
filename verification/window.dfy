/** Sliding suffix windows: the shape shared by the three bounded buffers of the
    visualizer (spectrogram columns, raw pitch samples, pitch history). */
module Window {

  /** The most recent `n` elements of `s`, or all of `s` when it is not longer than `n`. */
  function Last<T>(s: seq<T>, n: nat): (r: seq<T>)
    ensures |r| == if |s| <= n then |s| else n
    ensures r == s[|s| - |r|..]
  {
    if |s| <= n then s else s[|s| - n..]
  }

  /** Concatenation of a sequence of chunks, in order. */
  function Flatten<T>(chunks: seq<seq<T>>): seq<T>
  {
    if chunks == [] then [] else chunks[0] + Flatten(chunks[1..])
  }

  /** Feeds `chunks` one after the other into a window that keeps the last `n` elements. */
  function SlideAll<T>(w: seq<T>, chunks: seq<seq<T>>, n: nat): seq<T>
    decreases |chunks|
  {
    if chunks == [] then w else SlideAll(Last(w + chunks[0], n), chunks[1..], n)
  }

  /** Taking the last `n` of a suffix that is itself at least `n` long is taking the last `n` of the whole. */
  lemma LastOfSuffix<T>(s: seq<T>, k: nat, n: nat)
    requires k <= |s| && n <= |s| - k
    ensures Last(s[k..], n) == Last(s, n)
  {
  }

  /** Truncating before appending more loses nothing that a later truncation would keep. */
  lemma LastOfLast<T>(s: seq<T>, t: seq<T>, n: nat)
    ensures Last(Last(s, n) + t, n) == Last(s + t, n)
  {
    if |s| > n {
      var k := |s| - n;
      assert Last(s, n) + t == (s + t)[k..];
      LastOfSuffix(s + t, k, n);
    }
  }

  /** Once at least `n` new elements have arrived, nothing older is kept. */
  lemma LastOfLongTail<T>(s: seq<T>, t: seq<T>, n: nat)
    requires |t| >= n
    ensures Last(s + t, n) == Last(t, n)
  {
  }

  /** A window fed chunk by chunk holds the last `n` elements of everything it was fed,
      oldest first: the prefix is dropped, never the suffix. */
  lemma {:induction false} SlideAllIsLast<T>(w: seq<T>, chunks: seq<seq<T>>, n: nat)
    requires |w| <= n
    ensures SlideAll(w, chunks, n) == Last(w + Flatten(chunks), n)
    decreases |chunks|
  {
    if chunks == [] {
      assert w + Flatten(chunks) == w;
    } else {
      var head, rest := chunks[0], chunks[1..];
      var w' := Last(w + head, n);
      assert SlideAll(w, chunks, n) == SlideAll(w', rest, n);
      SlideAllIsLast(w', rest, n);
      LastOfLast(w + head, Flatten(rest), n);
      calc {
        w + head + Flatten(rest);
        w + (head + Flatten(rest));
        { assert Flatten(chunks) == head + Flatten(rest); }
        w + Flatten(chunks);
      }
    }
  }
}
