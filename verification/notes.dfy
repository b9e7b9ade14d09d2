/** The note mapper: a frequency in Hz becomes a note name and octave in twelve-tone
    equal temperament (A4 = 440 Hz, MIDI note 69), or the "no pitch" dash.

    The floating-point step `round(12 * log2(hz / 440) + 69)` is not modelled: it is the
    parameter `noteNumber`, and everything from the integer note number onward is. */
module Notes {
  import opened Samples

  datatype Option<T> = None | Some(value: T)

  /** The sentinel returned when there is no pitch: a single em dash. */
  const NoPitch: string := "\U{2014}"

  /** The chromatic scale starting at C. */
  const NoteNames: seq<string> := ["C", "C#", "D", "D#", "E", "F", "F#", "G", "G#", "A", "A#", "B"]

  /** Octave of MIDI note number `n`: Python's `n // 12 - 1`, where `//` floors (Dafny's
      `/` agrees with it for a positive divisor, negative `n` included). */
  function Octave(n: int): (o: int)
    ensures 12 * (o + 1) <= n < 12 * (o + 2)
  {
    n / 12 - 1
  }

  /** Position of MIDI note number `n` in the scale: Python's `n % 12`, never negative. */
  function NoteIndex(n: int): (i: nat)
    ensures i < |NoteNames|
    ensures n == 12 * (Octave(n) + 1) + i
  {
    n % 12
  }

  predicate IsDigit(c: char)
  {
    '0' <= c <= '9'
  }

  predicate IsDigits(s: string)
  {
    |s| >= 1 && forall k :: 0 <= k < |s| ==> IsDigit(s[k])
  }

  function Digit(d: nat): (c: char)
    requires d < 10
    ensures IsDigit(c)
  {
    ('0' as int + d) as char
  }

  function DigitValue(c: char): (d: nat)
    requires IsDigit(c)
    ensures d < 10 && Digit(d) == c
  {
    c as int - '0' as int
  }

  /** Decimal rendering of a natural number as Python's `str` writes it: no leading zeros. */
  function NatToDecimal(n: nat): (s: string)
    ensures IsDigits(s)
    ensures |s| > 1 ==> s[0] != '0'
    decreases n
  {
    if n < 10 then [Digit(n)] else NatToDecimal(n / 10) + [Digit(n % 10)]
  }

  /** Decimal rendering of an integer as Python's `str` writes it: a minus sign for negatives. */
  function IntToDecimal(i: int): (s: string)
    ensures |s| >= 1
    ensures s[0] == '-' <==> i < 0
  {
    if i < 0 then "-" + NatToDecimal(-i) else NatToDecimal(i)
  }

  /** The note label for MIDI note number `n`: name followed by octave, e.g. "A4", "C#-1". */
  function NoteName(n: int): (s: string)
    ensures |s| >= 2 && 'A' <= s[0] <= 'G'
  {
    NoteNames[NoteIndex(n)] + IntToDecimal(Octave(n))
  }

  /** `hz_to_note`: the dash when `hz` is not positive or is NaN, the note name otherwise.
      `noteNumber` stands for the rounded MIDI note number of a positive frequency. */
  function HzToNote(hz: Float, noteNumber: real -> int): string
  {
    match hz
    case NaN => NoPitch
    case Num(v) => if v <= 0.0 then NoPitch else NoteName(noteNumber(v))
  }

  /** The sentinel is returned exactly for the frequencies that are not positive. */
  lemma HzToNoteIsSentinel(hz: Float, noteNumber: real -> int)
    ensures HzToNote(hz, noteNumber) == NoPitch <==> !IsPositive(hz)
  {
    if IsPositive(hz) {
      var s := NoteName(noteNumber(hz.val));
      assert s[0] != NoPitch[0];
    }
  }

  /** Known labels: A4 is note 69, middle C is note 60, note 0 is in octave -1. */
  lemma NoteNameExamples()
    ensures NoteName(69) == "A4"
    ensures NoteName(60) == "C4"
    ensures NoteName(61) == "C#4"
    ensures NoteName(0) == "C-1"
    ensures NoteName(-1) == "B-2"
  {
  }

  // ---------------------------------------------------------------------------
  // Reading a label back: the partner of NoteName, used to show that distinct
  // note numbers get distinct labels.

  function ParseNat(s: string): nat
    requires IsDigits(s)
    decreases |s|
  {
    if |s| == 1 then DigitValue(s[0]) else 10 * ParseNat(s[..|s| - 1]) + DigitValue(s[|s| - 1])
  }

  function ParseInt(s: string): Option<int>
  {
    if |s| >= 2 && s[0] == '-' && IsDigits(s[1..]) then Some(-(ParseNat(s[1..]) as int))
    else if IsDigits(s) then Some(ParseNat(s))
    else None
  }

  /** Scale position of a natural note letter. */
  function LetterIndex(c: char): Option<nat>
  {
    match c
    case 'C' => Some(0)
    case 'D' => Some(2)
    case 'E' => Some(4)
    case 'F' => Some(5)
    case 'G' => Some(7)
    case 'A' => Some(9)
    case 'B' => Some(11)
    case _ => None
  }

  /** Scale position of a note name ("C", "C#", ...), if it is one of the twelve. */
  function NameIndex(name: string): (r: Option<nat>)
    ensures r.Some? ==> r.value < |NoteNames| && NoteNames[r.value] == name
  {
    if |name| == 0 then None
    else match LetterIndex(name[0])
      case None => None
      case Some(i) =>
        if i < |NoteNames| && NoteNames[i] == name then Some(i)
        else if i + 1 < |NoteNames| && NoteNames[i + 1] == name then Some(i + 1)
        else None
  }

  /** Reads a note label ("A4", "C#-1") back to its MIDI note number. */
  function ParseNote(s: string): Option<int>
  {
    var nameLength := if |s| >= 2 && s[1] == '#' then 2 else 1;
    if |s| < nameLength then None
    else match (NameIndex(s[..nameLength]), ParseInt(s[nameLength..]))
      case (Some(i), Some(o)) => Some(12 * (o + 1) + i)
      case _ => None
  }

  lemma {:induction false} ParseNatOfDecimal(n: nat)
    ensures ParseNat(NatToDecimal(n)) == n
    decreases n
  {
    if n >= 10 {
      var s := NatToDecimal(n);
      assert s[..|s| - 1] == NatToDecimal(n / 10);
      ParseNatOfDecimal(n / 10);
    }
  }

  lemma ParseIntOfDecimal(i: int)
    ensures ParseInt(IntToDecimal(i)) == Some(i)
  {
    if i < 0 {
      var s := IntToDecimal(i);
      assert s[1..] == NatToDecimal(-i);
      ParseNatOfDecimal(-i);
    } else {
      ParseNatOfDecimal(i);
    }
  }

  lemma NoteNamesShape(k: nat)
    requires k < |NoteNames|
    ensures |NoteNames[k]| == 1 || (|NoteNames[k]| == 2 && NoteNames[k][1] == '#')
    ensures NameIndex(NoteNames[k]) == Some(k)
  {
  }

  /** Reading a label back gives its note number, so distinct notes get distinct labels. */
  lemma ParseNoteName(n: int)
    ensures ParseNote(NoteName(n)) == Some(n)
  {
    var i, o := NoteIndex(n), Octave(n);
    var name, digits := NoteNames[i], IntToDecimal(o);
    var s := name + digits;
    NoteNamesShape(i);
    ParseIntOfDecimal(o);
    if |name| == 1 {
      assert s[1] == digits[0];
      assert digits[0] == '-' || IsDigit(digits[0]);
    }
    assert s[..|name|] == name;
    assert s[|name|..] == digits;
  }

  lemma NoteNameInjective(m: int, n: int)
    requires NoteName(m) == NoteName(n)
    ensures m == n
  {
    ParseNoteName(m);
    ParseNoteName(n);
  }
}
