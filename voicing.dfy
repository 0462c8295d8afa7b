/** The voicing engine (`getChordNotes`): a chord name becomes three pitches at
    octave 4. Pitches are MIDI note numbers; the Tone.js calls
    `Frequency(root + "4").transpose(interval)` followed by `toNote`/`toMidi` are
    modelled as the number of C4 plus the root letter's pitch class plus the interval. */
module Voicing {
  import opened Theory
  import opened Resolver

  /** MIDI note number of C4, the reference octave of every voicing. */
  const C4: int := 60

  const MajorTriad: seq<int> := [0, 4, 7]
  const MinorTriad: seq<int> := [0, 3, 7]
  const DiminishedTriad: seq<int> := [0, 3, 6]

  /** Semitones from C up to a natural note letter. */
  function LetterPitchClass(letter: char): (pc: int)
    requires IsNoteLetter(letter)
    ensures 0 <= pc < 12
  {
    match letter
    case 'C' => 0
    case 'D' => 2
    case 'E' => 4
    case 'F' => 5
    case 'G' => 7
    case 'A' => 9
    case 'B' => 11
  }

  /** JavaScript's `includes` on strings: `t` occurs in `s` as a contiguous block. */
  function Includes(s: string, t: string): bool
    decreases |s|
  {
    (|t| <= |s| && s[..|t|] == t) || (|s| > 0 && Includes(s[1..], t))
  }

  /** The interval list chosen for a quality suffix, tested in the source's order:
      an "m" anywhere first, then "dim", then the major triad. */
  function Intervals(quality: string): seq<int>
  {
    if Includes(quality, "m") then MinorTriad
    else if Includes(quality, "dim") then DiminishedTriad
    else MajorTriad
  }

  /** A string the voicing can read: its first character is a note letter. */
  predicate IsChord(chord: string)
  {
    |chord| > 0 && IsNoteLetter(chord[0])
  }

  /** `getChordNotes`: the first character alone is the root, at octave 4; the rest of
      the string is the quality; the pitches follow the interval list. */
  function Voice(chord: string): (r: seq<int>)
    requires IsChord(chord)
    ensures |r| == 3
    ensures r[0] == C4 + LetterPitchClass(chord[0])
    ensures r[1] == r[0] + (if 'm' in chord[1..] then 3 else 4) && r[2] == r[0] + 7
    ensures C4 <= r[0] < r[1] < r[2] < C4 + 19
  {
    var root := C4 + LetterPitchClass(chord[0]);
    var intervals := Intervals(chord[1..]);
    IntervalsClassification(chord[1..]);
    seq(|intervals|, i requires 0 <= i < |intervals| => root + intervals[i])
  }

  /** A one-character search is membership. */
  lemma {:induction false} IncludesChar(s: string, c: char)
    ensures Includes(s, [c]) <==> c in s
    decreases |s|
  {
    if |s| > 0 {
      IncludesChar(s[1..], c);
      assert s == [s[0]] + s[1..];
    }
  }

  /** Whatever contains "dim" contains "m". */
  lemma {:induction false} IncludesDimIncludesM(s: string)
    requires Includes(s, "dim")
    ensures Includes(s, "m")
    decreases |s|
  {
    if 3 <= |s| && s[..3] == "dim" {
      assert s[2] == 'm';
      IncludesChar(s, 'm');
    } else {
      IncludesDimIncludesM(s[1..]);
    }
  }

  /** The minor triad is chosen exactly when the quality contains an 'm', the major
      triad exactly when it does not, and the diminished triad never: "dim" itself
      contains an 'm'. */
  lemma IntervalsClassification(quality: string)
    ensures Intervals(quality) == MinorTriad <==> 'm' in quality
    ensures Intervals(quality) == MajorTriad <==> 'm' !in quality
    ensures Intervals(quality) != DiminishedTriad
  {
    IncludesChar(quality, 'm');
    assert "m" == ['m'];
    if Includes(quality, "dim") {
      IncludesDimIncludesM(quality);
    }
  }

  /** Only the first character and the presence of an 'm' after it matter, so a sharp
      is dropped: "C#" is voiced as "C", and "C#m" as "Cm". */
  lemma VoiceDeterminedByLetterAndM(c1: string, c2: string)
    requires IsChord(c1) && IsChord(c2)
    requires c1[0] == c2[0] && ('m' in c1[1..] <==> 'm' in c2[1..])
    ensures Voice(c1) == Voice(c2)
  {
  }

  lemma SharpVoicedAsNatural()
    ensures Voice("C#") == Voice("C")
    ensures Voice("F#m") == Voice("Fm")
  {
    VoiceDeterminedByLetterAndM("C#", "C");
    assert "F#m"[1..] == "#m" && "Fm"[1..] == "m";
    VoiceDeterminedByLetterAndM("F#m", "Fm");
  }

  /** C gives C4 E4 G4 and Am gives A4 C5 E5; Bdim gives B4 D5 F#5, the B minor
      triad, not B4 D5 F5. */
  lemma VoiceExamples()
    ensures Voice("C") == [60, 64, 67]
    ensures Voice("Am") == [69, 72, 76]
    ensures Voice("Bdim") == [71, 74, 78]
  {
    assert "Am"[1..] == "m";
    assert 'm' in "Bdim"[1..];
  }

  /** Pitch class of the first character of each key name: the key's own position
      for the naturals, one semitone lower for the sharps. */
  lemma KeyLetter(i: int)
    requires 0 <= i < 12
    ensures IsNoteLetter(Keys[i][0])
    ensures LetterPitchClass(Keys[i][0]) == if IsSharp(Keys[i]) then i - 1 else i
  {
  }

  /** What the voicing makes of a resolved chord name: the root sounds at the chord's
      chromatic position, except one semitone flat when that key name has a sharp;
      the third is minor for both "m" and "dim" and major only for "". */
  lemma {:induction false} VoiceOfChordName(keyIndex: int, scale: Scale, degree: nat)
    requires 0 <= keyIndex < 12 && degree < 7
    ensures IsChord(ChordName(keyIndex, scale, degree))
    ensures var i := (keyIndex + degree) % 12;
      var v := Voice(ChordName(keyIndex, scale, degree));
      v[0] == C4 + (if IsSharp(Keys[i]) then i - 1 else i) &&
      v[1] - v[0] == (if ChordTypes(scale)[degree] == "" then 4 else 3)
  {
    TablesWellFormed();
    var i := (keyIndex + degree) % 12;
    var name, q := Keys[i], ChordTypes(scale)[degree];
    var c := name + q;
    KeyLetter(i);
    assert c[0] == name[0];
    assert c[1..] == name[1..] + q;
    assert 'm' !in name[1..] by {
      if |name| == 2 { assert name[1..] == "#"; }
    }
    assert 'm' in q <==> q != "";
  }
}
