/** The fixed music-theory tables of the Chord Progression Studio: the twelve key
    names, the chord quality of each scale degree per scale, and the progression
    templates the generator picks from. */
module Theory {

  /** The twelve key names in chromatic order, C first (the `KEYS` table). */
  const Keys: seq<string> := ["C", "C#", "D", "D#", "E", "F", "F#", "G", "G#", "A", "A#", "B"]

  /** The two selectable scales (the `SCALES` list). */
  datatype Scale = Major | Minor

  /** Chord-quality suffix of each of the seven scale degrees (the `CHORD_TYPES` table):
      "" is a major triad, "m" a minor one, "dim" a diminished one. */
  function ChordTypes(scale: Scale): seq<string>
  {
    match scale
    case Major => ["", "m", "m", "", "", "m", "dim"]
    case Minor => ["m", "dim", "", "m", "m", "", ""]
  }

  /** A named progression template: an ordered list of scale degrees. */
  datatype Template = Template(name: string, degrees: seq<nat>)

  /** The `COMMON_PROGRESSIONS` table, in the order its keys are enumerated. */
  const Templates: seq<Template> := [
    Template("I-V-vi-IV", [0, 4, 5, 3]),
    Template("I-vi-IV-V", [0, 5, 3, 4]),
    Template("vi-IV-I-V", [5, 3, 0, 4])
  ]

  /** A key name is a natural note letter, optionally followed by a sharp sign. */
  predicate IsNoteLetter(c: char)
  {
    c in "CDEFGAB"
  }

  /** True of the key names written with a sharp sign. */
  predicate IsSharp(name: string)
  {
    |name| == 2 && name[1] == '#'
  }

  /** Every table entry has the shape the rest of the model relies on. */
  lemma TablesWellFormed()
    ensures |Keys| == 12
    ensures forall i :: 0 <= i < 12 ==> |Keys[i]| in {1, 2} && IsNoteLetter(Keys[i][0])
    ensures forall i :: 0 <= i < 12 ==> |Keys[i]| == 2 ==> IsSharp(Keys[i])
    ensures forall s: Scale :: |ChordTypes(s)| == 7
    ensures forall s: Scale, d :: 0 <= d < 7 ==> ChordTypes(s)[d] in {"", "m", "dim"}
    ensures |Templates| == 3
    ensures forall t :: 0 <= t < |Templates| ==> |Templates[t].degrees| == 4
    ensures forall t, j :: 0 <= t < |Templates| && 0 <= j < |Templates[t].degrees| ==> Templates[t].degrees[j] < 7
  {
  }

  /** No key name occurs twice, so a key name determines its chromatic position. */
  lemma KeysDistinct()
    ensures forall i, j :: 0 <= i < 12 && 0 <= j < 12 && Keys[i] == Keys[j] ==> i == j
  {
  }
}
