/** The captions shown beside each chord (`getChordInsight`) and the summary sentence
    under the progression (`getTheoryInsights`). */
module Insights {
  import opened Voicing

  /** The fixed captions, keyed by position in the progression. */
  const InsightTable: map<int, string> := map[
    0 := "Tonic chord, provides a sense of resolution",
    1 := "Builds tension, often leading back to the tonic",
    2 := "Creates movement, often used in transitions",
    3 := "Subdominant chord, creates anticipation",
    4 := "Dominant chord, creates strong pull to the tonic",
    5 := "Related to the tonic, often used for emotional effect",
    6 := "Creates tension, typically resolves to the tonic"
  ]

  /** The caption for every position the table does not cover. */
  const Fallback: string := "Adds color and interest to the progression"

  /** `insights[index] || fallback`: a missing entry, like an empty one, is falsy and
      gives the fallback caption. The chord itself is not consulted. */
  function ChordInsight(chord: string, index: int): (r: string)
    ensures 0 <= index < 7 ==> index in InsightTable && r == InsightTable[index]
    ensures !(0 <= index < 7) ==> r == Fallback
  {
    var entry := if index in InsightTable then InsightTable[index] else "";
    if entry != "" then entry else Fallback
  }

  /** The caption depends on the position alone, never on the chord there. */
  lemma InsightIsPositional(chord1: string, chord2: string, index: int)
    ensures ChordInsight(chord1, index) == ChordInsight(chord2, index)
  {
  }

  /** The seven positions have seven different captions, none of them the fallback:
      the caption tells the position back, up to the positions past 6. */
  lemma InsightDeterminesPosition(chord: string, i: int, j: int)
    requires 0 <= i < 7
    requires ChordInsight(chord, i) == ChordInsight(chord, j)
    ensures i == j
  {
  }

  /** JavaScript's `join`: the strings with `sep` between neighbours. */
  function Join(parts: seq<string>, sep: string): string
  {
    if |parts| == 0 then ""
    else if |parts| == 1 then parts[0]
    else parts[0] + sep + Join(parts[1..], sep)
  }

  /** A joined list starts with its first element and ends with its last one. */
  lemma {:induction false} JoinEnds(parts: seq<string>, sep: string)
    requires |parts| > 0
    ensures var j := Join(parts, sep); var last := parts[|parts| - 1];
      |parts[0]| <= |j| && j[..|parts[0]|] == parts[0] &&
      |last| <= |j| && j[|j| - |last|..] == last
  {
    if |parts| > 1 {
      JoinEnds(parts[1..], sep);
      var rest := Join(parts[1..], sep);
      var j := parts[0] + sep + rest;
      assert j[|j| - |rest|..] == rest;
    }
  }

  /** The closing word: "tension" when the last chord has an 'm' anywhere, which takes
      in the diminished chords, "resolution" otherwise. */
  function Mood(lastChord: string): string
  {
    if Includes(lastChord, "m") then "tension" else "resolution"
  }

  /** The fixed pieces of the summary sentence, in order. */
  const Opening: string := "This chord progression ("
  const Journey: string := ") creates a unique emotional journey. \n    It starts with "
  const KeyClause: string := ", which establishes the key, and ends with "
  const Closing: string := ", \n    giving a sense of "

  /** `getTheoryInsights`. The caller shows it only for a non-empty progression. */
  function TheoryInsights(progression: seq<string>): string
    requires |progression| > 0
  {
    var last := progression[|progression| - 1];
    Summary(Join(progression, " - "), progression[0], last, Mood(last))
  }

  /** The template literal, fixed text and substitutions in order. Its line breaks
      are single line feeds followed by the next line's four-space indentation. */
  function Summary(list: string, first: string, last: string, mood: string): string
  {
    Opening + (list + (Journey + (first + (KeyClause + (last + (Closing + (mood + ".")))))))
  }

  predicate EndsWith(s: string, suffix: string)
  {
    |suffix| <= |s| && s[|s| - |suffix|..] == suffix
  }

  /** The sentence lists the chords right after its opening words, names the first
      chord as the one that establishes the key and the last one as the one it ends
      with, and closes on the mood and a full stop. */
  lemma SummaryLayout(list: string, first: string, last: string, mood: string)
    ensures var r := Summary(list, first, last, mood);
      var a := |Opening| + |list| + |Journey|;
      var b := a + |first| + |KeyClause|;
      b + |last| <= |r| &&
      r[..|Opening| + |list|] == Opening + list &&
      r[a - |Journey|..a] == Journey && r[a..a + |first|] == first &&
      r[a + |first|..b] == KeyClause && r[b..b + |last|] == last &&
      EndsWith(r, mood + ".")
  {
    NestedParts(Opening, list, Journey, first, KeyClause, last, Closing, mood + ".");
  }

  /** Where each part sits in a right-nested concatenation of eight strings. */
  lemma NestedParts(o: string, l: string, j: string, f: string, k: string, t: string,
                    c: string, w: string)
    ensures var r := o + (l + (j + (f + (k + (t + (c + w))))));
      var a := |o| + |l| + |j|;
      var b := a + |f| + |k|;
      b + |t| <= |r| &&
      r[..|o| + |l|] == o + l && r[a - |j|..a] == j && r[a..a + |f|] == f &&
      r[a + |f|..b] == k && r[b..b + |t|] == t && EndsWith(r, w)
  {
    var r := o + (l + (j + (f + (k + (t + (c + w))))));
    assert r == (o + l + j + f + k + t + c) + w;
  }

  /** A string ending on one of the two closing words ends on that one and not on
      the other. */
  lemma ClosingWord(r: string, w: string)
    requires w == "tension." || w == "resolution."
    requires EndsWith(r, w)
    ensures EndsWith(r, "tension.") <==> w == "tension."
    ensures EndsWith(r, "resolution.") <==> w == "resolution."
  {
    if w == "tension." {
      assert r[|r| - 5] == 's';
    } else {
      assert r[|r| - 5] == 't';
    }
  }

  /** The summary ends on "tension." exactly when the last chord contains an 'm', and
      on "resolution." exactly when it does not. */
  lemma SummaryMood(progression: seq<string>)
    requires |progression| > 0
    ensures var r := TheoryInsights(progression); var last := progression[|progression| - 1];
      (EndsWith(r, "tension.") <==> 'm' in last) &&
      (EndsWith(r, "resolution.") <==> 'm' !in last)
  {
    var last := progression[|progression| - 1];
    SummaryLayout(Join(progression, " - "), progression[0], last, Mood(last));
    IncludesChar(last, 'm');
    assert "m" == ['m'];
    ClosingWord(TheoryInsights(progression), Mood(last) + ".");
  }

  /** The chord list in the summary runs from the first chord to the last. */
  lemma SummaryListsProgression(progression: seq<string>)
    requires |progression| > 0
    ensures var r := TheoryInsights(progression); var list := Join(progression, " - ");
      var first, last := progression[0], progression[|progression| - 1];
      |Opening| + |list| <= |r| && r[..|Opening| + |list|] == Opening + list &&
      |first| <= |list| && list[..|first|] == first &&
      |last| <= |list| && list[|list| - |last|..] == last
  {
    var last := progression[|progression| - 1];
    JoinEnds(progression, " - ");
    SummaryLayout(Join(progression, " - "), progression[0], last, Mood(last));
  }

  /** The first generated C major progression, C E Fm D#, ends on D#: no 'm', so the
      summary speaks of resolution. */
  lemma SummaryExample()
    ensures EndsWith(TheoryInsights(["C", "E", "Fm", "D#"]), "resolution.")
  {
    SummaryMood(["C", "E", "Fm", "D#"]);
  }
}
