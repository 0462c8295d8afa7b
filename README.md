# Chord Progression Studio — a verified model of its music engine

The Chord Progression Studio is a single React page. It generates a chord progression
in a chosen key and scale from one of three templates, voices each chord as three
pitches, plays the progression through a Tone.js sequence while highlighting the
current chord, exports it as a MIDI track, and shows a caption for each chord and a
one-sentence summary. This project models that engine in Dafny:

- `theory.dfy` (module `Theory`): the fixed tables `KEYS`, `CHORD_TYPES` and
  `COMMON_PROGRESSIONS`.
- `resolver.dfy` (module `Resolver`): `generateProgression`. This covers the tonic
  rule, the key lookup with `indexOf`, and the map from scale degrees to chord names.
  The random template pick is a parameter `choice`.
- `voicing.dfy` (module `Voicing`): `getChordNotes`. Pitches are MIDI note numbers:
  C4 is 60, plus the pitch class of the chord's first character, plus the interval.
- `midi_export.dfy` (module `MidiExport`): the note events `downloadMidi` adds to its
  track. A method with the source's two nested loops is proved equal to a pure event
  list.
- `insights.dfy` (module `Insights`): `getChordInsight` and `getTheoryInsights`.
- `playback.dfy` (module `Playback`): the Play/Stop button and the sequence callback.
  - A pure state machine (`ToggleSpec`, `TickSpec`) states the behaviour.
  - The class `Studio` holds the page's state and refs as fields. Its methods
    `Generate`, `Toggle` and `Tick` update them in place and are proved to follow the
    state machine.
  - A ghost log `played` records every chord triggered on the synth.

The model follows the code literally, including behaviour a musician would not
expect:
- A degree is added to the key as a raw number of semitones, so C major with
  "I-V-vi-IV" gives C, E, Fm, D# (`Resolver.GenerateExample`).
- Voicing reads only the first character of a chord name, so "C#" sounds as C.
- Any quality containing an 'm' gets the minor triad. The code has an
  `else if (quality.includes("dim"))` branch for `[0, 3, 6]`
  (src/pages/ChordProgressionStudio.js:59-60). The 'm' test before it always catches
  "dim", so that branch is never reached and the diminished triad is never chosen.

## Model

| member | source | states |
|---|---|---|
| Theory.TablesWellFormed | src/pages/ChordProgressionStudio.js:15-26 | 12 key names, each a note letter optionally followed by '#'; 7 qualities per scale, each "", "m" or "dim"; three templates of four degrees below 7 |
| Theory.KeysDistinct | src/pages/ChordProgressionStudio.js:15 | no key name occurs twice |
| Resolver.IndexOf | src/pages/ChordProgressionStudio.js:77 | `indexOf`: -1 exactly when absent, otherwise the position of the first occurrence |
| Resolver.KeyIndex | src/pages/ChordProgressionStudio.js:77 | a selectable key's position is in 0..11 and names that key |
| Resolver.KeyIndexOf | src/pages/ChordProgressionStudio.js:77 | looking up key name i gives back i |
| Resolver.Normalize | src/pages/ChordProgressionStudio.js:79-82 | the degree list always starts with 0, ends with the template, and keeps degrees below 7 |
| Resolver.NormalizeCases | src/pages/ChordProgressionStudio.js:79-82 | unchanged when the template starts on 0; otherwise one longer, with the template after the 0 |
| Resolver.Resolve | src/pages/ChordProgressionStudio.js:85-89 | one chord per degree; chord j is key name `(keyIndex + d) % 12` followed by quality `d` of the scale |
| Resolver.TemplateDegrees | src/pages/ChordProgressionStudio.js:21-26 | every template is non-empty and holds only scale degrees |
| Resolver.ProgressionFor | src/pages/ChordProgressionStudio.js:76-89 | chord j is the resolver formula applied to degree j of the normalised template |
| Resolver.StartsOnTonic | src/pages/ChordProgressionStudio.js:79-89 | chord 0 is the key's own name plus the scale's first quality; one chord per degree, plus one when the template does not start on 0 |
| Resolver.GeneratedStartsOnTonic | src/pages/ChordProgressionStudio.js:71-89 | every generated progression opens on the key's chord; "vi-IV-I-V" gives five chords, the other templates four |
| Resolver.GenerateExample | src/pages/ChordProgressionStudio.js:71-89 | C major with "I-V-vi-IV" gives C, E, Fm, D# |
| Resolver.CMajorChords | src/pages/ChordProgressionStudio.js:86-88 | the four C major chord names of that example |
| Resolver.ChordNameRoundTrip | src/pages/ChordProgressionStudio.js:86-88 | parsing a resolved chord name gives back its chromatic position and its quality |
| Voicing.LetterPitchClass | src/pages/ChordProgressionStudio.js:54 | a note letter's pitch class is in 0..11 |
| Voicing.IncludesChar | src/pages/ChordProgressionStudio.js:57 | `includes` of a one-character string is membership |
| Voicing.IncludesDimIncludesM | src/pages/ChordProgressionStudio.js:57-60 | a quality that contains "dim" contains "m" |
| Voicing.IntervalsClassification | src/pages/ChordProgressionStudio.js:56-63 | minor triad exactly when the quality has an 'm', major exactly when it has none, diminished never |
| Voicing.Voice | src/pages/ChordProgressionStudio.js:51-67 | three pitches: root at C4 plus the first letter's pitch class; third 3 or 4 above it depending on an 'm'; fifth 7 above; strictly ascending |
| Voicing.VoiceDeterminedByLetterAndM | src/pages/ChordProgressionStudio.js:52-54 | two chords with the same first character and the same 'm' test get the same pitches |
| Voicing.SharpVoicedAsNatural | src/pages/ChordProgressionStudio.js:52-54 | "C#" is voiced as "C", and "F#m" as "Fm" |
| Voicing.VoiceExamples | src/pages/ChordProgressionStudio.js:51-67 | C is 60 64 67, Am is 69 72 76, Bdim is 71 74 78 |
| Voicing.KeyLetter | src/pages/ChordProgressionStudio.js:52-54 | a key name's first character has the key's pitch class, one less for the sharps |
| Voicing.VoiceOfChordName | src/pages/ChordProgressionStudio.js:51-67 | a resolved chord is voiceable; its root is a semitone flat for sharp keys; its third is major only for quality "" |
| MidiExport.ChordEvents | src/pages/ChordProgressionStudio.js:146-152 | one event per pitch, in pitch order, at second `index`, lasting one second |
| MidiExport.TrackLength | src/pages/ChordProgressionStudio.js:144-153 | three events per chord; none for an empty progression |
| MidiExport.TrackEventAt | src/pages/ChordProgressionStudio.js:144-153 | event 3i+k is pitch k of chord i, at second i, lasting one second |
| MidiExport.TrackInChordOrder | src/pages/ChordProgressionStudio.js:144-153 | start times never decrease along the track |
| MidiExport.TrackExample | src/pages/ChordProgressionStudio.js:144-153 | C then Am give the six expected events |
| MidiExport.DownloadMidi | src/pages/ChordProgressionStudio.js:139-153 | the nested loops build exactly the event list, from the progression alone |
| Insights.ChordInsight | src/pages/ChordProgressionStudio.js:160-171 | positions 0..6 get their caption from the table; every other position gets the fallback |
| Insights.InsightIsPositional | src/pages/ChordProgressionStudio.js:170 | the caption does not depend on the chord |
| Insights.InsightDeterminesPosition | src/pages/ChordProgressionStudio.js:161-170 | the seven captions are distinct and differ from the fallback |
| Insights.JoinEnds | src/pages/ChordProgressionStudio.js:175 | a joined list starts with its first element and ends with its last |
| Insights.SummaryLayout | src/pages/ChordProgressionStudio.js:175-177 | the sentence has the chord list after its opening words, then the first chord, the key clause and the last chord at fixed offsets, and ends with the mood and a full stop |
| Insights.SummaryListsProgression | src/pages/ChordProgressionStudio.js:175 | the summary opens with the progression joined by " - ", running from the first chord to the last |
| Insights.ClosingWord | src/pages/ChordProgressionStudio.js:177 | a sentence ending on "tension." does not end on "resolution.", and the reverse |
| Insights.SummaryMood | src/pages/ChordProgressionStudio.js:177 | ends on "tension." exactly when the last chord contains an 'm', on "resolution." exactly when it does not |
| Insights.SummaryExample | src/pages/ChordProgressionStudio.js:175-177 | the summary of C E Fm D# ends on "resolution." |
| Playback.VoiceAll | src/pages/ChordProgressionStudio.js:100 | one voiced chord per progression entry, in order |
| Playback.ToggleSpec | src/pages/ChordProgressionStudio.js:96-135 | keeps the invariant; flips playing; starting resets the counter and voices the progression; stopping clears the highlight and deactivates sequence and transport |
| Playback.TickSpec | src/pages/ChordProgressionStudio.js:104-116 | keeps the invariant; advances the counter and highlights the chord played; after the last chord goes idle with no highlight and everything stopped |
| Playback.TicksTrigger | src/pages/ChordProgressionStudio.js:104-108 | n callbacks trigger the next n voiced chords in order |
| Playback.TicksPublish | src/pages/ChordProgressionStudio.js:106-107 | n callbacks publish the indices counter, counter+1, ... one by one |
| Playback.TicksState | src/pages/ChordProgressionStudio.js:107-116 | the chords stay; still playing and highlighting the last triggered chord before the end; idle, cleared and stopped right after it |
| Playback.PlayWholeProgression | src/pages/ChordProgressionStudio.js:97-125 | Play on N >= 1 chords gives exactly N callbacks: they trigger the voiced chords in order and highlight 0..N-1; the last one leaves nothing able to fire |
| Playback.ToggleTwiceRestarts | src/pages/ChordProgressionStudio.js:96-136 | pressing the button while playing and again restarts from the first chord |
| Playback.InitialInv | src/pages/ChordProgressionStudio.js:32-38 | the initial state keeps the invariant and no callback can fire |
| Playback.GeneratedChordsVoiceable | src/pages/ChordProgressionStudio.js:85-89 | every generated chord name can be voiced |
| Playback.Studio.constructor | src/pages/ChordProgressionStudio.js:30-38 | empty progression, idle, nothing highlighted, no sequence |
| Playback.Studio.Generate | src/pages/ChordProgressionStudio.js:91-92 | the progression becomes the generated one and the highlight is cleared; playback state otherwise unchanged |
| Playback.Studio.Toggle | src/pages/ChordProgressionStudio.js:96-136 | the new state is `ToggleSpec` of the old one; the progression is unchanged |
| Playback.Studio.Tick | src/pages/ChordProgressionStudio.js:104-116 | the new state is `TickSpec` of the old one, and the chord at the old counter is added to the played log |

## Left out

- Audio. This covers `Tone.start`, the `PolySynth` and its disposal, `triggerAttackRelease`, `Tone.Transport` and the "4n" scheduling. Sound is replaced by the ghost log `played`. Each sequence callback is a call of `Studio.Tick`, made only while playing with a chord left.
- Timing and concurrency of the callbacks. The model assumes callbacks run one at a time, in order.
- Voicing.Voice: returns MIDI numbers, not the note-name strings `toNote` produces. It abstracts the Tone.js `Frequency(...).transpose(...)` conversion as 60 plus pitch class plus interval. `downloadMidi` converts those names back with `toMidi`, so the MIDI numbers are what the track holds.
- `Math.random`: the template pick is the parameter `choice`, below the number of templates.
- `midi.toArray()`, `Blob` and `saveAs`: the Standard MIDI File bytes come from `@tonejs/midi`, which is not part of this model, and the download is I/O. Only the event list is modelled.
- React itself: rendering, animation, the Select, Button and Tooltip widgets, and the slider and tabs components. The key and scale selects become parameters of `Studio.Generate`.
- React state batching and stale closures. `setIsPlaying`, `setCurrentChordIndex` and `setProgression` take effect at once in the model. Each callback reads the chords and counter of the sequence it belongs to.
- Insights.SummaryMood: requires a non-empty progression. The page only shows the summary then. On an empty list, `progression[0]` is `undefined` and would be written out as the text "undefined". `progression[progression.length - 1].includes('m')` would then throw a TypeError.
- Playback.Studio.Tick: each sequence callback is taken to receive `chords[currentIndex]`, one whole chord per call, in array order. The source triggers the `chord` argument Tone.js passes to the callback, and advances `currentIndex` on its own. Tone.js treats nested arrays in a sequence's events as subdivisions of the step. If that holds, each three-note chord would arrive as three single-note callbacks, and the auto-stop at `currentIndex >= chords.length` would fire after N notes rather than N chords. The model does not capture that, and `Playback.TicksTrigger` and `Playback.PlayWholeProgression` rest on the one-chord-per-callback reading.
- Time in the MIDI events is an integer number of seconds. That is exact here, because the chord duration is 1.
