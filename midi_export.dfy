/** The note events `downloadMidi` adds to its single MIDI track: for each chord in
    order, each of its voiced pitches in order, one note lasting one second that
    starts at the chord's position in seconds. */
module MidiExport {
  import opened Theory
  import opened Resolver
  import opened Voicing

  /** The fields passed to `track.addNote`: pitch, start time and duration in seconds. */
  datatype NoteEvent = NoteEvent(midi: int, time: int, duration: int)

  /** Seconds per chord in the exported file. */
  const ChordDuration: int := 1

  /** Every chord of the progression can be voiced. */
  predicate AllChords(progression: seq<string>)
  {
    forall i :: 0 <= i < |progression| ==> IsChord(progression[i])
  }

  /** The events of one chord at position `index`, one per pitch, in pitch order. */
  function ChordEvents(pitches: seq<int>, index: int): (r: seq<NoteEvent>)
    ensures |r| == |pitches|
    ensures forall k :: 0 <= k < |r| ==>
      r[k] == NoteEvent(pitches[k], index * ChordDuration, ChordDuration)
  {
    if |pitches| == 0 then []
    else
      var n := |pitches| - 1;
      ChordEvents(pitches[..n], index) + [NoteEvent(pitches[n], index * ChordDuration, ChordDuration)]
  }

  /** The whole track: the events of the progression without its last chord, then
      the events of the last chord. */
  function TrackEvents(progression: seq<string>): seq<NoteEvent>
    requires AllChords(progression)
  {
    if |progression| == 0 then []
    else
      var n := |progression| - 1;
      TrackEvents(progression[..n]) + ChordEvents(Voice(progression[n]), n)
  }

  /** There are exactly three events per chord; none for an empty progression. */
  lemma {:induction false} TrackLength(progression: seq<string>)
    requires AllChords(progression)
    ensures |TrackEvents(progression)| == 3 * |progression|
  {
    if |progression| > 0 {
      TrackLength(progression[..|progression| - 1]);
    }
  }

  /** Event `3 * i + k` is pitch `k` of chord `i`, starting at second `i` and lasting
      one second. */
  lemma {:induction false} TrackEventAt(progression: seq<string>, i: int, k: int)
    requires AllChords(progression)
    requires 0 <= i < |progression| && 0 <= k < 3
    ensures |TrackEvents(progression)| == 3 * |progression|
    ensures TrackEvents(progression)[3 * i + k] == NoteEvent(Voice(progression[i])[k], i, 1)
  {
    TrackLength(progression);
    var n := |progression| - 1;
    var front := progression[..n];
    TrackLength(front);
    var before := TrackEvents(front);
    var last := ChordEvents(Voice(progression[n]), n);
    assert TrackEvents(progression) == before + last;
    if i < n {
      TrackEventAt(front, i, k);
      assert progression[i] == front[i];
      assert (before + last)[3 * i + k] == before[3 * i + k];
    } else {
      assert i == n && |before| == 3 * n;
      assert (before + last)[3 * n + k] == last[k];
      assert last[k] == NoteEvent(Voice(progression[n])[k], n * ChordDuration, ChordDuration);
    }
  }

  /** Events come in chord order: start times never decrease along the track. */
  lemma TrackInChordOrder(progression: seq<string>)
    requires AllChords(progression)
    ensures forall a, b :: 0 <= a <= b < |TrackEvents(progression)| ==>
      TrackEvents(progression)[a].time <= TrackEvents(progression)[b].time
  {
    TrackLength(progression);
    var t := TrackEvents(progression);
    forall a, b | 0 <= a <= b < |t| ensures t[a].time <= t[b].time {
      TrackEventAt(progression, a / 3, a % 3);
      TrackEventAt(progression, b / 3, b % 3);
    }
  }

  /** The two-chord example: C then Am give six events, C4 E4 G4 at second 0 and
      A4 C5 E5 at second 1, each lasting one second. */
  lemma TrackExample()
    ensures TrackEvents(["C", "Am"]) == [
      NoteEvent(60, 0, 1), NoteEvent(64, 0, 1), NoteEvent(67, 0, 1),
      NoteEvent(69, 1, 1), NoteEvent(72, 1, 1), NoteEvent(76, 1, 1)]
  {
    VoiceExamples();
    var p := ["C", "Am"];
    TrackLength(p);
    forall e | 0 <= e < 6 ensures TrackEvents(p)[e] == TrackEvents(p)[3 * (e / 3) + e % 3] {}
    forall i, k | 0 <= i < 2 && 0 <= k < 3 { TrackEventAt(p, i, k); }
  }

  /** `downloadMidi` up to `midi.toArray()`: the nested `forEach` loops appending to
      the track. It only reads the progression, never the playback state. */
  method DownloadMidi(progression: seq<string>) returns (track: seq<NoteEvent>)
    requires AllChords(progression)
    ensures track == TrackEvents(progression)
  {
    track := [];
    var index := 0;
    while index < |progression|
      invariant 0 <= index <= |progression|
      invariant track == TrackEvents(progression[..index])
    {
      var chordNotes := Voice(progression[index]);
      var k := 0;
      while k < |chordNotes|
        invariant 0 <= k <= |chordNotes|
        invariant track == TrackEvents(progression[..index]) + ChordEvents(chordNotes[..k], index)
      {
        track := track + [NoteEvent(chordNotes[k], index * ChordDuration, ChordDuration)];
        assert chordNotes[..k + 1][..k] == chordNotes[..k];
        k := k + 1;
      }
      assert chordNotes[..k] == chordNotes;
      assert progression[..index + 1][..index] == progression[..index];
      index := index + 1;
    }
    assert progression[..index] == progression;
  }
}
