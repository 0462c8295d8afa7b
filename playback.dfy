/** The page's playback state machine: the Generate button (`generateProgression`),
    the Play/Stop button (`playProgression`) and the per-chord callback of the
    Tone.js sequence. Sound is not produced; each triggered chord is recorded in a
    ghost log. Each callback of the sequence is one call of `Tick`. */
module Playback {
  import opened Theory
  import opened Resolver
  import opened Voicing
  import opened MidiExport

  /** The pitches of one voiced chord. */
  type Voiced = seq<int>

  /** The state the page keeps for playback:
      - `isPlaying` and `currentChordIndex`: the two React state variables;
      - `chords`: the voiced chords the live sequence was built from;
      - `counter`: that sequence's closure counter (`currentIndex`);
      - `hasSequence`: `sequenceRef.current` is set (it is never cleared again);
      - `sequenceActive`: that sequence is started and not yet disposed;
      - `transportRunning`: the Tone.js transport is running. */
  datatype PlayState = PlayState(
    isPlaying: bool,
    currentChordIndex: int,
    chords: seq<Voiced>,
    counter: nat,
    hasSequence: bool,
    sequenceActive: bool,
    transportRunning: bool)

  /** The state before the first press of any button. */
  const Initial: PlayState := PlayState(false, -1, [], 0, false, false, false)

  /** The invariant every reachable state keeps. The sequence and the transport run
      exactly while playing; when idle nothing is highlighted; while playing the
      highlight is either cleared or on the chord just triggered; and a playing
      sequence with chords always has one left to trigger. */
  predicate Inv(s: PlayState)
  {
    s.counter <= |s.chords| &&
    s.sequenceActive == s.isPlaying && s.transportRunning == s.isPlaying &&
    (s.isPlaying ==> s.hasSequence) &&
    (!s.isPlaying ==> s.currentChordIndex == -1) &&
    (s.isPlaying ==> s.currentChordIndex == -1 || s.currentChordIndex == s.counter - 1) &&
    (s.isPlaying && |s.chords| > 0 ==> s.counter < |s.chords|)
  }

  /** A sequence callback can fire: playing, and a chord is left. */
  predicate Enabled(s: PlayState)
  {
    s.isPlaying && s.counter < |s.chords|
  }

  /** `progression.map(getChordNotes)`. */
  function VoiceAll(progression: seq<string>): (r: seq<Voiced>)
    requires AllChords(progression)
    ensures |r| == |progression|
    ensures forall i :: 0 <= i < |r| ==> r[i] == Voice(progression[i])
  {
    seq(|progression|, i requires 0 <= i < |progression| => Voice(progression[i]))
  }

  /** The Play/Stop button. Idle: voice every chord, build the sequence with a fresh
      counter, start transport and sequence. Playing: stop the transport, stop and
      dispose the sequence if there is one, clear the highlight and go idle. */
  function ToggleSpec(s: PlayState, progression: seq<string>): (r: PlayState)
    requires Inv(s) && AllChords(progression)
    ensures Inv(r)
    ensures r.isPlaying == !s.isPlaying
    ensures !s.isPlaying ==> r.counter == 0 && r.chords == VoiceAll(progression) && Enabled(r) == (|progression| > 0)
    ensures s.isPlaying ==> r.currentChordIndex == -1 && !r.sequenceActive && !r.transportRunning && !Enabled(r)
  {
    if !s.isPlaying then
      s.(chords := VoiceAll(progression), counter := 0, hasSequence := true,
         transportRunning := true, sequenceActive := true, isPlaying := true)
    else
      s.(transportRunning := false,
         sequenceActive := if s.hasSequence then false else s.sequenceActive,
         currentChordIndex := -1, isPlaying := false)
  }

  /** One callback of the sequence: trigger chord `counter`, highlight it, advance
      the counter, and after the last chord stop the transport, stop and dispose the
      sequence, go idle and clear the highlight. */
  function TickSpec(s: PlayState): (r: PlayState)
    requires Inv(s) && Enabled(s)
    ensures Inv(r)
    ensures r.chords == s.chords && r.counter == s.counter + 1
    ensures s.counter + 1 < |s.chords| ==> r.isPlaying && r.currentChordIndex == s.counter
    ensures s.counter + 1 == |s.chords| ==>
      !r.isPlaying && r.currentChordIndex == -1 && !r.sequenceActive && !r.transportRunning
  {
    var i := s.counter;
    var r := s.(currentChordIndex := i, counter := i + 1);
    if r.counter >= |r.chords| then
      r.(transportRunning := false, sequenceActive := false, isPlaying := false, currentChordIndex := -1)
    else r
  }

  /** The state after `n` more callbacks. */
  function Ticks(s: PlayState, n: nat): PlayState
    requires Inv(s) && (n == 0 || (s.isPlaying && s.counter + n <= |s.chords|))
    decreases n
  {
    if n == 0 then s else Ticks(TickSpec(s), n - 1)
  }

  /** The chords triggered by the next `n` callbacks, in order. */
  function Triggered(s: PlayState, n: nat): seq<Voiced>
    requires Inv(s) && (n == 0 || (s.isPlaying && s.counter + n <= |s.chords|))
    decreases n
  {
    if n == 0 then [] else [s.chords[s.counter]] + Triggered(TickSpec(s), n - 1)
  }

  /** The chord indices the next `n` callbacks publish with `setCurrentChordIndex`. */
  function Published(s: PlayState, n: nat): seq<int>
    requires Inv(s) && (n == 0 || (s.isPlaying && s.counter + n <= |s.chords|))
    decreases n
  {
    if n == 0 then [] else [s.counter as int] + Published(TickSpec(s), n - 1)
  }

  /** `n` callbacks from a playing state trigger the next `n` chords, in order. */
  lemma {:induction false} TicksTrigger(s: PlayState, n: nat)
    requires Inv(s) && s.isPlaying && s.counter + n <= |s.chords|
    decreases n
    ensures Triggered(s, n) == s.chords[s.counter..s.counter + n]
  {
    if n > 0 {
      var c := s.counter;
      var s' := TickSpec(s);
      assert s'.counter == c + 1 && s'.chords == s.chords;
      if n > 1 {
        TicksTrigger(s', n - 1);
        assert s.chords[c..c + n] == [s.chords[c]] + s.chords[c + 1..c + n];
      } else {
        assert s.chords[c..c + 1] == [s.chords[c]];
      }
    }
  }

  /** ... and publish their indices one by one. */
  lemma {:induction false} TicksPublish(s: PlayState, n: nat)
    requires Inv(s) && s.isPlaying && s.counter + n <= |s.chords|
    decreases n
    ensures |Published(s, n)| == n
    ensures forall j :: 0 <= j < n ==> Published(s, n)[j] == s.counter + j
  {
    if n > 1 {
      TicksPublish(TickSpec(s), n - 1);
    }
  }

  /** The state keeps its chords and keeps playing until the last chord has been
      triggered, highlighting the chord just triggered, and is idle, cleared and
      released right after the last one. */
  lemma {:induction false} TicksState(s: PlayState, n: nat)
    requires Inv(s) && s.isPlaying && s.counter + n <= |s.chords|
    decreases n
    ensures Ticks(s, n).chords == s.chords
    ensures s.counter + n < |s.chords| ==>
      Enabled(Ticks(s, n)) && Ticks(s, n).counter == s.counter + n &&
      (n > 0 ==> Ticks(s, n).currentChordIndex == s.counter + n - 1)
    ensures n > 0 && s.counter + n == |s.chords| ==>
      var t := Ticks(s, n);
      !t.isPlaying && t.currentChordIndex == -1 && !t.sequenceActive && !t.transportRunning && !Enabled(t)
  {
    if n > 1 {
      TicksState(TickSpec(s), n - 1);
    }
  }

  /** Pressing Play from idle on a progression of N >= 1 chords gives exactly N
      callbacks: they trigger the voiced chords in order, highlight 0, 1, ..., N-1, and
      the last one leaves the page idle with nothing highlighted, the sequence
      disposed and the transport stopped, so no further callback can fire. */
  lemma PlayWholeProgression(s: PlayState, progression: seq<string>)
    requires Inv(s) && !s.isPlaying && AllChords(progression) && |progression| > 0
    ensures var start := ToggleSpec(s, progression); var n := |progression|;
      start.isPlaying && start.counter + n <= |start.chords| &&
      Triggered(start, n) == VoiceAll(progression) &&
      |Published(start, n)| == n && (forall j :: 0 <= j < n ==> Published(start, n)[j] == j) &&
      (forall m :: 0 < m < n ==> Enabled(Ticks(start, m)) && Ticks(start, m).currentChordIndex == m - 1) &&
      !Ticks(start, n).isPlaying && Ticks(start, n).currentChordIndex == -1 &&
      !Ticks(start, n).sequenceActive && !Ticks(start, n).transportRunning && !Enabled(Ticks(start, n))
  {
    var start := ToggleSpec(s, progression);
    var n := |progression|;
    TicksTrigger(start, n);
    TicksPublish(start, n);
    TicksState(start, n);
    assert start.chords[0..n] == start.chords;
    forall m | 0 < m < n
      ensures Enabled(Ticks(start, m)) && Ticks(start, m).currentChordIndex == m - 1
    {
      TicksState(start, m);
    }
  }

  /** Pressing the button twice is not a stop followed by a no-op: the second press
      starts playback again from the first chord. */
  lemma ToggleTwiceRestarts(s: PlayState, progression: seq<string>)
    requires Inv(s) && s.isPlaying && AllChords(progression)
    ensures var again := ToggleSpec(ToggleSpec(s, progression), progression);
      again.isPlaying && again.counter == 0 && again.chords == VoiceAll(progression) &&
      again.currentChordIndex == -1
  {
  }

  /** The state on mount keeps the invariant, and no callback can fire from it. */
  lemma InitialInv()
    ensures Inv(Initial) && !Enabled(Initial)
  {
  }

  /** Every generated progression can be voiced. */
  lemma GeneratedChordsVoiceable(key: string, scale: Scale, choice: nat)
    requires key in Keys && choice < |Templates|
    ensures AllChords(GenerateProgression(key, scale, choice))
  {
    var r := GenerateProgression(key, scale, choice);
    TemplateDegrees(choice);
    var d := Normalize(Templates[choice].degrees);
    forall j | 0 <= j < |r| ensures IsChord(r[j]) {
      VoiceOfChordName(KeyIndex(key), scale, d[j]);
    }
  }

  /** The page component. Its fields are the React state and refs that playback and
      generation update in place; `played` logs every chord triggered on the synth. */
  class Studio {
    var progression: seq<string>
    var isPlaying: bool
    var currentChordIndex: int
    var chords: seq<Voiced>
    var counter: nat
    var hasSequence: bool
    var sequenceActive: bool
    var transportRunning: bool
    ghost var played: seq<Voiced>

    /** The playback part of the fields. */
    function State(): PlayState
      reads this
    {
      PlayState(isPlaying, currentChordIndex, chords, counter, hasSequence, sequenceActive, transportRunning)
    }

    ghost predicate Valid()
      reads this
    {
      Inv(State()) && AllChords(progression)
    }

    /** The state on mount: empty progression, idle, nothing highlighted, no sequence. */
    constructor ()
      ensures Valid() && State() == Initial && progression == [] && played == []
    {
      progression := [];
      isPlaying := false;
      currentChordIndex := -1;
      chords := [];
      counter := 0;
      hasSequence := false;
      sequenceActive := false;
      transportRunning := false;
      played := [];
    }

    /** The Generate button, with the random template pick given as `choice`: the
        progression is replaced and the highlight cleared. A live sequence keeps the
        chords it was built from. */
    method Generate(key: string, scale: Scale, choice: nat)
      requires Valid() && key in Keys && choice < |Templates|
      modifies this
      ensures Valid()
      ensures progression == GenerateProgression(key, scale, choice)
      ensures State() == old(State()).(currentChordIndex := -1)
      ensures played == old(played)
    {
      var generated := GenerateProgression(key, scale, choice);
      GeneratedChordsVoiceable(key, scale, choice);
      Replace(generated);
    }

    /** Stores a new progression and clears the highlight. */
    method Replace(generated: seq<string>)
      requires Valid() && AllChords(generated)
      modifies this
      ensures Valid() && progression == generated
      ensures State() == old(State()).(currentChordIndex := -1)
      ensures played == old(played)
    {
      progression := generated;
      currentChordIndex := -1;
    }

    /** The Play/Stop button. */
    method Toggle()
      requires Valid()
      modifies this
      ensures Valid()
      ensures State() == ToggleSpec(old(State()), old(progression))
      ensures progression == old(progression) && played == old(played)
    {
      if !isPlaying {
        chords := VoiceAll(progression);
        counter := 0;
        hasSequence := true;
        transportRunning := true;
        sequenceActive := true;
        isPlaying := true;
      } else {
        transportRunning := false;
        if hasSequence {
          sequenceActive := false;
        }
        currentChordIndex := -1;
        isPlaying := false;
      }
    }

    /** One callback of the live sequence: the synth plays chord `counter`. */
    method Tick()
      requires Valid() && Enabled(State())
      modifies this
      ensures Valid()
      ensures State() == TickSpec(old(State()))
      ensures played == old(played) + [old(chords)[old(counter)]]
      ensures progression == old(progression)
    {
      played := played + [chords[counter]];
      currentChordIndex := counter;
      counter := counter + 1;
      if counter >= |chords| {
        transportRunning := false;
        sequenceActive := false;
        isPlaying := false;
        currentChordIndex := -1;
      }
    }
  }
}
