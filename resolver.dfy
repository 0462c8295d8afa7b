/** The chord resolver and progression generator (`generateProgression`): a template's
    scale degrees become chord names in the selected key and scale. */
module Resolver {
  import opened Theory

  /** Position of the first occurrence of `x` in `s`, or -1 when it is absent
      (JavaScript's `indexOf`). */
  function IndexOf(s: seq<string>, x: string): (r: int)
    ensures -1 <= r < |s|
    ensures r == -1 <==> x !in s
    ensures 0 <= r ==> s[r] == x && x !in s[..r]
  {
    if |s| == 0 then -1
    else if s[0] == x then 0
    else
      var rest := IndexOf(s[1..], x);
      if rest == -1 then -1
      else
        assert s[..rest + 1] == [s[0]] + s[1..][..rest];
        rest + 1
  }

  /** A position already in 0..11 is its own remainder modulo 12. */
  lemma SmallMod(n: int)
    requires 0 <= n < 12
    ensures n % 12 == n
  {
  }

  /** Chromatic position of a key name. */
  function KeyIndex(key: string): (k: int)
    requires key in Keys
    ensures 0 <= k < 12 && Keys[k] == key
  {
    IndexOf(Keys, key)
  }

  /** The tonic rule: a template that does not open on degree 0 gets a 0 in front.
      A JavaScript `[][0]` is `undefined`, which is not 0, so an empty template
      becomes `[0]`. */
  function Normalize(degrees: seq<nat>): (r: seq<nat>)
    ensures |r| > 0 && r[0] == 0 && |r| >= |degrees|
    ensures r[|r| - |degrees|..] == degrees
    ensures Degrees(degrees) ==> Degrees(r)
  {
    if |degrees| > 0 && degrees[0] == 0 then degrees
    else
      var r := [0] + degrees;
      assert forall j :: 1 <= j < |r| ==> r[j] == degrees[j - 1];
      r
  }

  /** The chord name for a degree: the key name `degree` semitones above the key,
      followed by the degree's quality in the scale. The degree is added as a raw
      semitone offset, not as the distance of that step of the scale. */
  function ChordName(keyIndex: int, scale: Scale, degree: nat): string
    requires 0 <= keyIndex < 12 && degree < 7
  {
    Keys[(keyIndex + degree) % 12] + ChordTypes(scale)[degree]
  }

  /** Every degree is one of the seven scale degrees. */
  predicate Degrees(degrees: seq<nat>)
  {
    forall j :: 0 <= j < |degrees| ==> degrees[j] < 7
  }

  /** The `map` over the degree list. */
  function Resolve(keyIndex: int, scale: Scale, degrees: seq<nat>): (r: seq<string>)
    requires 0 <= keyIndex < 12 && Degrees(degrees)
    ensures |r| == |degrees|
    ensures forall j :: 0 <= j < |r| ==> r[j] == ChordName(keyIndex, scale, degrees[j])
  {
    seq(|degrees|, j requires 0 <= j < |degrees| => ChordName(keyIndex, scale, degrees[j]))
  }

  /** The degrees of every template are scale degrees. */
  lemma TemplateDegrees(choice: nat)
    requires choice < |Templates|
    ensures |Templates[choice].degrees| > 0 && Degrees(Templates[choice].degrees)
  {
    if choice == 0 {
    } else if choice == 1 {
    } else {
    }
  }

  /** The progression `generateProgression` builds from one template: the tonic rule,
      then the `map` over the degree list. */
  function ProgressionFor(key: string, scale: Scale, template: seq<nat>): (r: seq<string>)
    requires key in Keys && Degrees(template)
    ensures |r| == |Normalize(template)|
    ensures forall j :: 0 <= j < |r| ==> r[j] == ChordName(KeyIndex(key), scale, Normalize(template)[j])
  {
    Resolve(KeyIndex(key), scale, Normalize(template))
  }

  /** `generateProgression`, with the random template pick given as `choice`. */
  function GenerateProgression(key: string, scale: Scale, choice: nat): seq<string>
    requires key in Keys && choice < |Templates|
  {
    TemplateDegrees(choice);
    ProgressionFor(key, scale, Templates[choice].degrees)
  }

  /** The tonic rule: the degree list is the template itself when that opens on the
      tonic and the template with a 0 in front otherwise. */
  lemma NormalizeCases(degrees: seq<nat>)
    ensures |degrees| > 0 && degrees[0] == 0 ==> Normalize(degrees) == degrees
    ensures !(|degrees| > 0 && degrees[0] == 0) ==>
      |Normalize(degrees)| == |degrees| + 1 && Normalize(degrees)[1..] == degrees
  {
  }

  /** A progression opens on the key's own chord, and is one chord longer than its
      template exactly when the template does not open on the tonic. */
  lemma StartsOnTonic(key: string, scale: Scale, template: seq<nat>)
    requires key in Keys && Degrees(template) && |template| > 0
    ensures var r := ProgressionFor(key, scale, template);
      |r| > 0 && r[0] == key + ChordTypes(scale)[0] &&
      |r| == (if template[0] != 0 then |template| + 1 else |template|)
  {
    var k := KeyIndex(key);
    var d := Normalize(template);
    var r := ProgressionFor(key, scale, template);
    assert d[0] == 0;
    SmallMod(k);
    assert r[0] == ChordName(k, scale, 0);
    NormalizeCases(template);
  }

  /** Every generated progression opens on the key's own chord. The templates that
      open on the tonic give four chords; "vi-IV-I-V" gets the tonic in front and
      gives five. */
  lemma GeneratedStartsOnTonic(key: string, scale: Scale, choice: nat)
    requires key in Keys && choice < |Templates|
    ensures var r := GenerateProgression(key, scale, choice);
      |r| == (if choice == 2 then 5 else 4) && r[0] == key + ChordTypes(scale)[0]
  {
    TemplateDegrees(choice);
    StartsOnTonic(key, scale, Templates[choice].degrees);
    if choice == 0 {
    } else if choice == 1 {
    } else {
    }
  }

  /** The worked example: C major with "I-V-vi-IV" gives C, E, Fm, D#, because the
      degrees 4, 5 and 3 are added as semitones. */
  lemma GenerateExample()
    ensures GenerateProgression("C", Major, 0) == ["C", "E", "Fm", "D#"]
  {
    var t: seq<nat> := [0, 4, 5, 3];
    assert Templates[0].degrees == t && Normalize(t) == t;
    var r := ProgressionFor("C", Major, t);
    assert KeyIndex("C") == 0;
    assert r == [ChordName(0, Major, 0), ChordName(0, Major, 4), ChordName(0, Major, 5), ChordName(0, Major, 3)];
    CMajorChords();
  }

  lemma CMajorChords()
    ensures ChordName(0, Major, 0) == "C" && ChordName(0, Major, 4) == "E"
    ensures ChordName(0, Major, 5) == "Fm" && ChordName(0, Major, 3) == "D#"
  {
  }

  /** Splits a chord name back into its key name and quality: the root is two
      characters when the second one is a sharp sign, one otherwise. */
  function ParseChord(chord: string): (int, string)
    requires |chord| > 0
  {
    var n := if |chord| >= 2 && chord[1] == '#' then 2 else 1;
    (IndexOf(Keys, chord[..n]), chord[n..])
  }

  lemma KeyIndexOf(i: int)
    requires 0 <= i < 12
    ensures IndexOf(Keys, Keys[i]) == i
  {
    KeysDistinct();
  }

  /** Chord names are unambiguous: parsing a resolved chord name gives back the
      chromatic position of its root and the quality of its degree. */
  lemma {:induction false} ChordNameRoundTrip(keyIndex: int, scale: Scale, degree: nat)
    requires 0 <= keyIndex < 12 && degree < 7
    ensures |ChordName(keyIndex, scale, degree)| > 0
    ensures ParseChord(ChordName(keyIndex, scale, degree)) == ((keyIndex + degree) % 12, ChordTypes(scale)[degree])
  {
    TablesWellFormed();
    var i := (keyIndex + degree) % 12;
    var name, q := Keys[i], ChordTypes(scale)[degree];
    var c := name + q;
    assert c[..|name|] == name && c[|name|..] == q;
    if |name| == 2 {
      assert c[1] == '#';
    } else {
      assert |c| >= 2 ==> c[1] == q[0];
    }
    KeyIndexOf(i);
  }
}
