/** Where the browser's current melody comes from when no transcription is used:
    the built-in example melodies, the eight-note random melody and the simulated
    extraction that stands in for an unreachable back-end. Every generator lays
    notes of the C-major scale end to end from time 0; each `Math.random()` call is
    an entry of an injected draw stream. */
module Generators {
  import opened Notes
  import Text
  import Pattern
  import Arrangement

  // ---------------------------------------------------------------------------
  // Example melodies

  const SimpleMelody: seq<Note> := [
    Note(60, 0.0, 0.5, 80.0), Note(62, 0.5, 0.5, 80.0), Note(64, 1.0, 0.5, 80.0),
    Note(65, 1.5, 0.5, 80.0), Note(67, 2.0, 1.0, 90.0), Note(67, 3.0, 1.0, 90.0)]

  const HappyMelody: seq<Note> := [
    Note(64, 0.0, 0.25, 80.0), Note(67, 0.25, 0.25, 80.0), Note(69, 0.5, 0.5, 85.0),
    Note(67, 1.0, 0.25, 80.0), Note(69, 1.25, 0.25, 80.0), Note(72, 1.5, 1.0, 90.0)]

  const SadMelody: seq<Note> := [
    Note(60, 0.0, 1.0, 70.0), Note(58, 1.0, 0.5, 75.0), Note(57, 1.5, 0.5, 80.0),
    Note(55, 2.0, 2.0, 85.0)]

  /** The example melodies are laid end to end from time 0. */
  lemma ExamplesContiguous()
    ensures Contiguous(SimpleMelody, 0.0)
    ensures Contiguous(HappyMelody, 0.0)
    ensures Contiguous(SadMelody, 0.0)
  {
  }

  /** The pattern the convert action compiles from the loaded happy example. */
  lemma HappyMelodyPattern()
    ensures Pattern.MelodyToStrudelPattern(HappyMelody, 120.0, "piano")
      == "sound(\"piano\").note(\"E4 G4 A4_ G4 A4 C5__\")"
  {
    HappyTokens();
    JoinHappyTokens();
    Pattern.PatternFromTokens(HappyMelody, 120.0, "piano", "E4 G4 A4_ G4 A4 C5__");
    PianoPattern("E4 G4 A4_ G4 A4 C5__");
    HappyText();
  }

  lemma HappyText()
    ensures "sound(\"piano\").note(\"" + "E4 G4 A4_ G4 A4 C5__" + "\")" == "sound(\"piano\").note(\"E4 G4 A4_ G4 A4 C5__\")"
  {
  }

  lemma PianoPattern(body: string)
    ensures Pattern.MelodyHeader("piano") + body + Pattern.MelodyFooter == "sound(\"piano\").note(\"" + body + "\")"
  {
  }

  lemma JoinHappyTokens()
    ensures Text.Join(["E4", "G4", "A4_", "G4", "A4", "C5__"], " ") == "E4 G4 A4_ G4 A4 C5__"
  {
    var tokens: seq<string> := ["E4", "G4", "A4_", "G4", "A4", "C5__"];
    assert tokens[5..] == ["C5__"];
    assert Text.Join(tokens[4..], " ") == "A4 C5__";
    assert Text.Join(tokens[3..], " ") == "G4 A4 C5__";
    assert Text.Join(tokens[2..], " ") == "A4_ G4 A4 C5__";
    assert Text.Join(tokens[1..], " ") == "G4 A4_ G4 A4 C5__";
  }

  lemma HappyTokens()
    ensures Pattern.Tokens(HappyMelody, 120.0) == ["E4", "G4", "A4_", "G4", "A4", "C5__"]
  {
    forall i | 0 <= i < 6
      ensures Pattern.NoteToken(HappyMelody[i], 120.0) == ["E4", "G4", "A4_", "G4", "A4", "C5__"][i]
    {
      HappyToken(i);
    }
  }

  lemma HappyToken(i: nat)
    requires i < 6
    ensures Pattern.NoteToken(HappyMelody[i], 120.0) == ["E4", "G4", "A4_", "G4", "A4", "C5__"][i]
  {
  }

  // ---------------------------------------------------------------------------
  // Random melody

  /** `scale[Math.floor(Math.random() * scale.length)]`. */
  function RandomPitch(r: Draw): (pitch: int)
    ensures pitch in CMajorScale
  {
    CMajorScale[DrawIndex(r, |CMajorScale|)]
  }

  /** `Math.random() < 0.3 ? 1.0 : 0.5`: a long note with probability 0.3. */
  function RandomDuration(r: Draw): (d: real)
    ensures d == 0.5 || d == 1.0
  {
    if r < 0.3 then 1.0 else 0.5
  }

  /** The random-melody button: eight scale notes laid end to end from 0, note `i`
      taking its pitch from draw `2i` and its length from draw `2i + 1`. */
  method GenerateRandomMelody(draw: nat -> Draw) returns (notes: seq<Note>)
    ensures |notes| == 8
    ensures Contiguous(notes, 0.0)
    ensures forall i :: 0 <= i < |notes| ==>
      && notes[i].pitch == RandomPitch(draw(2 * i))
      && notes[i].duration == RandomDuration(draw(2 * i + 1))
      && notes[i].velocity == 80.0
  {
    notes := [];
    var t := 0.0;
    var i := 0;
    while i < 8
      invariant 0 <= i <= 8 && |notes| == i
      invariant Contiguous(notes, 0.0)
      invariant t == if i == 0 then 0.0 else EndTime(notes[i - 1])
      invariant forall j :: 0 <= j < i ==>
        && notes[j].pitch == RandomPitch(draw(2 * j))
        && notes[j].duration == RandomDuration(draw(2 * j + 1))
        && notes[j].velocity == 80.0
    {
      var pitch := CMajorScale[DrawIndex(draw(2 * i), |CMajorScale|)];
      var duration := if draw(2 * i + 1) < 0.3 then 1.0 else 0.5;
      notes := notes + [Note(pitch, t, duration, 80.0)];
      t := t + duration;
      i := i + 1;
    }
  }

  /** A random melody lasts between 4 and 8 units, so playback always arranges it
      over 16 units in the basic drum style. */
  lemma RandomMelodyArrangement(notes: seq<Note>, draw: nat -> Draw)
    requires |notes| == 8
    requires Contiguous(notes, 0.0)
    requires forall i :: 0 <= i < |notes| ==> notes[i].duration == RandomDuration(draw(2 * i + 1))
    ensures 4.0 <= EndTime(notes[7]) <= 8.0
    ensures Arrangement.MelodyDuration(notes) == 16.0
    ensures Arrangement.SelectStyle(Arrangement.MelodyDuration(notes)) == Arrangement.Basic
  {
    forall i | 0 <= i < |notes| ensures EndTime(notes[i]) <= 8.0 {
      ContiguousEndBounds(notes, 0.0, 0.5, 1.0, i);
    }
    ContiguousEndBounds(notes, 0.0, 0.5, 1.0, 7);
  }

  // ---------------------------------------------------------------------------
  // Simulated extraction

  /** `Math.max(4, Math.floor(duration * 2))`: two notes per recorded second, at least four. */
  function SimulatedNoteCount(duration: real): (count: nat)
    ensures count >= 4
    ensures duration * 2.0 < 5.0 ==> count == 4
    ensures duration * 2.0 >= 4.0 ==> (count as real) <= duration * 2.0 < (count as real) + 1.0
  {
    var k := (duration * 2.0).Floor;
    if k >= 4 then k else 4
  }

  /** `70 + Math.random() * 30`. */
  function RandomVelocity(r: Draw): (v: real)
    ensures 70.0 <= v < 100.0
  {
    70.0 + r * 30.0
  }

  /** The simulated extraction used when the back-end cannot be reached: note `i`
      takes its pitch, length and velocity from draws `3i`, `3i + 1` and `3i + 2`. */
  method ExtractMelodySimulation(duration: real, draw: nat -> Draw) returns (extracted: seq<Note>)
    ensures |extracted| == SimulatedNoteCount(duration)
    ensures Contiguous(extracted, 0.0)
    ensures forall i :: 0 <= i < |extracted| ==>
      && extracted[i].pitch == RandomPitch(draw(3 * i))
      && extracted[i].duration == RandomDuration(draw(3 * i + 1))
      && extracted[i].velocity == RandomVelocity(draw(3 * i + 2))
  {
    var noteCount := SimulatedNoteCount(duration);
    extracted := [];
    var currentTime := 0.0;
    var i := 0;
    while i < noteCount
      invariant 0 <= i <= noteCount && |extracted| == i
      invariant Contiguous(extracted, 0.0)
      invariant currentTime == if i == 0 then 0.0 else EndTime(extracted[i - 1])
      invariant forall j :: 0 <= j < i ==>
        && extracted[j].pitch == RandomPitch(draw(3 * j))
        && extracted[j].duration == RandomDuration(draw(3 * j + 1))
        && extracted[j].velocity == RandomVelocity(draw(3 * j + 2))
    {
      var pitch := CMajorScale[DrawIndex(draw(3 * i), |CMajorScale|)];
      var noteDuration := if draw(3 * i + 1) < 0.3 then 1.0 else 0.5;
      extracted := extracted + [Note(pitch, currentTime, noteDuration, 70.0 + draw(3 * i + 2) * 30.0)];
      currentTime := currentTime + noteDuration;
      i := i + 1;
    }
  }

  /** A simulated melody of `n` notes ends between `n / 2` and `n` units after 0. */
  lemma SimulatedMelodyLength(extracted: seq<Note>, duration: real, draw: nat -> Draw)
    requires |extracted| == SimulatedNoteCount(duration)
    requires Contiguous(extracted, 0.0)
    requires forall i :: 0 <= i < |extracted| ==> extracted[i].duration == RandomDuration(draw(3 * i + 1))
    ensures (|extracted| as real) * 0.5 <= EndTime(extracted[|extracted| - 1]) <= |extracted| as real
  {
    ContiguousEndBounds(extracted, 0.0, 0.5, 1.0, |extracted| - 1);
  }
}
