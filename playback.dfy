/** The page state of the browser script and its handlers: the current melody and
    program text, the `isPlaying` flag, and the list of scheduled synthesizer parts
    that stopping disposes. The pattern engine and the synthesizer are foreign:
    each call into them is an outcome passed in by the caller. */
module Playback {
  import opened Notes
  import Pattern
  import Arrangement
  import Generators

  /** The events one synthesizer part plays. */
  datatype Track =
    | MelodyTrack(notes: seq<Arrangement.MelodyEvent>)
    | ChordTrack(chords: seq<Arrangement.ChordEvent>)
    | BassTrack(bass: seq<Arrangement.BassEvent>)
    | DrumTrack(drums: seq<Arrangement.DrumEvent>)

  /** One scheduled synthesizer part; disposing it cancels its events. */
  class Part {
    const track: Track
    var disposed: bool

    constructor (track: Track)
      ensures this.track == track && !disposed
    {
      this.track := track;
      disposed := false;
    }

    method Dispose()
      modifies this
      ensures disposed
    {
      disposed := true;
    }
  }

  /** The four parts of a fallback playback, in the order they are started. */
  predicate PartsPlay(parts: seq<Part>, arr: Arrangement.Arrangement)
  {
    && |parts| == 4
    && parts[0].track == MelodyTrack(arr.melody)
    && parts[1].track == ChordTrack(arr.chords)
    && parts[2].track == BassTrack(arr.bass)
    && parts[3].track == DrumTrack(arr.drums)
  }

  /** One fresh, live part per track of an arrangement. */
  method NewParts(arr: Arrangement.Arrangement) returns (parts: seq<Part>)
    ensures PartsPlay(parts, arr)
    ensures forall i :: 0 <= i < |parts| ==> fresh(parts[i]) && !parts[i].disposed
  {
    var melodyPart := new Part(MelodyTrack(arr.melody));
    var chordPart := new Part(ChordTrack(arr.chords));
    var bassPart := new Part(BassTrack(arr.bass));
    var drumPart := new Part(DrumTrack(arr.drums));
    parts := [melodyPart, chordPart, bassPart, drumPart];
  }

  /** How the attempt to play through the pattern engine ends: it evaluated the
      program, the loaded module offered no evaluation entry point, or loading or
      evaluating threw. */
  datatype EngineOutcome = Evaluated | NoEntryPoint | Threw

  class Player {
    var currentMelody: seq<Note>
    var currentCode: string
    var isPlaying: bool
    var activeParts: seq<Part>
    /** The synthesizer transport is running. */
    var transportRunning: bool
    /** The pattern engine has been handed the current program. */
    var engineRunning: bool
    /** `typeof Tone !== 'undefined'`: the synthesizer library is on the page. */
    const toneLoaded: bool

    /** Every active part is live, and the parts come as one whole arrangement or not at all. */
    predicate Valid()
      reads this, activeParts
    {
      && (|activeParts| == 0 || |activeParts| == 4)
      && (forall i :: 0 <= i < |activeParts| ==> !activeParts[i].disposed)
    }

    constructor (toneLoaded: bool)
      ensures this.toneLoaded == toneLoaded
      ensures currentMelody == [] && currentCode == "" && !isPlaying
      ensures activeParts == [] && !transportRunning && !engineRunning
      ensures Valid()
    {
      this.toneLoaded := toneLoaded;
      currentMelody := [];
      currentCode := "";
      isPlaying := false;
      activeParts := [];
      transportRunning := false;
      engineRunning := false;
    }

    /** `clearToneParts`: dispose every active part, then forget them all. */
    method ClearToneParts()
      modifies this, set p | p in activeParts
      ensures activeParts == []
      ensures forall p :: p in old(activeParts) ==> p.disposed
      ensures currentMelody == old(currentMelody) && currentCode == old(currentCode)
      ensures isPlaying == old(isPlaying) && transportRunning == old(transportRunning)
      ensures engineRunning == old(engineRunning)
      ensures Valid()
    {
      var i := 0;
      while i < |activeParts|
        invariant 0 <= i <= |activeParts|
        invariant activeParts == old(activeParts)
        invariant forall j :: 0 <= j < i ==> activeParts[j].disposed
        invariant currentMelody == old(currentMelody) && currentCode == old(currentCode)
        invariant isPlaying == old(isPlaying) && transportRunning == old(transportRunning)
        invariant engineRunning == old(engineRunning)
      {
        activeParts[i].Dispose();
        i := i + 1;
      }
      activeParts := [];
    }

    /** `playWithStrudel`: success only when the engine evaluated the program. */
    method PlayWithStrudel(outcome: EngineOutcome) returns (ok: bool)
      modifies this
      ensures ok <==> outcome == Evaluated
      ensures isPlaying == (old(isPlaying) || ok)
      ensures engineRunning == (old(engineRunning) || ok)
      ensures currentMelody == old(currentMelody) && currentCode == old(currentCode)
      ensures activeParts == old(activeParts) && transportRunning == old(transportRunning)
    {
      match outcome
      case Evaluated =>
        engineRunning := true;
        isPlaying := true;
        ok := true;
      case NoEntryPoint =>
        ok := false;
      case Threw =>
        ok := false;
    }

    /** `playWithTone`: with a melody and the synthesizer present, replace the active
        parts by the four tracks of the arrangement and start the transport. */
    method PlayWithTone(draw: nat -> Draw)
      requires Valid()
      modifies this, set p | p in activeParts
      ensures Valid()
      ensures currentMelody == old(currentMelody) && currentCode == old(currentCode)
      ensures engineRunning == old(engineRunning)
      ensures currentMelody == [] || !toneLoaded ==>
        && activeParts == old(activeParts) && isPlaying == old(isPlaying)
        && transportRunning == old(transportRunning)
      ensures currentMelody != [] && toneLoaded ==>
        && (forall p :: p in old(activeParts) ==> p.disposed)
        && (forall i :: 0 <= i < |activeParts| ==> fresh(activeParts[i]))
        && (exists arr :: PartsPlay(activeParts, arr) && Arrangement.Scheduled(arr, currentMelody, draw))
        && transportRunning && isPlaying
    {
      if currentMelody == [] {
        return;
      }
      if !toneLoaded {
        return;
      }
      ClearToneParts();
      var arr := Arrangement.BuildArrangement(currentMelody, draw);
      activeParts := NewParts(arr);
      transportRunning := true;
      isPlaying := true;
    }

    /** `handlePlay`: nothing happens without a program or while already playing;
        otherwise the pattern engine is tried first and the synthesizer is the fallback. */
    method HandlePlay(outcome: EngineOutcome, draw: nat -> Draw)
      requires Valid()
      modifies this, set p | p in activeParts
      ensures Valid()
      ensures currentMelody == old(currentMelody) && currentCode == old(currentCode)
      ensures old(currentCode) == "" || old(isPlaying) ==>
        && isPlaying == old(isPlaying) && activeParts == old(activeParts)
        && transportRunning == old(transportRunning) && engineRunning == old(engineRunning)
      ensures old(currentCode) != "" && !old(isPlaying) && outcome == Evaluated ==>
        && isPlaying && engineRunning
        && activeParts == old(activeParts) && transportRunning == old(transportRunning)
      ensures old(currentCode) != "" && !old(isPlaying) && outcome != Evaluated ==>
        && engineRunning == old(engineRunning)
        && (isPlaying <==> currentMelody != [] && toneLoaded)
        && (currentMelody == [] || !toneLoaded ==>
              activeParts == old(activeParts) && transportRunning == old(transportRunning))
        && (currentMelody != [] && toneLoaded ==>
              && (forall p :: p in old(activeParts) ==> p.disposed)
              && (forall i :: 0 <= i < |activeParts| ==> fresh(activeParts[i]))
              && (exists arr :: PartsPlay(activeParts, arr) && Arrangement.Scheduled(arr, currentMelody, draw))
              && transportRunning)
    {
      if currentCode == "" {
        return;
      }
      if isPlaying {
        return;
      }
      var ok := PlayWithStrudel(outcome);
      if !ok {
        PlayWithTone(draw);
      }
    }

    /** `handleStop`: the flag always ends false. The parts are disposed and the
        transport stopped only when the synthesizer is present and stopping its
        transport does not throw; a throw is swallowed. The pattern engine is not
        stopped, because the handle the stop hook checks is never assigned. */
    method HandleStop(transportStopThrows: bool)
      requires Valid()
      modifies this, set p | p in activeParts
      ensures Valid()
      ensures !isPlaying
      ensures currentMelody == old(currentMelody) && currentCode == old(currentCode)
      ensures engineRunning == old(engineRunning)
      ensures toneLoaded && !transportStopThrows ==>
        && activeParts == [] && !transportRunning
        && (forall p :: p in old(activeParts) ==> p.disposed)
      ensures !toneLoaded || transportStopThrows ==>
        activeParts == old(activeParts) && transportRunning == old(transportRunning)
    {
      if toneLoaded && !transportStopThrows {
        transportRunning := false;
        ClearToneParts();
      }
      isPlaying := false;
    }

    /** The stop the page evidently intends: as `HandleStop`, and the pattern engine
        is stopped as well, so that nothing plays once stop has been pressed. */
    method HandleStopIntended(transportStopThrows: bool)
      requires Valid()
      modifies this, set p | p in activeParts
      ensures Valid()
      ensures !isPlaying && !engineRunning
      ensures currentMelody == old(currentMelody) && currentCode == old(currentCode)
      ensures toneLoaded && !transportStopThrows ==>
        && activeParts == [] && !transportRunning
        && (forall p :: p in old(activeParts) ==> p.disposed)
      ensures !toneLoaded || transportStopThrows ==>
        activeParts == old(activeParts) && transportRunning == old(transportRunning)
    {
      engineRunning := false;
      if toneLoaded && !transportStopThrows {
        transportRunning := false;
        ClearToneParts();
      }
      isPlaying := false;
    }

    /** The load-example button: the happy example becomes the current melody. */
    method LoadExample()
      modifies this
      ensures currentMelody == Generators.HappyMelody
      ensures currentCode == old(currentCode) && isPlaying == old(isPlaying)
      ensures activeParts == old(activeParts) && transportRunning == old(transportRunning)
      ensures engineRunning == old(engineRunning)
    {
      currentMelody := Generators.HappyMelody;
    }

    /** The random-melody button. */
    method GenerateRandom(draw: nat -> Draw)
      modifies this
      ensures |currentMelody| == 8 && Contiguous(currentMelody, 0.0)
      ensures forall i :: 0 <= i < |currentMelody| ==>
        currentMelody[i].pitch == Generators.RandomPitch(draw(2 * i))
        && currentMelody[i].duration == Generators.RandomDuration(draw(2 * i + 1))
        && currentMelody[i].velocity == 80.0
      ensures currentCode == old(currentCode) && isPlaying == old(isPlaying)
      ensures activeParts == old(activeParts) && transportRunning == old(transportRunning)
      ensures engineRunning == old(engineRunning)
    {
      currentMelody := Generators.GenerateRandomMelody(draw);
    }

    /** The simulated extraction that replaces the melody after a failed upload. */
    method ExtractSimulation(duration: real, draw: nat -> Draw)
      modifies this
      ensures |currentMelody| == Generators.SimulatedNoteCount(duration)
      ensures Contiguous(currentMelody, 0.0)
      ensures forall i :: 0 <= i < |currentMelody| ==>
        currentMelody[i].pitch == Generators.RandomPitch(draw(3 * i))
        && currentMelody[i].duration == Generators.RandomDuration(draw(3 * i + 1))
        && currentMelody[i].velocity == Generators.RandomVelocity(draw(3 * i + 2))
      ensures currentCode == old(currentCode) && isPlaying == old(isPlaying)
      ensures activeParts == old(activeParts) && transportRunning == old(transportRunning)
      ensures engineRunning == old(engineRunning)
    {
      currentMelody := Generators.ExtractMelodySimulation(duration, draw);
    }

    /** The convert button: the program text for the current melody, which is never
        empty, so a later play request always gets past the missing-program guard. */
    method Convert()
      modifies this
      ensures currentCode == Pattern.MelodyToStrudelPattern(currentMelody, 120.0, "piano") + " + " + Pattern.DefaultChordPattern
      ensures currentCode != ""
      ensures currentMelody == old(currentMelody) && isPlaying == old(isPlaying)
      ensures activeParts == old(activeParts) && transportRunning == old(transportRunning)
      ensures engineRunning == old(engineRunning)
    {
      currentCode := Pattern.ConvertProgram(currentMelody);
    }
  }

  /** As written, the pattern engine outlives stop: load the example, convert it, play
      it through the engine, press stop, and the page reports idle while the engine
      still holds the program. */
  method EngineOutlivesStop(draw: nat -> Draw) returns (player: Player)
    ensures !player.isPlaying && player.engineRunning
  {
    player := new Player(true);
    player.LoadExample();
    player.Convert();
    player.HandlePlay(Evaluated, draw);
    player.HandleStop(false);
  }

  /** With the intended stop, the same steps leave nothing playing. */
  method IntendedStopSilences(draw: nat -> Draw) returns (player: Player)
    ensures !player.isPlaying && !player.engineRunning && !player.transportRunning
    ensures player.activeParts == []
  {
    player := new Player(true);
    player.LoadExample();
    player.Convert();
    player.HandlePlay(Evaluated, draw);
    player.HandleStopIntended(false);
  }
}
