/** The scheduling rules of the synthesizer fallback: from the current melody the
    player derives an arrangement length, a chord track and a bass track stepping
    every 2 time units through a fixed four-chord cycle, and a drum track on a
    0.25-unit grid whose hits come from a style chosen by the length. The
    synthesizer objects themselves are not part of this model; what is kept is
    the event lists the loops push. */
module Arrangement {
  import opened Notes

  // ---------------------------------------------------------------------------
  // Length and step counting

  /** `melody.reduce((max, note) => Math.max(max, note.start_time + note.duration), 0)`,
      folded from the left. */
  function ReduceMaxEnd(melody: seq<Note>): (m: real)
    ensures m >= 0.0
    ensures forall i :: 0 <= i < |melody| ==> EndTime(melody[i]) <= m
    ensures m == 0.0 || exists i :: 0 <= i < |melody| && EndTime(melody[i]) == m
  {
    if |melody| == 0 then 0.0
    else
      var init := melody[..|melody| - 1];
      assert forall i :: 0 <= i < |init| ==> init[i] == melody[i];
      Max(ReduceMaxEnd(init), EndTime(melody[|melody| - 1]))
  }

  /** `Math.max(16, ...)`: the arrangement is never shorter than 16 units. */
  function MelodyDuration(melody: seq<Note>): (d: real)
    ensures d >= 16.0
    ensures forall i :: 0 <= i < |melody| ==> EndTime(melody[i]) <= d
    ensures d == 16.0 || exists i :: 0 <= i < |melody| && EndTime(melody[i]) == d
  {
    Max(16.0, ReduceMaxEnd(melody))
  }

  /** Number of iterations of `for (i = 0; i < limit; i += width)`. */
  function StepsBelow(limit: real, width: real): nat
    requires width > 0.0
  {
    if limit <= 0.0 then 0 else -((-(limit / width)).Floor)
  }

  /** Step `k` of the loop runs exactly when `k * width` is still below the limit. */
  lemma StepsBelowExactly(limit: real, width: real, k: nat)
    requires width > 0.0
    ensures k < StepsBelow(limit, width) <==> (k as real) * width < limit
  {
    if limit > 0.0 {
      var x := limit / width;
      CeilingStep(x, k);
      ScaleLess(k as real, x, width);
      DivTimes(limit, width);
    } else {
      ScaleLess(0.0, k as real, width);
    }
  }

  /** Below the ceiling of a positive `x` are exactly the naturals below `x`. */
  lemma CeilingStep(x: real, k: nat)
    requires x > 0.0
    ensures k < -((-x).Floor) <==> (k as real) < x
  {
  }

  lemma DivTimes(a: real, w: real)
    requires w > 0.0
    ensures (a / w) * w == a
  {
  }

  /** Multiplying by a positive width keeps strict order both ways. */
  lemma ScaleLess(a: real, b: real, w: real)
    requires w > 0.0
    ensures a < b <==> a * w < b * w
  {
    if a < b {
      assert (b - a) * w > 0.0;
    } else {
      assert (a - b) * w >= 0.0;
    }
  }

  /** A loop that stopped after `n` steps of `width` below `limit` ran exactly `StepsBelow` times. */
  lemma StepsBelowOfExit(limit: real, width: real, n: nat)
    requires width > 0.0
    requires (n as real) * width >= limit
    requires n == 0 || ((n - 1) as real) * width < limit
    ensures StepsBelow(limit, width) == n
  {
    StepsBelowExactly(limit, width, n);
    if n > 0 {
      StepsBelowExactly(limit, width, n - 1);
    }
  }

  // ---------------------------------------------------------------------------
  // Chord and bass tracks

  /** The four-chord cycle shared by the chord and bass tracks. */
  const ChordSequence: seq<string> := ["C", "G", "Am", "F"]

  /** `chordLibrary[name]`: triad, seventh and suspended voicing of each chord. */
  function Voicings(name: string): seq<seq<string>>
  {
    if name == "C" then
      [["C3", "E3", "G3", "C4"], ["C3", "E3", "G3", "B3"], ["C3", "F3", "G3", "C4"]]
    else if name == "G" then
      [["G2", "B2", "D3", "G3"], ["G2", "B2", "D3", "F#3"], ["G2", "C3", "D3", "G3"]]
    else if name == "Am" then
      [["A2", "C3", "E3", "A3"], ["A2", "C3", "E3", "G3"], ["A2", "D3", "E3", "A3"]]
    else if name == "F" then
      [["F2", "A2", "C3", "F3"], ["F2", "A2", "C3", "E3"], ["F2", "Bb2", "C3", "F3"]]
    else []
  }

  /** The bass root of each step of the cycle. */
  const BassRoots: seq<string> := ["C2", "G2", "A2", "F2"]

  datatype ChordEvent = ChordEvent(time: real, chord: seq<string>)
  datatype BassEvent = BassEvent(time: real, note: string, dur: real)

  /** The chord name of step `k`: `chordSequence[Math.floor(i / 2) % 4]` at `i = 2k`. */
  function ChordName(k: nat): string
  {
    ChordSequence[k % 4]
  }

  lemma VoicingsOfCycle(k: nat)
    ensures |Voicings(ChordName(k))| == 3
  {
  }

  /** The voicing step `k` plays, chosen by the k-th draw. */
  function ChosenVoicing(k: nat, r: Draw): (v: seq<string>)
    ensures v in Voicings(ChordName(k))
  {
    VoicingsOfCycle(k);
    Voicings(ChordName(k))[DrawIndex(r, |Voicings(ChordName(k))|)]
  }

  /** The chord loop: one event every 2 units from 0 while below `melodyDuration`,
      cycling C, G, Am, F, each with a voicing picked by a draw. */
  method BuildChordTrack(melodyDuration: real, draw: nat -> Draw) returns (progression: seq<ChordEvent>)
    ensures |progression| == StepsBelow(melodyDuration, 2.0)
    ensures forall k :: 0 <= k < |progression| ==>
      && progression[k].time == 2.0 * (k as real)
      && progression[k].time < melodyDuration
      && progression[k].chord == ChosenVoicing(k, draw(k))
    ensures forall k :: 0 <= k < |progression| ==> progression[k].chord in Voicings(ChordName(k))
  {
    progression := [];
    var i := 0.0;
    while i < melodyDuration
      invariant i == 2.0 * (|progression| as real)
      invariant |progression| == 0 || 2.0 * ((|progression| - 1) as real) < melodyDuration
      invariant |progression| <= StepsBelow(melodyDuration, 2.0)
      invariant forall k :: 0 <= k < |progression| ==>
        && progression[k].time == 2.0 * (k as real)
        && progression[k].time < melodyDuration
        && progression[k].chord == ChosenVoicing(k, draw(k))
      decreases StepsBelow(melodyDuration, 2.0) - |progression|
    {
      StepsBelowExactly(melodyDuration, 2.0, |progression|);
      var chordIndex := |progression| % 4;
      var chordName := ChordSequence[chordIndex];
      var chordVariations := Voicings(chordName);
      VoicingsOfCycle(|progression|);
      var selectedChord := chordVariations[DrawIndex(draw(|progression|), |chordVariations|)];
      progression := progression + [ChordEvent(i, selectedChord)];
      i := i + 2.0;
    }
    StepsBelowOfExit(melodyDuration, 2.0, |progression|);
  }

  /** The bass loop: the same 2-unit steps, the root of the same cycle position, each 2 units long. */
  method BuildBassTrack(melodyDuration: real) returns (bassNotes: seq<BassEvent>)
    ensures |bassNotes| == StepsBelow(melodyDuration, 2.0)
    ensures forall k :: 0 <= k < |bassNotes| ==>
      bassNotes[k] == BassEvent(2.0 * (k as real), BassRoots[k % 4], 2.0) && bassNotes[k].time < melodyDuration
  {
    bassNotes := [];
    var i := 0.0;
    while i < melodyDuration
      invariant i == 2.0 * (|bassNotes| as real)
      invariant |bassNotes| == 0 || 2.0 * ((|bassNotes| - 1) as real) < melodyDuration
      invariant |bassNotes| <= StepsBelow(melodyDuration, 2.0)
      invariant forall k :: 0 <= k < |bassNotes| ==>
        bassNotes[k] == BassEvent(2.0 * (k as real), BassRoots[k % 4], 2.0) && bassNotes[k].time < melodyDuration
      decreases StepsBelow(melodyDuration, 2.0) - |bassNotes|
    {
      StepsBelowExactly(melodyDuration, 2.0, |bassNotes|);
      var bassIndex := |bassNotes| % 4;
      bassNotes := bassNotes + [BassEvent(i, BassRoots[bassIndex], 2.0)];
      i := i + 2.0;
    }
    StepsBelowOfExit(melodyDuration, 2.0, |bassNotes|);
  }

  /** Chord and bass stay on the same harmonic step: at every step each voicing of
      the chord has four notes and its lowest note has the bass root's letter. */
  lemma BassFollowsChord(k: nat, v: nat)
    requires v < |Voicings(ChordName(k))|
    ensures |Voicings(ChordName(k))[v]| == 4
    ensures Voicings(ChordName(k))[v][0][0] == BassRoots[k % 4][0]
  {
  }

  // ---------------------------------------------------------------------------
  // Drum track

  datatype DrumKind = Kick | Snare | Hihat
  datatype DrumStyle = Basic | Complex | Minimal
  datatype DrumEvent = DrumEvent(time: real, kind: DrumKind)

  /** `melodyDuration > 20 ? 'complex' : melodyDuration > 10 ? 'basic' : 'minimal'`. */
  function SelectStyle(melodyDuration: real): (style: DrumStyle)
    ensures style == Complex <==> melodyDuration > 20.0
    ensures style == Minimal <==> melodyDuration <= 10.0
  {
    if melodyDuration > 20.0 then Complex
    else if melodyDuration > 10.0 then Basic
    else Minimal
  }

  /** Since every arrangement lasts at least 16 units, the minimal style is never used:
      melodies ending by 20 get the basic style, longer ones the complex style. */
  lemma MinimalStyleUnreachable(melody: seq<Note>)
    ensures SelectStyle(MelodyDuration(melody)) != Minimal
    ensures SelectStyle(MelodyDuration(melody)) == Basic <==>
      forall i :: 0 <= i < |melody| ==> EndTime(melody[i]) <= 20.0
  {
    var d := MelodyDuration(melody);
    if d > 20.0 && d != 16.0 {
      var i :| 0 <= i < |melody| && EndTime(melody[i]) == d;
    }
  }

  /** The time of grid tick `t`: the drum loop advances by 0.25, so tick `t` is at `t / 4`. */
  function TickTime(t: nat): real
  {
    (t as real) / 4.0
  }

  /** JavaScript's `i % 8` for a non-negative time. */
  function Mod8(i: real): (beat: real)
    requires i >= 0.0
    ensures 0.0 <= beat < 8.0
  {
    i - 8.0 * ((i / 8.0).Floor as real)
  }

  /** On the grid, `i % 8` is the tick's position within a 32-tick measure, in quarters. */
  lemma Mod8OfTick(t: nat)
    ensures Mod8(TickTime(t)) == ((t % 32) as real) / 4.0
  {
    var q := t / 32;
    var r := t % 32;
    assert t == 32 * q + r;
    assert TickTime(t) / 8.0 == (q as real) + (r as real) / 32.0;
    assert (TickTime(t) / 8.0).Floor == q;
  }

  /** The beats within an 8-unit measure at which each drum of a style fires, written
      in quarter beats (beat 1.5 is 6): every listed beat is a multiple of 0.25. */
  function OffsetTicks(style: DrumStyle, kind: DrumKind): set<nat>
  {
    match style
    case Basic => (
      match kind
      case Kick => {0, 8, 16, 24}
      case Snare => {4, 12, 20, 28}
      case Hihat => {0, 2, 4, 6, 8, 10, 12, 14, 16, 18, 20, 22, 24, 26, 28, 30})
    case Complex => (
      match kind
      case Kick => {0, 6, 8, 14, 16, 22, 24, 30}
      case Snare => {4, 12, 20, 28}
      case Hihat => {0, 1, 2, 3, 4, 5, 6, 7, 8, 9, 10, 11, 12, 13, 14, 15,
                     16, 17, 18, 19, 20, 21, 22, 23, 24, 25, 26, 27, 28, 29, 30, 31})
    case Minimal => (
      match kind
      case Kick => {0, 16}
      case Snare => {8, 24}
      case Hihat => {0, 4, 8, 12, 16, 20, 24, 28})
  }

  /** Whether a drum of a style fires at grid tick `t`, by the pattern of its offset
      table: beat `b` of the measure, in quarter beats, is `t % 32`. */
  predicate Fires(style: DrumStyle, kind: DrumKind, t: nat)
  {
    var b := t % 32;
    match style
    case Basic => (
      match kind
      case Kick => b % 8 == 0     // beats 0, 2, 4, 6
      case Snare => b % 8 == 4    // beats 1, 3, 5, 7
      case Hihat => b % 2 == 0)   // every half beat
    case Complex => (
      match kind
      case Kick => b % 8 == 0 || b % 8 == 6   // beats 0, 1.5, 2, 3.5, ...
      case Snare => b % 8 == 4                // beats 1, 3, 5, 7
      case Hihat => true)                     // every quarter beat
    case Minimal => (
      match kind
      case Kick => b % 16 == 0    // beats 0, 4
      case Snare => b % 16 == 8   // beats 2, 6
      case Hihat => b % 4 == 0)   // every beat
  }

  /** `drumStyles[style][kind].includes(i % 8)` at grid tick `t`: the patterns are
      exactly the offset tables. */
  lemma FiresListed(style: DrumStyle, kind: DrumKind, t: nat)
    ensures Fires(style, kind, t) <==> (t % 32) in OffsetTicks(style, kind)
  {
  }

  /** The push order of the drums within one tick. */
  function Rank(kind: DrumKind): nat
  {
    match kind
    case Kick => 0
    case Snare => 1
    case Hihat => 2
  }

  /** The drum hits pushed at tick `t`, kick before snare before hi-hat. */
  function HitsAt(style: DrumStyle, t: nat): seq<DrumEvent>
  {
    (if Fires(style, Kick, t) then [DrumEvent(TickTime(t), Kick)] else [])
    + (if Fires(style, Snare, t) then [DrumEvent(TickTime(t), Snare)] else [])
    + (if Fires(style, Hihat, t) then [DrumEvent(TickTime(t), Hihat)] else [])
  }

  /** At most one hit per drum, so at most three per tick. */
  lemma HitsAtBounded(style: DrumStyle, t: nat)
    ensures |HitsAt(style, t)| <= 3
  {
  }

  /** Every hit of a tick is at that tick's time and is of a drum listed for its beat. */
  lemma HitsAtSound(style: DrumStyle, t: nat)
    ensures forall h :: 0 <= h < |HitsAt(style, t)| ==>
      HitsAt(style, t)[h].time == TickTime(t) && Fires(style, HitsAt(style, t)[h].kind, t)
  {
  }

  /** Every drum listed for a tick's beat is hit at that tick. */
  lemma HitsAtComplete(style: DrumStyle, t: nat, kind: DrumKind)
    requires Fires(style, kind, t)
    ensures DrumEvent(TickTime(t), kind) in HitsAt(style, t)
  {
  }

  /** Within a tick, kick is pushed before snare, snare before hi-hat. */
  lemma HitsAtInPushOrder(style: DrumStyle, t: nat)
    ensures forall a, b :: 0 <= a < b < |HitsAt(style, t)| ==>
      Rank(HitsAt(style, t)[a].kind) < Rank(HitsAt(style, t)[b].kind)
  {
  }

  /** All drum events of the first `n` ticks, in push order. */
  function DrumTrack(style: DrumStyle, n: nat): seq<DrumEvent>
  {
    if n == 0 then [] else DrumTrack(style, n - 1) + HitsAt(style, n - 1)
  }

  /** The drum loop: every 0.25 units from 0 while below `melodyDuration`. */
  method BuildDrumTrack(melodyDuration: real) returns (drumPattern: seq<DrumEvent>)
    ensures drumPattern == DrumTrack(SelectStyle(melodyDuration), StepsBelow(melodyDuration, 0.25))
  {
    var style := SelectStyle(melodyDuration);
    drumPattern := [];
    var i := 0.0;
    var t: nat := 0;
    while i < melodyDuration
      invariant i == TickTime(t)
      invariant t == 0 || TickTime(t - 1) < melodyDuration
      invariant t <= StepsBelow(melodyDuration, 0.25)
      invariant drumPattern == DrumTrack(style, t)
      decreases StepsBelow(melodyDuration, 0.25) - t
    {
      TickStep(melodyDuration, t);
      drumPattern := PushHits(style, i, t, drumPattern);
      i := i + 0.25;
      t := t + 1;
    }
    TicksAtExit(melodyDuration, t);
  }

  /** Tick `t` is `t` steps of 0.25. */
  lemma TickTimeQuarters(t: nat)
    ensures TickTime(t) == (t as real) * 0.25
  {
  }

  /** A tick below the limit is one of the loop's steps, and the next tick is 0.25 later. */
  lemma TickStep(limit: real, t: nat)
    requires TickTime(t) < limit
    ensures t < StepsBelow(limit, 0.25)
    ensures TickTime(t + 1) == TickTime(t) + 0.25
  {
    TickTimeQuarters(t);
    StepsBelowExactly(limit, 0.25, t);
  }

  /** The drum loop leaves at the first tick that is not below the limit. */
  lemma TicksAtExit(limit: real, t: nat)
    requires TickTime(t) >= limit
    requires t == 0 || TickTime(t - 1) < limit
    ensures StepsBelow(limit, 0.25) == t
  {
    TickTimeQuarters(t);
    if t > 0 {
      TickTimeQuarters(t - 1);
    }
    StepsBelowOfExit(limit, 0.25, t);
  }

  /** One pass of the drum loop's body at grid tick `t` (time `i`): push the kick, the
      snare and the hi-hat when `i % 8` is listed for them. */
  method PushHits(style: DrumStyle, i: real, t: nat, pattern: seq<DrumEvent>) returns (pushed: seq<DrumEvent>)
    requires i == TickTime(t)
    ensures pushed == pattern + HitsAt(style, t)
    ensures pattern == DrumTrack(style, t) ==> pushed == DrumTrack(style, t + 1)
  {
    Mod8OfTick(t);
    FiresListed(style, Kick, t);
    FiresListed(style, Snare, t);
    FiresListed(style, Hihat, t);
    var beat := t % 32;  // `i % 8`, in quarter beats
    pushed := pattern;
    if beat in OffsetTicks(style, Kick) {
      pushed := pushed + [DrumEvent(i, Kick)];
    }
    if beat in OffsetTicks(style, Snare) {
      pushed := pushed + [DrumEvent(i, Snare)];
    }
    if beat in OffsetTicks(style, Hihat) {
      pushed := pushed + [DrumEvent(i, Hihat)];
    }
  }

  /** Every drum event lies on a grid tick below `n` whose beat is listed for that drum. */
  lemma DrumEventsOnGrid(style: DrumStyle, n: nat)
    ensures forall e :: e in DrumTrack(style, n) ==>
      exists t: nat :: t < n && e.time == TickTime(t) && Fires(style, e.kind, t)
  {
    forall e | e in DrumTrack(style, n)
      ensures exists t: nat :: t < n && e.time == TickTime(t) && Fires(style, e.kind, t)
    {
      var t := TickOfEvent(style, n, e);
      HitsAtSound(style, t);
      var h :| 0 <= h < |HitsAt(style, t)| && HitsAt(style, t)[h] == e;
    }
  }

  /** The tick whose hits an event of the track of the first `n` ticks belongs to. */
  lemma {:induction false} TickOfEvent(style: DrumStyle, n: nat, e: DrumEvent) returns (t: nat)
    requires e in DrumTrack(style, n)
    ensures t < n && e in HitsAt(style, t)
  {
    var prev, hits := DrumTrack(style, n - 1), HitsAt(style, n - 1);
    assert DrumTrack(style, n) == prev + hits;
    ConcatSplit(prev, hits, e);
    if e in prev {
      t := TickOfEvent(style, n - 1, e);
    } else {
      t := n - 1;
    }
  }

  /** An element of a concatenation is an element of one of its parts. */
  lemma ConcatSplit(a: seq<DrumEvent>, b: seq<DrumEvent>, e: DrumEvent)
    requires e in a + b
    ensures e in a || e in b
  {
    var k :| 0 <= k < |a + b| && (a + b)[k] == e;
    if k >= |a| {
      assert b[k - |a|] == e;
    }
  }

  /** Every tick below `n` whose beat is listed for a drum carries a hit of that drum. */
  lemma DrumHitsComplete(style: DrumStyle, n: nat, t: nat, kind: DrumKind)
    requires t < n
    requires Fires(style, kind, t)
    ensures DrumEvent(TickTime(t), kind) in DrumTrack(style, n)
  {
    HitsAtComplete(style, t, kind);
    var hits := HitsAt(style, t);
    var h :| 0 <= h < |hits| && hits[h] == DrumEvent(TickTime(t), kind);
    TrackHoldsTickHits(style, n, t, h);
  }

  /** The track of the first `n` ticks holds every hit of each of those ticks, after
      the hits of the ticks before it. */
  lemma TrackHoldsTickHits(style: DrumStyle, n: nat, t: nat, h: nat)
    requires t < n && h < |HitsAt(style, t)|
    ensures |DrumTrack(style, t)| + h < |DrumTrack(style, n)|
    ensures DrumTrack(style, n)[|DrumTrack(style, t)| + h] == HitsAt(style, t)[h]
  {
    TrackStep(style, t);
    TrackPrefix(style, t + 1, n);
    PrefixIndex(DrumTrack(style, t), HitsAt(style, t), DrumTrack(style, n), h);
  }

  /** One more tick appends that tick's hits. */
  lemma TrackStep(style: DrumStyle, t: nat)
    ensures DrumTrack(style, t + 1) == DrumTrack(style, t) + HitsAt(style, t)
  {
  }

  /** An element of `b` keeps its place, shifted by `|a|`, in anything `a + b` begins. */
  lemma PrefixIndex(a: seq<DrumEvent>, b: seq<DrumEvent>, c: seq<DrumEvent>, h: nat)
    requires a + b <= c && h < |b|
    ensures |a| + h < |c| && c[|a| + h] == b[h]
  {
    assert (a + b)[|a| + h] == b[h];
  }

  /** The loop only appends: the track of fewer ticks is a prefix of the track of more. */
  lemma {:induction false} TrackPrefix(style: DrumStyle, m: nat, n: nat)
    requires m <= n
    ensures DrumTrack(style, m) <= DrumTrack(style, n)
  {
    if m < n {
      TrackPrefix(style, m, n - 1);
      assert DrumTrack(style, n) == DrumTrack(style, n - 1) + HitsAt(style, n - 1);
    }
  }

  /** Event `a` comes strictly before event `b`: earlier, or at the same tick and pushed first. */
  predicate Before(a: DrumEvent, b: DrumEvent)
  {
    a.time < b.time || (a.time == b.time && Rank(a.kind) < Rank(b.kind))
  }

  lemma {:induction false} DrumTrackBelow(style: DrumStyle, n: nat)
    ensures forall h :: 0 <= h < |DrumTrack(style, n)| ==> DrumTrack(style, n)[h].time < TickTime(n)
  {
    if n > 0 {
      DrumTrackBelow(style, n - 1);
      HitsAtSound(style, n - 1);
      var prev := DrumTrack(style, n - 1);
      var hits := HitsAt(style, n - 1);
      var all := DrumTrack(style, n);
      assert all == prev + hits;
      assert TickTime(n - 1) < TickTime(n);
      forall h | 0 <= h < |all| ensures all[h].time < TickTime(n) {
        if h < |prev| {
          assert all[h] == prev[h];
        } else {
          assert all[h] == hits[h - |prev|];
        }
      }
    }
  }

  /** Drum events come out in ascending time, kick before snare before hi-hat within
      a tick, so no event is repeated. */
  lemma {:induction false} DrumTrackOrdered(style: DrumStyle, n: nat)
    ensures forall a, b :: 0 <= a < b < |DrumTrack(style, n)| ==> Before(DrumTrack(style, n)[a], DrumTrack(style, n)[b])
  {
    if n > 0 {
      DrumTrackOrdered(style, n - 1);
      DrumTrackBelow(style, n - 1);
      HitsAtSound(style, n - 1);
      HitsAtInPushOrder(style, n - 1);
      var prev := DrumTrack(style, n - 1);
      var hits := HitsAt(style, n - 1);
      var all := DrumTrack(style, n);
      assert all == prev + hits;
      forall a, b | 0 <= a < b < |all| ensures Before(all[a], all[b]) {
        if b < |prev| {
          assert all[a] == prev[a] && all[b] == prev[b];
        } else if a < |prev| {
          assert all[a] == prev[a] && all[b] == hits[b - |prev|];
        } else {
          assert all[a] == hits[a - |prev|] && all[b] == hits[b - |prev|];
        }
      }
    }
  }

  /** The basic style: kick on the even beats, snare on the odd beats, hi-hat every
      half beat, so the downbeat has kick and hi-hat and beat 1 has snare and hi-hat. */
  lemma BasicBeats()
    ensures HitsAt(Basic, 0) == [DrumEvent(0.0, Kick), DrumEvent(0.0, Hihat)]
    ensures HitsAt(Basic, 4) == [DrumEvent(1.0, Snare), DrumEvent(1.0, Hihat)]
    ensures HitsAt(Basic, 6) == [DrumEvent(1.5, Hihat)]
    ensures HitsAt(Basic, 1) == []
    ensures HitsAt(Basic, 32) == [DrumEvent(8.0, Kick), DrumEvent(8.0, Hihat)]
  {
  }

  // ---------------------------------------------------------------------------
  // The whole arrangement

  /** `{ time: n.start_time, note: <pitch>, dur: n.duration }` for each melody note. */
  datatype MelodyEvent = MelodyEvent(time: real, pitch: int, dur: real)

  datatype Arrangement = Arrangement(
    melody: seq<MelodyEvent>,
    chords: seq<ChordEvent>,
    bass: seq<BassEvent>,
    drums: seq<DrumEvent>)

  function MelodyEvents(melody: seq<Note>): (events: seq<MelodyEvent>)
    ensures |events| == |melody|
    ensures forall i :: 0 <= i < |melody| ==>
      events[i] == MelodyEvent(melody[i].startTime, melody[i].pitch, melody[i].duration)
  {
    seq(|melody|, i requires 0 <= i < |melody| => MelodyEvent(melody[i].startTime, melody[i].pitch, melody[i].duration))
  }

  /** What one fallback playback schedules for `melody`: the melody events, chord and
      bass steps every 2 units below the arrangement length (the chord voicing of step
      `k` chosen by draw `k`), and the drum track of the style the length selects. */
  predicate Scheduled(arr: Arrangement, melody: seq<Note>, draw: nat -> Draw)
  {
    && arr.melody == MelodyEvents(melody)
    && |arr.chords| == |arr.bass| == StepsBelow(MelodyDuration(melody), 2.0)
    && (forall k :: 0 <= k < |arr.chords| ==>
          && arr.chords[k] == ChordEvent(2.0 * (k as real), ChosenVoicing(k, draw(k)))
          && arr.bass[k] == BassEvent(2.0 * (k as real), BassRoots[k % 4], 2.0))
    && arr.drums == DrumTrack(SelectStyle(MelodyDuration(melody)), StepsBelow(MelodyDuration(melody), 0.25))
  }

  /** The four tracks of one fallback playback: the melody, then the chord, bass and drum loops. */
  method BuildArrangement(melody: seq<Note>, draw: nat -> Draw) returns (arr: Arrangement)
    ensures Scheduled(arr, melody, draw)
  {
    var melodyDuration := MelodyDuration(melody);
    var chords := BuildChordTrack(melodyDuration, draw);
    var bass := BuildBassTrack(melodyDuration);
    var drums := BuildDrumTrack(melodyDuration);
    arr := Arrangement(MelodyEvents(melody), chords, bass, drums);
  }

  /** In every scheduled arrangement the chord and bass tracks share their steps, every
      event lies below the arrangement length, and the drum events are in push order. */
  lemma ScheduledTracksAgree(arr: Arrangement, melody: seq<Note>, draw: nat -> Draw)
    requires Scheduled(arr, melody, draw)
    ensures forall k :: 0 <= k < |arr.chords| ==>
      arr.chords[k].time == arr.bass[k].time < MelodyDuration(melody)
    ensures forall k :: 0 <= k < |arr.chords| ==> arr.chords[k].chord in Voicings(ChordName(k))
    ensures forall h :: 0 <= h < |arr.drums| ==> arr.drums[h].time < MelodyDuration(melody)
    ensures forall a, b :: 0 <= a < b < |arr.drums| ==> Before(arr.drums[a], arr.drums[b])
  {
    var d := MelodyDuration(melody);
    forall k | 0 <= k < |arr.chords| ensures arr.chords[k].time < d {
      StepsBelowExactly(d, 2.0, k);
    }
    var style := SelectStyle(d);
    var n := StepsBelow(d, 0.25);
    DrumTrackOrdered(style, n);
    DrumTrackBelow(style, n);
    if n > 0 {
      StepsBelowExactly(d, 0.25, n - 1);
      assert TickTime(n - 1) < d;
      forall h | 0 <= h < |arr.drums| ensures arr.drums[h].time < d {
        DrumEventsOnGrid(style, n);
        assert arr.drums[h] in DrumTrack(style, n);
        var t: nat :| t < n && arr.drums[h].time == TickTime(t) && Fires(style, arr.drums[h].kind, t);
        assert TickTime(t) <= TickTime(n - 1);
      }
    }
  }
}
