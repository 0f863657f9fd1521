/** The note utilities of the lightweight back-end: the deterministic stand-in
    melody returned when no pitch tracker is available, and the one-pass merge
    that folds near-simultaneous notes of close pitch into a running note. */
module SimpleBackend {
  import opened Notes

  /** Python's `int(x)`: truncation toward zero. */
  function PyInt(x: real): (n: int)
    ensures x >= 0.0 ==> n == x.Floor
    ensures x < 0.0 ==> n == -((-x).Floor)
  {
    if x >= 0.0 then x.Floor else -((-x).Floor)
  }

  // ---------------------------------------------------------------------------
  // Simulated notes

  /** `max(4, int(duration * 2))`. */
  function SimulatedCount(duration: real): (count: nat)
    ensures count >= 4
    ensures duration * 2.0 < 5.0 ==> count == 4
    ensures duration * 2.0 >= 4.0 ==> (count as real) <= duration * 2.0 < (count as real) + 1.0
  {
    var k := PyInt(duration * 2.0);
    if k >= 4 then k else 4
  }

  /** Every third note, starting with the first, is a long one. */
  function SimulatedDuration(i: nat): real
  {
    if i % 3 != 0 then 0.5 else 1.0
  }

  /** `generate_simulated_notes`: the scale repeated, long notes on every third step,
      laid end to end from 0. */
  method GenerateSimulatedNotes(duration: real) returns (notes: seq<Note>)
    ensures |notes| == SimulatedCount(duration)
    ensures Contiguous(notes, 0.0)
    ensures forall i :: 0 <= i < |notes| ==>
      && notes[i].pitch == CMajorScale[i % 8]
      && notes[i].duration == SimulatedDuration(i)
      && notes[i].velocity == 80.0
  {
    notes := [];
    var currentTime := 0.0;
    var noteCount := SimulatedCount(duration);
    var i := 0;
    while i < noteCount
      invariant 0 <= i <= noteCount && |notes| == i
      invariant Contiguous(notes, 0.0)
      invariant currentTime == if i == 0 then 0.0 else EndTime(notes[i - 1])
      invariant forall j :: 0 <= j < i ==>
        && notes[j].pitch == CMajorScale[j % 8]
        && notes[j].duration == SimulatedDuration(j)
        && notes[j].velocity == 80.0
    {
      var pitch := CMajorScale[i % |CMajorScale|];
      var noteDuration := if i % 3 != 0 then 0.5 else 1.0;
      notes := notes + [Note(pitch, currentTime, noteDuration, 80.0)];
      currentTime := currentTime + noteDuration;
      i := i + 1;
    }
  }

  /** Closed form of the simulated schedule: note `i` starts after `i` half units plus
      one extra half unit for each long note before it, of which there are `(i + 2) / 3`. */
  lemma {:induction false} SimulatedStart(notes: seq<Note>, i: nat)
    requires Contiguous(notes, 0.0)
    requires forall j :: 0 <= j < |notes| ==> notes[j].duration == SimulatedDuration(j)
    requires i < |notes|
    ensures notes[i].startTime == 0.5 * (i as real) + 0.5 * (((i + 2) / 3) as real)
  {
    if i > 0 {
      SimulatedStart(notes, i - 1);
      assert notes[i].startTime == notes[i - 1].startTime + SimulatedDuration(i - 1);
      if (i - 1) % 3 == 0 {
        assert (i + 2) / 3 == (i + 1) / 3 + 1;
      } else {
        assert (i + 2) / 3 == (i + 1) / 3;
      }
    }
  }

  // ---------------------------------------------------------------------------
  // Merging similar notes

  function Abs(x: int): nat
  {
    if x < 0 then -x else x
  }

  /** `note` is folded into the running note `current`: it starts less than `threshold`
      after it and lies less than three semitones away. */
  function Mergeable(current: Note, note: Note, threshold: real): (fold: bool)
    ensures fold <==> note.startTime < current.startTime + threshold && -2 <= note.pitch - current.pitch <= 2
  {
    note.startTime - current.startTime < threshold && Abs(note.pitch - current.pitch) < 3
  }

  /** The running note after folding `note` in: it now lasts until `note` ends and
      takes the louder velocity; its start and pitch stay. */
  function Absorb(current: Note, note: Note): (merged: Note)
    ensures merged.pitch == current.pitch && merged.startTime == current.startTime
    ensures EndTime(merged) == EndTime(note)
    ensures merged.velocity >= current.velocity && merged.velocity >= note.velocity
    ensures merged.velocity == current.velocity || merged.velocity == note.velocity
  {
    current.(duration := note.startTime + note.duration - current.startTime,
             velocity := Max(current.velocity, note.velocity))
  }

  /** No note of `s` would be folded into the note before it. */
  predicate Settled(s: seq<Note>, threshold: real)
  {
    forall j :: 0 < j < |s| ==> !Mergeable(s[j - 1], s[j], threshold)
  }

  /** The merge from running note `current` over the remaining notes `rest`. */
  function MergeFrom(current: Note, rest: seq<Note>, threshold: real): (out: seq<Note>)
    ensures 1 <= |out| <= |rest| + 1
    ensures out[0].startTime == current.startTime && out[0].pitch == current.pitch
    ensures Settled(out, threshold)
    decreases |rest|
  {
    if |rest| == 0 then [current]
    else if Mergeable(current, rest[0], threshold) then MergeFrom(Absorb(current, rest[0]), rest[1..], threshold)
    else [current] + MergeFrom(rest[0], rest[1..], threshold)
  }

  /** What `merge_similar_notes` returns. */
  function Merged(notes: seq<Note>, threshold: real): (out: seq<Note>)
    ensures |out| <= |notes|
    ensures out == [] <==> notes == []
    ensures notes != [] ==> out[0].startTime == notes[0].startTime && out[0].pitch == notes[0].pitch
    ensures Settled(out, threshold)
  {
    if |notes| == 0 then [] else MergeFrom(notes[0], notes[1..], threshold)
  }

  /** `merge_similar_notes`: one pass with a running note, emitting it whenever the
      next note is too late or too far in pitch. */
  method MergeSimilarNotes(notes: seq<Note>, threshold: real) returns (merged: seq<Note>)
    ensures merged == Merged(notes, threshold)
  {
    if |notes| == 0 {
      return notes;
    }
    merged := [];
    var current := notes[0];
    var i := 1;
    while i < |notes|
      invariant 1 <= i <= |notes|
      invariant merged + MergeFrom(current, notes[i..], threshold) == Merged(notes, threshold)
    {
      var note := notes[i];
      MergeFromStep(current, notes[i..], threshold);
      assert notes[i..][1..] == notes[i + 1..];
      ghost var emitted := merged + ([current] + MergeFrom(note, notes[i + 1..], threshold));
      assert emitted == (merged + [current]) + MergeFrom(note, notes[i + 1..], threshold);
      if note.startTime - current.startTime < threshold {
        if Abs(note.pitch - current.pitch) < 3 {
          current := Absorb(current, note);
        } else {
          merged := merged + [current];
          current := note;
        }
      } else {
        merged := merged + [current];
        current := note;
      }
      i := i + 1;
    }
    assert notes[i..] == [];
    merged := merged + [current];
  }

  /** One step of the merge: the next note is folded in or starts a new running note. */
  lemma MergeFromStep(current: Note, rest: seq<Note>, threshold: real)
    requires |rest| > 0
    ensures Mergeable(current, rest[0], threshold) ==>
      MergeFrom(current, rest, threshold) == MergeFrom(Absorb(current, rest[0]), rest[1..], threshold)
    ensures !Mergeable(current, rest[0], threshold) ==>
      MergeFrom(current, rest, threshold) == [current] + MergeFrom(rest[0], rest[1..], threshold)
  {
  }

  /** The default threshold of `merge_similar_notes`. */
  const DefaultThreshold: real := 0.1

  /** `a` is `b` with some elements left out, order kept. */
  predicate IsSubsequence<T(==)>(a: seq<T>, b: seq<T>)
    decreases |b|
  {
    |a| == 0 || (|b| > 0 && (if a[0] == b[0] then IsSubsequence(a[1..], b[1..]) else IsSubsequence(a, b[1..])))
  }

  /** The start and pitch of a note, the part merging never changes. */
  function Onset(n: Note): (real, int)
  {
    (n.startTime, n.pitch)
  }

  function Onsets(s: seq<Note>): (r: seq<(real, int)>)
    ensures |r| == |s|
    ensures forall i :: 0 <= i < |s| ==> r[i] == Onset(s[i])
  {
    seq(|s|, i requires 0 <= i < |s| => Onset(s[i]))
  }

  lemma {:induction false} MergeFromOnsets(current: Note, rest: seq<Note>, threshold: real)
    ensures IsSubsequence(Onsets(MergeFrom(current, rest, threshold)), [Onset(current)] + Onsets(rest))
    decreases |rest|
  {
    var out := MergeFrom(current, rest, threshold);
    if |rest| == 0 {
      assert Onsets(out) == [Onset(current)] + Onsets(rest);
      SubsequenceCons(Onset(current), [], []);
    } else {
      OnsetsCons(rest[0], rest[1..]);
      assert [rest[0]] + rest[1..] == rest;
      if Mergeable(current, rest[0], threshold) {
        var absorbed := Absorb(current, rest[0]);
        MergeFromOnsets(absorbed, rest[1..], threshold);
        SubsequenceSkip([Onset(current)], Onset(rest[0]), Onsets(rest[1..]), Onsets(out));
      } else {
        var tail := MergeFrom(rest[0], rest[1..], threshold);
        MergeFromOnsets(rest[0], rest[1..], threshold);
        OnsetsCons(current, tail);
        SubsequenceCons(Onset(current), Onsets(tail), Onsets(rest));
      }
    }
  }

  lemma OnsetsCons(x: Note, s: seq<Note>)
    ensures Onsets([x] + s) == [Onset(x)] + Onsets(s)
  {
  }

  /** A common head keeps the subsequence relation. */
  lemma SubsequenceCons<T>(x: T, a: seq<T>, b: seq<T>)
    requires IsSubsequence(a, b)
    ensures IsSubsequence([x] + a, [x] + b)
  {
    assert ([x] + a)[1..] == a && ([x] + b)[1..] == b;
  }

  /** Dropping one element after a fixed head keeps a subsequence of `head + tail` one of
      `head + [x] + tail`. */
  lemma {:induction false} SubsequenceSkip<T>(head: seq<T>, x: T, tail: seq<T>, a: seq<T>)
    requires |head| == 1
    requires IsSubsequence(a, head + tail)
    ensures IsSubsequence(a, head + [x] + tail)
  {
    if |a| > 0 {
      var b := head + tail;
      var c := head + [x] + tail;
      assert c[0] == b[0];
      if a[0] == b[0] {
        assert b[1..] == tail;
        assert c[1..] == [x] + tail;
        SubsequenceExtend(a[1..], x, tail);
      } else {
        assert IsSubsequence(a, b[1..]);
        assert b[1..] == tail;
        SubsequenceExtend(a, x, tail);
        assert c[1..] == [x] + tail;
      }
    }
  }

  /** A subsequence of `tail` is one of `[x] + tail`. */
  lemma {:induction false} SubsequenceExtend<T>(a: seq<T>, x: T, tail: seq<T>)
    requires IsSubsequence(a, tail)
    ensures IsSubsequence(a, [x] + tail)
    decreases |tail|, 1
  {
    assert ([x] + tail)[1..] == tail;
    if |a| > 0 && a[0] == x {
      SubsequenceHead(a, tail);
    }
  }

  /** Without its first element, a non-empty subsequence of `b` is still one of `b`. */
  lemma {:induction false} SubsequenceHead<T>(a: seq<T>, b: seq<T>)
    requires |a| > 0 && IsSubsequence(a, b)
    ensures IsSubsequence(a[1..], b)
    decreases |b|, 0
  {
    assert [b[0]] + b[1..] == b;
    if a[0] != b[0] {
      SubsequenceHead(a, b[1..]);
    }
    SubsequenceExtend(a[1..], b[0], b[1..]);
  }

  /** The merged notes keep the start and pitch of some input notes, in input order:
      merging only drops notes and lengthens the ones it keeps. */
  lemma MergedOnsetsSubsequence(notes: seq<Note>, threshold: real)
    ensures IsSubsequence(Onsets(Merged(notes, threshold)), Onsets(notes))
  {
    if |notes| > 0 {
      MergeFromOnsets(notes[0], notes[1..], threshold);
      assert [Onset(notes[0])] + Onsets(notes[1..]) == Onsets(notes);
    }
  }

  /** A settled list passes through the merge unchanged. */
  lemma {:induction false} MergeFromSettled(current: Note, rest: seq<Note>, threshold: real)
    requires Settled([current] + rest, threshold)
    ensures MergeFrom(current, rest, threshold) == [current] + rest
    decreases |rest|
  {
    if |rest| > 0 {
      var s := [current] + rest;
      assert s[0] == current && s[1] == rest[0];
      assert !Mergeable(s[0], s[1], threshold);
      assert [rest[0]] + rest[1..] == rest;
      forall j | 0 < j < |rest| ensures !Mergeable(rest[j - 1], rest[j], threshold) {
        assert s[j] == rest[j - 1] && s[j + 1] == rest[j];
      }
      MergeFromSettled(rest[0], rest[1..], threshold);
    }
  }

  /** Merging twice is merging once. */
  lemma MergeIdempotent(notes: seq<Note>, threshold: real)
    ensures Merged(Merged(notes, threshold), threshold) == Merged(notes, threshold)
  {
    var once := Merged(notes, threshold);
    if |once| > 0 {
      assert [once[0]] + once[1..] == once;
      MergeFromSettled(once[0], once[1..], threshold);
    }
  }

  /** With the default threshold, a note 0.05 after a running note and two semitones
      away is folded in: the running note keeps its start and pitch, ends where the
      folded note ends and takes the louder velocity. */
  lemma MergeExample()
    ensures Merged([Note(60, 0.0, 0.5, 80.0), Note(62, 0.05, 0.5, 90.0)], DefaultThreshold)
      == [Note(60, 0.0, 0.55, 90.0)]
    ensures Merged([Note(60, 0.0, 0.5, 80.0), Note(63, 0.05, 0.5, 90.0)], DefaultThreshold)
      == [Note(60, 0.0, 0.5, 80.0), Note(63, 0.05, 0.5, 90.0)]
  {
  }
}
