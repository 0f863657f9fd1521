/** The post-processing of the transcribing back-end: the note events of the pitch
    tracker become note records, an empty result is reported as a failure, the
    records are sorted in place by start time, and the reply carries the latest
    end time as the total duration. The tracker itself is not modelled: its
    outcome is a parameter. */
module Backend {
  import opened Notes
  import opened Text
  import SimpleBackend

  /** One event of the pitch tracker: a MIDI pitch, start and end in seconds, and an
      amplitude in [0, 1]. */
  datatype NoteEvent = NoteEvent(pitch: int, startTime: real, endTime: real, amplitude: real)

  /** What `model.transcribe_file` gives back: no event list, a list, or an exception. */
  datatype Transcription = NoEvents | Events(events: seq<NoteEvent>) | Raised(message: string)

  /** The reply: `success`, `notes`, and `total_duration` when successful. */
  datatype Extraction = Extraction(success: bool, notes: seq<Note>, totalDuration: Option<real>)

  /** One note record: the duration is the event's length, the velocity its amplitude
      scaled to 0-127 and truncated. */
  function ToNote(e: NoteEvent): (n: Note)
    ensures n.pitch == e.pitch && n.startTime == e.startTime
    ensures EndTime(n) == e.endTime
  {
    Note(e.pitch, e.startTime, e.endTime - e.startTime, SimpleBackend.PyInt(e.amplitude * 127.0) as real)
  }

  /** The records built by the conversion loop, one per event, in event order. */
  function ToNotes(events: seq<NoteEvent>): (notes: seq<Note>)
    ensures |notes| == |events|
    ensures forall i :: 0 <= i < |events| ==> notes[i] == ToNote(events[i])
  {
    seq(|events|, i requires 0 <= i < |events| => ToNote(events[i]))
  }

  predicate SortedByStart(s: seq<Note>)
  {
    forall i, j :: 0 <= i < j < |s| ==> s[i].startTime <= s[j].startTime
  }

  /** `notes.sort(key=lambda x: x['start_time'])`, as an insertion sort in place. */
  method SortByStart(a: array<Note>)
    modifies a
    ensures SortedByStart(a[..])
    ensures multiset(a[..]) == multiset(old(a[..]))
  {
    if a.Length == 0 {
      return;
    }
    var i := 1;
    while i < a.Length
      invariant 1 <= i <= a.Length
      invariant SortedByStart(a[..i])
      invariant multiset(a[..]) == multiset(old(a[..]))
    {
      InsertAt(a, i);
      i := i + 1;
    }
    assert a[..i] == a[..];
  }

  /** Exchange two neighbouring records. */
  method SwapDown(a: array<Note>, j: nat)
    requires 0 < j < a.Length
    modifies a
    ensures a[..] == old(a[..])[j - 1 := old(a[j])][j := old(a[j - 1])]
    ensures multiset(a[..]) == multiset(old(a[..]))
  {
    a[j - 1], a[j] := a[j], a[j - 1];
  }

  /** One insertion step: move `a[i]` left past the larger start times before it. */
  method InsertAt(a: array<Note>, i: nat)
    requires 1 <= i < a.Length
    requires SortedByStart(a[..i])
    modifies a
    ensures SortedByStart(a[..i + 1])
    ensures multiset(a[..]) == multiset(old(a[..]))
  {
    var j := i;
    while j > 0 && a[j - 1].startTime > a[j].startTime
      invariant 0 <= j <= i
      invariant multiset(a[..]) == multiset(old(a[..]))
      invariant forall k, l :: 0 <= k < l <= i && l != j ==> a[k].startTime <= a[l].startTime
      invariant forall l :: j < l <= i ==> a[j].startTime <= a[l].startTime
    {
      SwapDown(a, j);
      j := j - 1;
    }
  }

  /** The failure reply: no notes and no total. */
  const NoMelody: Extraction := Extraction(false, [], None)

  /** `extract_melody_with_basicpitch` after the tracker has run. */
  method ExtractMelody(transcription: Transcription) returns (r: Extraction)
    ensures r.success <==> transcription.Events? && |transcription.events| > 0
    ensures !r.success ==> r == NoMelody
    ensures r.success ==>
      && SortedByStart(r.notes)
      && multiset(r.notes) == multiset(ToNotes(transcription.events))
      && r.totalDuration == Some(MaxEndTime(r.notes))
  {
    if transcription.Raised? || transcription.NoEvents? {
      return NoMelody;
    }
    var events := transcription.events;
    var notes: seq<Note> := [];
    var k := 0;
    while k < |events|
      invariant 0 <= k <= |events| && |notes| == k
      invariant forall m :: 0 <= m < k ==> notes[m] == ToNote(events[m])
    {
      notes := notes + [ToNote(events[k])];
      k := k + 1;
    }
    if |notes| == 0 {
      return NoMelody;
    }
    assert notes == ToNotes(events);
    var buffer := new Note[|notes|](i requires 0 <= i < |notes| => notes[i]);
    assert buffer[..] == notes;
    SortByStart(buffer);
    var sorted := buffer[..];
    r := Extraction(true, sorted, Some(MaxEndTime(sorted)));
  }

  /** The reported total is the latest end time of the tracker's events: it bounds
      every event's end and is one of them. */
  lemma TotalIsLatestEventEnd(events: seq<NoteEvent>, r: Extraction)
    requires |events| > 0 && r.success
    requires multiset(r.notes) == multiset(ToNotes(events))
    requires r.totalDuration == Some(MaxEndTime(r.notes))
    ensures forall e :: e in events ==> e.endTime <= r.totalDuration.value
    ensures exists e :: e in events && e.endTime == r.totalDuration.value
  {
    var converted := ToNotes(events);
    forall e | e in events ensures e.endTime <= r.totalDuration.value {
      var i :| 0 <= i < |events| && events[i] == e;
      assert converted[i] in multiset(converted);
      assert ToNote(e) in r.notes;
      var j :| 0 <= j < |r.notes| && r.notes[j] == ToNote(e);
    }
    var j :| 0 <= j < |r.notes| && EndTime(r.notes[j]) == MaxEndTime(r.notes);
    assert r.notes[j] in multiset(converted);
    var i :| 0 <= i < |converted| && converted[i] == r.notes[j];
    assert events[i] in events;
  }
}
