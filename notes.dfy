/** The note record shared by the browser script and both back-ends:
    `{pitch, start_time, duration, velocity}`, with times in seconds. */
module Notes {

  /** One note event. Pitch is a MIDI number; times are exact reals. */
  datatype Note = Note(pitch: int, startTime: real, duration: real, velocity: real)

  /** One value of `Math.random()`: a real in [0, 1).
      Random sources are passed in as a stream `nat -> Draw`, the k-th call giving the k-th value. */
  type Draw = r: real | 0.0 <= r < 1.0

  /** `Math.floor(r * n)`: an index into a table of `n` entries chosen by a draw. */
  function DrawIndex(r: Draw, n: nat): (i: nat)
    requires n > 0
    ensures i < n
    ensures (i as real) <= r * (n as real) < (i as real) + 1.0
  {
    assert r * (n as real) < n as real;
    (r * (n as real)).Floor
  }

  /** The C-major scale used by every melody generator, C4 up to C5. */
  const CMajorScale: seq<int> := [60, 62, 64, 65, 67, 69, 71, 72]

  /** The larger of two reals: JavaScript's `Math.max` and Python's `max` on two numbers. */
  function Max(a: real, b: real): real
  {
    if a >= b then a else b
  }

  function EndTime(n: Note): real
  {
    n.startTime + n.duration
  }

  /** Notes laid end to end from time `t0`: each starts where the previous one ends. */
  predicate Contiguous(notes: seq<Note>, t0: real)
  {
    && (|notes| > 0 ==> notes[0].startTime == t0)
    && (forall i :: 0 < i < |notes| ==> notes[i].startTime == EndTime(notes[i - 1]))
  }

  /** In notes laid end to end with every duration in `[lo, hi]`, note `i` ends
      between `i + 1` shortest and `i + 1` longest durations after the start. */
  lemma {:induction false} ContiguousEndBounds(notes: seq<Note>, t0: real, lo: real, hi: real, i: nat)
    requires Contiguous(notes, t0)
    requires forall j :: 0 <= j < |notes| ==> lo <= notes[j].duration <= hi
    requires i < |notes|
    ensures t0 + ((i + 1) as real) * lo <= EndTime(notes[i]) <= t0 + ((i + 1) as real) * hi
  {
    if i > 0 {
      ContiguousEndBounds(notes, t0, lo, hi, i - 1);
    }
  }

  /** Python's `max(note.start_time + note.duration for note in notes)` over a non-empty list. */
  function MaxEndTime(notes: seq<Note>): (m: real)
    requires |notes| > 0
    ensures forall i :: 0 <= i < |notes| ==> EndTime(notes[i]) <= m
    ensures exists i :: 0 <= i < |notes| && EndTime(notes[i]) == m
  {
    if |notes| == 1 then EndTime(notes[0])
    else
      var rest := MaxEndTime(notes[1..]);
      assert forall i :: 1 <= i < |notes| ==> notes[i] == notes[1..][i - 1];
      if EndTime(notes[0]) >= rest then EndTime(notes[0]) else rest
  }
}
