/** The pitch and duration encoder of the browser script: a MIDI number becomes
    a note name followed by its octave (`60` is `C4`), and a duration becomes
    one of eight modifier symbols chosen by ascending bands of its length in
    beats. `DecodeToken` reads a token back, which is how the encoding is
    shown to lose nothing but the position of a duration inside its band. */
module Encoder {
  import opened Text

  /** The twelve pitch-class names, sharps spelt with an `s`. */
  const NoteNames: seq<string> := ["C", "Cs", "D", "Ds", "E", "F", "Fs", "G", "Gs", "A", "As", "B"]

  /** What JavaScript renders for `undefined + octave`: the lookup at a negative index
      is `undefined`, and adding a number to it is numeric addition, giving `NaN`. */
  const NaN: string := "NaN"

  /** JavaScript's `m % 12`: truncating, so the remainder takes the sign of `m`. */
  function JsRem12(m: int): (r: int)
    ensures -12 < r < 12
    ensures m >= 0 ==> r == m % 12
    ensures m < 0 ==> r <= 0 && (m - r) % 12 == 0
  {
    if m >= 0 then m % 12 else -((-m) % 12)
  }

  /** `midiToNoteName`: the name at index `m % 12` followed by `floor(m / 12) - 1`.
      Dafny's `/` by a positive divisor already rounds down. A negative index finds
      no name, and the sum with the octave number is then `NaN`. */
  function MidiToNoteName(midi: int): (name: string)
    ensures |name| >= 2
  {
    var octave := midi / 12 - 1;
    var index := JsRem12(midi);
    if 0 <= index then NoteNames[index] + IntToString(octave) else NaN
  }

  /** Upper bounds of the first seven duration bands, in beats. */
  const Thresholds: seq<real> := [0.125, 0.25, 0.5, 0.75, 1.0, 1.5, 2.0]

  /** The eight duration modifiers, shortest band first: thirty-second, sixteenth,
      eighth (no modifier), dotted eighth, quarter, dotted quarter, half, whole. */
  const Symbols: seq<string> := ["!", ".", "", "t", "_", "t_", "__", "___"]

  /** `duration / (60 / bpm)`. For `bpm == 0` JavaScript divides by Infinity and gets 0,
      which this product also gives, so no precondition is needed. */
  function Ratio(duration: real, bpm: real): (beats: real)
    ensures bpm > 0.0 ==> beats * (60.0 / bpm) == duration
  {
    BeatsTimesBeatLength(duration, bpm);
    duration * bpm / 60.0
  }

  /** A duration measured in beats, times the length of a beat, is the duration again. */
  lemma BeatsTimesBeatLength(duration: real, bpm: real)
    ensures bpm > 0.0 ==> (duration * bpm / 60.0) * (60.0 / bpm) == duration
  {
    if bpm > 0.0 {
      assert (duration * bpm / 60.0) * (60.0 / bpm) == duration * (bpm / 60.0) * (60.0 / bpm);
      assert (bpm / 60.0) * (60.0 / bpm) == 1.0;
    }
  }

  /** The band a length in beats falls into: the first threshold it does not exceed. */
  function Band(ratio: real): (b: nat)
    ensures b < |Symbols|
    ensures b < |Thresholds| ==> ratio <= Thresholds[b]
    ensures b > 0 ==> Thresholds[b - 1] < ratio
  {
    if ratio <= 0.125 then 0
    else if ratio <= 0.25 then 1
    else if ratio <= 0.5 then 2
    else if ratio <= 0.75 then 3
    else if ratio <= 1.0 then 4
    else if ratio <= 1.5 then 5
    else if ratio <= 2.0 then 6
    else 7
  }

  /** `durationToSymbol`. */
  function DurationToSymbol(duration: real, bpm: real): (sym: string)
    ensures sym in Symbols
  {
    Symbols[Band(Ratio(duration, bpm))]
  }

  /** The bands partition the line: band `k` is exactly `(Thresholds[k-1], Thresholds[k]]`. */
  lemma BandExactly(ratio: real, k: nat)
    requires k < |Symbols|
    requires k < |Thresholds| ==> ratio <= Thresholds[k]
    requires k > 0 ==> Thresholds[k - 1] < ratio
    ensures Band(ratio) == k
  {
  }

  /** A ratio exactly on a threshold takes the shorter band. */
  lemma BoundaryTakesShorterBand(k: nat)
    requires k < |Thresholds|
    ensures Band(Thresholds[k]) == k
  {
    BandExactly(Thresholds[k], k);
  }

  /** At a fixed non-negative tempo a longer duration never gets a shorter band. */
  lemma DurationBandMonotone(d1: real, d2: real, bpm: real)
    requires d1 <= d2 && bpm >= 0.0
    ensures Band(Ratio(d1, bpm)) <= Band(Ratio(d2, bpm))
  {
    RatioMonotone(d1, d2, bpm);
    BandMonotone(Ratio(d1, bpm), Ratio(d2, bpm));
  }

  /** A longer length in beats never falls into a shorter band. */
  lemma BandMonotone(r1: real, r2: real)
    requires r1 <= r2
    ensures Band(r1) <= Band(r2)
  {
  }

  /** At a fixed non-negative tempo a longer duration is at least as many beats. */
  lemma RatioMonotone(d1: real, d2: real, bpm: real)
    requires d1 <= d2 && bpm >= 0.0
    ensures Ratio(d1, bpm) <= Ratio(d2, bpm)
  {
    MulNonNeg(d2 - d1, bpm);
    assert d2 * bpm - d1 * bpm == (d2 - d1) * bpm;
    assert d1 * bpm <= d2 * bpm;
    DivMonotone(d1 * bpm, d2 * bpm, 60.0);
  }

  lemma MulNonNeg(a: real, b: real)
    requires a >= 0.0 && b >= 0.0
    ensures a * b >= 0.0
  {
  }

  lemma DivMonotone(x: real, y: real, c: real)
    requires x <= y && c > 0.0
    ensures x / c <= y / c
  {
  }

  /** At 120 bpm a beat is half a second: a quarter-second note is an eighth (no
      modifier), half a second a quarter, a second a half note. */
  lemma DurationsAt120()
    ensures DurationToSymbol(0.25, 120.0) == ""
    ensures DurationToSymbol(0.5, 120.0) == "_"
    ensures DurationToSymbol(1.0, 120.0) == "__"
    ensures DurationToSymbol(2.0, 120.0) == "___"
    ensures DurationToSymbol(0.0625, 120.0) == "!"
  {
  }

  // ---------------------------------------------------------------------------
  // Reading a token back

  datatype TokenValue = TokenValue(pitch: int, band: nat)

  predicate IsOctaveStart(ch: char)
  {
    IsDigit(ch) || ch == '-'
  }

  /** Index of the first character that can begin an octave number. */
  function OctaveStart(s: string): (k: nat)
    ensures k <= |s|
    ensures forall i :: 0 <= i < k ==> !IsOctaveStart(s[i])
    ensures k < |s| ==> IsOctaveStart(s[k])
  {
    if |s| == 0 || IsOctaveStart(s[0]) then 0 else OctaveStart(s[1..]) + 1
  }

  /** Parses `<octave><modifier>`: an optional minus, a non-empty digit run, then a
      modifier from the table; gives the octave and the band. */
  function DecodeOctaveAndBand(rest: string): Option<(int, nat)>
  {
    var negative := |rest| > 0 && rest[0] == '-';
    var body := if negative then rest[1..] else rest;
    var k := DigitRun(body);
    if k == 0 then None
    else
      var magnitude: int := ParseNat(body[..k]);
      match IndexOf(Symbols, body[k..])
      case None => None
      case Some(b) => Some((if negative then -magnitude else magnitude, b))
  }

  /** The MIDI number of pitch class `index` in `octave` (octave -1 starts at 0). */
  function PitchOf(octave: int, index: int): int
  {
    (octave + 1) * 12 + index
  }

  /** Parses `<name><octave><modifier>` back into the MIDI number and the band. */
  function DecodeToken(tok: string): Option<TokenValue>
  {
    var n := OctaveStart(tok);
    match IndexOf(NoteNames, tok[..n])
    case None => None
    case Some(index) =>
      match DecodeOctaveAndBand(tok[n..])
      case None => None
      case Some(ob) => Some(TokenValue(PitchOf(ob.0, index), ob.1))
  }

  /** `DecodeToken` assembled from its two parts. */
  lemma DecodeTokenFromParts(tok: string, n: nat, index: nat, octave: int, b: nat)
    requires OctaveStart(tok) == n
    requires IndexOf(NoteNames, tok[..n]) == Some(index)
    requires DecodeOctaveAndBand(tok[n..]) == Some((octave, b))
    ensures DecodeToken(tok) == Some(TokenValue(PitchOf(octave, index), b))
  {
  }

  lemma NoteNamesDistinct()
    ensures forall i, j :: 0 <= i < j < |NoteNames| ==> NoteNames[i] != NoteNames[j]
  {
  }

  lemma SymbolsDistinct()
    ensures forall i, j :: 0 <= i < j < |Symbols| ==> Symbols[i] != Symbols[j]
  {
  }

  lemma IndexOfDistinct<T>(s: seq<T>, k: nat)
    requires k < |s|
    requires forall i, j :: 0 <= i < j < |s| ==> s[i] != s[j]
    ensures IndexOf(s, s[k]) == Some(k)
  {
  }

  /** No note name contains a character that could start an octave. */
  lemma NamesHaveNoOctaveChars(index: nat, i: nat)
    requires index < |NoteNames| && i < |NoteNames[index]|
    ensures !IsOctaveStart(NoteNames[index][i]) && NoteNames[index][i] != ' '
  {
  }

  lemma {:induction false} OctaveStartAfter(name: string, rest: string)
    requires forall i :: 0 <= i < |name| ==> !IsOctaveStart(name[i])
    requires |rest| > 0 && IsOctaveStart(rest[0])
    ensures OctaveStart(name + rest) == |name|
  {
    if |name| > 0 {
      assert (name + rest)[1..] == name[1..] + rest;
      OctaveStartAfter(name[1..], rest);
    }
  }

  lemma SymbolStartsWithoutDigit(b: nat)
    requires b < |Symbols|
    ensures |Symbols[b]| == 0 || !IsDigit(Symbols[b][0])
    ensures ' ' !in Symbols[b] && '-' !in Symbols[b]
  {
  }

  /** The octave and modifier parts parse back to the octave and the band. */
  lemma DecodeOctaveAndSymbol(octave: int, b: nat)
    requires octave >= -1 && b < |Symbols|
    ensures DecodeOctaveAndBand(IntToString(octave) + Symbols[b]) == Some((octave, b))
  {
    if octave == -1 {
      assert IntToString(octave) + Symbols[b] == "-" + ("1" + Symbols[b]);
      DecodeDigitsThenSymbol("1", b);
      DecodeNegative("1" + Symbols[b]);
    } else {
      DecodeDigitsThenSymbol(NatToString(octave), b);
      ParseNatToString(octave);
    }
  }

  /** A leading minus negates the octave of the rest. */
  lemma DecodeNegative(body: string)
    requires |body| > 0 && body[0] != '-'
    ensures DecodeOctaveAndBand("-" + body) ==
      match DecodeOctaveAndBand(body)
      case None => None
      case Some(ob) => Some((-ob.0, ob.1))
  {
    assert ("-" + body)[1..] == body;
  }

  /** A digit run followed by a modifier parses as that number and band. */
  lemma DecodeDigitsThenSymbol(digits: string, b: nat)
    requires |digits| > 0 && AllDigits(digits) && b < |Symbols|
    ensures DecodeOctaveAndBand(digits + Symbols[b]) == Some((ParseNat(digits), b))
  {
    var rest := digits + Symbols[b];
    SymbolStartsWithoutDigit(b);
    SymbolsDistinct();
    IndexOfDistinct(Symbols, b);
    DigitRunOfDigits(digits, Symbols[b]);
    assert rest[0] == digits[0];
    assert rest[..|digits|] == digits;
    assert rest[|digits|..] == Symbols[b];
  }

  /** Round trip: for every non-negative MIDI number and every band, the token
      `midiToNoteName(p) + symbol` reads back as that MIDI number and band. */
  lemma DecodeEncodedToken(midi: int, b: nat)
    requires midi >= 0 && b < |Symbols|
    ensures DecodeToken(MidiToNoteName(midi) + Symbols[b]) == Some(TokenValue(midi, b))
  {
    var index := midi % 12;
    var octave := midi / 12 - 1;
    var name := NoteNames[index];
    var octStr := IntToString(octave);
    var tok := MidiToNoteName(midi) + Symbols[b];
    assert tok == name + (octStr + Symbols[b]);
    forall i | 0 <= i < |name| ensures !IsOctaveStart(name[i]) {
      NamesHaveNoOctaveChars(index, i);
    }
    assert IsOctaveStart(octStr[0]);
    OctaveStartAfter(name, octStr + Symbols[b]);
    assert tok[..|name|] == name;
    assert tok[|name|..] == octStr + Symbols[b];
    NoteNamesDistinct();
    IndexOfDistinct(NoteNames, index);
    DecodeOctaveAndSymbol(octave, b);
    DecodeTokenFromParts(tok, |name|, index, octave, b);
    assert PitchOf(octave, index) == midi;
  }

  /** Middle C is `C4`, as the example melodies' comments say. */
  lemma MiddleCIsC4()
    ensures MidiToNoteName(60) == "C4"
    ensures MidiToNoteName(69) == "A4"
    ensures MidiToNoteName(0) == "C-1"
  {
  }

  /** For a non-negative pitch JavaScript's `%` is a true modulo: the token is the
      table name of the pitch class followed by `floor(p / 12) - 1`. */
  lemma NoteNameOfNonNegative(midi: int)
    requires midi >= 0
    ensures MidiToNoteName(midi) == NoteNames[midi % 12] + IntToString(midi / 12 - 1)
  {
  }

  /** The name cycles with period 12 while the octave number goes up by one. */
  lemma OctavePeriod(midi: int)
    requires midi >= 0
    ensures MidiToNoteName(midi + 12) == NoteNames[midi % 12] + IntToString(midi / 12)
  {
    NoteNameOfNonNegative(midi + 12);
    assert (midi + 12) % 12 == midi % 12 && (midi + 12) / 12 - 1 == midi / 12;
  }

  /** Below zero JavaScript's `%` goes negative and the table lookup yields
      `undefined`; `undefined + octave` is `NaN`, so a pitch such as -1 renders as
      `NaN` with no octave, and no token built from it reads back as a note. */
  lemma NegativePitchRendersNaN(midi: int, b: nat)
    requires midi < 0 && midi % 12 != 0 && b < |Symbols|
    ensures MidiToNoteName(midi) == NaN
    ensures DecodeToken(MidiToNoteName(midi) + Symbols[b]).None?
  {
    NegativeRemainder(midi);
    assert MidiToNoteName(midi) == NaN;
    NaNTokenDoesNotDecode(b);
  }

  /** A negative pitch off the octave grid has a negative JavaScript remainder. */
  lemma NegativeRemainder(midi: int)
    requires midi < 0 && midi % 12 != 0
    ensures JsRem12(midi) < 0
  {
  }

  /** `NaN` followed by any modifier does not read back as a note. */
  lemma NaNTokenDoesNotDecode(b: nat)
    requires b < |Symbols|
    ensures DecodeToken(NaN + Symbols[b]).None?
  {
    var tok := NaN + Symbols[b];
    NaNIsNoName(b);
    NoOctaveStart(tok);
    assert tok[..OctaveStart(tok)] == tok;
  }

  /** `NaN` followed by a modifier is not a pitch-class name and holds no octave character. */
  lemma NaNIsNoName(b: nat)
    requires b < |Symbols|
    ensures NaN + Symbols[b] !in NoteNames
    ensures forall i :: 0 <= i < |NaN + Symbols[b]| ==> !IsOctaveStart((NaN + Symbols[b])[i])
  {
    forall name | name in NoteNames ensures |name| <= 2 {
    }
  }

  /** Text with no octave character has its octave start at its end. */
  lemma {:induction false} NoOctaveStart(s: string)
    requires forall i :: 0 <= i < |s| ==> !IsOctaveStart(s[i])
    ensures OctaveStart(s) == |s|
  {
    if |s| > 0 {
      NoOctaveStart(s[1..]);
    }
  }
}
