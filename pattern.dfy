/** The pattern compiler of the browser script: a melody becomes
    `sound("<instrument>").note("<tokens>")` and a key with a roman-numeral
    progression becomes `sound("pad").chord("<roots>").gain(0.3)`; the convert
    action joins the two with ` + ` into the program handed to the pattern engine. */
module Pattern {
  import opened Text
  import opened Notes
  import opened Encoder

  /** The token of one note: its name and octave, then its duration modifier. */
  function NoteToken(n: Note, bpm: real): (token: string)
    ensures MidiToNoteName(n.pitch) <= token
    ensures token[|MidiToNoteName(n.pitch)|..] in Symbols
  {
    MidiToNoteName(n.pitch) + DurationToSymbol(n.duration, bpm)
  }

  /** `melodyNotes.map(...)`: one token per note, in melody order. */
  function Tokens(melody: seq<Note>, bpm: real): (tokens: seq<string>)
    ensures |tokens| == |melody|
    ensures forall i :: 0 <= i < |melody| ==> tokens[i] == NoteToken(melody[i], bpm)
  {
    seq(|melody|, i requires 0 <= i < |melody| => NoteToken(melody[i], bpm))
  }

  /** The rest pattern returned for an empty melody. */
  const Rest: string := "~"

  function MelodyHeader(instrument: string): string
  {
    "sound(\"" + instrument + "\").note(\""
  }

  const MelodyFooter: string := "\")"

  /** `melodyToStrudelPattern`. */
  function MelodyToStrudelPattern(melody: seq<Note>, bpm: real, instrument: string): (code: string)
    ensures melody == [] ==> code == Rest
    ensures melody != [] ==> MelodyHeader(instrument) <= code
  {
    if |melody| == 0 then Rest
    else MelodyHeader(instrument) + Join(Tokens(melody, bpm), " ") + MelodyFooter
  }

  /** A non-empty melody whose space-joined tokens are `body` compiles to `body` in the note wrapper. */
  lemma PatternFromTokens(melody: seq<Note>, bpm: real, instrument: string, body: string)
    requires melody != [] && Join(Tokens(melody, bpm), " ") == body
    ensures MelodyToStrudelPattern(melody, bpm, instrument) == MelodyHeader(instrument) + body + MelodyFooter
  {
  }

  /** No token contains a space, so the space-joined text can be split apart again. */
  lemma TokenHasNoSpace(n: Note, bpm: real)
    ensures ' ' !in NoteToken(n, bpm)
  {
    var index := JsRem12(n.pitch);
    var sym := DurationToSymbol(n.duration, bpm);
    if 0 <= index {
      var name := NoteNames[index];
      var octave := IntToString(n.pitch / 12 - 1);
      assert NoteToken(n, bpm) == name + octave + sym;
      forall i | 0 <= i < |name| ensures name[i] != ' ' {
        NamesHaveNoOctaveChars(index, i);
      }
      assert ' ' !in octave;
    } else {
      assert NoteToken(n, bpm) == NaN + sym;
    }
    var b :| 0 <= b < |Symbols| && Symbols[b] == sym;
    SymbolStartsWithoutDigit(b);
  }

  /** A non-empty melody compiles to the header, one space-separated token per
      note in input order (not re-sorted by time), and the footer; every token of a
      non-negative pitch reads back as that pitch and the band of its duration. */
  lemma MelodyPatternTokens(melody: seq<Note>, bpm: real, instrument: string)
    requires |melody| > 0
    ensures
      var body := Join(Tokens(melody, bpm), " ");
      var pieces := Split(body, ' ');
      && MelodyToStrudelPattern(melody, bpm, instrument) == MelodyHeader(instrument) + body + MelodyFooter
      && |pieces| == |melody|
      && (forall i :: 0 <= i < |melody| ==> pieces[i] == NoteToken(melody[i], bpm))
      && (forall i :: 0 <= i < |melody| && melody[i].pitch >= 0 ==>
            DecodeToken(pieces[i]) == Some(TokenValue(melody[i].pitch, Band(Ratio(melody[i].duration, bpm)))))
  {
    var tokens := Tokens(melody, bpm);
    forall i | 0 <= i < |tokens| ensures ' ' !in tokens[i] {
      TokenHasNoSpace(melody[i], bpm);
    }
    SplitJoin(tokens, ' ');
    forall i | 0 <= i < |melody| && melody[i].pitch >= 0
      ensures DecodeToken(tokens[i]) == Some(TokenValue(melody[i].pitch, Band(Ratio(melody[i].duration, bpm))))
    {
      DecodeEncodedToken(melody[i].pitch, Band(Ratio(melody[i].duration, bpm)));
    }
  }

  /** An empty melody compiles to the rest token whatever the tempo and instrument. */
  lemma EmptyMelodyIsRest(bpm1: real, instrument1: string, bpm2: real, instrument2: string)
    ensures MelodyToStrudelPattern([], bpm1, instrument1) == MelodyToStrudelPattern([], bpm2, instrument2) == Rest
  {
  }

  // ---------------------------------------------------------------------------
  // Chord progressions

  /** Roman numeral to chord root, one table per key. */
  const ChordsInC: map<string, string> := map["I" := "c4", "V" := "g4", "vi" := "a4", "IV" := "f4"]
  const ChordsInG: map<string, string> := map["I" := "g4", "V" := "d4", "vi" := "e4", "IV" := "c4"]
  const ChordsInF: map<string, string> := map["I" := "f4", "V" := "c4", "vi" := "d4", "IV" := "a4"]

  /** The keys that have a table. */
  const ChordKeys: set<string> := {"C", "G", "F"}

  const DefaultProgression: string := "I-V-vi-IV"

  /** The names every plain JavaScript object inherits from `Object.prototype`. Looking
      one of them up in the table of keys gives a function (or, for `__proto__`, the
      prototype object itself): a truthy value that is not a table of roots. */
  const InheritedKeys: set<string> := {
    "constructor", "hasOwnProperty", "isPrototypeOf", "propertyIsEnumerable",
    "toLocaleString", "toString", "valueOf", "__proto__",
    "__defineGetter__", "__defineSetter__", "__lookupGetter__", "__lookupSetter__"}

  /** `chords[key] || chords['C']`: a key with a table uses it; an inherited name is
      truthy, so it does not fall back, and none of the numerals is found in it; any
      other key silently uses the C table. */
  function KeyChords(key: string): (table: map<string, string>)
    ensures key == "C" ==> table == ChordsInC
    ensures key == "G" ==> table == ChordsInG
    ensures key == "F" ==> table == ChordsInF
    ensures key in InheritedKeys ==> table == map[]
    ensures key !in ChordKeys && key !in InheritedKeys ==> table == ChordsInC
  {
    if key == "G" then ChordsInG
    else if key == "F" then ChordsInF
    else if key in InheritedKeys then map[]
    else ChordsInC
  }

  /** `keyChords[roman]`: the root, or JavaScript's `undefined` for an unknown numeral. */
  function LookupRoot(table: map<string, string>, roman: string): (root: Option<string>)
    ensures root.Some? <==> roman in table
    ensures root.Some? ==> root.value == table[roman]
  {
    if roman in table then Some(table[roman]) else None
  }

  /** The looked-up root of every dash-separated numeral, in order. */
  function ProgressionRoots(key: string, progression: string): (roots: seq<Option<string>>)
    ensures |roots| == |Split(progression, '-')|
    ensures forall i :: 0 <= i < |roots| ==> roots[i] == LookupRoot(KeyChords(key), Split(progression, '-')[i])
  {
    var numerals := Split(progression, '-');
    seq(|numerals|, i requires 0 <= i < |numerals| => LookupRoot(KeyChords(key), numerals[i]))
  }

  /** What `Array.prototype.join` writes for an element: `undefined` becomes empty text. */
  function RenderRoot(root: Option<string>): string
  {
    match root
    case None => ""
    case Some(r) => r
  }

  function RenderRoots(roots: seq<Option<string>>): (texts: seq<string>)
    ensures |texts| == |roots|
    ensures forall i :: 0 <= i < |roots| ==> texts[i] == RenderRoot(roots[i])
  {
    seq(|roots|, i requires 0 <= i < |roots| => RenderRoot(roots[i]))
  }

  const ChordHeader: string := "sound(\"pad\").chord(\""
  const ChordFooter: string := "\").gain(0.3)"

  /** `generateChordProgression` as written: an unknown numeral leaves an empty slot. */
  function GenerateChordProgression(key: string, progression: string): (code: string)
    ensures ChordHeader <= code
  {
    ChordHeader + Join(RenderRoots(ProgressionRoots(key, progression)), " ") + ChordFooter
  }

  lemma RootsHaveNoSpace(key: string, roman: string)
    requires roman in KeyChords(key)
    ensures ' ' !in KeyChords(key)[roman] && |KeyChords(key)[roman]| == 2
  {
  }

  /** Every dash-separated numeral has a root in the key's table. */
  predicate AllNumeralsKnown(key: string, progression: string)
  {
    forall i :: 0 <= i < |Split(progression, '-')| ==> Split(progression, '-')[i] in KeyChords(key)
  }

  /** The chord text splits back into one slot per dash-separated numeral, in the
      order they were written: the key's root for a known numeral, empty text for an
      unknown one. */
  lemma ChordProgressionSlots(key: string, progression: string)
    ensures
      var numerals := Split(progression, '-');
      var body := Join(RenderRoots(ProgressionRoots(key, progression)), " ");
      && GenerateChordProgression(key, progression) == ChordHeader + body + ChordFooter
      && |Split(body, ' ')| == |numerals|
      && forall i :: 0 <= i < |numerals| ==> Split(body, ' ')[i] == RenderRoot(LookupRoot(KeyChords(key), numerals[i]))
  {
    var numerals := Split(progression, '-');
    var texts := RenderRoots(ProgressionRoots(key, progression));
    forall i | 0 <= i < |texts| ensures ' ' !in texts[i] {
      if numerals[i] in KeyChords(key) {
        RootsHaveNoSpace(key, numerals[i]);
      }
    }
    SplitJoin(texts, ' ');
  }

  /** With every numeral known, the chord text splits back into the key's roots for
      the numerals, in the order they were written. */
  lemma ChordProgressionRoots(key: string, progression: string)
    requires AllNumeralsKnown(key, progression)
    ensures
      var numerals := Split(progression, '-');
      var body := Join(RenderRoots(ProgressionRoots(key, progression)), " ");
      && GenerateChordProgression(key, progression) == ChordHeader + body + ChordFooter
      && |Split(body, ' ')| == |numerals|
      && forall i :: 0 <= i < |numerals| ==> Split(body, ' ')[i] == KeyChords(key)[numerals[i]]
  {
    ChordProgressionSlots(key, progression);
  }

  /** An unknown key that is not an inherited name gives the same text as key `C`. */
  lemma UnknownKeyFallsBackToC(key: string, progression: string)
    requires key !in ChordKeys && key !in InheritedKeys
    ensures GenerateChordProgression(key, progression) == GenerateChordProgression("C", progression)
  {
  }

  /** An inherited name as the key does not fall back: every numeral of the default
      progression is missing, and the chord list is three spaces. */
  lemma InheritedKeyBlanksChords(key: string)
    requires key in InheritedKeys
    ensures GenerateChordProgression(key, DefaultProgression) == ChordHeader + "   " + ChordFooter
  {
    var texts := RenderRoots(ProgressionRoots(key, DefaultProgression));
    DefaultNumerals();
    InheritedRootsBlank(key, DefaultProgression);
    assert texts == ["", "", "", ""];
    JoinFourBlanks();
  }

  /** Under an inherited name every numeral renders as empty text. */
  lemma InheritedRootsBlank(key: string, progression: string)
    requires key in InheritedKeys
    ensures forall i :: 0 <= i < |Split(progression, '-')| ==> RenderRoots(ProgressionRoots(key, progression))[i] == ""
  {
  }

  lemma JoinFourBlanks()
    ensures Join(["", "", "", ""], " ") == "   "
  {
    var texts: seq<string> := ["", "", "", ""];
    assert texts[1..] == ["", "", ""] && texts[2..] == ["", ""] && texts[3..] == [""];
  }

  lemma DefaultNumerals()
    ensures Split(DefaultProgression, '-') == ["I", "V", "vi", "IV"]
  {
    SplitPair("vi", "IV", "vi-IV");
    SplitSecond();
    SplitFirst();
  }

  lemma SplitSecond()
    ensures Split("V-vi-IV", '-') == ["V"] + Split("vi-IV", '-')
  {
    SplitAfterPiece("V", '-', "vi-IV");
    assert "V" + ['-'] + "vi-IV" == "V-vi-IV";
  }

  lemma SplitFirst()
    ensures Split(DefaultProgression, '-') == ["I"] + Split("V-vi-IV", '-')
  {
    SplitAfterPiece("I", '-', "V-vi-IV");
    assert "I" + ['-'] + "V-vi-IV" == DefaultProgression;
  }

  /** Two dash-free numerals around one dash split into those two. */
  lemma SplitPair(a: string, b: string, progression: string)
    requires '-' !in a && '-' !in b && progression == a + ['-'] + b
    ensures Split(progression, '-') == [a, b]
  {
    SplitAfterPiece(a, '-', b);
    SplitNoSeparator(b, '-');
  }

  lemma DefaultRootsInC()
    ensures RenderRoots(ProgressionRoots("C", DefaultProgression)) == ["c4", "g4", "a4", "f4"]
  {
    DefaultNumerals();
    forall i | 0 <= i < 4
      ensures LookupRoot(KeyChords("C"), ["I", "V", "vi", "IV"][i]) == Some(["c4", "g4", "a4", "f4"][i])
    {
      DefaultRootInC(i);
    }
  }

  lemma DefaultRootInC(i: nat)
    requires i < 4
    ensures LookupRoot(KeyChords("C"), ["I", "V", "vi", "IV"][i]) == Some(["c4", "g4", "a4", "f4"][i])
  {
  }

  lemma JoinDefaultRoots()
    ensures Join(["c4", "g4", "a4", "f4"], " ") == "c4 g4 a4 f4"
  {
    var texts: seq<string> := ["c4", "g4", "a4", "f4"];
    assert texts[3..] == ["f4"] && texts[2..] == ["a4", "f4"] && texts[1..] == ["g4", "a4", "f4"];
    assert Join(texts[2..], " ") == "a4 f4";
    assert Join(texts[1..], " ") == "g4 a4 f4";
  }

  /** The chord pattern of the convert action. */
  const DefaultChordPattern: string := ChordHeader + "c4 g4 a4 f4" + ChordFooter

  /** The default progression in C is the four roots c4 g4 a4 f4. */
  lemma DefaultProgressionInC()
    ensures GenerateChordProgression("C", DefaultProgression) == DefaultChordPattern
  {
    DefaultRootsInC();
    JoinDefaultRoots();
  }

  /** The source as written: the unknown numeral `ii` becomes an empty slot, leaving
      a trailing space in the chord list instead of an error. */
  lemma UnknownNumeralLeavesEmptySlot()
    ensures GenerateChordProgression("C", "I-ii") == ChordHeader + "c4 " + ChordFooter
  {
    SplitPair("I", "ii", "I-ii");
    assert KeyChords("C") == ChordsInC;
    assert ProgressionRoots("C", "I-ii") == [Some("c4"), None];
    assert RenderRoots(ProgressionRoots("C", "I-ii")) == ["c4", ""];
  }

  datatype ChordError = UnknownNumeral(numeral: string)

  /** Index of the first numeral with no root in the key's table, if any. */
  function FirstUnknown(roots: seq<Option<string>>): (k: Option<nat>)
    ensures k.Some? ==> k.value < |roots| && roots[k.value].None?
    ensures k.Some? ==> forall j :: 0 <= j < k.value ==> roots[j].Some?
    ensures k.None? ==> forall j :: 0 <= j < |roots| ==> roots[j].Some?
  {
    if |roots| == 0 then None
    else if roots[0].None? then Some(0)
    else match FirstUnknown(roots[1..])
      case None => None
      case Some(j) => Some(j + 1)
  }

  /** The chord progression with the unknown-numeral case reported: the first
      numeral the key's table lacks is returned as an error instead of an empty slot. */
  function ChordProgressionOrError(key: string, progression: string): (r: Result<string, ChordError>)
    ensures r.Success? <==> AllNumeralsKnown(key, progression)
    ensures r.Failure? ==> r.error.numeral in Split(progression, '-') && r.error.numeral !in KeyChords(key)
    ensures r.Success? ==> r.value == GenerateChordProgression(key, progression)
  {
    var numerals := Split(progression, '-');
    var roots := ProgressionRoots(key, progression);
    assert forall i :: 0 <= i < |numerals| ==> (roots[i].Some? <==> numerals[i] in KeyChords(key));
    match FirstUnknown(roots)
    case Some(k) =>
      assert numerals[k] !in KeyChords(key);
      Failure(UnknownNumeral(numerals[k]))
    case None => Success(GenerateChordProgression(key, progression))
  }

  /** The corrected generator succeeds on the progression the convert action uses. */
  lemma DefaultProgressionSucceeds()
    ensures ChordProgressionOrError("C", DefaultProgression) == Success(DefaultChordPattern)
  {
    DefaultNumerals();
    DefaultProgressionInC();
  }

  /** The corrected generator rejects `I-ii` in C, naming `ii`. */
  lemma UnknownNumeralReported()
    ensures ChordProgressionOrError("C", "I-ii") == Failure(UnknownNumeral("ii"))
  {
    SplitPair("I", "ii", "I-ii");
    var roots := ProgressionRoots("C", "I-ii");
    assert KeyChords("C") == ChordsInC;
    assert roots == [Some("c4"), None];
    assert FirstUnknown(roots) == Some(1);
  }

  // ---------------------------------------------------------------------------
  // The convert action

  /** The program built by the convert action: the piano melody at 120 bpm, then
      ` + `, then the chord pattern of the default C progression, written out here;
      `ConvertUsesChordGenerator` shows it is what the generator produces. */
  function ConvertProgram(melody: seq<Note>): (program: string)
    ensures MelodyToStrudelPattern(melody, 120.0, "piano") + " + " <= program
    ensures program[|MelodyToStrudelPattern(melody, 120.0, "piano")| + 3..] == DefaultChordPattern
  {
    MelodyToStrudelPattern(melody, 120.0, "piano") + " + " + DefaultChordPattern
  }

  /** The convert action's program is the melody pattern joined to what the generator,
      as written, produces for `I-V-vi-IV` in C. */
  lemma ConvertUsesChordGenerator(melody: seq<Note>)
    ensures ConvertProgram(melody) == MelodyToStrudelPattern(melody, 120.0, "piano") + " + " + GenerateChordProgression("C", DefaultProgression)
  {
    DefaultProgressionInC();
  }
}
