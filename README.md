# Melody to Strudel: a Dafny model

This project models the core of a melody-to-Strudel converter: a browser page plus two small Python back-ends.

The page turns a list of notes `{pitch, start_time, duration, velocity}` into a Strudel program:

- one `sound("piano").note("…")` token per note, built from a MIDI note name and a duration modifier;
- `sound("pad").chord("…").gain(0.3)`, built from a roman-numeral chord progression.

The page tries to play that program through the Strudel pattern engine. When that fails, it falls back to a Tone.js arrangement of four parts:

- the melody;
- a chord track stepping every 2 units through C, G, Am, F;
- a bass track on the same steps;
- a drum track on a 0.25-unit grid, in a style chosen by the arrangement's length.

The page's melody comes from one of three places:

- the built-in examples;
- an eight-note random melody;
- a simulated extraction, used when no back-end answers.

The back-ends do the following:

- filter uploads by file extension;
- produce a deterministic stand-in melody;
- merge near-simultaneous notes of close pitch;
- post-process the events of a pitch tracker: convert them to notes, refuse an empty result, sort by start time, and report the latest end as the total duration.

Modules, following the program's structure:

- `Text`: `join`/`split` on one character, decimal rendering of integers as `String(n)` writes them, and a digit parser used to read tokens back.
- `Notes`: the note record, the random-draw type, and contiguity of a note list.
- `Encoder`: `midiToNoteName`, `durationToSymbol`, and `DecodeToken`, an inverse reader for the round trip.
- `Pattern`: `melodyToStrudelPattern`, `generateChordProgression`, and the program the convert button builds.
- `Arrangement`: the chord, bass and drum loops of `playWithTone`, as methods over event lists.
- `Generators`: the example melodies, the random melody and the simulated extraction.
- `Playback`: the page state as a class with its handlers, and the scheduled parts as objects that are disposed.
- `Uploads`: `allowed_file`.
- `SimpleBackend`: `generate_simulated_notes` and `merge_similar_notes`.
- `Backend`: the note post-processing of `extract_melody_with_basicpitch`, with an in-place insertion sort standing for `list.sort`.

Modelling choices:

- Times are exact reals. The browser's arrangement loops step by 2 and by 0.25, and the built-in, random and simulated melodies use multiples of 0.25: on these values floating point is exact. The back-end's times are not (see "Left out").
- Each `Math.random()` call is an entry of an injected stream `draw: nat -> Draw`, the k-th call reading `draw(k)`. For example, the random melody reads `draw(2i)` for the pitch and `draw(2i + 1)` for the length of note `i`.
- JavaScript's `%` truncates: `Encoder.JsRem12` writes it out. For a negative pitch off the octave grid the table lookup is `undefined`, and `undefined + octave` is numeric addition, so the name is `NaN`.
- Python's `int()` truncates toward zero (`SimpleBackend.PyInt`).
- The drum offsets are stored in quarter beats. `Arrangement.Mod8OfTick` shows that `i % 8` at grid tick `t` is `(t % 32) / 4`. The drum loop looks each beat up in the offset tables, as the source does; the specification of the loop states each table's pattern arithmetically (`Arrangement.Fires`, for example the basic hi-hat on every half beat), and `Arrangement.FiresListed` proves the two agree.
- Stop does not check `isPlaying`. Pressed while idle, it still stops the transport and disposes the parts. The model follows the handler.
- The foreign engines are outcome parameters:
  - the pattern engine evaluates, offers no entry point, or throws;
  - the synthesizer library is loaded or not;
  - stopping the transport throws or not.

## Model

| member | source | states |
|---|---|---|
| Text.SplitJoin | strudel-demo.js:75 | splitting the joined text on the separator gives back the parts, when no part contains it |
| Text.ParseNatToString | strudel-demo.js:43-45 | the decimal text of the octave reads back as the same number |
| Notes.DrawIndex | strudel-demo.js:562 | `Math.floor(r * n)` is an index below `n` with `i <= r*n < i+1` |
| Notes.MaxEndTime | app.py:88 | the total duration bounds every note's end and is the end of one of them |
| Encoder.JsRem12 | strudel-demo.js:44 | JavaScript `m % 12`: a true modulo for `m >= 0`; for `m < 0`, a non-positive value congruent to `m` |
| Encoder.Band | strudel-demo.js:53-60 | the chosen band is the first threshold the ratio does not exceed: above the previous threshold, at most its own |
| Encoder.DurationToSymbol | strudel-demo.js:49-61 | the result is one of the eight modifiers `! . (empty) t _ t_ __ ___` |
| Encoder.BandExactly | strudel-demo.js:53-60 | band `k` is exactly the interval `(Thresholds[k-1], Thresholds[k]]`, so the bands partition the line |
| Encoder.BoundaryTakesShorterBand | strudel-demo.js:53-59 | a ratio exactly on a threshold takes the shorter band |
| Encoder.DurationBandMonotone | strudel-demo.js:49-61 | at a fixed non-negative tempo a longer duration never gets a shorter band |
| Encoder.DurationsAt120 | strudel-demo.js:49-61 | at 120 bpm, 0.25 s has no modifier, 0.5 s is `_`, 1 s `__`, 2 s `___`, 0.0625 s `!` |
| Encoder.DecodeEncodedToken | strudel-demo.js:41-61 | round trip: for every pitch >= 0 and band, the name plus the modifier reads back as that pitch and band |
| Encoder.MiddleCIsC4 | strudel-demo.js:41-46 | 60 is `C4`, 69 is `A4`, 0 is `C-1` |
| Encoder.NoteNameOfNonNegative | strudel-demo.js:41-46 | for `p >= 0` the token is `notes[p % 12]` followed by `floor(p/12) - 1` |
| Encoder.OctavePeriod | strudel-demo.js:41-46 | twelve semitones up keeps the name and raises the octave number by one |
| Encoder.MidiToNoteName | strudel-demo.js:41-46 | the name has at least two characters; `NoteNameOfNonNegative`, `DecodeEncodedToken` and `NegativePitchRendersNaN` state its value |
| Encoder.Ratio | strudel-demo.js:50-51 | the ratio is the duration counted in beats: times the beat length `60 / bpm` it gives the duration back |
| Encoder.NegativePitchRendersNaN | strudel-demo.js:43-45 | a negative pitch that is not a multiple of 12 renders as `NaN`, with no octave, and no token made of it and a modifier reads back as a note |
| Pattern.NoteToken | strudel-demo.js:70-72 | a token is the pitch's note name followed by one of the eight duration modifiers |
| Pattern.Tokens | strudel-demo.js:69-73 | one token per note, in input order, each the note name plus the duration modifier |
| Pattern.MelodyToStrudelPattern | strudel-demo.js:64-76 | the empty melody gives `~`; any other melody gives a result that starts with `sound("<instrument>").note("` |
| Pattern.TokenHasNoSpace | strudel-demo.js:69-73 | no token contains a space, so the joined tokens can be split apart |
| Pattern.MelodyPatternTokens | strudel-demo.js:69-75 | a non-empty melody compiles to header, tokens and footer; the body splits into one token per note, in input order, and each token of a pitch >= 0 reads back as its pitch and band |
| Pattern.EmptyMelodyIsRest | strudel-demo.js:65-67 | an empty melody gives `~` whatever the tempo and instrument |
| Pattern.KeyChords | strudel-demo.js:80-86 | C, G and F use their own tables; a name every object inherits (such as `constructor`) is truthy, so it does not fall back and finds no numeral; any other key uses the C table |
| Pattern.LookupRoot | strudel-demo.js:87 | a root exactly when the numeral is in the key's table, and then the table's root |
| Pattern.ProgressionRoots | strudel-demo.js:87 | one entry per dash-separated numeral, in order: entry `i` is numeral `i` looked up in the key's table |
| Pattern.RenderRoots | strudel-demo.js:89 | one text per root, in order, an undefined root rendered as empty text |
| Pattern.GenerateChordProgression | strudel-demo.js:79-90 | the output starts with `sound("pad").chord("` |
| Pattern.ChordProgressionSlots | strudel-demo.js:80-89 | for every key and progression the chord text is the wrapper around the slots, and splits back into one slot per numeral, in order: the key's root for a known numeral, empty text for an unknown one |
| Pattern.ChordProgressionRoots | strudel-demo.js:80-89 | when every numeral is known, the chord text is the wrapper around the roots; the roots split back into one root per numeral, in order |
| Pattern.UnknownKeyFallsBackToC | strudel-demo.js:86 | an unknown key that is not an inherited name gives exactly the text of key C |
| Pattern.InheritedKeyBlanksChords | strudel-demo.js:86-89 | an inherited name such as `toString` as the key turns the default progression into `chord("   ")`: four empty slots |
| Pattern.DefaultProgressionInC | strudel-demo.js:577 | `I-V-vi-IV` in C is `sound("pad").chord("c4 g4 a4 f4").gain(0.3)` |
| Pattern.UnknownNumeralLeavesEmptySlot | strudel-demo.js:87-89 | as written, `I-ii` in C gives `chord("c4 ")`: the unknown numeral leaves an empty slot |
| Pattern.ChordProgressionOrError | strudel-demo.js:87-89 | success exactly when every numeral is known, with the same text; otherwise the error names a numeral of the progression that the key's table lacks |
| Pattern.DefaultProgressionSucceeds | strudel-demo.js:577 | the corrected generator accepts the convert button's progression, with the same text |
| Pattern.UnknownNumeralReported | strudel-demo.js:87 | the corrected generator rejects `I-ii` in C, naming `ii` |
| Pattern.ConvertProgram | strudel-demo.js:574-578 | the program is the piano melody at 120 bpm, then ` + `, then the literal `sound("pad").chord("c4 g4 a4 f4").gain(0.3)` |
| Pattern.ConvertUsesChordGenerator | strudel-demo.js:577-578 | that chord part is exactly what the generator, as written, produces for `I-V-vi-IV` in C |
| Arrangement.ReduceMaxEnd | strudel-demo.js:748-749 | the fold is >= 0, bounds every note's end, and is 0 or one note's end |
| Arrangement.MelodyDuration | strudel-demo.js:748-749 | the arrangement length is >= 16, bounds every note's end, and is 16 or one note's end |
| Arrangement.StepsBelow | strudel-demo.js:778 | the iteration count of the loop, the ceiling of `limit / width` for a positive limit and 0 otherwise; `StepsBelowExactly` states which steps run |
| Arrangement.StepsBelowExactly | strudel-demo.js:778 | step `k` of a `for (i = 0; i < limit; i += width)` loop runs exactly when `k * width < limit` |
| Arrangement.ChosenVoicing | strudel-demo.js:781-784 | the voicing picked for step `k` is one of its chord's library entries |
| Arrangement.BuildChordTrack | strudel-demo.js:775-786 | one chord every 2 units from 0 while below the length; step `k` at time `2k`, with the voicing chosen by draw `k` from chord `k % 4` |
| Arrangement.BuildBassTrack | strudel-demo.js:794-799 | one bass note every 2 units while below the length; step `k` is `bassRoots[k % 4]` at `2k` with dur 2 |
| Arrangement.BassFollowsChord | strudel-demo.js:752-795 | every voicing has four notes, and its lowest note has the letter of the bass root of the same step |
| Arrangement.SelectStyle | strudel-demo.js:829 | complex exactly when the length is > 20; minimal exactly when it is <= 10 |
| Arrangement.MinimalStyleUnreachable | strudel-demo.js:829 | minimal is never chosen; basic exactly when every note ends by 20 |
| Arrangement.Mod8 | strudel-demo.js:834 | `i % 8` of a non-negative time lies in [0, 8) |
| Arrangement.Mod8OfTick | strudel-demo.js:834 | at grid tick `t`, `i % 8` is `(t % 32) / 4`, the quarter-beat offset table index |
| Arrangement.FiresListed | strudel-demo.js:809-825 | each drum's firing pattern holds exactly at the beats its style's offset table lists |
| Arrangement.HitsAt | strudel-demo.js:836-849 | the hits pushed at one tick; `HitsAtBounded`, `HitsAtSound`, `HitsAtComplete` and `HitsAtInPushOrder` state them |
| Arrangement.HitsAtBounded | strudel-demo.js:836-849 | at most three hits per tick |
| Arrangement.HitsAtSound | strudel-demo.js:836-849 | every hit of a tick is at that tick's time and is of a drum whose table lists the beat |
| Arrangement.HitsAtComplete | strudel-demo.js:836-849 | every drum whose table lists the beat is hit at that tick |
| Arrangement.HitsAtInPushOrder | strudel-demo.js:836-849 | within a tick, kick is pushed before snare, and snare before hi-hat |
| Arrangement.PushHits | strudel-demo.js:834-849 | one pass of the loop body appends exactly the hits of its tick |
| Arrangement.DrumTrack | strudel-demo.js:832-850 | the hits of the first `n` ticks in push order; `DrumEventsOnGrid`, `DrumHitsComplete`, `DrumTrackBelow` and `DrumTrackOrdered` state them |
| Arrangement.BuildDrumTrack | strudel-demo.js:832-850 | the drum list is the hits of every 0.25 tick below the length, in the style the length selects |
| Arrangement.DrumEventsOnGrid | strudel-demo.js:833-850 | every drum event lies on a grid tick below the end whose beat is listed for its drum |
| Arrangement.DrumHitsComplete | strudel-demo.js:833-850 | every listed beat of every tick below the end carries a hit of that drum |
| Arrangement.DrumTrackBelow | strudel-demo.js:833 | every drum event is earlier than the loop's end tick |
| Arrangement.DrumTrackOrdered | strudel-demo.js:833-850 | drum events come in ascending time, kick before snare before hi-hat within a tick, so none repeats |
| Arrangement.BasicBeats | strudel-demo.js:811-815 | in the basic style the downbeat has kick and hi-hat, beat 1 snare and hi-hat, beat 1.5 only hi-hat, tick 1 nothing |
| Arrangement.MelodyEvents | strudel-demo.js:736-740 | one melody event per note with its start, pitch and duration |
| Arrangement.BuildArrangement | strudel-demo.js:736-850 | the four tracks satisfy `Scheduled`: melody events, chord and bass steps, and the drum track of the selected style |
| Arrangement.ScheduledTracksAgree | strudel-demo.js:748-850 | chord and bass share their step times below the length; voicings belong to their chord; drum events lie below the length and are ordered |
| Generators.ExamplesContiguous | strudel-demo.js:13-38 | the three example melodies are laid end to end from 0 |
| Generators.HappyMelodyPattern | strudel-demo.js:23-30 | the loaded example compiles to `sound("piano").note("E4 G4 A4_ G4 A4 C5__")` |
| Generators.RandomPitch | strudel-demo.js:562 | a random pitch is a note of the C-major scale |
| Generators.GenerateRandomMelody | strudel-demo.js:557-566 | eight notes, contiguous from 0, note `i` with its pitch from draw `2i`, its length from draw `2i + 1`, and velocity 80 |
| Generators.RandomMelodyArrangement | strudel-demo.js:557-566 | a random melody ends between 4 and 8, so it is arranged over 16 units in the basic style |
| Generators.SimulatedNoteCount | strudel-demo.js:510 | `max(4, floor(2d))`: at least 4; exactly 4 when `2d < 5`; `floor(2d)` when `2d >= 4` |
| Generators.RandomDuration | strudel-demo.js:563 | a random length is 0.5 or 1.0 |
| Generators.RandomVelocity | strudel-demo.js:523 | a simulated velocity lies in [70, 100) |
| Generators.ExtractMelodySimulation | strudel-demo.js:510-527 | `max(4, floor(2d))` notes, contiguous from 0, note `i` using draws `3i`, `3i + 1` and `3i + 2` |
| Generators.SimulatedMelodyLength | strudel-demo.js:514-527 | a simulated melody of `n` notes ends between `n / 2` and `n` |
| Playback.Part.Dispose | strudel-demo.js:607 | a disposed part is marked disposed |
| Playback.NewParts | strudel-demo.js:742-865 | four fresh live parts carrying the melody, chord, bass and drum tracks, in that order |
| Playback.Player.constructor | strudel-demo.js:6-9 | the page starts idle, with no melody, no program, no parts, and neither engine running |
| Playback.Player.ClearToneParts | strudel-demo.js:606-609 | every previously active part is disposed and the list is empty; nothing else changes |
| Playback.Player.PlayWithStrudel | strudel-demo.js:586-604 | success exactly when the engine evaluated the program; then the page plays and the engine holds the program |
| Playback.Player.PlayWithTone | strudel-demo.js:611-868 | without a melody or the library nothing changes; otherwise the old parts are disposed, the four new parts carry a scheduled arrangement of the melody, and the transport runs |
| Playback.Player.HandlePlay | strudel-demo.js:877-884 | nothing changes without a program or while playing; when the engine evaluates, the page plays through it and the parts and transport are untouched; otherwise the fallback plays exactly when there is a melody and the library: the old parts are disposed, four fresh parts carry a scheduled arrangement and the transport runs; without a melody or the library the parts and transport stay as they were |
| Playback.Player.HandleStop | strudel-demo.js:886-899 | the flag always ends false; the parts are disposed and the transport stopped unless the library is absent or stopping throws; the engine is left as it was |
| Playback.Player.HandleStopIntended | strudel-demo.js:886-891 | the corrected stop: as above, and the pattern engine is stopped too |
| Playback.Player.LoadExample | strudel-demo.js:549-550 | the happy example becomes the current melody |
| Playback.Player.GenerateRandom | strudel-demo.js:557-567 | the current melody becomes a random melody as `GenerateRandomMelody` specifies |
| Playback.Player.ExtractSimulation | strudel-demo.js:503-532 | the current melody becomes a simulated extraction as `ExtractMelodySimulation` specifies |
| Playback.Player.Convert | strudel-demo.js:574-578 | the program becomes the converted melody plus the default chords; it is never empty |
| Playback.EngineOutlivesStop | strudel-demo.js:888-889 | as written, after load, convert, an engine play and stop, the page is idle while the engine still holds the program |
| Playback.IntendedStopSilences | strudel-demo.js:886-899 | with the corrected stop, the same steps leave nothing playing and no parts |
| Uploads.Lower | app_simple.py:34 | lower-cases each ASCII letter and keeps every other character, position by position |
| Uploads.AllowedFile | app_simple.py:31-34 | a name with a dot whose text after the last dot, lower-cased, is an allowed extension; `AllowedFileIff` states the verdict without reference to `LastDot` |
| Uploads.LastDot | app_simple.py:34 | `rsplit('.', 1)` splits at a dot after which no dot follows |
| Uploads.AllowedFileIff | app_simple.py:31-34 | accepted exactly when the lower-cased text after the last dot is `webm`, `wav`, `mp3` or `m4a` |
| Uploads.NoDotRefused | app_simple.py:33 | a name without a dot is refused |
| Uploads.ExtensionAccepted | app_simple.py:34 | any stem plus a dot plus an allowed extension, in any letter case, is accepted |
| Uploads.AllowedFileAt | app.py:38-41 | the verdict for a name whose last dot is at `k` depends only on the text after `k` |
| Uploads.AllowedFileCaseInsensitive | app.py:41 | lower-casing the whole name first never changes the verdict |
| Uploads.UploadExamples | app_simple.py:31-34 | `x.WAV` and `a.b.mp3` are accepted; `a.wav.txt`, `wav` and `song.` are refused |
| SimpleBackend.PyInt | app_simple.py:154 | `int()` truncates toward zero |
| SimpleBackend.SimulatedCount | app_simple.py:154 | `max(4, int(2d))`: at least 4; exactly 4 when `2d < 5`; `int(2d)` when `2d >= 4` |
| SimpleBackend.GenerateSimulatedNotes | app_simple.py:148-169 | `max(4, int(2d))` notes, contiguous from 0; note `i` has pitch `scale[i % 8]`, duration 1.0 when `i % 3 == 0` and 0.5 otherwise, and velocity 80 |
| SimpleBackend.SimulatedStart | app_simple.py:156-167 | closed form: note `i` starts at `0.5 i + 0.5 floor((i + 2) / 3)` |
| SimpleBackend.Absorb | app_simple.py:182-184 | a folded note keeps the running note's start and pitch, ends where the folded note ends, and takes the louder velocity |
| SimpleBackend.Merged | app_simple.py:171-193 | no longer than the input; empty exactly when the input is; starts with the first note's start and pitch; no neighbour could be merged again |
| SimpleBackend.Mergeable | app_simple.py:180-182 | a note is folded in exactly when it starts less than the threshold after the running note and lies within 2 semitones of it |
| SimpleBackend.MergeFrom | app_simple.py:179-192 | the merge from a running note: at most one note more than the rest, starting with the running note's start and pitch, with no neighbours left to merge |
| SimpleBackend.MergeSimilarNotes | app_simple.py:171-193 | the one-pass loop returns `Merged` |
| SimpleBackend.MergeFromStep | app_simple.py:180-190 | the next note is folded in exactly when it starts within the threshold and lies within 2 semitones; otherwise the running note is emitted |
| SimpleBackend.MergeFromOnsets | app_simple.py:179-192 | the emitted (start, pitch) pairs are a subsequence of the running note's and the remaining notes' pairs |
| SimpleBackend.MergedOnsetsSubsequence | app_simple.py:179-192 | the output's (start, pitch) pairs are a subsequence of the input's, in input order |
| SimpleBackend.MergeFromSettled | app_simple.py:179-192 | a list with no mergeable neighbours passes through unchanged |
| SimpleBackend.MergeIdempotent | app_simple.py:171-193 | merging twice is merging once |
| SimpleBackend.MergeExample | app_simple.py:180-184 | with threshold 0.1, a note 0.05 later and 2 semitones away is folded in; one 3 semitones away is kept |
| Backend.ToNote | app.py:66-71 | the record keeps pitch and start, and ends where the event ends |
| Backend.ToNotes | app.py:64-71 | one record per event, in event order |
| Backend.SortByStart | app.py:82 | the array ends sorted by start time and is a permutation of its old contents |
| Backend.InsertAt | app.py:82 | one insertion step extends the sorted prefix by one and permutes the array |
| Backend.ExtractMelody | app.py:56-89 | success exactly when there are events; failure is `success = false` with no notes; success gives sorted notes that permute the converted events, with the latest end as the total |
| Backend.TotalIsLatestEventEnd | app.py:88 | the reported total bounds every event's end and is one of them |

## Left out

- Strudel's dynamic import and its probing for an `eval` entry point become one outcome parameter.
- Tone.js synths, effects, `Tone.start()`, the transport tempo and `Transport.position` are not modelled. So is `Tone.Frequency(...).toNote()` in the melody events, which keep the MIDI number.
- Status text, `enableControls`, `showCodeBlock`, the pixel animation and the code display are presentation only.
- The microphone recording, the waveform canvas and the `fetch` upload to a back-end are browser I/O and network.
- The 2-second `setTimeout` before the simulated extraction is a clock.
- The export button's Blob download is file I/O.
- The full-arrangement display button only shows text already modelled: `Pattern.MelodyToStrudelPattern` and `Pattern.GenerateChordProgression` with key C.
- Pattern.LookupRoot: a numeral that names an inherited property (for example `constructor` in any table, or `length` and `name` under a key such as `toString`, whose value is a function) is treated as missing. The source would render that property's value instead of an empty slot.
- Flask routes, temporary files, audio conversion, the pitch tracker itself, and the Hz-to-MIDI conversion are external libraries and signal processing. The tracker's result is an input.
- Floating point is not modelled in the browser's loops, whose times are multiples of 0.25 and so exact. Melodies that arrive from a back-end carry its floating-point times, and the page's comparisons on them are modelled on exact reals.
- Backend.ToNote: uses exact reals for the tracker's floating-point times. In floating point the record's end `start + (end - start)` need not equal the event's end, and `int(velocity * 127)` truncates the rounded product. The model promises the exact-real values.
- Backend.TotalIsLatestEventEnd: holds on exact reals. In floating point the reported total is the latest rounded `start + duration`, which can differ from the latest event end by a rounding error.
- Uploads.Lower: maps only the ASCII letters. Python's `str.lower()` also maps other letters and can lengthen the text (`İ` becomes two code points). The verdict is unaffected: no other character lower-cases to a letter of `webm`, `wav`, `mp3` or `m4a`, or to a dot.
- Handlers run one at a time. The `await`s in `handlePlay` are not interleaved with other clicks.
- Backend.SortByStart: does not state stability. Python's sort keeps notes with equal start times in input order; the model promises sortedness and a permutation only.
- SimpleBackend.MergeSimilarNotes: works on values. The source updates the first note's dictionary in place, so the caller's input list changes too; that aliasing is not captured.
- Playback.Player.HandleStop: a throw is modelled only at the transport stop. If resetting `Transport.position` threw after the stop succeeded, the parts would not be cleared, and the model does not show that case.
- Playback.Player.PlayWithTone: the synthesizer constructors are assumed not to throw. A throw after some parts were pushed would leave a partial part list.
- Generators.RandomVelocity: uses an exact real. In floating point `70 + Math.random() * 30` rounds to exactly 100 for the largest draws (for example `1 - 2^-53`), so the source's velocity lies in [70, 100] rather than [70, 100).
- Encoder.DurationBandMonotone: requires a non-negative tempo. With a negative tempo the ratio is negative and the order of bands reverses.

## Findings

| source | as written | input that shows it | evidently intended | confidence | as-written member | corrected member |
|---|---|---|---|---|---|---|
| strudel-demo.js:87-89 | a numeral missing from the key's table maps to `undefined`, which `join` renders as empty text | key `C`, progression `I-ii` gives `sound("pad").chord("c4 ").gain(0.3)` | report the unknown numeral instead of emitting an empty chord slot | high; not executed | Pattern.UnknownNumeralLeavesEmptySlot | Pattern.ChordProgressionOrError |
| strudel-demo.js:888-889 | stop calls the engine's stop hook only through `strudelInstance`, which is declared `null` at line 6 and never assigned | load the example, convert, play with the engine evaluating the program, press stop: the page reports idle while the engine was never told to stop | stopping also stops the pattern engine | medium; not executed | Playback.EngineOutlivesStop | Playback.Player.HandleStopIntended |
