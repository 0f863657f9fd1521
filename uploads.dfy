/** The upload filter shared by both back-ends: a recording is accepted when the
    text after the last dot of its file name, lower-cased, is one of the audio
    extensions the server can decode. */
module Uploads {

  const AllowedExtensions: set<string> := {"webm", "wav", "mp3", "m4a"}

  /** `str.lower()` on one character, for the ASCII letters. */
  function LowerChar(ch: char): char
  {
    if 'A' <= ch <= 'Z' then (ch as int - 'A' as int + 'a' as int) as char else ch
  }

  /** `str.lower()`, for the ASCII letters. */
  function Lower(s: string): (t: string)
    ensures |t| == |s|
    ensures forall i :: 0 <= i < |s| ==> t[i] == LowerChar(s[i])
  {
    seq(|s|, i requires 0 <= i < |s| => LowerChar(s[i]))
  }

  /** Position of the last dot of a name that has one. */
  function LastDot(s: string): (k: nat)
    requires '.' in s
    ensures k < |s| && s[k] == '.'
    ensures '.' !in s[k + 1..]
  {
    if s[|s| - 1] == '.' then |s| - 1
    else
      assert '.' in s[..|s| - 1] by {
        var i :| 0 <= i < |s| && s[i] == '.';
        assert s[..|s| - 1][i] == '.';
      }
      var k := LastDot(s[..|s| - 1]);
      assert s[k + 1..] == s[..|s| - 1][k + 1..] + [s[|s| - 1]];
      k
  }

  /** `'.' in filename and filename.rsplit('.', 1)[1].lower() in ALLOWED_EXTENSIONS`. */
  function AllowedFile(filename: string): bool
  {
    '.' in filename && Lower(filename[LastDot(filename) + 1..]) in AllowedExtensions
  }

  /** A name is accepted exactly when it has a dot after which no dot follows and the
      rest, lower-cased, is an allowed extension. */
  lemma AllowedFileIff(filename: string)
    ensures AllowedFile(filename) <==>
      exists k :: 0 <= k < |filename| && filename[k] == '.' && '.' !in filename[k + 1..]
        && Lower(filename[k + 1..]) in AllowedExtensions
  {
    if '.' in filename {
      var last := LastDot(filename);
    }
  }

  /** A dot with no dot after it is the last dot. */
  lemma LastDotUnique(s: string, k: nat)
    requires k < |s| && s[k] == '.' && '.' !in s[k + 1..]
    ensures LastDot(s) == k
  {
    var last := LastDot(s);
  }

  /** A name without a dot is always refused. */
  lemma NoDotRefused(filename: string)
    requires '.' !in filename
    ensures !AllowedFile(filename)
  {
  }

  /** Any stem followed by a dot and an allowed extension, in any letter case, is accepted. */
  lemma ExtensionAccepted(stem: string, ext: string)
    requires Lower(ext) in AllowedExtensions
    ensures AllowedFile(stem + "." + ext)
  {
    var name := stem + "." + ext;
    assert name[|stem|] == '.';
    assert name[|stem| + 1..] == ext;
    assert '.' !in Lower(ext);
    AllowedFileIff(name);
  }

  /** Lower-casing the whole name first never changes the verdict. */
  lemma AllowedFileCaseInsensitive(filename: string)
    ensures AllowedFile(Lower(filename)) == AllowedFile(filename)
  {
    var low := Lower(filename);
    LowerKeepsDots(filename);
    if '.' in filename {
      var k := LastDot(filename);
      var ext := filename[k + 1..];
      LowerSlice(filename, k + 1);
      LowerIdempotent(ext);
      AllowedFileAt(filename, k);
      AllowedFileAt(low, k);
    } else {
      NoDotRefused(low);
      NoDotRefused(filename);
    }
  }

  /** The verdict for a name whose last dot is at `k`. */
  lemma AllowedFileAt(s: string, k: nat)
    requires k < |s| && s[k] == '.' && '.' !in s[k + 1..]
    ensures AllowedFile(s) == (Lower(s[k + 1..]) in AllowedExtensions)
  {
    LastDotUnique(s, k);
  }

  /** Lower-casing moves no dot. */
  lemma LowerKeepsDots(s: string)
    ensures forall i :: 0 <= i < |s| ==> (Lower(s)[i] == '.' <==> s[i] == '.')
    ensures '.' in Lower(s) <==> '.' in s
    ensures forall k :: 0 <= k <= |s| ==> ('.' in Lower(s)[k..] <==> '.' in s[k..])
  {
    var low := Lower(s);
    forall k | 0 <= k <= |s| ensures '.' in low[k..] <==> '.' in s[k..] {
      if '.' in s[k..] {
        var i :| 0 <= i < |s[k..]| && s[k..][i] == '.';
        assert low[k..][i] == '.';
      }
      if '.' in low[k..] {
        var i :| 0 <= i < |low[k..]| && low[k..][i] == '.';
        assert s[k..][i] == '.';
      }
    }
    assert low[0..] == low && s[0..] == s;
  }

  lemma LowerSlice(s: string, k: nat)
    requires k <= |s|
    ensures Lower(s)[k..] == Lower(s[k..])
  {
  }

  lemma LowerIdempotent(s: string)
    ensures Lower(Lower(s)) == Lower(s)
  {
  }

  /** The cases the upload filter is meant to tell apart. */
  lemma UploadExamples()
    ensures AllowedFile("x.WAV")
    ensures AllowedFile("a.b.mp3")
    ensures !AllowedFile("a.wav.txt")
    ensures !AllowedFile("wav")
    ensures !AllowedFile("song.")
  {
    ExamplesAccepted();
    LastExtensionDecides();
    NoDotRefused("wav");
    EmptyExtensionRefused();
  }

  lemma ExamplesAccepted()
    ensures AllowedFile("x.WAV")
    ensures AllowedFile("a.b.mp3")
  {
    assert Lower("WAV") == "wav";
    ExtensionAccepted("x", "WAV");
    assert Lower("mp3") == "mp3";
    ExtensionAccepted("a.b", "mp3");
  }

  lemma LastExtensionDecides()
    ensures !AllowedFile("a.wav.txt")
  {
    var ext := "a.wav.txt"[6..];
    assert ext == "txt";
    assert Lower(ext)[0] == 't';
    AllowedFileAt("a.wav.txt", 5);
  }

  lemma EmptyExtensionRefused()
    ensures !AllowedFile("song.")
  {
    assert "song."[5..] == [];
    AllowedFileAt("song.", 4);
  }
}
