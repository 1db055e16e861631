/**
 * Audio ingestion (`internal/audio`): the result of one ffmpeg conversion is
 * classified and its raw output is decoded into 32-bit little-endian sample
 * words.  ffmpeg itself is an oracle: each run is given by its outcome.
 * Samples are kept as the bit pattern of an IEEE 754 binary32 value; the
 * reinterpretation as a float is not part of this model.
 */
module Audio {
  import opened Results
  import opened GoStrings
  import FilePath

  /** The sample rate the recognition engine expects. */
  const SampleRate: nat := 16000

  /** The bit pattern of one binary32 sample. */
  type Word = bv32

  /** What one ffmpeg run produced: whether it succeeded, its stdout and its stderr. */
  datatype FFmpegRun = FFmpegRun(ok: bool, stdout: seq<bv8>, stderr: string)

  /** What `os.Stat` and `os.Open` report for an input path. */
  datatype FileProbe = Missing | Unopenable | Readable

  datatype LoadError =
    | FileDoesNotExist          // "failed to open audio file: file does not exist"
    | OpenFailed                // "failed to open audio file: ..."
    | ReadFailed                // "failed to read audio data: ..."
    | UnsupportedFormat         // "unsupported audio format"
    | PermissionDenied          // "permission denied"
    | FFmpegFailed(output: string)   // "ffmpeg error: ... (output: ...)"
    | InvalidByteLength(length: nat) // "invalid f32le byte length: N"

  // ---------------------------------------------------------------------------
  // Little-endian words

  /** The word whose little-endian bytes are b0, b1, b2, b3. */
  function WordLE(b0: bv8, b1: bv8, b2: bv8, b3: bv8): Word {
    (b0 as bv32) | ((b1 as bv32) << 8) | ((b2 as bv32) << 16) | ((b3 as bv32) << 24)
  }

  /** The four little-endian bytes of a word, least significant first. */
  function BytesLE(w: Word): (r: seq<bv8>)
    ensures |r| == 4
  {
    [(w & 0xFF) as bv8, ((w >> 8) & 0xFF) as bv8, ((w >> 16) & 0xFF) as bv8, (w >> 24) as bv8]
  }

  /** Encoding a word and decoding its bytes gives the word back. */
  lemma WordRoundTrip(w: Word)
    ensures WordLE(BytesLE(w)[0], BytesLE(w)[1], BytesLE(w)[2], BytesLE(w)[3]) == w
  {
  }

  /** Decoding four bytes and encoding the word gives the bytes back. */
  lemma BytesRoundTrip(b0: bv8, b1: bv8, b2: bv8, b3: bv8)
    ensures BytesLE(WordLE(b0, b1, b2, b3)) == [b0, b1, b2, b3]
  {
  }

  /** The byte stream ffmpeg writes for a sequence of samples. */
  function EncodeLE(ws: seq<Word>): (r: seq<bv8>)
    ensures |r| == 4 * |ws|
  {
    if ws == [] then [] else BytesLE(ws[0]) + EncodeLE(ws[1..])
  }

  /**
   * Each group of four bytes, in order, read as one little-endian word:
   * sample i is raw[4i] | raw[4i+1] << 8 | raw[4i+2] << 16 | raw[4i+3] << 24.
   */
  function DecodeLE(raw: seq<bv8>): (r: seq<Word>)
    requires |raw| % 4 == 0
    ensures |r| == |raw| / 4
    ensures forall i :: 0 <= i < |r| ==> r[i] == WordLE(raw[4 * i], raw[4 * i + 1], raw[4 * i + 2], raw[4 * i + 3])
  {
    if raw == [] then [] else [WordLE(raw[0], raw[1], raw[2], raw[3])] + DecodeLE(raw[4..])
  }

  /** Decoding what was encoded yields the same words, in the same order. */
  lemma {:induction false} DecodeEncode(ws: seq<Word>)
    ensures DecodeLE(EncodeLE(ws)) == ws
  {
    if ws != [] {
      var raw := EncodeLE(ws);
      assert raw[4..] == EncodeLE(ws[1..]);
      WordRoundTrip(ws[0]);
      DecodeEncode(ws[1..]);
    }
  }

  /** Encoding what was decoded yields the same bytes. */
  lemma {:induction false} EncodeDecode(raw: seq<bv8>)
    requires |raw| % 4 == 0
    ensures EncodeLE(DecodeLE(raw)) == raw
    decreases |raw|
  {
    if raw != [] {
      var ws := DecodeLE(raw);
      assert ws[1..] == DecodeLE(raw[4..]);
      BytesRoundTrip(raw[0], raw[1], raw[2], raw[3]);
      EncodeDecode(raw[4..]);
      assert raw == [raw[0], raw[1], raw[2], raw[3]] + raw[4..];
    }
  }

  // ---------------------------------------------------------------------------
  // Classifying ffmpeg's stderr

  /** Text with no character that the model's lower-casing changes, and without surrounding whitespace. */
  predicate Normalized(t: string) {
    && (forall k :: 0 <= k < |t| ==> !IsUpper(t[k]))
    && (t != [] ==> !IsSpace(t[0]) && !IsSpace(t[|t| - 1]))
  }

  /** Trimming a text that lower-casing leaves unchanged gives a normalized text. */
  lemma TrimmedLowerIsNormalized(msg: string)
    requires forall k :: 0 <= k < |msg| ==> !IsUpper(msg[k])
    ensures Normalized(TrimSpace(msg))
  {
    var i, j := TrimSpaceSlice(msg);
    var out := msg[i..j];
    forall k | 0 <= k < |out|
      ensures !IsUpper(out[k])
    {
      assert out[k] == msg[i + k];
    }
  }

  /**
   * The error reported for a failed run, from ffmpeg's stderr lower-cased:
   * the first known signature found wins, otherwise the trimmed text is kept,
   * which is then lower-case and free of surrounding whitespace.
   */
  function ClassifyStderr(stderr: string): (e: LoadError)
    ensures e.UnsupportedFormat? || e.PermissionDenied? || e.FFmpegFailed?
    ensures e.FFmpegFailed? ==> Normalized(e.output)
  {
    var msg := ToLower(stderr);
    if Contains(msg, "invalid data found") then UnsupportedFormat
    else if Contains(msg, "operation not permitted") then PermissionDenied
    else
      ToLowerHasNoUpper(stderr);
      TrimmedLowerIsNormalized(msg);
      FFmpegFailed(TrimSpace(msg))
  }

  /**
   * The three outcomes exactly: the "invalid data found" signature anywhere in
   * the lower-cased stderr gives an unsupported format; otherwise "operation
   * not permitted" anywhere gives a permission error; otherwise the error
   * carries the whole lower-cased stderr with surrounding whitespace trimmed.
   */
  lemma ClassifyByOccurrence(stderr: string)
    ensures var msg := ToLower(stderr);
            ClassifyStderr(stderr) == UnsupportedFormat <==>
              exists i: nat :: OccursAt(msg, "invalid data found", i)
    ensures var msg := ToLower(stderr);
            ClassifyStderr(stderr) == PermissionDenied <==>
              && !(exists i: nat :: OccursAt(msg, "invalid data found", i))
              && exists i: nat :: OccursAt(msg, "operation not permitted", i)
    ensures ClassifyStderr(stderr).FFmpegFailed? ==>
              ClassifyStderr(stderr).output == TrimSpace(ToLower(stderr))
  {
    var msg := ToLower(stderr);
    ContainsIff(msg, "invalid data found");
    ContainsIff(msg, "operation not permitted");
  }

  /** Classification ignores case: it sees the same text as for the lower-cased stderr. */
  lemma ClassifyIgnoresCase(stderr: string)
    ensures ClassifyStderr(ToLower(stderr)) == ClassifyStderr(stderr)
  {
    ToLowerIdempotent(stderr);
  }

  /**
   * A stderr that contains "invalid data found" in any letter case is an
   * unsupported format, whatever else it says.
   */
  lemma InvalidDataIsUnsupported(before: string, signature: string, after: string)
    requires ToLower(signature) == "invalid data found"
    ensures ClassifyStderr(before + signature + after) == UnsupportedFormat
  {
    ToLowerConcat(before + signature, after);
    ToLowerConcat(before, signature);
    var msg := ToLower(before + signature + after);
    assert msg == ToLower(before) + "invalid data found" + ToLower(after);
    assert msg[|before|..|before| + 18] == "invalid data found";
    ContainsAt(msg, "invalid data found", |before|);
  }

  /** ffmpeg's report for a text file fed as audio names an unsupported format. */
  lemma TextFileIsUnsupported()
    ensures ClassifyStderr("pipe:0: " + "Invalid data found" + " when processing input\n") == UnsupportedFormat
  {
    ToLowerConcat("I", "nvalid data found");
    ToLowerOfLower("nvalid data found");
    assert "Invalid data found" == "I" + "nvalid data found";
    InvalidDataIsUnsupported("pipe:0: ", "Invalid data found", " when processing input\n");
  }

  // ---------------------------------------------------------------------------
  // Conversion

  /**
   * The outcome of `convertAudioWithFFmpeg` for one ffmpeg run: a failed run
   * is classified from stderr; a successful run must produce a whole number
   * of 4-byte samples, which are decoded in order.
   */
  function Converted(run: FFmpegRun): (r: Result<seq<Word>, LoadError>)
    ensures r.Err? <==> !run.ok || |run.stdout| % 4 != 0
    ensures !run.ok ==> r == Err(ClassifyStderr(run.stderr))
    ensures run.ok && |run.stdout| % 4 != 0 ==> r == Err(InvalidByteLength(|run.stdout|))
    ensures r.Ok? ==> |r.value| == |run.stdout| / 4 && EncodeLE(r.value) == run.stdout
  {
    if !run.ok then Err(ClassifyStderr(run.stderr))
    else if |run.stdout| % 4 != 0 then Err(InvalidByteLength(|run.stdout|))
    else
      EncodeDecode(run.stdout);
      Ok(DecodeLE(run.stdout))
  }

  /**
   * A failed run on a text file reports an unsupported format, whatever
   * ffmpeg wrote to stdout.
   */
  lemma TextFileConversionFails(out: seq<bv8>)
    ensures Converted(FFmpegRun(false, out, "pipe:0: Invalid data found when processing input\n")) == Err(UnsupportedFormat)
  {
    assert "pipe:0: Invalid data found when processing input\n"
        == "pipe:0: " + "Invalid data found" + " when processing input\n";
    TextFileIsUnsupported();
  }

  /** A run that wrote the encoding of some samples yields exactly those samples. */
  lemma ConvertedRoundTrip(ws: seq<Word>, stderr: string)
    ensures Converted(FFmpegRun(true, EncodeLE(ws), stderr)) == Ok(ws)
  {
    DecodeEncode(ws);
  }

  /**
   * `convertAudioWithFFmpeg`: classify a failed run, check the byte length,
   * then fill a preallocated buffer of len(raw)/4 samples by index.
   */
  method ConvertAudioWithFFmpeg(run: FFmpegRun) returns (r: Result<seq<Word>, LoadError>)
    ensures r == Converted(run)
  {
    if !run.ok {
      return Err(ClassifyStderr(run.stderr));
    }
    var raw := run.stdout;
    if |raw| % 4 != 0 {
      return Err(InvalidByteLength(|raw|));
    }
    var samples := new Word[|raw| / 4];
    var i := 0;
    while i < samples.Length
      invariant 0 <= i <= samples.Length
      invariant forall j :: 0 <= j < i ==> samples[j] == DecodeLE(raw)[j]
    {
      samples[i] := WordLE(raw[i * 4], raw[i * 4 + 1], raw[i * 4 + 2], raw[i * 4 + 3]);
      i := i + 1;
    }
    assert samples[..] == DecodeLE(raw);
    return Ok(samples[..]);
  }

  /**
   * `LoadAudioFile`: a path that does not exist or cannot be opened fails
   * before ffmpeg is consulted; otherwise the file is converted.
   */
  method LoadAudioFile(probe: FileProbe, run: FFmpegRun) returns (r: Result<seq<Word>, LoadError>)
    ensures probe == Missing ==> r == Err(FileDoesNotExist)
    ensures probe == Unopenable ==> r == Err(OpenFailed)
    ensures probe == Readable ==> r == Converted(run)
  {
    if probe == Missing {
      return Err(FileDoesNotExist);
    }
    if probe == Unopenable {
      return Err(OpenFailed);
    }
    r := ConvertAudioWithFFmpeg(run);
  }

  /** `LoadAudioFromReader`: a failed read fails before ffmpeg is consulted. */
  method LoadAudioFromReader(readOk: bool, run: FFmpegRun) returns (r: Result<seq<Word>, LoadError>)
    ensures !readOk ==> r == Err(ReadFailed)
    ensures readOk ==> r == Converted(run)
  {
    if !readOk {
      return Err(ReadFailed);
    }
    r := ConvertAudioWithFFmpeg(run);
  }

  // ---------------------------------------------------------------------------
  // Format hint

  /** The extensions accepted by IsSupportedAudioFormat, in lower case. */
  const SupportedFormats: seq<string> :=
    [".wav", ".mp3", ".ogg", ".flac", ".m4a", ".aac", ".wma", ".aiff", ".opus"]

  /** `IsSupportedAudioFormat`: the lower-cased extension is on the allow-list. */
  function IsSupportedAudioFormat(path: string): (r: bool)
    ensures r ==> FilePath.Ext(path) != ""
  {
    var ext := ToLower(FilePath.Ext(path));
    assert |ext| == |FilePath.Ext(path)|;
    assert forall f :: f in SupportedFormats ==> |f| > 0;
    ext in SupportedFormats
  }

  /** `path` ends with `suffix`, ignoring case as `ToLower` folds it. */
  predicate EndsWithFold(path: string, suffix: string) {
    |suffix| <= |path| && ToLower(path[|path| - |suffix|..]) == suffix
  }

  /** The shape of an extension: a '.' followed by no other '.' and no '/'. */
  predicate IsExtension(e: string) {
    e != [] && e[0] == '.' && '.' !in e[1..] && '/' !in e
  }

  lemma ListedAreExtensions()
    ensures forall f :: f in SupportedFormats ==> IsExtension(f) && ToLower(f) == f
  {
    forall f | f in SupportedFormats
      ensures ToLower(f) == f
    {
      ToLowerOfLower(f);
    }
  }

  /** A path that ends, ignoring case, with an extension has that extension. */
  lemma {:induction false} ExtOfFoldedSuffix(path: string, f: string)
    requires IsExtension(f) && EndsWithFold(path, f)
    ensures ToLower(FilePath.Ext(path)) == f
  {
    var dir := path[..|path| - |f|];
    var s := path[|path| - |f|..];
    assert ToLower(s) == f;
    LowerCharFixes(s[0]);
    forall k | 0 <= k < |s|
      ensures s[k] != '/' && (k > 0 ==> s[k] != '.')
    {
      LowerCharFixes(s[k]);
      if k > 0 { assert f[k] in f[1..]; }
    }
    assert '.' !in s[1..];
    assert path == dir + s;
    FilePath.ExtOfSuffix(dir, s);
  }

  /**
   * An independent reading of the allow-list check: a path is supported
   * exactly when it ends, ignoring case, with one of the listed extensions.
   */
  lemma SupportedIffListedSuffix(path: string)
    ensures IsSupportedAudioFormat(path) <==> exists f :: f in SupportedFormats && EndsWithFold(path, f)
  {
    if IsSupportedAudioFormat(path) {
      var ext := FilePath.Ext(path);
      assert EndsWithFold(path, ToLower(ext));
    }
    if f :| f in SupportedFormats && EndsWithFold(path, f) {
      ListedAreExtensions();
      ExtOfFoldedSuffix(path, f);
    }
  }

  /** "test.wav" is accepted, as the package's tests expect. */
  lemma AcceptsWav()
    ensures IsSupportedAudioFormat("test.wav")
  {
    FilePath.ExtOfSuffix("test", ".wav");
    assert "test" + ".wav" == "test.wav";
    ToLowerOfLower(".wav");
  }

  /** "/path/to/audio.wav" is accepted: directories do not matter. */
  lemma AcceptsWavInDirectory()
    ensures IsSupportedAudioFormat("/path/to/audio.wav")
  {
    FilePath.ExtOfSuffix("/path/to/audio", ".wav");
    assert "/path/to/audio" + ".wav" == "/path/to/audio.wav";
    ToLowerOfLower(".wav");
  }

  /** "SONG.OPUS" is accepted: the extension is compared in lower case. */
  lemma AcceptsUpperCase()
    ensures IsSupportedAudioFormat("SONG.OPUS")
  {
    FilePath.ExtOfSuffix("SONG", ".OPUS");
    assert "SONG" + ".OPUS" == "SONG.OPUS";
    assert ToLower(".OPUS") == ".opus";
  }

  /** U+0130 lower-cases to 'i' as in Go, so ".A\u0130FF" is the listed ".aiff". */
  lemma AcceptsDottedCapitalI()
    ensures IsSupportedAudioFormat("x.A\U{130}FF")
  {
    FilePath.ExtOfSuffix("x", ".A\U{130}FF");
    assert "x" + ".A\U{130}FF" == "x.A\U{130}FF";
    assert ToLower(".A\U{130}FF") == ".aiff";
  }

  /** "test.txt" is rejected, as the package's tests expect. */
  lemma RejectsTxt()
    ensures !IsSupportedAudioFormat("test.txt")
  {
    FilePath.ExtOfSuffix("test", ".txt");
    assert "test" + ".txt" == "test.txt";
    ToLowerOfLower(".txt");
  }

  /** "test", which has no extension, is rejected. */
  lemma RejectsNoExtension()
    ensures !IsSupportedAudioFormat("test")
  {
    FilePath.ExtEmptyIff("test");
  }

  /** "/path/to/document.docx" is rejected. */
  lemma RejectsDocx()
    ensures !IsSupportedAudioFormat("/path/to/document.docx")
  {
    FilePath.ExtOfSuffix("/path/to/document", ".docx");
    assert "/path/to/document" + ".docx" == "/path/to/document.docx";
    ToLowerOfLower(".docx");
  }
}
