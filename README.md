# transcript: the audio, recorder and whisper packages in Dafny

`transcript` is a command-line tool and HTTP server. It records speech or
loads an audio file, converts the audio to 16 kHz mono samples, and turns the
samples into text with a local speech-recognition engine (whisper.cpp). This
project models the three packages that do that work, and proves properties
of the model:

- **`internal/audio`** (module `Audio`): loads a file or a reader through
  ffmpeg. It classifies ffmpeg's error output. It decodes the raw `f32le`
  stream into samples, four little-endian bytes per sample. It also decides
  from a path's extension whether a file is a supported audio format.
- **`internal/recorder`** (module `Recorder`): a `Recorder` object that starts
  and stops a `sox` capture into a temporary file. On stop it loads the
  captured audio, keeps the samples, and copies the file to the output path
  or removes it. A package-level test mode skips the processes and uses
  canned samples. It is modelled as a `TestHooks` object.
- **`internal/whisper`** (module `Whisper`): `NewClient` runs the ordered
  setup of the engine and releases the model on every failure after loading
  it. `Transcribe` pulls segments until the engine reports an error and joins
  their texts with single spaces. `Close` releases the model.

Two support modules hold the parts of Go's standard library that these
packages depend on. `GoStrings` has `strings.ToLower`, `strings.Contains`,
`strings.TrimSpace` and `strings.Join`. `FilePath` has `filepath.Ext`.
`Results` holds the `Option` and `Result` datatypes.

The outside world is given to the model as explicit inputs:

- `Audio.FFmpegRun`: whether ffmpeg succeeded, with its stdout bytes and its
  stderr text.
- `Audio.FileProbe`: whether the file is missing, cannot be opened, or is
  readable.
- `Recorder.StartEnv` and `Recorder.StopEnv`: the outcomes of the temporary
  file, the sox lookup and start, the copy, and the WAV write.
- `Whisper.EngineAnswers` and a `Pull` stream: the engine's answers.

Some of what the code does to the outside world is recorded as a trace:

- In the recorder, the ghost field `effects` lists the actions that change
  the file system or start and stop processes: creating the temporary file,
  starting and terminating sox, copying, removing and writing a WAV file.
  Copying and writing are recorded when they are attempted, whether or not
  they succeed.
- Existence checks, opens, the sox lookup and the ffmpeg run (including the
  ones inside `LoadAudioFile`, which the recorder calls) are inputs only and
  leave no trace entry. The `Audio` module keeps no trace.
- In the client, each operation returns the list of engine calls it made,
  in order. For `NewClient` this includes the existence check of the model
  file.

Samples are kept as their 32-bit patterns (`bv32`). The loader
reinterprets those bits as `float32`, and the model does not interpret them
further.

Behaviour of the code worth knowing:

- Neither `StartRecording` nor `StopRecording` removes the temporary file on
  a failure path. After a failed copy, the file stays on disk.
- A recorder can be started again after it has stopped.
- `StopRecording` checks only that the temporary file exists, not that it is
  non-empty.
- `Close` is not idempotent. Calling it twice calls the model's `Close`
  again. Only a single call is modelled.

## Model

| member | source | states |
|---|---|---|
| Audio.DecodeLE | internal/audio/loader.go:83-89 | the buffer holds one sample per four bytes; sample i is the little-endian 32-bit word of bytes 4i..4i+3 |
| Audio.WordRoundTrip | internal/audio/loader.go:87 | splitting a word into its four little-endian bytes and reassembling them gives the word back |
| Audio.BytesRoundTrip | internal/audio/loader.go:86-87 | assembling four bytes little-endian and splitting the word again gives the same bytes in the same order |
| Audio.DecodeEncode | internal/audio/loader.go:83-89 | decoding the f32le encoding of any sample sequence gives that sequence back |
| Audio.EncodeDecode | internal/audio/loader.go:78-89 | every byte stream whose length is a multiple of 4 is exactly the encoding of its decoded samples, so no byte is lost or reordered |
| Audio.ClassifyStderr | internal/audio/loader.go:64-75 | an ffmpeg failure is an unsupported format, a permission error or a generic ffmpeg error; the generic error's text has no character the model's lower-casing changes and no white space at either end |
| Audio.ClassifyByOccurrence | internal/audio/loader.go:64-75 | the first matching case wins: "invalid data found" anywhere in the lower-cased output gives exactly the unsupported-format error; otherwise "operation not permitted" anywhere gives exactly the permission error; the generic error carries the whole lower-cased output with surrounding white space trimmed |
| Audio.TrimmedLowerIsNormalized | internal/audio/loader.go:66-73 | trimming a message that lower-casing leaves unchanged keeps it so, with no white space at either end |
| Audio.ClassifyIgnoresCase | internal/audio/loader.go:66 | the classification does not depend on the letter case of ffmpeg's output |
| Audio.InvalidDataIsUnsupported | internal/audio/loader.go:66-69 | output that contains "invalid data found" in any letter case, anywhere, is reported as an unsupported format, even if it also mentions a permission problem |
| Audio.TextFileIsUnsupported | internal/audio/loader_test.go:24-31 | ffmpeg's usual complaint about a non-audio input is classified as an unsupported format |
| Audio.Converted | internal/audio/loader.go:62-91 | the conversion fails exactly when ffmpeg fails or the output length is not a multiple of 4; a failed run reports the classification of its stderr, and a bad length reports that length; on success there are length/4 samples whose encoding is exactly ffmpeg's output |
| Audio.TextFileConversionFails | internal/audio/loader_test.go:24-31 | a failed ffmpeg run that complains of invalid data converts to the unsupported-format error, whatever it wrote to stdout |
| Audio.ConvertedRoundTrip | internal/audio/loader.go:78-91 | when ffmpeg succeeds and writes the encoding of some samples, exactly those samples come back |
| Audio.ConvertAudioWithFFmpeg | internal/audio/loader.go:45-92 | the sample buffer filled in place by the decode loop equals the conversion specification, including both error cases |
| Audio.LoadAudioFile | internal/audio/loader.go:19-32 | a missing file is reported as not existing and a file that cannot be opened as an open failure; a readable file gives the conversion's result |
| Audio.LoadAudioFromReader | internal/audio/loader.go:35-41 | a failed read is reported as a read failure; otherwise the result is the conversion's result |
| Audio.IsSupportedAudioFormat | internal/audio/loader.go:95-107 | only a path that has an extension can be accepted |
| Audio.ListedAreExtensions | internal/audio/loader.go:97-99 | every entry of the allow-list is a lower-case extension: a dot followed by non-dot, non-slash characters |
| Audio.ExtOfFoldedSuffix | internal/audio/loader.go:96 | a path that ends, ignoring case, with a listed extension has exactly that extension once lower-cased |
| Audio.SupportedIffListedSuffix | internal/audio/loader.go:95-107 | a path is supported exactly when it ends, ignoring case, with one of the nine listed extensions |
| Audio.AcceptsWav | internal/audio/loader_test.go:45 | "test.wav" is supported |
| Audio.AcceptsWavInDirectory | internal/audio/loader_test.go:53 | "/path/to/audio.wav" is supported |
| Audio.AcceptsUpperCase | internal/audio/loader.go:96 | "SONG.OPUS" is supported, because the extension is lower-cased before the lookup |
| Audio.AcceptsDottedCapitalI | internal/audio/loader.go:96 | "x.A\u0130FF" is supported, because U+0130 lower-cases to "i" and the extension becomes ".aiff" |
| Audio.RejectsTxt | internal/audio/loader_test.go:50 | "test.txt" is not supported |
| Audio.RejectsNoExtension | internal/audio/loader_test.go:52 | "test" is not supported |
| Audio.RejectsDocx | internal/audio/loader_test.go:54 | "/path/to/document.docx" is not supported |
| GoStrings.ToLower | internal/audio/loader.go:66 | lower-casing keeps the length and maps every character independently |
| GoStrings.IsUpperIff | internal/audio/loader.go:66 | the characters counted as capitals are exactly those that lower-casing changes |
| GoStrings.ToLowerHasNoUpper | internal/audio/loader.go:66 | a lower-cased string has no character that lower-casing would change |
| GoStrings.ToLowerIdempotent | internal/audio/loader.go:66 | lower-casing twice is the same as lower-casing once |
| GoStrings.ToLowerOfLower | internal/audio/loader.go:66 | a string with no character that lower-casing changes is left unchanged |
| GoStrings.ToLowerConcat | internal/audio/loader.go:66 | lower-casing distributes over concatenation |
| GoStrings.Contains | internal/audio/loader.go:68-70 | a substring is never longer than the text containing it; a prefix is contained, and so is anything contained in the text after its first character |
| GoStrings.ContainsIff | internal/audio/loader.go:68-70 | `Contains` holds exactly when the substring occurs at some position |
| GoStrings.ContainsAt | internal/audio/loader.go:68-70 | a substring placed at any position is found |
| GoStrings.LeadingSpaceEnd | internal/audio/loader.go:73 | the forward scan of TrimSpace stops at the first character that is not white space, and everything it passed is white space |
| GoStrings.TrailingSpaceStart | internal/audio/loader.go:73 | the backward scan of TrimSpace stops after the last character that is not white space, and everything it passed is white space |
| GoStrings.TrimSpace | internal/audio/loader.go:73 | the trimmed text is no longer than the input and neither starts nor ends with white space |
| GoStrings.TrimSpaceSlice | internal/audio/loader.go:73 | the trimmed text is a contiguous slice of the input, everything outside it is white space, and the slice neither begins nor ends with white space |
| GoStrings.Join | internal/whisper/client.go:97 | no parts join to the empty string; otherwise the result is at least as long as the first part and as the last part |
| GoStrings.JoinEnds | internal/whisper/client.go:97 | the transcript starts with the first segment's text and ends with the last segment's text |
| GoStrings.JoinSnoc | internal/whisper/client.go:94-97 | appending one more segment appends the separator and its text to the joined transcript |
| GoStrings.JoinConcat | internal/whisper/client.go:97 | joining two non-empty lists equals joining each and putting a separator between them |
| GoStrings.JoinLength | internal/whisper/client.go:97 | the joined length is the sum of the part lengths plus one separator per gap |
| GoStrings.JoinEmptyIff | internal/whisper/client.go:97 | with a non-empty separator, the result is empty exactly when there are no parts or a single empty part |
| FilePath.Ext | internal/audio/loader.go:96 | the extension is empty or a suffix of the path that starts with its only dot and contains no slash |
| FilePath.ExtEmptyIff | internal/audio/loader.go:96 | the extension is empty exactly when the last path element contains no dot |
| FilePath.ExtOfSuffix | internal/audio/loader.go:96 | a path ending in an extension-shaped suffix has that suffix as its extension |
| FilePath.ExtSnoc | internal/audio/loader.go:96 | how the extension changes when one non-slash character is appended to the path |
| FilePath.ExtIgnoresDirectory | internal/audio/loader_test.go:53-54 | the directory part never affects the extension |
| Recorder.TestHooks.constructor | internal/recorder/recorder.go:16-23 | test mode starts switched off with no canned samples |
| Recorder.TestHooks.EnableTestMode | internal/recorder/recorder.go:26-29 | test mode is on and the canned samples are those given |
| Recorder.TestHooks.DisableTestMode | internal/recorder/recorder.go:32-35 | test mode is off and the canned samples are cleared |
| Recorder.Recorder.constructor | internal/recorder/recorder.go:48-54 | a new recorder is idle at 16000 Hz with an empty buffer, no process, no temporary file and no actions performed |
| Recorder.Recorder.GetAudioData | internal/recorder/recorder.go:180-182 | returns the current sample buffer |
| Recorder.Recorder.StartRecording | internal/recorder/recorder.go:58-100 | refused while recording; in test mode it only sets the flag; otherwise it records only after the temporary file is created and sox is found and started, each failure is reported by kind, and the stored process is the mono 16000 Hz sox command writing to that temporary file |
| Recorder.Recorder.Save | internal/recorder/recorder.go:185-225 | an empty buffer is refused before any file is touched; otherwise one WAV file is written at the path and a write failure is reported |
| Recorder.Recorder.StopRecording | internal/recorder/recorder.go:121-177 | refused unless recording, and otherwise always stops; test mode stores the canned samples and saves them to a non-empty output path; otherwise sox is terminated, a missing or unloadable temporary file is reported without touching the buffer, loaded samples are stored, and the file is copied to the output path and removed; success returns the output path and ends by removing the temporary file; no failure removes anything |
| Recorder.BasicRecordingFlow | internal/recorder/recorder_test.go:15-39 | start then stop in test mode with an output file returns that file's path, and the only file action is writing the WAV file there |
| Recorder.DoubleStartFails | internal/recorder/recorder_test.go:41-52 | a second start without a stop is refused as already recording |
| Recorder.StopWithoutStartFails | internal/recorder/recorder_test.go:54-58 | stopping a recorder that never started is refused as not recording |
| Recorder.GetAudioDataAfterStop | internal/recorder/recorder_test.go:60-75 | after a test-mode recording the buffer holds exactly the canned samples |
| Whisper.GoUint | internal/whisper/client.go:62 | the thread count is converted to an unsigned 64-bit integer: unchanged when in range, otherwise wrapped modulo 2^64 |
| Whisper.NewClient | internal/whisper/client.go:26-70 | an empty path and a missing file are refused first; setup succeeds exactly when the model loads, gets a context and, for an explicit language, is multilingual and accepts the language; the client then owns that model with the given language and thread count |
| Whisper.FailureKinds | internal/whisper/client.go:37-58 | a failed load, a failed context, a single-language model and a rejected language each give their own error; the load comes before the context, the context before the multilingual query, and the query before setting the language; each failure's call trace ends there |
| Whisper.SuccessOrder | internal/whisper/client.go:37-69 | a successful setup makes exactly these calls in order: check, load, context, then for an explicit language the multilingual query and the language, then the thread count |
| Whisper.CheckedBeforeLoad | internal/whisper/client.go:27-40 | the model file's existence is checked first, and the model is loaded exactly when a path is given and the file exists |
| Whisper.ReleasedOnFailure | internal/whisper/client.go:43-58 | every failure after the model has loaded releases it exactly once, as the last call; when no model was loaded nothing is released |
| Whisper.SuccessKeepsModel | internal/whisper/client.go:61-69 | on success the model is not released and the thread count is the last setting applied |
| Whisper.AutoLanguageNotApplied | internal/whisper/client.go:50 | with "" or "auto" the engine is neither asked whether it is multilingual nor given a language |
| Whisper.SingleLanguageModelRefused | internal/whisper/client.go:50-54 | an explicit language on a single-language model is refused without trying to set it |
| Whisper.Close | internal/whisper/client.go:73-77 | Close releases the model once when the client holds one, and makes no call otherwise |
| Whisper.ModelReleasedOnce | internal/whisper/client.go:37-77 | over a client's life, setup followed by Close when setup succeeded, a loaded model is released exactly once and nothing is released otherwise |
| Whisper.TextsBeforeError | internal/whisper/client.go:88-95 | the collected texts are the engine's segments in order, up to but not including its first error |
| Whisper.TextsIgnoreAfterError | internal/whisper/client.go:89-93 | nothing the engine would yield after its first error reaches the transcript |
| Whisper.EmptyTranscriptIff | internal/whisper/client.go:97 | the transcript is empty exactly when there was no segment or a single empty one |
| Whisper.Transcribe | internal/whisper/client.go:80-98 | a processing failure is reported and no segment is read; otherwise one NextSegment call is made per segment plus one for the final error, and the result is the segment texts before the first error joined with single spaces |

## Left out

- The ffmpeg process itself, meaning its arguments, the `aresample`/`dynaudnorm` filter graph and the pipes, is not modelled. Its outcome (success flag, stdout bytes, stderr text) is an input.
- The float interpretation of samples (`unsafe.Pointer` to `float32`) is not modelled. A sample is its 32-bit pattern, because floating-point values play no part in any property here.
- Recorder.Recorder.Save: the conversion of each float sample to a 16-bit integer and the WAV encoding are not modelled. Save records one `WroteWav` action, with success given as an input, because both steps are floating-point and library work.
- The wrapped error texts (`%w`, `%q`, `%v`) are not modelled. Errors are datatype values. The ffmpeg output carried by the generic ffmpeg error is kept, and `Recorder.LoadFailed` keeps the loader error it wraps as its cause. Other wrapped causes (the errors of `os`, `exec` and the whisper binding) are dropped.
- GoStrings.ToLower: maps only the characters whose lower-case form is ASCII, which are 'A'..'Z', U+0130 and U+212A. Other non-ASCII capitals are left unchanged, while Go maps each of them to a non-ASCII lower-case letter. Matching the ASCII signatures and the allow-list gives the same answers either way. The text kept in a generic ffmpeg error can differ in those letters.
- Strings are sequences of characters, not UTF-8 bytes.
- FilePath.Ext: only `/` is treated as a separator. The Windows form of `filepath.Ext` is not modelled.
- The file system is not modelled: `os.Stat`, `os.Open`, `os.CreateTemp`, `copyFile`, `os.Remove` and `io.ReadAll`. Each outcome is an input. Creating, copying, removing and writing files are recorder trace entries; existence checks and opens are not. An error from `os.Stat` other than not-existing counts as existing, as in the code.
- `exec.LookPath`, starting sox, `SIGTERM` and `Wait` are modelled only as outcome inputs and trace entries. The `execCommand` override variable is not modelled.
- Recorder.Recorder.StopRecording: the existence check on the temporary file and the one inside `LoadAudioFile` are modelled as a single probe. The file cannot change between the two checks in the model.
- Speech recognition inside whisper.cpp is not modelled. Segment texts and the engine's answers are inputs, and the `Process` callbacks are not modelled.
- Whisper.GoUint: `uint` is taken to be 64 bits wide. On a 32-bit platform Go wraps the thread count modulo 2^32 instead.
- The `Client` interface and the stored engine context are not modelled. `WhisperClient` keeps the model, the language and the thread count.
- `Whisper.Close` is modelled for a single call only. Calling it again would call the model's `Close` again, and what that does is up to the whisper binding.
- Go's distinction between a nil slice and an empty slice is not modelled. Both are the empty sequence.
- Concurrency is not modelled. The packages here take no locks.
- The `transcriber`, `server`, `utils` and `version` packages and the `cmd` commands are not part of this model.
