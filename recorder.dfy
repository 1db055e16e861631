/**
 * The recording session (`internal/recorder`): a Recorder object whose
 * fields are updated by StartRecording and StopRecording.  The capture tool
 * (sox), the temporary file, the copy to the output path and the WAV writer
 * are outside the model; each of their outcomes is an input, and what they
 * did to the file system and to processes is recorded in the ghost field
 * `effects`.
 */
module Recorder {
  import opened Results
  import Audio

  type Word = Audio.Word

  /** The capture process: `sox -d -r <sampleRate> -c <channels> <target>`. */
  datatype SoxCommand = SoxCommand(sampleRate: nat, channels: nat, target: string)

  /** An action on the file system or on a process. */
  datatype Effect =
    | CreatedTemp(path: string)       // os.CreateTemp
    | StartedCapture(cmd: SoxCommand) // cmd.Start
    | Terminated(cmd: SoxCommand)     // SIGTERM, then Wait
    | Copied(src: string, dst: string) // copyFile, recorded whether or not the copy succeeds
    | Removed(path: string)
    | WroteWav(path: string)          // os.Create and the WAV encoder, recorded whether or not the write succeeds

  datatype RecorderError =
    | AlreadyRecording                // "already recording"
    | NotRecording                    // "not currently recording"
    | TempFileFailed                  // "failed to create temp file: ..."
    | SoxMissing                      // "sox audio tool is required: ..."
    | StartFailed                     // "failed to start recording: ..."
    | RecordingFileNotFound           // "recording file not found, recording may have failed"
    | LoadFailed(cause: Audio.LoadError) // "failed to load recorded audio: ..."
    | CopyFailed                      // "failed to save recording to output file: ..."
    | NoAudioData                     // "no audio data recorded"
    | WriteFailed                     // "failed to create file", "failed to write audio data", ...

  /** What the environment answers while a recording starts. */
  datatype StartEnv = StartEnv(tempFile: Option<string>, soxFound: bool, startOk: bool)

  /**
   * What the environment answers while a recording stops: the probe of the
   * temporary file, the ffmpeg run that decodes it, whether copying it to
   * the output file works and whether writing a WAV file works.
   */
  datatype StopEnv = StopEnv(tempProbe: Audio.FileProbe, ffmpeg: Audio.FFmpegRun, copyOk: bool, saveOk: bool)

  /** The package-level test switch: when on, no process is run and canned samples are used. */
  class TestHooks {
    var testMode: bool
    var testSamples: seq<Word>

    constructor ()
      ensures !testMode && testSamples == []
    {
      testMode := false;
      testSamples := [];
    }

    method EnableTestMode(samples: seq<Word>)
      modifies this
      ensures testMode && testSamples == samples
    {
      testMode := true;
      testSamples := samples;
    }

    method DisableTestMode()
      modifies this
      ensures !testMode && testSamples == []
    {
      testMode := false;
      testSamples := [];
    }
  }

  class Recorder {
    const outputFile: string
    const sampleRate: nat
    var samples: seq<Word>
    var recording: bool
    var cmd: Option<SoxCommand>
    var tempFile: string
    /** The file-system and process actions this recorder has performed, oldest first. */
    ghost var effects: seq<Effect>

    /**
     * The recorder captures at the engine's rate, and a capture process, once
     * there is one, is the mono sox command writing to the temporary file
     * that this recorder created and then started it on.
     */
    ghost predicate Valid()
      reads this
    {
      && sampleRate == Audio.SampleRate
      && (cmd.Some? ==>
            && cmd.value == SoxCommand(sampleRate, 1, tempFile)
            && CreatedTemp(tempFile) in effects
            && StartedCapture(cmd.value) in effects)
    }

    /** `NewRecorder`: idle, with an empty sample buffer and nothing done yet. */
    constructor (outputFile: string)
      ensures Valid()
      ensures this.outputFile == outputFile && !recording && samples == []
      ensures cmd == None && tempFile == "" && effects == []
    {
      this.outputFile := outputFile;
      sampleRate := Audio.SampleRate;
      samples := [];
      recording := false;
      cmd := None;
      tempFile := "";
      effects := [];
    }

    /** `GetAudioData`: the current sample buffer. */
    method GetAudioData() returns (data: seq<Word>)
      ensures data == samples
    {
      data := samples;
    }

    /**
     * `StartRecording`.  Refused while recording.  In test mode it only sets
     * the flag.  Otherwise it creates the temporary file, looks sox up and
     * starts it; only when all three succeed is the recorder recording, with
     * the process and the temporary file stored.
     */
    method StartRecording(hooks: TestHooks, env: StartEnv) returns (err: Option<RecorderError>)
      requires Valid()
      modifies this
      ensures Valid()
      ensures samples == old(samples)
      ensures recording <==> old(recording) || err == None
      ensures old(recording) ==>
                err == Some(AlreadyRecording) && cmd == old(cmd) && tempFile == old(tempFile) && effects == old(effects)
      ensures !old(recording) && hooks.testMode ==>
                err == None && cmd == old(cmd) && tempFile == old(tempFile) && effects == old(effects)
      ensures !old(recording) && !hooks.testMode ==>
                (err == None <==> env.tempFile.Some? && env.soxFound && env.startOk)
      ensures !old(recording) && !hooks.testMode && env.tempFile.None? ==>
                err == Some(TempFileFailed) && cmd == old(cmd) && tempFile == old(tempFile) && effects == old(effects)
      ensures !old(recording) && !hooks.testMode && env.tempFile.Some? && !env.soxFound ==>
                err == Some(SoxMissing) && cmd == old(cmd) && tempFile == old(tempFile)
                && effects == old(effects) + [CreatedTemp(env.tempFile.value)]
      ensures !old(recording) && !hooks.testMode && env.tempFile.Some? && env.soxFound && !env.startOk ==>
                err == Some(StartFailed) && cmd == old(cmd) && tempFile == old(tempFile)
                && effects == old(effects) + [CreatedTemp(env.tempFile.value)]
      ensures !old(recording) && !hooks.testMode && err == None ==>
                && tempFile == env.tempFile.value
                && cmd == Some(SoxCommand(Audio.SampleRate, 1, tempFile))
                && effects == old(effects) + [CreatedTemp(tempFile), StartedCapture(cmd.value)]
    {
      if recording {
        return Some(AlreadyRecording);
      }
      if hooks.testMode {
        recording := true;
        return None;
      }
      if env.tempFile.None? {
        return Some(TempFileFailed);
      }
      var name := env.tempFile.value;
      effects := effects + [CreatedTemp(name)];
      if !env.soxFound {
        return Some(SoxMissing);
      }
      var command := SoxCommand(sampleRate, 1, name);
      if !env.startOk {
        return Some(StartFailed);
      }
      effects := effects + [StartedCapture(command)];
      recording := true;
      cmd := Some(command);
      tempFile := name;
      return None;
    }

    /**
     * `Save`: an empty buffer is refused before any file is touched;
     * otherwise a 16-bit mono WAV file is written at `path`.
     */
    method Save(path: string, writeOk: bool) returns (err: Option<RecorderError>)
      requires Valid()
      modifies this`effects
      ensures Valid()
      ensures samples == [] ==> err == Some(NoAudioData) && effects == old(effects)
      ensures samples != [] ==>
                effects == old(effects) + [WroteWav(path)] && err == (if writeOk then None else Some(WriteFailed))
    {
      if |samples| == 0 {
        return Some(NoAudioData);
      }
      effects := effects + [WroteWav(path)];
      if !writeOk {
        return Some(WriteFailed);
      }
      return None;
    }

    /**
     * `StopRecording`.  Refused unless recording; otherwise the recorder stops
     * recording whatever happens next.  In test mode the canned samples are
     * stored and, when an output file is set, saved there.  Otherwise the
     * capture process is terminated, the temporary file must exist and load,
     * its samples are stored, and it is copied to the output file (when set)
     * and removed.  A failed copy keeps the temporary file.
     */
    method StopRecording(hooks: TestHooks, env: StopEnv) returns (r: Result<string, RecorderError>)
      requires Valid()
      modifies this
      ensures Valid()
      ensures !recording
      ensures cmd == old(cmd) && tempFile == old(tempFile)
      ensures r.Ok? ==> r.value == outputFile
      ensures !old(recording) ==>
                r == Err(NotRecording) && samples == old(samples) && effects == old(effects)
      ensures old(recording) && hooks.testMode ==>
                && samples == hooks.testSamples
                && (outputFile == "" ==> r == Ok(outputFile) && effects == old(effects))
                && (outputFile != "" && hooks.testSamples == [] ==> r == Err(NoAudioData) && effects == old(effects))
                && (outputFile != "" && hooks.testSamples != [] ==>
                      && effects == old(effects) + [WroteWav(outputFile)]
                      && r == if env.saveOk then Ok(outputFile) else Err(WriteFailed))
      ensures old(recording) && !hooks.testMode ==>
                var stopped := old(effects) + (if old(cmd).Some? then [Terminated(old(cmd).value)] else []);
                var loaded := if env.tempProbe == Audio.Unopenable then Err(Audio.OpenFailed) else Audio.Converted(env.ffmpeg);
                && (env.tempProbe == Audio.Missing ==>
                      r == Err(RecordingFileNotFound) && samples == old(samples) && effects == stopped)
                && (env.tempProbe != Audio.Missing && loaded.Err? ==>
                      r == Err(LoadFailed(loaded.error)) && samples == old(samples) && effects == stopped)
                && (env.tempProbe != Audio.Missing && loaded.Ok? ==>
                      && samples == loaded.value
                      && (outputFile == "" ==> r == Ok(outputFile) && effects == stopped + [Removed(tempFile)])
                      && (outputFile != "" && env.copyOk ==>
                            r == Ok(outputFile) && effects == stopped + [Copied(tempFile, outputFile), Removed(tempFile)])
                      && (outputFile != "" && !env.copyOk ==>
                            r == Err(CopyFailed) && effects == stopped + [Copied(tempFile, outputFile)]))
      ensures old(recording) && !hooks.testMode && r.Ok? ==> effects[|effects| - 1] == Removed(tempFile)
      ensures r.Err? ==> forall i :: |old(effects)| <= i < |effects| ==> !effects[i].Removed?
    {
      if !recording {
        return Err(NotRecording);
      }
      recording := false;

      if hooks.testMode {
        samples := hooks.testSamples;
        if outputFile != "" {
          var err := Save(outputFile, env.saveOk);
          if err.Some? {
            return Err(err.value);
          }
        }
        return Ok(outputFile);
      }

      if cmd.Some? {
        effects := effects + [Terminated(cmd.value)];
      }
      if env.tempProbe == Audio.Missing {
        return Err(RecordingFileNotFound);
      }
      var loaded := Audio.LoadAudioFile(env.tempProbe, env.ffmpeg);
      if loaded.Err? {
        return Err(LoadFailed(loaded.error));
      }
      samples := loaded.value;
      if outputFile != "" {
        effects := effects + [Copied(tempFile, outputFile)];
        if !env.copyOk {
          return Err(CopyFailed);
        }
        effects := effects + [Removed(tempFile)];
      } else {
        effects := effects + [Removed(tempFile)];
      }
      return Ok(outputFile);
    }
  }

  // ---------------------------------------------------------------------------
  // The package's test scenarios, restated against the contracts above.

  /**
   * Start then stop in test mode with an output file: the output path comes
   * back, and the only file action was writing the WAV file there.
   */
  method BasicRecordingFlow(testSamples: seq<Word>, output: string, env: StopEnv)
    returns (path: Result<string, RecorderError>, ghost effects: seq<Effect>)
    requires testSamples != [] && output != "" && env.saveOk
    ensures path == Ok(output)
    ensures effects == [WroteWav(output)]
  {
    var hooks := new TestHooks();
    hooks.EnableTestMode(testSamples);
    var rec := new Recorder(output);
    var err := rec.StartRecording(hooks, StartEnv(None, false, false));
    path := rec.StopRecording(hooks, env);
    effects := rec.effects;
    hooks.DisableTestMode();
  }

  /** A second start without a stop is refused with AlreadyRecording. */
  method DoubleStartFails(testSamples: seq<Word>, env: StartEnv) returns (first: Option<RecorderError>, second: Option<RecorderError>)
    ensures first == None && second == Some(AlreadyRecording)
  {
    var hooks := new TestHooks();
    hooks.EnableTestMode(testSamples);
    var rec := new Recorder("");
    first := rec.StartRecording(hooks, env);
    second := rec.StartRecording(hooks, env);
    hooks.DisableTestMode();
  }

  /** A stop without a start is refused with NotRecording. */
  method StopWithoutStartFails(env: StopEnv) returns (r: Result<string, RecorderError>)
    ensures r == Err(NotRecording)
  {
    var hooks := new TestHooks();
    var rec := new Recorder("");
    r := rec.StopRecording(hooks, env);
  }

  /** After a test-mode recording, GetAudioData returns the canned samples. */
  method GetAudioDataAfterStop(testSamples: seq<Word>, env: StopEnv) returns (data: seq<Word>)
    ensures data == testSamples
  {
    var hooks := new TestHooks();
    hooks.EnableTestMode(testSamples);
    var rec := new Recorder("");
    var err := rec.StartRecording(hooks, StartEnv(None, false, false));
    var path := rec.StopRecording(hooks, env);
    data := rec.GetAudioData();
    hooks.DisableTestMode();
  }
}
