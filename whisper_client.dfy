/**
 * The transcription client (`internal/whisper`): setting up a recognition
 * engine for a model file and a language, running it over samples and
 * assembling the transcript.  The engine is an oracle: its answers are
 * inputs, and the calls made to it are returned as a trace, in order.
 */
module Whisper {
  import opened Results
  import opened GoStrings
  import Audio

  type Word = Audio.Word

  /** A loaded model, identified by the file it was loaded from. */
  datatype ModelHandle = ModelHandle(path: string)

  /** One call into the file system or the engine. */
  datatype EngineCall =
    | StatModel(path: string)
    | LoadModel(path: string)
    | NewContext
    | IsMultilingual
    | SetLanguage(language: string)
    | SetThreads(n: nat)
    | CloseModel
    | Process(samples: seq<Word>)
    | NextSegment

  /** The answers the file system and the engine give during setup. */
  datatype EngineAnswers = EngineAnswers(
    modelExists: bool, loadOk: bool, contextOk: bool, multilingual: bool, setLanguageOk: bool)

  datatype ClientError =
    | ModelPathRequired               // "model path is required"
    | ModelNotFound(path: string)     // "model file not found: <path>"
    | LoadFailed                      // "failed to load model: ..."
    | ContextFailed                   // "failed to create context: ..."
    | NotMultilingual(language: string)     // "model is not multilingual but language '<l>' was specified"
    | UnsupportedLanguage(language: string) // "unsupported language '<l>' for this model: ..."
    | ProcessFailed                   // "failed to process audio: ..."

  /** A ready client: the model it owns, the language and the thread count it was set up with. */
  datatype WhisperClient = WhisperClient(model: Option<ModelHandle>, language: string, numThreads: int)

  /** The outcome of NewClient and the calls it made. */
  datatype Setup = Setup(client: Result<WhisperClient, ClientError>, calls: seq<EngineCall>)

  /** Go's `uint` on a 64-bit platform. */
  const UintModulus: int := 0x1_0000_0000_0000_0000

  /** The conversion `uint(n)`: two's-complement wrap-around into 64 bits. */
  function GoUint(n: int): (u: nat)
    ensures u < UintModulus
    ensures 0 <= n < UintModulus ==> u == n
    ensures (n - u) % UintModulus == 0
  {
    n % UintModulus
  }

  /** A language other than "" and "auto" is applied to the model explicitly. */
  predicate ExplicitLanguage(language: string) {
    language != "" && language != "auto"
  }

  /** The model file was found and loaded, so there is a model to release. */
  predicate ModelLoaded(modelPath: string, e: EngineAnswers) {
    modelPath != "" && e.modelExists && e.loadOk
  }

  /**
   * `NewClient`: in order, the path must be given, the file must exist, the
   * model must load and get a context; an explicit language needs a
   * multilingual model that accepts it.  Every failure after the load closes
   * the model before returning.  On success the thread count is applied.
   */
  function NewClient(modelPath: string, language: string, numThreads: int, e: EngineAnswers): (s: Setup)
    ensures modelPath == "" ==> s.client == Err(ModelPathRequired) && s.calls == []
    ensures modelPath != "" && !e.modelExists ==>
              s.client == Err(ModelNotFound(modelPath)) && s.calls == [StatModel(modelPath)]
    ensures s.client.Ok? <==>
              && ModelLoaded(modelPath, e) && e.contextOk
              && (ExplicitLanguage(language) ==> e.multilingual && e.setLanguageOk)
    ensures s.client.Ok? ==> s.client.value == WhisperClient(Some(ModelHandle(modelPath)), language, numThreads)
  {
    if modelPath == "" then Setup(Err(ModelPathRequired), [])
    else if !e.modelExists then Setup(Err(ModelNotFound(modelPath)), [StatModel(modelPath)])
    else
      var loading := [StatModel(modelPath), LoadModel(modelPath)];
      if !e.loadOk then Setup(Err(LoadFailed), loading)
      else
        var withContext := loading + [NewContext];
        if !e.contextOk then Setup(Err(ContextFailed), withContext + [CloseModel])
        else if ExplicitLanguage(language) && !e.multilingual then
          Setup(Err(NotMultilingual(language)), withContext + [IsMultilingual, CloseModel])
        else if ExplicitLanguage(language) && !e.setLanguageOk then
          Setup(Err(UnsupportedLanguage(language)), withContext + [IsMultilingual, SetLanguage(language), CloseModel])
        else
          var configured := withContext + (if ExplicitLanguage(language) then [IsMultilingual, SetLanguage(language)] else []);
          Setup(Ok(WhisperClient(Some(ModelHandle(modelPath)), language, numThreads)),
                configured + [SetThreads(GoUint(numThreads))])
  }

  /** The existence check comes first, and only a file that exists is loaded. */
  lemma CheckedBeforeLoad(modelPath: string, language: string, numThreads: int, e: EngineAnswers)
    ensures var s := NewClient(modelPath, language, numThreads, e);
            && (modelPath != "" ==> |s.calls| > 0 && s.calls[0] == StatModel(modelPath))
            && (LoadModel(modelPath) in s.calls <==> modelPath != "" && e.modelExists)
  {
  }

  /**
   * Every failure after the model has loaded closes it exactly once, as the
   * last call; when no model was loaded nothing is closed.
   */
  lemma ReleasedOnFailure(modelPath: string, language: string, numThreads: int, e: EngineAnswers)
    ensures var s := NewClient(modelPath, language, numThreads, e);
            && (ModelLoaded(modelPath, e) && s.client.Err? ==>
                  multiset(s.calls)[CloseModel] == 1 && s.calls[|s.calls| - 1] == CloseModel)
            && (!ModelLoaded(modelPath, e) ==> CloseModel !in s.calls)
  {
  }

  /** On success nothing is closed and the thread count is the last thing applied. */
  lemma SuccessKeepsModel(modelPath: string, language: string, numThreads: int, e: EngineAnswers)
    ensures var s := NewClient(modelPath, language, numThreads, e);
            s.client.Ok? ==> CloseModel !in s.calls && s.calls[|s.calls| - 1] == SetThreads(GoUint(numThreads))
  {
  }

  /** With "" or "auto" the engine is asked neither about languages nor to set one. */
  lemma AutoLanguageNotApplied(modelPath: string, language: string, numThreads: int, e: EngineAnswers)
    requires !ExplicitLanguage(language)
    ensures var s := NewClient(modelPath, language, numThreads, e);
            IsMultilingual !in s.calls && SetLanguage(language) !in s.calls
  {
  }

  /** An explicit language on a single-language model fails without trying to set it. */
  lemma SingleLanguageModelRefused(modelPath: string, language: string, numThreads: int, e: EngineAnswers)
    requires ExplicitLanguage(language) && ModelLoaded(modelPath, e) && e.contextOk && !e.multilingual
    ensures var s := NewClient(modelPath, language, numThreads, e);
            s.client == Err(NotMultilingual(language)) && SetLanguage(language) !in s.calls
  {
  }

  /**
   * Each step after the existence check fails with its own error, after
   * exactly the calls that precede it: load, then context, then the
   * multilingual query, then the language.
   */
  lemma FailureKinds(modelPath: string, language: string, numThreads: int, e: EngineAnswers)
    ensures var s := NewClient(modelPath, language, numThreads, e);
            modelPath != "" && e.modelExists && !e.loadOk ==>
              s.client == Err(LoadFailed) && s.calls == [StatModel(modelPath), LoadModel(modelPath)]
    ensures var s := NewClient(modelPath, language, numThreads, e);
            ModelLoaded(modelPath, e) ==>
              |s.calls| >= 3 && s.calls[..3] == [StatModel(modelPath), LoadModel(modelPath), NewContext]
    ensures var s := NewClient(modelPath, language, numThreads, e);
            ModelLoaded(modelPath, e) && !e.contextOk ==>
              s.client == Err(ContextFailed) && s.calls[3..] == [CloseModel]
    ensures var s := NewClient(modelPath, language, numThreads, e);
            ModelLoaded(modelPath, e) && e.contextOk && ExplicitLanguage(language) && !e.multilingual ==>
              s.client == Err(NotMultilingual(language)) && s.calls[3..] == [IsMultilingual, CloseModel]
    ensures var s := NewClient(modelPath, language, numThreads, e);
            ModelLoaded(modelPath, e) && e.contextOk && ExplicitLanguage(language) && e.multilingual && !e.setLanguageOk ==>
              s.client == Err(UnsupportedLanguage(language))
              && s.calls[3..] == [IsMultilingual, SetLanguage(language), CloseModel]
  {
  }

  /**
   * On success the calls after the context are: the multilingual query and
   * the language for an explicit language, then the thread count.
   */
  lemma SuccessOrder(modelPath: string, language: string, numThreads: int, e: EngineAnswers)
    ensures var s := NewClient(modelPath, language, numThreads, e);
            s.client.Ok? ==>
              && s.calls[..3] == [StatModel(modelPath), LoadModel(modelPath), NewContext]
              && s.calls[3..] == (if ExplicitLanguage(language) then [IsMultilingual, SetLanguage(language)] else [])
                                 + [SetThreads(GoUint(numThreads))]
  {
  }

  /** `Close`: releases the model when there is one. */
  function Close(c: WhisperClient): (calls: seq<EngineCall>)
    ensures |calls| <= 1 && forall i :: 0 <= i < |calls| ==> calls[i] == CloseModel
    ensures CloseModel in calls <==> c.model.Some?
  {
    if c.model.Some? then [CloseModel] else []
  }

  /**
   * Over a client's whole life (setup, then Close when setup succeeded) a
   * loaded model is released exactly once, and nothing is released otherwise.
   */
  lemma ModelReleasedOnce(modelPath: string, language: string, numThreads: int, e: EngineAnswers)
    ensures var s := NewClient(modelPath, language, numThreads, e);
            var life := s.calls + (if s.client.Ok? then Close(s.client.value) else []);
            multiset(life)[CloseModel] == if ModelLoaded(modelPath, e) then 1 else 0
  {
    var s := NewClient(modelPath, language, numThreads, e);
    if s.client.Ok? {
      SuccessKeepsModel(modelPath, language, numThreads, e);
      assert multiset(s.calls)[CloseModel] == 0;
      assert Close(s.client.value) == [CloseModel];
    } else {
      ReleasedOnFailure(modelPath, language, numThreads, e);
    }
  }

  // ---------------------------------------------------------------------------
  // Transcription

  /** One answer of `NextSegment`: a segment's text, or an error (the end of the segments). */
  datatype Pull = Segment(text: string) | NoMoreSegments

  /** The answer to the i-th `NextSegment` call; past the stream the engine reports an error. */
  function NextPull(stream: seq<Pull>, i: nat): Pull {
    if i < |stream| then stream[i] else NoMoreSegments
  }

  /** The texts the engine yields before its first error, in production order. */
  function TextsBeforeError(stream: seq<Pull>): (texts: seq<string>)
    ensures |texts| <= |stream|
    ensures forall i :: 0 <= i < |texts| ==> stream[i] == Segment(texts[i])
    ensures |texts| < |stream| ==> stream[|texts|] == NoMoreSegments
  {
    if stream == [] || stream[0] == NoMoreSegments then []
    else [stream[0].text] + TextsBeforeError(stream[1..])
  }

  /** The three properties of TextsBeforeError determine it. */
  lemma TextsBeforeErrorUnique(stream: seq<Pull>, texts: seq<string>)
    requires |texts| <= |stream|
    requires forall i :: 0 <= i < |texts| ==> stream[i] == Segment(texts[i])
    requires |texts| < |stream| ==> stream[|texts|] == NoMoreSegments
    ensures texts == TextsBeforeError(stream)
  {
  }

  /** Whatever the engine would yield after its first error is never read. */
  lemma {:induction false} TextsIgnoreAfterError(stream: seq<Pull>, rest: seq<Pull>)
    requires NoMoreSegments in stream
    ensures TextsBeforeError(stream + rest) == TextsBeforeError(stream)
  {
    if stream[0] != NoMoreSegments {
      assert (stream + rest)[1..] == stream[1..] + rest;
      TextsIgnoreAfterError(stream[1..], rest);
    }
  }

  /** The transcript is empty exactly when no segment, or a single empty one, was produced. */
  lemma EmptyTranscriptIff(stream: seq<Pull>)
    ensures var texts := TextsBeforeError(stream);
            Join(texts, " ") == "" <==> texts == [] || texts == [""]
  {
    JoinEmptyIff(TextsBeforeError(stream), " ");
  }

  /**
   * `Transcribe`: a failed Process call is reported and no segment is read;
   * otherwise segments are pulled until the first error and their texts are
   * joined, in order, with single spaces.
   */
  method Transcribe(c: WhisperClient, samples: seq<Word>, processOk: bool, stream: seq<Pull>)
    returns (r: Result<string, ClientError>, calls: seq<EngineCall>)
    ensures |calls| >= 1 && calls[0] == Process(samples)
    ensures !processOk ==> r == Err(ProcessFailed) && calls == [Process(samples)]
    ensures processOk ==> r == Ok(Join(TextsBeforeError(stream), " "))
    ensures processOk ==> |calls| == |TextsBeforeError(stream)| + 2
    ensures forall i :: 1 <= i < |calls| ==> calls[i] == NextSegment
  {
    calls := [Process(samples)];
    if !processOk {
      return Err(ProcessFailed), calls;
    }
    var segments: seq<string> := [];
    var i := 0;
    while true
      invariant 0 <= i <= |stream|
      invariant |segments| == i
      invariant forall j :: 0 <= j < i ==> stream[j] == Segment(segments[j])
      invariant |calls| == i + 1 && calls[0] == Process(samples)
      invariant forall j :: 1 <= j < |calls| ==> calls[j] == NextSegment
      decreases |stream| - i
    {
      calls := calls + [NextSegment];
      var pull := NextPull(stream, i);
      if pull == NoMoreSegments {
        break;
      }
      segments := segments + [pull.text];
      i := i + 1;
    }
    TextsBeforeErrorUnique(stream, segments);
    r := Ok(Join(segments, " "));
  }
}
