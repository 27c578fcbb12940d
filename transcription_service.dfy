/**
 * transcription_service.py: the three transcription backends behind one
 * factory. The local faster-whisper model, the OpenAI client and the hosted
 * service are foreign code: what they return or raise is a parameter
 * (`Foreign`).
 */
module TranscriptionService {
  import opened Outcomes
  import Host
  import Text
  import opened SubtitleUtils
  import Cloud = CloudFasterWhisper

  /** The backends, by the `transcriber_type` string that names each. */
  datatype Backend = LocalWhisper | OpenAIWhisper | CloudWhisper

  function BackendName(b: Backend): string
  {
    match b
    case LocalWhisper => "faster_whisper"
    case OpenAIWhisper => "openai"
    case CloudWhisper => "cloud_faster_whisper"
  }

  /** The backend a `transcriber_type` string names, compared exactly. */
  function ParseBackend(name: string): (b: Option<Backend>)
    ensures b.Some? ==> BackendName(b.value) == name
    ensures b.None? <==> name != "faster_whisper" && name != "openai" && name != "cloud_faster_whisper"
  {
    if name == "faster_whisper" then Some(LocalWhisper)
    else if name == "openai" then Some(OpenAIWhisper)
    else if name == "cloud_faster_whisper" then Some(CloudWhisper)
    else None
  }

  /** Every backend's name parses back to that backend, and names are distinct. */
  lemma BackendNameRoundTrip(b: Backend)
    ensures ParseBackend(BackendName(b)) == Some(b)
  {
  }

  const MissingModelPathMessage: string := "Model path must be provided for Faster Whisper transcriber"

  /**
   * The choice `TranscriptionFactory.get_transcriber` makes before it
   * constructs anything: the named backend, except that the local model needs
   * a non-empty model path; an unknown name is a ValueError naming it.
   */
  function SelectBackend(transcriberType: string, modelPath: Option<string>): (r: Result<Backend>)
    ensures r.Ok? <==> ParseBackend(transcriberType).Some?
                       && (transcriberType == "faster_whisper" ==> modelPath.Some? && modelPath.value != "")
    ensures r.Ok? ==> BackendName(r.value) == transcriberType
    ensures ParseBackend(transcriberType).None? ==>
              r == Err(Failure(ValueError, "Unsupported transcriber type: " + transcriberType))
    ensures transcriberType == "faster_whisper" && (modelPath.None? || modelPath.value == "") ==>
              r == Err(Failure(ValueError, MissingModelPathMessage))
  {
    match ParseBackend(transcriberType)
    case None => Err(Failure(ValueError, "Unsupported transcriber type: " + transcriberType))
    case Some(LocalWhisper) =>
      if modelPath.None? || modelPath.value == "" then Err(Failure(ValueError, MissingModelPathMessage))
      else Ok(LocalWhisper)
    case Some(b) => Ok(b)
  }

  // ------------------------------------------------------- local model

  /** A segment as faster-whisper yields it (only the fields the backend reads). */
  datatype ModelSegment = ModelSegment(start: nat, end: nat, text: string)

  datatype FasterWhisperTranscriber = FasterWhisperTranscriber(modelPath: string)

  /**
   * `FasterWhisperTranscriber(model_path)`: the path must be an existing
   * directory, then the model is loaded from it (`modelLoad` is the error
   * loading raises, if any).
   */
  function NewFasterWhisper(modelPath: string, dirs: set<string>, modelLoad: Option<Failure>): (r: Result<FasterWhisperTranscriber>)
    ensures r.Ok? <==> modelPath in dirs && modelLoad.None?
    ensures r.Ok? ==> r.value.modelPath == modelPath
    ensures modelPath !in dirs ==> r == Err(Failure(ValueError, "Invalid model path: " + modelPath))
    ensures modelPath in dirs && modelLoad.Some? ==> r == Err(modelLoad.value)
  {
    if modelPath !in dirs then Err(Failure(ValueError, "Invalid model path: " + modelPath))
    else if modelLoad.Some? then Err(modelLoad.value)
    else Ok(FasterWhisperTranscriber(modelPath))
  }

  /** `{'start': segment.start, 'end': segment.end, 'text': segment.text}`: no stripping. */
  function Extracted(ms: seq<ModelSegment>): (r: seq<Segment>)
    ensures |r| == |ms|
    ensures forall i :: 0 <= i < |ms| ==> r[i].start == ms[i].start && r[i].end == ms[i].end && r[i].text == ms[i].text
  {
    seq(|ms|, i requires 0 <= i < |ms| => Segment(ms[i].start, ms[i].end, ms[i].text))
  }

  /**
   * `FasterWhisperTranscriber.transcribe`: a missing file is a
   * FileNotFoundError; otherwise the model's segments (or its error) are
   * copied into the common shape one by one, in order.
   */
  method FasterWhisperTranscribe(t: FasterWhisperTranscriber, disk: Host.Disk, audioPath: string, segments: Result<seq<ModelSegment>>)
    returns (r: Result<seq<Segment>>)
    ensures audioPath !in disk.files ==> r == Err(Failure(FileNotFoundError, "Audio file not found: " + audioPath))
    ensures audioPath in disk.files && segments.Err? ==> r == Err(segments.error)
    ensures audioPath in disk.files && segments.Ok? ==> r == Ok(Extracted(segments.value))
  {
    if !disk.Exists(audioPath) {
      return Err(Failure(FileNotFoundError, "Audio file not found: " + audioPath));
    }
    if segments.Err? {
      return Err(segments.error);
    }
    var transcription: seq<Segment> := [];
    for i := 0 to |segments.value|
      invariant transcription == Extracted(segments.value[..i])
    {
      var segment := segments.value[i];
      transcription := transcription + [Segment(segment.start, segment.end, segment.text)];
    }
    assert segments.value[..|segments.value|] == segments.value;
    return Ok(transcription);
  }

  // ------------------------------------------------------------- OpenAI

  datatype OpenAITranscriber = OpenAITranscriber(baseUrl: string, apiKey: string)

  const MissingOpenAIConfigMessage: string := "未设置 OPENAI_API_BASE_URL 或 OPENAI_API_KEY 环境变量"

  /** The variable is set to a non-empty value. */
  predicate IsSetNonEmpty(env: map<string, string>, name: string)
  {
    name in env && env[name] != ""
  }

  /** `OpenAITranscriber()`: both the base URL and the key must be set and non-empty. */
  function NewOpenAI(env: map<string, string>): (r: Result<OpenAITranscriber>)
    ensures r.Ok? <==> IsSetNonEmpty(env, "OPENAI_API_BASE_URL") && IsSetNonEmpty(env, "OPENAI_API_KEY")
    ensures r.Ok? ==> r.value == OpenAITranscriber(env["OPENAI_API_BASE_URL"], env["OPENAI_API_KEY"])
    ensures r.Err? ==> r.error == Failure(ValueError, MissingOpenAIConfigMessage)
  {
    var baseUrl := Host.GetEnv(env, "OPENAI_API_BASE_URL", "");
    var apiKey := Host.GetEnv(env, "OPENAI_API_KEY", "");
    if baseUrl == "" || apiKey == "" then Err(Failure(ValueError, MissingOpenAIConfigMessage))
    else Ok(OpenAITranscriber(baseUrl, apiKey))
  }

  /**
   * `OpenAITranscriber.transcribe`: opening a missing file raises
   * FileNotFoundError; otherwise the service's plain-text answer (or its
   * error) is the result.
   */
  function OpenAITranscribe(t: OpenAITranscriber, files: set<string>, audioFilename: string, response: Result<string>): (r: Result<string>)
    ensures audioFilename !in files ==> r.Err? && r.error.kind == FileNotFoundError
    ensures audioFilename in files ==> r == response
  {
    if audioFilename !in files then
      Err(Failure(FileNotFoundError, "[Errno 2] No such file or directory: '" + audioFilename + "'"))
    else response
  }

  // --------------------------------------------------------------- factory

  /** What the foreign code does, for each backend. */
  datatype Foreign = Foreign(
    modelLoad: Option<Failure>,                  // loading `WhisperModel`
    localSegments: Result<seq<ModelSegment>>,    // `model.transcribe` and iterating its segments
    openaiResponse: Result<string>,              // `client.audio.transcriptions.create`, as `str(response)`
    connect: nat -> Cloud.ConnectOutcome,        // successive `Client(...)` calls
    predict: Result<Cloud.RawResult>)            // `Client.predict`

  /** A constructed backend. */
  datatype Transcriber =
    | Local(local: FasterWhisperTranscriber)
    | Hosted(hosted: OpenAITranscriber)
    | Remote(remote: Cloud.CloudFasterWhisperTranscriber)

  /** What `transcribe` returns: segments, or the OpenAI backend's plain text. */
  datatype Transcript = Segments(segments: seq<Segment>) | PlainText(text: string)

  /** The backend a transcriber is an instance of. */
  function KindOf(t: Transcriber): Backend
  {
    match t
    case Local(_) => LocalWhisper
    case Hosted(_) => OpenAIWhisper
    case Remote(_) => CloudWhisper
  }

  /**
   * What `TranscriptionFactory.get_transcriber` builds, by kind, or the
   * error it raises: the selection, then the selected backend's
   * constructor. `vars` is the environment and `dirs` the existing
   * directories when it is called.
   */
  function Construction(transcriberType: string, modelPath: Option<string>, vars: map<string, string>, dirs: set<string>,
                        foreign: Foreign): (r: Result<Backend>)
    ensures SelectBackend(transcriberType, modelPath).Err? ==> r == Err(SelectBackend(transcriberType, modelPath).error)
    ensures r.Ok? ==> SelectBackend(transcriberType, modelPath) == Ok(r.value)
    ensures SelectBackend(transcriberType, modelPath) == Ok(CloudWhisper) ==> (r.Ok? <==> Cloud.Connects(foreign.connect))
  {
    var selected := SelectBackend(transcriberType, modelPath);
    if selected.Err? then Err(selected.error)
    else
      match selected.value
      case LocalWhisper =>
        var made := NewFasterWhisper(modelPath.value, dirs, foreign.modelLoad);
        if made.Err? then Err(made.error) else Ok(LocalWhisper)
      case OpenAIWhisper =>
        var made := NewOpenAI(vars);
        if made.Err? then Err(made.error) else Ok(OpenAIWhisper)
      case CloudWhisper =>
        if Cloud.Connects(foreign.connect) then Ok(CloudWhisper) else Err(Cloud.ConnectFailure(foreign.connect))
  }

  /**
   * `TranscriptionFactory.get_transcriber`: select the backend, then
   * construct it. Only the hosted service's construction touches the
   * environment: an instance leaves the proxy variables overridden, a
   * failed connection leaves them restored.
   */
  method GetTranscriber(transcriberType: string, modelPath: Option<string>, env: Host.Environment, disk: Host.Disk, foreign: Foreign)
    returns (r: Result<Transcriber>)
    modifies env
    ensures var c := Construction(transcriberType, modelPath, old(env.vars), disk.dirs, foreign);
            (r.Ok? ==> c == Ok(KindOf(r.value))) && (r.Err? ==> c == Err(r.error))
    ensures SelectBackend(transcriberType, modelPath) != Ok(CloudWhisper) ==> env.vars == old(env.vars)
    ensures SelectBackend(transcriberType, modelPath) == Ok(LocalWhisper) ==>
              var made := NewFasterWhisper(modelPath.value, disk.dirs, foreign.modelLoad);
              r == if made.Ok? then Ok(Local(made.value)) else Err(made.error)
    ensures SelectBackend(transcriberType, modelPath) == Ok(OpenAIWhisper) ==>
              var made := NewOpenAI(old(env.vars));
              r == if made.Ok? then Ok(Hosted(made.value)) else Err(made.error)
    ensures r.Ok? && r.value.Remote? ==>
              var made := r.value.remote;
              fresh(made) && made.connected
              && made.useProxy == Cloud.UseProxy(old(env.vars)) && made.proxyUrl == Cloud.ProxyUrl(old(env.vars))
              && (made.useProxy ==>
                    made.originalHttpProxy == Host.LookupEnv(old(env.vars), Cloud.HttpProxyKey)
                    && made.originalHttpsProxy == Host.LookupEnv(old(env.vars), Cloud.HttpsProxyKey)
                    && env.vars == Cloud.Overridden(old(env.vars), made.proxyUrl))
              && (!made.useProxy ==> env.vars == old(env.vars))
    ensures r.Err? && SelectBackend(transcriberType, modelPath) == Ok(CloudWhisper) ==>
              (Cloud.UseProxy(old(env.vars)) ==>
                 env.vars == Cloud.Restored(Cloud.Overridden(old(env.vars), Cloud.ProxyUrl(old(env.vars))), true,
                                            Host.LookupEnv(old(env.vars), Cloud.HttpProxyKey),
                                            Host.LookupEnv(old(env.vars), Cloud.HttpsProxyKey)))
              && (!Cloud.UseProxy(old(env.vars)) ==> env.vars == old(env.vars))
  {
    var selected := SelectBackend(transcriberType, modelPath);
    if selected.Err? {
      return Err(selected.error);
    }
    match selected.value {
      case LocalWhisper =>
        var made := NewFasterWhisper(modelPath.value, disk.dirs, foreign.modelLoad);
        r := if made.Ok? then Ok(Local(made.value)) else Err(made.error);
      case OpenAIWhisper =>
        var made := NewOpenAI(env.vars);
        r := if made.Ok? then Ok(Hosted(made.value)) else Err(made.error);
      case CloudWhisper =>
        var made := Cloud.NewCloudFasterWhisper(env, foreign.connect);
        r := if made.Ok? then Ok(Remote(made.value)) else Err(made.error);
    }
  }

  /**
   * What `transcribe(audio_filename)` returns or raises on a backend of
   * kind `b`, given what its foreign code does. Every backend checks that
   * the file exists first, each with its own message; only the hosted
   * OpenAI service answers with plain text.
   */
  function BackendOutcome(b: Backend, files: set<string>, audioFilename: string, foreign: Foreign): (r: Result<Transcript>)
    ensures audioFilename !in files ==> r.Err? && r.error.kind == FileNotFoundError
    ensures r.Ok? ==> (r.value.PlainText? <==> b == OpenAIWhisper)
  {
    match b
    case LocalWhisper =>
      if audioFilename !in files then Err(Failure(FileNotFoundError, "Audio file not found: " + audioFilename))
      else if foreign.localSegments.Err? then Err(foreign.localSegments.error)
      else Ok(Segments(Extracted(foreign.localSegments.value)))
    case OpenAIWhisper =>
      if audioFilename !in files then
        Err(Failure(FileNotFoundError, "[Errno 2] No such file or directory: '" + audioFilename + "'"))
      else if foreign.openaiResponse.Err? then Err(foreign.openaiResponse.error)
      else Ok(PlainText(foreign.openaiResponse.value))
    case CloudWhisper =>
      if audioFilename !in files then Err(Failure(FileNotFoundError, "音频文件未找到: " + audioFilename))
      else if foreign.predict.Err? then Err(foreign.predict.error)
      else
        var n := Cloud.Normalize(foreign.predict.value);
        if n.Ok? then Ok(Segments(n.value)) else Err(n.error)
  }

  /**
   * `transcriber.transcribe(audio_filename)` on whichever backend was built:
   * the outcome is `BackendOutcome` for its kind. The local and OpenAI
   * backends leave the environment alone; the hosted service restores the
   * proxy variables unless the file was missing.
   */
  method Transcribe(t: Transcriber, env: Host.Environment, disk: Host.Disk, audioFilename: string, foreign: Foreign)
    returns (r: Result<Transcript>)
    requires t.Remote? ==> t.remote.connected
    modifies env
    ensures r == BackendOutcome(KindOf(t), disk.files, audioFilename, foreign)
    ensures t.Local? || t.Hosted? || audioFilename !in disk.files ==> env.vars == old(env.vars)
    ensures t.Remote? && audioFilename in disk.files ==> env.vars == t.remote.RestoredEnv(old(env.vars))
  {
    match t {
      case Local(local) =>
        var out := FasterWhisperTranscribe(local, disk, audioFilename, foreign.localSegments);
        r := if out.Ok? then Ok(Segments(out.value)) else Err(out.error);
      case Hosted(hosted) =>
        var out := OpenAITranscribe(hosted, disk.files, audioFilename, foreign.openaiResponse);
        r := if out.Ok? then Ok(PlainText(out.value)) else Err(out.error);
      case Remote(remote) =>
        var out := remote.Transcribe(env, disk, audioFilename, foreign.predict);
        r := if out.Ok? then Ok(Segments(out.value)) else Err(out.error);
    }
  }

  /**
   * The local backend hands text over exactly as the model produced it,
   * while the hosted service's texts come back stripped of surrounding
   * whitespace.
   */
  lemma LocalKeepsTextCloudStrips(m: ModelSegment, item: Cloud.Item)
    requires Cloud.ConvertItem(item).Ok?
    requires item.fields["text"].Str? && item.fields["text"].s == m.text
    ensures Extracted([m])[0].text == m.text
    ensures Cloud.ConvertItem(item).value.text == Text.PyStrip(m.text)
  {
  }
}
