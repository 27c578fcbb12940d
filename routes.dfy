/**
 * routes.py: the branch logic of the three HTTP handlers and the
 * bookkeeping of temporary files. Requests are the fields the handlers
 * read; responses are the status and body they produce; an exception the
 * handler does not catch is `Uncaught` (Flask then answers 500).
 */
module Routes {
  import opened Outcomes
  import Host
  import opened Text
  import opened Utils
  import opened SubtitleUtils
  import TS = TranscriptionService
  import Services
  import Cloud = CloudFasterWhisper

  /** A string field of the JSON body: absent, `null`, or given. */
  datatype JsonField = Missing | Null | Given(value: string)

  /** The fields `/api/transcribe` reads from the JSON body. */
  datatype TranscribeRequest = TranscribeRequest(bvId: JsonField, transcriberType: JsonField)

  /** What the segment list of an export request holds, as far as truthiness and shape matter. */
  datatype ExportTranscript = NoTranscript | SegmentList(segments: seq<Segment>) | TextBlob(text: string)

  /** The fields `/api/export_srt` reads from the JSON body. */
  datatype ExportRequest = ExportRequest(transcript: ExportTranscript, videoTitle: Option<string>)

  datatype Response =
    | Transcribed(transcript: TS.Transcript, title: string, bvId: string, duration: int)
    | ProgressInfo(record: Record)
    | SrtAttachment(content: string, downloadName: string)
    | JsonError(status: int, message: string)
    | Uncaught(error: Failure)

  const StatusStarted: string := "开始处理"
  const StatusTranscriptionStarted: string := "开始音频转写"
  const StatusFinished: string := "处理完成"
  const StatusFailed: string := "转写失败"
  const FileMissingMessage: string := "音频下载失败或文件不存在"
  /** `"转写失败: " + str(Exception("转写失败"))`: the only exception the handler's try block can see. */
  const TranscriptionFailedMessage: string := "转写失败: 转写失败"
  const NoProgressMessage: string := "没有可用的进度信息"
  const MissingExportDataMessage: string := "缺少必要的数据"
  const SrtErrorPrefix: string := "生成 SRT 文件时发生错误: "

  /**
   * The `transcriber_type` that reaches the factory: "faster_whisper" when
   * the field is absent. The factory only compares it with the three
   * backend names and formats it into its error message, where `None`
   * prints as "None", so a `null` behaves as the string "None".
   */
  function TranscriberArgument(f: JsonField): (name: string)
    ensures f.Missing? ==> name == "faster_whisper"
    ensures f.Null? ==> name == "None"
    ensures f.Given? ==> name == f.value
  {
    match f
    case Missing => "faster_whisper"
    case Null => "None"
    case Given(name) => name
  }

  /** The downloaded file the handler goes on to transcribe: a non-empty path that exists. */
  predicate Transcribable(d: Services.Download, files: set<string>)
  {
    d.Downloaded? && d.path != "" && d.path in files
  }

  /**
   * What `/api/transcribe` answers once the id is valid, from what
   * `download_bilibili_audio` returned or raised (`downloaded`) and what the
   * transcription of the downloaded file ends with.
   */
  function JobResponse(bvNumber: string, transcriberType: string, downloaded: Result<Services.Download>,
                       vars: map<string, string>, files: set<string>, dirs: set<string>, modelPath: string,
                       foreign: TS.Foreign): Response
  {
    if downloaded.Err? then Uncaught(downloaded.error)
    else if !Transcribable(downloaded.value, files) then JsonError(400, FileMissingMessage)
    else
      var d := downloaded.value;
      var o := Services.TranscriptionOutcome(transcriberType, modelPath, vars, files, dirs, d.path, foreign);
      if o.Ok? then Transcribed(o.value, d.title, bvNumber, d.duration) else JsonError(500, TranscriptionFailedMessage)
  }

  /**
   * The process environment after `/api/transcribe` once the id is valid:
   * only the transcription of a downloaded file can change it, as
   * `Services.EnvAfter` says.
   */
  function JobEnv(transcriberType: string, downloaded: Result<Services.Download>, vars: map<string, string>,
                  files: set<string>, modelPath: string, foreign: TS.Foreign): map<string, string>
  {
    if downloaded.Ok? && Transcribable(downloaded.value, files) then
      Services.EnvAfter(transcriberType, modelPath, vars, files, downloaded.value.path, foreign)
    else vars
  }

  /**
   * What `/api/transcribe` answers to `req`, with the environment `vars`
   * and the file system `files`, `dirs` of the request. A missing `bvId`
   * is a KeyError and a `null` one a TypeError from the regular expression,
   * neither caught; an invalid id is a 400.
   */
  function TranscribeResponse(req: TranscribeRequest, vars: map<string, string>, files: set<string>, dirs: set<string>,
                              dl: Services.Downloader, modelPath: string, foreign: TS.Foreign): Response
  {
    match req.bvId
    case Missing => Uncaught(Failure(KeyError, "'bvId'"))
    case Null => Uncaught(Failure(TypeError, "expected string or bytes-like object"))
    case Given(id) =>
      if ValidateBvId(id).Err? then JsonError(400, InvalidBvMessage)
      else JobResponse(id, TranscriberArgument(req.transcriberType), Services.DownloadRun(id, vars, dl).outcome,
                       vars, files, dirs, modelPath, foreign)
  }

  /** The request names a valid id, so the handler goes past validation. */
  predicate ValidRequest(req: TranscribeRequest)
  {
    req.bvId.Given? && ValidateBvId(req.bvId.value).Ok?
  }

  /**
   * What `/api/transcribe` does to the progress store and the disk once the
   * id `bvNumber` is valid, given the download's outcome and the answer:
   * '开始处理' is written first; a 400 for a missing file deletes nothing
   * and never writes '开始音频转写'; a transcript ends with '处理完成' and a
   * 500 with '转写失败' and "转写失败: 转写失败", as the last write and as
   * the id's record; in both cases the downloaded file existed and is
   * removed when the system permits.
   */
  twostate predicate JobEffects(store: ProgressStore, disk: Host.Disk, bvNumber: string,
                                downloaded: Result<Services.Download>, deletable: bool, resp: Response, now: int)
    reads store, disk
  {
    && |store.writes| > |old(store.writes)| && store.writes[..|old(store.writes)|] == old(store.writes)
    && store.entries == Replayed(old(store.entries), store.writes[|old(store.writes)|..], now)
    && store.writes[|old(store.writes)|] == Write(bvNumber, StatusStarted, None)
    && (resp == JsonError(400, FileMissingMessage) ==>
          disk.files == old(disk.files)
          && forall i :: |old(store.writes)| <= i < |store.writes| ==> store.writes[i].status != StatusTranscriptionStarted)
    && (resp.Transcribed? ==>
          store.writes[|store.writes| - 1] == Write(bvNumber, StatusFinished, None)
          && bvNumber in store.entries && store.entries[bvNumber] == Record(StatusFinished, None, now))
    && (resp == JsonError(500, TranscriptionFailedMessage) ==>
          store.writes[|store.writes| - 1] == Write(bvNumber, StatusFailed, Some(TranscriptionFailedMessage))
          && bvNumber in store.entries
          && store.entries[bvNumber] == Record(StatusFailed, Some(TranscriptionFailedMessage), now))
    && (resp.Transcribed? || resp == JsonError(500, TranscriptionFailedMessage) ==>
          downloaded.Ok? && Transcribable(downloaded.value, old(disk.files))
          && disk.files == if deletable then old(disk.files) - {downloaded.value.path} else old(disk.files))
  }

  /**
   * `POST /api/transcribe`. The downloader, the configured model directory,
   * the backends' foreign behaviour and whether the system lets the audio
   * file be deleted are parameters. The answer is `TranscribeResponse`;
   * nothing is written or deleted before the id is valid; after that, the
   * store and the disk change as `JobEffects` says.
   */
  method HandleTranscribe(store: ProgressStore, env: Host.Environment, disk: Host.Disk, req: TranscribeRequest,
                          dl: Services.Downloader, modelPath: string, foreign: TS.Foreign, deletable: bool, now: int)
    returns (resp: Response)
    modifies store, env, disk
    ensures resp == TranscribeResponse(req, old(env.vars), old(disk.files), old(disk.dirs), dl, modelPath, foreign)
    ensures !ValidRequest(req) ==>
              store.writes == old(store.writes) && store.entries == old(store.entries) && disk.files == old(disk.files)
              && env.vars == old(env.vars)
    ensures ValidRequest(req) ==>
              JobEffects(store, disk, req.bvId.value, Services.DownloadRun(req.bvId.value, old(env.vars), dl).outcome,
                         deletable, resp, now)
    ensures ValidRequest(req) ==>
              env.vars == JobEnv(TranscriberArgument(req.transcriberType),
                                 Services.DownloadRun(req.bvId.value, old(env.vars), dl).outcome,
                                 old(env.vars), old(disk.files), modelPath, foreign)
  {
    if req.bvId.Missing? {
      return Uncaught(Failure(KeyError, "'bvId'"));
    } else if req.bvId.Null? {
      return Uncaught(Failure(TypeError, "expected string or bytes-like object"));
    }
    var checked := ValidateBvId(req.bvId.value);
    if checked.Err? {
      return JsonError(400, checked.error.message);
    }
    ghost var vars, files, dirs := env.vars, disk.files, disk.dirs;
    var transcriberType := TranscriberArgument(req.transcriberType);
    resp := RunJob(store, env, disk, req.bvId.value, transcriberType, dl, modelPath, foreign, deletable, now);
    ValidResponse(req, vars, files, dirs, dl, modelPath, foreign);
  }

  /** Past validation, the answer is the job's. */
  lemma ValidResponse(req: TranscribeRequest, vars: map<string, string>, files: set<string>, dirs: set<string>,
                      dl: Services.Downloader, modelPath: string, foreign: TS.Foreign)
    requires ValidRequest(req)
    ensures TranscribeResponse(req, vars, files, dirs, dl, modelPath, foreign)
            == JobResponse(req.bvId.value, TranscriberArgument(req.transcriberType),
                           Services.DownloadRun(req.bvId.value, vars, dl).outcome, vars, files, dirs, modelPath, foreign)
  {
  }

  /**
   * Once the audio file is downloaded, the handler answers with a
   * transcript exactly when the transcription produces one, and then with
   * that transcript as it came, the download's title and duration, and the
   * id; otherwise with 500 and "转写失败: 转写失败".
   */
  lemma TranscriptReturnedUnchanged(req: TranscribeRequest, vars: map<string, string>, files: set<string>,
                                    dirs: set<string>, dl: Services.Downloader, modelPath: string, foreign: TS.Foreign)
    requires ValidRequest(req)
    requires var d := Services.DownloadRun(req.bvId.value, vars, dl).outcome; d.Ok? && Transcribable(d.value, files)
    ensures var d := Services.DownloadRun(req.bvId.value, vars, dl).outcome.value;
            var o := Services.TranscriptionOutcome(TranscriberArgument(req.transcriberType), modelPath, vars, files, dirs,
                                                   d.path, foreign);
            var resp := TranscribeResponse(req, vars, files, dirs, dl, modelPath, foreign);
            && (resp.Transcribed? <==> o.Ok?)
            && (o.Ok? ==> resp == Transcribed(o.value, d.title, req.bvId.value, d.duration))
            && (o.Err? ==> resp == JsonError(500, TranscriptionFailedMessage))
  {
    ValidResponse(req, vars, files, dirs, dl, modelPath, foreign);
  }

  /**
   * A `null` `transcriber_type` reaches the factory as `None`, which names
   * no backend: once the file is downloaded the job fails with 500.
   */
  lemma NullTranscriberTypeFails(req: TranscribeRequest, vars: map<string, string>, files: set<string>,
                                 dirs: set<string>, dl: Services.Downloader, modelPath: string, foreign: TS.Foreign)
    requires ValidRequest(req) && req.transcriberType.Null?
    requires var d := Services.DownloadRun(req.bvId.value, vars, dl).outcome; d.Ok? && Transcribable(d.value, files)
    ensures TranscribeResponse(req, vars, files, dirs, dl, modelPath, foreign) == JsonError(500, TranscriptionFailedMessage)
  {
    var d := Services.DownloadRun(req.bvId.value, vars, dl).outcome.value;
    TranscriptReturnedUnchanged(req, vars, files, dirs, dl, modelPath, foreign);
    Services.TranscriptionNeedsFileAndBackend("None", modelPath, vars, files, dirs, d.path, foreign);
  }

  /**
   * A video longer than the configured limit is refused by the download
   * with ValueError, which the handler does not catch.
   */
  lemma TooLongVideoUncaught(req: TranscribeRequest, vars: map<string, string>, files: set<string>,
                             dirs: set<string>, dl: Services.Downloader, modelPath: string, foreign: TS.Foreign)
    requires ValidRequest(req) && dl.probe.Ok? && GetMaxVideoDuration(vars).Ok?
    requires Services.TooLong(dl.probe.value.duration, GetMaxVideoDuration(vars).value)
    ensures TranscribeResponse(req, vars, files, dirs, dl, modelPath, foreign)
            == Uncaught(Failure(ValueError, Services.TooLongMessage(dl.probe.value.duration.value, GetMaxVideoDuration(vars).value)))
  {
    Services.DurationGate(req.bvId.value, vars, dl);
    ValidResponse(req, vars, files, dirs, dl, modelPath, foreign);
  }

  /** `/api/transcribe` after the id has been validated: record '开始处理', download, check the file, transcribe. */
  method RunJob(store: ProgressStore, env: Host.Environment, disk: Host.Disk, bvNumber: string, transcriberType: string,
                dl: Services.Downloader, modelPath: string, foreign: TS.Foreign, deletable: bool, now: int)
    returns (resp: Response)
    modifies store, env, disk
    ensures resp == JobResponse(bvNumber, transcriberType, Services.DownloadRun(bvNumber, old(env.vars), dl).outcome,
                                old(env.vars), old(disk.files), old(disk.dirs), modelPath, foreign)
    ensures JobEffects(store, disk, bvNumber, Services.DownloadRun(bvNumber, old(env.vars), dl).outcome, deletable, resp, now)
    ensures env.vars == JobEnv(transcriberType, Services.DownloadRun(bvNumber, old(env.vars), dl).outcome,
                               old(env.vars), old(disk.files), modelPath, foreign)
  {
    ghost var m0, w0 := store.entries, store.writes;
    ghost var w1;
    var downloaded;
    downloaded, w1 := StartAndDownload(store, env.vars, bvNumber, dl, now);
    ghost var m1 := store.entries;
    resp := AfterDownload(store, env, disk, bvNumber, transcriberType, downloaded, modelPath, foreign, deletable, now);
    ReplayedSince(m0, w0, m1, w1, store.entries, store.writes, now);
    assert store.writes[|w0|] == store.writes[..|w1|][|w0|];
  }

  /** `/api/transcribe` once `download_bilibili_audio` has returned or raised `downloaded`. */
  method AfterDownload(store: ProgressStore, env: Host.Environment, disk: Host.Disk, bvNumber: string, transcriberType: string,
                       downloaded: Result<Services.Download>, modelPath: string, foreign: TS.Foreign, deletable: bool, now: int)
    returns (resp: Response)
    modifies store, env, disk
    ensures resp == JobResponse(bvNumber, transcriberType, downloaded, old(env.vars), old(disk.files), old(disk.dirs),
                                modelPath, foreign)
    ensures resp == JsonError(400, FileMissingMessage) || resp.Uncaught? ==>
              disk.files == old(disk.files) && store.writes == old(store.writes) && store.entries == old(store.entries)
    ensures env.vars == JobEnv(transcriberType, downloaded, old(env.vars), old(disk.files), modelPath, foreign)
    ensures !resp.Uncaught? && resp != JsonError(400, FileMissingMessage) ==> |store.writes| > |old(store.writes)|
    ensures |store.writes| >= |old(store.writes)| && store.writes[..|old(store.writes)|] == old(store.writes)
    ensures store.entries == Replayed(old(store.entries), store.writes[|old(store.writes)|..], now)
    ensures resp.Transcribed? ==>
              store.writes[|store.writes| - 1] == Write(bvNumber, StatusFinished, None)
              && bvNumber in store.entries && store.entries[bvNumber] == Record(StatusFinished, None, now)
    ensures resp == JsonError(500, TranscriptionFailedMessage) ==>
              store.writes[|store.writes| - 1] == Write(bvNumber, StatusFailed, Some(TranscriptionFailedMessage))
              && bvNumber in store.entries
              && store.entries[bvNumber] == Record(StatusFailed, Some(TranscriptionFailedMessage), now)
    ensures resp.Transcribed? || resp == JsonError(500, TranscriptionFailedMessage) ==>
              downloaded.Ok? && Transcribable(downloaded.value, old(disk.files))
              && disk.files == if deletable then old(disk.files) - {downloaded.value.path} else old(disk.files)
  {
    if downloaded.Err? {
      assert store.writes[|store.writes|..] == [];
      return Uncaught(downloaded.error);
    }
    if downloaded.value.Rejected? || downloaded.value.path == "" || !disk.Exists(downloaded.value.path) {
      assert store.writes[|store.writes|..] == [];
      return JsonError(400, FileMissingMessage);
    }
    resp := TranscribeDownloaded(store, env, disk, bvNumber, transcriberType, downloaded.value,
                                 modelPath, foreign, deletable, now);
  }

  /**
   * The start of `/api/transcribe` after validation: record '开始处理', then
   * run `download_bilibili_audio`. None of these writes is '开始音频转写'.
   */
  method StartAndDownload(store: ProgressStore, env: map<string, string>, bvNumber: string, dl: Services.Downloader, now: int)
    returns (downloaded: Result<Services.Download>, ghost written: seq<Write>)
    modifies store
    ensures downloaded == Services.DownloadRun(bvNumber, env, dl).outcome
    ensures written == store.writes
    ensures |written| > |old(store.writes)| && written[..|old(store.writes)|] == old(store.writes)
    ensures written[|old(store.writes)|] == Write(bvNumber, StatusStarted, None)
    ensures forall i :: |old(store.writes)| <= i < |written| ==> written[i].status != StatusTranscriptionStarted
    ensures store.entries == Replayed(old(store.entries), written[|old(store.writes)|..], now)
  {
    ghost var m0, w0 := store.entries, store.writes;
    var started := Write(bvNumber, StatusStarted, None);
    store.Update(bvNumber, StatusStarted, None, now);
    ghost var m1, w1 := store.entries, store.writes;
    ghost var run := Services.DownloadRun(bvNumber, env, dl).writes;
    downloaded := Services.DownloadBilibiliAudio(store, env, bvNumber, dl, now);
    written := store.writes;
    assert written[|w1|..] == run;
    ReplayedSince(m0, w0, m1, w1, store.entries, written, now);
    DownloadWritesNoTranscriptionStatus(bvNumber, env, dl);
    StartedThenRun(w0, started, run, written);
  }

  /** The writes after '开始处理' and a download run: '开始处理' first, then the run's writes. */
  lemma StartedThenRun(w0: seq<Write>, started: Write, run: seq<Write>, w1: seq<Write>)
    requires w1 == (w0 + [started]) + run
    ensures |w1| > |w0| && w1[..|w0|] == w0 && w1[|w0|] == started
    ensures forall i :: |w0| < i < |w1| ==> w1[i] == run[i - |w0| - 1]
  {
  }

  /**
   * The rest of `/api/transcribe` once the audio file exists: record
   * '开始音频转写', transcribe, always remove the audio file, then record
   * '处理完成' and answer with the transcript as it came, or record
   * '转写失败' and answer 500.
   */
  method TranscribeDownloaded(store: ProgressStore, env: Host.Environment, disk: Host.Disk, bvNumber: string,
                              transcriberType: string, downloaded: Services.Download, modelPath: string,
                              foreign: TS.Foreign, deletable: bool, now: int)
    returns (resp: Response)
    requires Transcribable(downloaded, disk.files)
    modifies store, env, disk
    ensures var o := Services.TranscriptionOutcome(transcriberType, modelPath, old(env.vars), old(disk.files),
                                                   old(disk.dirs), downloaded.path, foreign);
            resp == if o.Ok? then Transcribed(o.value, downloaded.title, bvNumber, downloaded.duration)
                    else JsonError(500, TranscriptionFailedMessage)
    ensures |store.writes| > |old(store.writes)| + 1 && store.writes[..|old(store.writes)|] == old(store.writes)
    ensures store.entries == Replayed(old(store.entries), store.writes[|old(store.writes)|..], now)
    ensures store.writes[|old(store.writes)|] == Write(bvNumber, StatusTranscriptionStarted, None)
    ensures resp.Transcribed? ==>
              store.writes[|store.writes| - 1] == Write(bvNumber, StatusFinished, None)
              && bvNumber in store.entries && store.entries[bvNumber] == Record(StatusFinished, None, now)
    ensures resp.JsonError? ==>
              store.writes[|store.writes| - 1] == Write(bvNumber, StatusFailed, Some(TranscriptionFailedMessage))
              && bvNumber in store.entries
              && store.entries[bvNumber] == Record(StatusFailed, Some(TranscriptionFailedMessage), now)
    ensures disk.files == if deletable then old(disk.files) - {downloaded.path} else old(disk.files)
    ensures disk.dirs == old(disk.dirs)
    ensures env.vars == Services.EnvAfter(transcriberType, modelPath, old(env.vars), old(disk.files), downloaded.path, foreign)
  {
    ghost var m0, w0 := store.entries, store.writes;
    var audioFilename := downloaded.path;
    store.Update(bvNumber, StatusTranscriptionStarted, None, now);
    ghost var m1, w1 := store.entries, store.writes;
    var transcript, failure, written := Services.TranscribeAudio(store, env, disk, audioFilename, transcriberType, modelPath, foreign, now);
    assert store.writes[|w1|..] == written;
    ReplayedSince(m0, w0, m1, w1, store.entries, store.writes, now);
    ghost var m2, w2 := store.entries, store.writes;
    Services.CleanupFiles(disk, audioFilename, deletable);
    if transcript.None? {
      store.Update(bvNumber, StatusFailed, Some(TranscriptionFailedMessage), now);
      ReplayedSince(m0, w0, m2, w2, store.entries, store.writes, now);
      return JsonError(500, TranscriptionFailedMessage);
    }
    store.Update(bvNumber, StatusFinished, None, now);
    ReplayedSince(m0, w0, m2, w2, store.entries, store.writes, now);
    resp := Transcribed(transcript.value, downloaded.title, bvNumber, downloaded.duration);
  }

  /** No write of a download run is '开始音频转写'. */
  lemma DownloadWritesNoTranscriptionStatus(bvId: string, env: map<string, string>, dl: Services.Downloader)
    ensures var ws := Services.DownloadRun(bvId, env, dl).writes;
            forall i :: 0 <= i < |ws| ==> ws[i].status != StatusTranscriptionStarted
  {
    var ws := Services.DownloadRun(bvId, env, dl).writes;
    Services.DownloadWritesStatuses(bvId, env, dl);
    forall i | 0 <= i < |ws|
      ensures ws[i].status != StatusTranscriptionStarted
    {
      assert ws[i].status in Services.DownloadStatuses;
    }
  }

  /**
   * `GET /api/progress`: an invalid id is a 400, a known id its record, an
   * unknown one a 404. A missing id reaches the regular expression as
   * `None`, which raises TypeError, which the handler does not catch.
   */
  method HandleProgress(store: ProgressStore, bvId: Option<string>) returns (resp: Response)
    ensures bvId.None? ==> resp.Uncaught? && resp.error.kind == TypeError
    ensures bvId.Some? && ValidateBvId(bvId.value).Err? ==> resp == JsonError(400, InvalidBvMessage)
    ensures bvId.Some? && ValidateBvId(bvId.value).Ok? ==>
              (resp == JsonError(404, NoProgressMessage) <==> bvId.value !in store.entries)
              && (bvId.value in store.entries ==> resp == ProgressInfo(store.entries[bvId.value]))
  {
    if bvId.None? {
      return Uncaught(Failure(TypeError, "expected string or bytes-like object"));
    }
    var checked := ValidateBvId(bvId.value);
    if checked.Err? {
      return JsonError(400, checked.error.message);
    }
    var info := store.Get(checked.value);
    if info.Some? {
      resp := ProgressInfo(info.value);
    } else {
      resp := JsonError(404, NoProgressMessage);
    }
  }

  /** Python truthiness of the transcript: a non-empty list or a non-empty string. */
  predicate Truthy(t: ExportTranscript)
  {
    match t
    case NoTranscript => false
    case SegmentList(segments) => segments != []
    case TextBlob(text) => text != ""
  }

  /** Every segment's times lie within one day. */
  predicate AllWithinDay(segments: seq<Segment>)
  {
    forall i :: 0 <= i < |segments| ==> WithinDay(segments[i])
  }

  /**
   * `POST /api/export_srt`: a missing or empty transcript or title is a
   * 400 and nothing is generated. A segment list becomes the SRT text,
   * sent as "<title>.srt". A text transcript (the OpenAI backend's) fails
   * inside `generate_srt`, which indexes each character as a record; that
   * error is caught and answered with 500.
   */
  method HandleExportSrt(req: ExportRequest) returns (resp: Response)
    requires req.transcript.SegmentList? ==> AllWithinDay(req.transcript.segments)
    ensures !Truthy(req.transcript) || req.videoTitle.None? || req.videoTitle.value == "" ==>
              resp == JsonError(400, MissingExportDataMessage)
    ensures Truthy(req.transcript) && req.videoTitle.Some? && req.videoTitle.value != "" && req.transcript.SegmentList? ==>
              resp == SrtAttachment(PyStrip(Blocks(req.transcript.segments)), req.videoTitle.value + ".srt")
    ensures Truthy(req.transcript) && req.videoTitle.Some? && req.videoTitle.value != "" && req.transcript.TextBlob? ==>
              resp == JsonError(500, SrtErrorPrefix + Cloud.SubscriptError("str").message)
  {
    if !Truthy(req.transcript) || req.videoTitle.None? || req.videoTitle.value == "" {
      return JsonError(400, MissingExportDataMessage);
    }
    match req.transcript {
      case SegmentList(segments) =>
        var content := GenerateSrt(segments);
        resp := SrtAttachment(content, req.videoTitle.value + ".srt");
      case TextBlob(_) =>
        // `generate_srt` reads `segment['start']` from the first character
        resp := JsonError(500, SrtErrorPrefix + Cloud.SubscriptError("str").message);
    }
  }

  /** `temp_files_to_delete` and the two functions that empty it. */
  class TempFileRegistry {
    var pending: set<string>

    constructor ()
      ensures pending == {}
    {
      pending := {};
    }

    /**
     * `delete_file`, the callback `delayed_file_delete` schedules: unlink the
     * file if it exists, then forget it. When the unlink raises, the error is
     * logged and the name stays registered.
     */
    method DelayedDelete(disk: Host.Disk, filename: string, permitted: bool)
      modifies this, disk
      ensures filename in old(disk.files) && !permitted ==>
                pending == old(pending) && disk.files == old(disk.files)
      ensures filename !in old(disk.files) || permitted ==>
                pending == old(pending) - {filename} && disk.files == old(disk.files) - {filename}
      ensures disk.dirs == old(disk.dirs)
    {
      if disk.Exists(filename) {
        var err := disk.Remove(filename, permitted);
        if err.Some? {
          return;
        }
      }
      pending := pending - {filename};
    }

    /**
     * `cleanup_temp_files`, run at exit: unlink every registered file that
     * exists (a refused unlink is logged and skipped), then empty the set.
     * `permitted` is the set of files the system lets it delete.
     */
    method CleanupTempFiles(disk: Host.Disk, permitted: set<string>)
      modifies this, disk
      ensures pending == {}
      ensures disk.files == old(disk.files) - (old(pending) * permitted)
      ensures disk.dirs == old(disk.dirs)
    {
      var todo := pending;
      while todo != {}
        invariant todo <= old(pending)
        invariant disk.files == old(disk.files) - ((old(pending) - todo) * permitted)
        invariant disk.dirs == old(disk.dirs)
        decreases todo
      {
        var filename :| filename in todo;
        if disk.Exists(filename) {
          var err := disk.Remove(filename, filename in permitted);
        }
        todo := todo - {filename};
      }
      pending := {};
    }
  }
}
