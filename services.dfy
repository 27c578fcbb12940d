/**
 * services.py: the job's steps. Downloading the audio and transcribing it
 * each report progress through the shared store; removing the audio file
 * never fails. The downloader (yt_dlp) is foreign: what it reports or
 * raises is a parameter (`Downloader`).
 */
module Services {
  import opened Outcomes
  import opened Text
  import Host
  import opened Utils
  import TS = TranscriptionService
  import Cloud = CloudFasterWhisper

  // -------------------------------------------------------------- download

  /** What `extract_info(url, download=False)` reports: the duration, if any, and how many formats. */
  datatype Meta = Meta(duration: Option<int>, formats: nat)

  /**
   * The `requested_downloads` entry of the report: missing, present but
   * `null` (falsy, like an empty list), or a list whose elements may each
   * lack a `filepath`.
   */
  datatype RequestedDownloads = NoKey | NullEntry | Listed(filepaths: seq<Option<string>>)

  /**
   * What `extract_info(url, download=True)` reports about the downloaded
   * video. A key the code subscripts may be missing (`None`).
   */
  datatype Info = Info(id: Option<string>, title: Option<string>, duration: Option<int>,
                       requestedDownloads: RequestedDownloads, preparedFilename: string)

  /** The downloader's two calls: each reports, or raises. */
  datatype Downloader = Downloader(probe: Result<Meta>, fetch: Result<Info>)

  /** What `download_bilibili_audio` returns: the all-None tuple, or `(id, title, file_path, duration)`. */
  datatype Download = Rejected | Downloaded(id: string, title: string, path: string, duration: int)

  const StatusFetchingInfo: string := "正在获取视频信息"
  const StatusAnalysing: string := "正在分析可用音频格式"
  const StatusDownloading: string := "正在下载音频"
  const StatusDownloaded: string := "音频下载完成"
  const StatusDownloadFailed: string := "下载失败"
  const NoFormatsMessage: string := "未找到可用的音频格式"

  /** The statuses `download_bilibili_audio` records. */
  const DownloadStatuses: set<string> :=
    {StatusFetchingInfo, StatusAnalysing, StatusDownloading, StatusDownloaded, StatusDownloadFailed}

  /** `str(i)` for a Python int. */
  function ShowInt(i: int): (s: string)
    ensures i >= 0 ==> s == ShowNat(i)
    ensures i < 0 ==> s == "-" + ShowNat(0 - i)
  {
    if i < 0 then "-" + ShowNat(0 - i) else ShowNat(i)
  }

  function TooLongMessage(duration: int, max: int): string
  {
    "视频时长 (" + ShowInt(duration) + "秒) 超过允许的最大时长 (" + ShowInt(max) + "秒)"
  }

  /** `duration and duration > max_duration`: a missing or zero duration always passes. */
  predicate TooLong(duration: Option<int>, max: int)
  {
    duration.Some? && duration.value != 0 && duration.value > max
  }

  /**
   * The file the downloader wrote: the `filepath` of the first requested
   * download, else (no requested download) the prepared file name. A
   * missing key raises KeyError.
   */
  function DownloadedPath(info: Info): (path: Result<string>)
    ensures info.requestedDownloads.NoKey? ==> path == Err(Failure(KeyError, "'requested_downloads'"))
    ensures info.requestedDownloads in {NullEntry, Listed([])} ==> path == Ok(info.preparedFilename)
    ensures info.requestedDownloads.Listed? && info.requestedDownloads.filepaths != [] ==>
              var first := info.requestedDownloads.filepaths[0];
              path == if first.Some? then Ok(first.value) else Err(Failure(KeyError, "'filepath'"))
  {
    match info.requestedDownloads
    case NoKey => Err(Failure(KeyError, "'requested_downloads'"))
    case NullEntry => Ok(info.preparedFilename)
    case Listed(downloads) =>
      if downloads == [] then Ok(info.preparedFilename)
      else if downloads[0].None? then Err(Failure(KeyError, "'filepath'"))
      else Ok(downloads[0].value)
  }

  /** `info.get('duration')`, with a missing duration read as 0. */
  function DurationOrZero(d: Option<int>): (r: int)
    ensures d.Some? ==> r == d.value
    ensures d.None? ==> r == 0
  {
    if d.Some? then d.value else 0
  }

  /**
   * The end of the try block, after '音频下载完成': the duration, the file
   * path, then `info['id']` and `info['title']`, in that order; the first
   * missing key raises KeyError.
   */
  function DownloadOf(info: Info): (r: Result<Download>)
    ensures r.Ok? <==> DownloadedPath(info).Ok? && info.id.Some? && info.title.Some?
    ensures r.Ok? ==> r.value == Downloaded(info.id.value, info.title.value, DownloadedPath(info).value,
                                            DurationOrZero(info.duration))
    ensures r.Err? ==> r.error.kind == KeyError
    ensures DownloadedPath(info).Err? ==> r == Err(DownloadedPath(info).error)
  {
    var path := DownloadedPath(info);
    if path.Err? then Err(path.error)
    else if info.id.None? then Err(Failure(KeyError, "'id'"))
    else if info.title.None? then Err(Failure(KeyError, "'title'"))
    else Ok(Downloaded(info.id.value, info.title.value, path.value, DurationOrZero(info.duration)))
  }

  /** A probe that passed the duration gate and the formats check. */
  predicate GatePassed(env: map<string, string>, dl: Downloader)
  {
    dl.probe.Ok? && GetMaxVideoDuration(env).Ok?
    && !TooLong(dl.probe.value.duration, GetMaxVideoDuration(env).value) && dl.probe.value.formats != 0
  }

  /** The statuses the try block of `download_bilibili_audio` reaches after analysis, and how it ends. */
  datatype Attempt = Attempt(statuses: seq<string>, outcome: Result<Download>)

  /**
   * The try block after `'正在分析可用音频格式'`: probe, read the limit,
   * apply the duration gate and the formats check, then download.
   */
  function TryDownload(env: map<string, string>, dl: Downloader): (a: Attempt)
    ensures a.statuses != [] <==> GatePassed(env, dl)
    ensures a.statuses == [] || a.statuses == [StatusDownloading] || a.statuses == [StatusDownloading, StatusDownloaded]
    ensures a.statuses == [StatusDownloading] <==> GatePassed(env, dl) && dl.fetch.Err?
    ensures a.statuses == [StatusDownloading] ==> a.outcome == Err(dl.fetch.error)
    ensures a.statuses == [] ==> a.outcome.Err?
    ensures a.outcome.Ok? ==> a.statuses == [StatusDownloading, StatusDownloaded]
    ensures a.statuses == [StatusDownloading, StatusDownloaded] ==> dl.fetch.Ok? && a.outcome == DownloadOf(dl.fetch.value)
  {
    match dl.probe
    case Err(e) => Attempt([], Err(e))
    case Ok(meta) =>
      var max := GetMaxVideoDuration(env);
      if max.Err? then Attempt([], Err(max.error))
      else if TooLong(meta.duration, max.value) then
        Attempt([], Err(Failure(ValueError, TooLongMessage(meta.duration.value, max.value))))
      else if meta.formats == 0 then Attempt([], Err(Failure(GenericException, NoFormatsMessage)))
      else
        match dl.fetch
        case Err(e) => Attempt([StatusDownloading], Err(e))
        case Ok(info) => Attempt([StatusDownloading, StatusDownloaded], DownloadOf(info))
  }

  /** The except clauses: a downloader error is raised again as ValueError, any other error as it was. */
  function Reraised(e: Failure): (r: Failure)
    ensures r.message == e.message
    ensures r.kind != DownloadError
    ensures e.kind != DownloadError ==> r == e
  {
    if e.kind == DownloadError then Failure(ValueError, e.message) else e
  }

  /** Progress writes of one job, all under `key`, without details. */
  function StatusWrites(key: string, statuses: seq<string>): (ws: seq<Write>)
    ensures |ws| == |statuses|
    ensures forall i :: 0 <= i < |ws| ==> ws[i] == Write(key, statuses[i], None)
  {
    seq(|statuses|, i requires 0 <= i < |statuses| => Write(key, statuses[i], None))
  }

  /** What one call of `download_bilibili_audio` writes to the progress store, and what it returns or raises. */
  datatype Run = Run(writes: seq<Write>, outcome: Result<Download>)

  /** `download_bilibili_audio` as a function of the id, the environment and the downloader. */
  function DownloadRun(bvId: string, env: map<string, string>, dl: Downloader): Run
  {
    var v := ValidateBvId(bvId);
    if v.Err? then
      Run([Write(bvId, StatusDownloadFailed, Some(v.error.message))], Ok(Rejected))
    else
      var a := TryDownload(env, dl);
      var progress := StatusWrites(bvId, [StatusFetchingInfo, StatusAnalysing] + a.statuses);
      if a.outcome.Err? then
        Run(progress + [Write(bvId, StatusDownloadFailed, Some(a.outcome.error.message))], Err(Reraised(a.outcome.error)))
      else
        Run(progress, a.outcome)
  }

  /**
   * The progress protocol of `download_bilibili_audio`. Every write is under
   * the id and is one of the download statuses. An invalid id records
   * '下载失败' and returns the all-None tuple; a valid one never does. A
   * success records the four progress statuses in order; every failure
   * after validation ends with '下载失败' and the error's message, and is
   * raised again (never as a downloader error).
   */
  lemma DownloadProtocol(bvId: string, env: map<string, string>, dl: Downloader)
    ensures var r := DownloadRun(bvId, env, dl);
            r.outcome == Ok(Rejected) <==> ValidateBvId(bvId).Err?
    ensures var r := DownloadRun(bvId, env, dl);
            ValidateBvId(bvId).Err? ==> r.writes == [Write(bvId, StatusDownloadFailed, Some(InvalidBvMessage))]
    ensures var r := DownloadRun(bvId, env, dl);
            ValidateBvId(bvId).Ok? ==> |r.writes| >= 2 && r.writes[0] == Write(bvId, StatusFetchingInfo, None)
                                       && r.writes[1] == Write(bvId, StatusAnalysing, None)
    ensures var r := DownloadRun(bvId, env, dl);
            r.outcome.Ok? && r.outcome.value.Downloaded? ==>
              r.writes == StatusWrites(bvId, [StatusFetchingInfo, StatusAnalysing, StatusDownloading, StatusDownloaded])
    ensures var r := DownloadRun(bvId, env, dl);
            r.outcome.Err? ==> |r.writes| >= 3
                               && r.writes[|r.writes| - 1] == Write(bvId, StatusDownloadFailed, Some(r.outcome.error.message))
                               && r.outcome.error.kind != DownloadError
  {
  }

  /** Every write of a download is keyed by the id and carries one of the download statuses. */
  lemma DownloadWritesStatuses(bvId: string, env: map<string, string>, dl: Downloader)
    ensures var r := DownloadRun(bvId, env, dl);
            forall i :: 0 <= i < |r.writes| ==> r.writes[i].key == bvId && r.writes[i].status in DownloadStatuses
  {
  }

  /**
   * The duration gate and the formats check: with the probe and the limit
   * in hand, a video strictly longer than the limit is refused with
   * ValueError, and a probe with no formats with '未找到可用的音频格式',
   * both before '正在下载音频' is recorded; an equal, zero or missing
   * duration with some formats starts the download.
   */
  lemma DurationGate(bvId: string, env: map<string, string>, dl: Downloader)
    requires ValidateBvId(bvId).Ok? && dl.probe.Ok? && GetMaxVideoDuration(env).Ok?
    ensures var r := DownloadRun(bvId, env, dl);
            var max := GetMaxVideoDuration(env).value;
            var d := dl.probe.value.duration;
            && (TooLong(d, max) ==> r.outcome == Err(Failure(ValueError, TooLongMessage(d.value, max))))
            && (!TooLong(d, max) && dl.probe.value.formats == 0 ==>
                  r.outcome == Err(Failure(GenericException, NoFormatsMessage)))
            && (TooLong(d, max) || dl.probe.value.formats == 0 ==>
                  r.writes == StatusWrites(bvId, [StatusFetchingInfo, StatusAnalysing])
                              + [Write(bvId, StatusDownloadFailed, Some(r.outcome.error.message))]
                  && (forall i :: 0 <= i < |r.writes| ==> r.writes[i].status != StatusDownloading))
            && (!TooLong(d, max) && dl.probe.value.formats > 0 ==>
                  r.writes[2] == Write(bvId, StatusDownloading, None))
  {
    if !GatePassed(env, dl) {
      RefusedBeforeDownload(bvId, env, dl);
    }
  }

  /** A download the gate refuses records the first two statuses and '下载失败', and never '正在下载音频'. */
  lemma RefusedBeforeDownload(bvId: string, env: map<string, string>, dl: Downloader)
    requires ValidateBvId(bvId).Ok? && !GatePassed(env, dl)
    ensures var r := DownloadRun(bvId, env, dl);
            && r.outcome.Err?
            && r.writes == StatusWrites(bvId, [StatusFetchingInfo, StatusAnalysing])
                           + [Write(bvId, StatusDownloadFailed, Some(r.outcome.error.message))]
            && (forall i :: 0 <= i < |r.writes| ==> r.writes[i].status != StatusDownloading)
  {
    var a := TryDownload(env, dl);
    assert a.statuses == [];
    assert [StatusFetchingInfo, StatusAnalysing] + a.statuses == [StatusFetchingInfo, StatusAnalysing];
  }

  /**
   * A key missing from the download's report is only noticed after
   * '音频下载完成': the KeyError is recorded as '下载失败' after all four
   * progress statuses and raised again as it was.
   */
  lemma MissingKeyAfterDownload(bvId: string, env: map<string, string>, dl: Downloader)
    requires ValidateBvId(bvId).Ok? && GatePassed(env, dl) && dl.fetch.Ok? && DownloadOf(dl.fetch.value).Err?
    ensures var r := DownloadRun(bvId, env, dl);
            var e := DownloadOf(dl.fetch.value).error;
            && e.kind == KeyError
            && r.outcome == Err(e)
            && r.writes == StatusWrites(bvId, [StatusFetchingInfo, StatusAnalysing, StatusDownloading, StatusDownloaded])
                           + [Write(bvId, StatusDownloadFailed, Some(e.message))]
  {
    assert [StatusFetchingInfo, StatusAnalysing] + [StatusDownloading, StatusDownloaded]
        == [StatusFetchingInfo, StatusAnalysing, StatusDownloading, StatusDownloaded];
  }

  /**
   * `download_bilibili_audio(bv_id)`: the same decisions as `DownloadRun`,
   * made step by step against the progress store at time `now`.
   */
  method DownloadBilibiliAudio(store: ProgressStore, env: map<string, string>, bvId: string, dl: Downloader, now: int)
    returns (r: Result<Download>)
    modifies store
    ensures r == DownloadRun(bvId, env, dl).outcome
    ensures store.writes == old(store.writes) + DownloadRun(bvId, env, dl).writes
    ensures store.entries == Replayed(old(store.entries), DownloadRun(bvId, env, dl).writes, now)
  {
    ghost var w0 := store.writes;
    ghost var m0 := store.entries;
    var v := ValidateBvId(bvId);
    if v.Err? {
      Report(store, [], Write(bvId, StatusDownloadFailed, Some(v.error.message)), m0, w0, now);
      return Ok(Rejected);
    }
    Report(store, [], Write(bvId, StatusFetchingInfo, None), m0, w0, now);
    Report(store, [Write(bvId, StatusFetchingInfo, None)], Write(bvId, StatusAnalysing, None), m0, w0, now);
    assert [Write(bvId, StatusFetchingInfo, None)] + [Write(bvId, StatusAnalysing, None)]
        == StatusWrites(bvId, [StatusFetchingInfo, StatusAnalysing]);
    var outcome := TryDownloadSteps(store, env, bvId, dl, now, m0, w0);
    ghost var done := StatusWrites(bvId, [StatusFetchingInfo, StatusAnalysing] + TryDownload(env, dl).statuses);
    if outcome.Err? {
      var e := outcome.error;
      Report(store, done, Write(bvId, StatusDownloadFailed, Some(e.message)), m0, w0, now);
      r := if e.kind == DownloadError then Err(Failure(ValueError, e.message)) else Err(e);
    } else {
      r := outcome;
    }
  }

  /**
   * The try block of `download_bilibili_audio` after '正在分析可用音频格式':
   * the same decisions as `TryDownload`, with its progress writes.
   */
  method TryDownloadSteps(store: ProgressStore, env: map<string, string>, bvId: string, dl: Downloader, now: int,
                          ghost m0: map<string, Record>, ghost w0: seq<Write>)
    returns (outcome: Result<Download>)
    requires store.writes == w0 + StatusWrites(bvId, [StatusFetchingInfo, StatusAnalysing])
    requires store.entries == Replayed(m0, StatusWrites(bvId, [StatusFetchingInfo, StatusAnalysing]), now)
    modifies store
    ensures outcome == TryDownload(env, dl).outcome
    ensures var done := StatusWrites(bvId, [StatusFetchingInfo, StatusAnalysing] + TryDownload(env, dl).statuses);
            store.writes == w0 + done && store.entries == Replayed(m0, done, now)
  {
    match dl.probe {
      case Err(e) =>
        return Err(e);
      case Ok(meta) =>
        var max := GetMaxVideoDuration(env);
        if max.Err? {
          return Err(max.error);
        } else if TooLong(meta.duration, max.value) {
          return Err(Failure(ValueError, TooLongMessage(meta.duration.value, max.value)));
        } else if meta.formats == 0 {
          return Err(Failure(GenericException, NoFormatsMessage));
        }
        outcome := FetchSteps(store, env, bvId, dl, now, m0, w0);
    }
  }

  /** The download itself, once the gate has passed: '正在下载音频', the fetch, then '音频下载完成'. */
  method FetchSteps(store: ProgressStore, env: map<string, string>, bvId: string, dl: Downloader, now: int,
                    ghost m0: map<string, Record>, ghost w0: seq<Write>)
    returns (outcome: Result<Download>)
    requires GatePassed(env, dl)
    requires store.writes == w0 + StatusWrites(bvId, [StatusFetchingInfo, StatusAnalysing])
    requires store.entries == Replayed(m0, StatusWrites(bvId, [StatusFetchingInfo, StatusAnalysing]), now)
    modifies store
    ensures outcome == TryDownload(env, dl).outcome
    ensures var done := StatusWrites(bvId, [StatusFetchingInfo, StatusAnalysing] + TryDownload(env, dl).statuses);
            store.writes == w0 + done && store.entries == Replayed(m0, done, now)
  {
    ghost var done := StatusWrites(bvId, [StatusFetchingInfo, StatusAnalysing]);
    Report(store, done, Write(bvId, StatusDownloading, None), m0, w0, now);
    assert done + [Write(bvId, StatusDownloading, None)]
        == StatusWrites(bvId, [StatusFetchingInfo, StatusAnalysing, StatusDownloading]);
    done := StatusWrites(bvId, [StatusFetchingInfo, StatusAnalysing, StatusDownloading]);
    match dl.fetch {
      case Err(e) =>
        assert [StatusFetchingInfo, StatusAnalysing] + [StatusDownloading]
            == [StatusFetchingInfo, StatusAnalysing, StatusDownloading];
        return Err(e);
      case Ok(info) =>
        Report(store, done, Write(bvId, StatusDownloaded, None), m0, w0, now);
        assert done + [Write(bvId, StatusDownloaded, None)]
            == StatusWrites(bvId, [StatusFetchingInfo, StatusAnalysing, StatusDownloading, StatusDownloaded]);
        assert [StatusFetchingInfo, StatusAnalysing] + [StatusDownloading, StatusDownloaded]
            == [StatusFetchingInfo, StatusAnalysing, StatusDownloading, StatusDownloaded];
        return DownloadOf(info);
    }
  }

  /** One `update_progress` call, after the writes `done` of the same run. */
  method Report(store: ProgressStore, ghost done: seq<Write>, w: Write, ghost m0: map<string, Record>, ghost w0: seq<Write>, now: int)
    requires store.writes == w0 + done && store.entries == Replayed(m0, done, now)
    modifies store
    ensures store.writes == w0 + (done + [w])
    ensures store.entries == Replayed(m0, done + [w], now)
  {
    store.Update(w.key, w.status, w.details, now);
    ReplayedSnoc(m0, done, w, now);
  }

  // ------------------------------------------------------------ transcribe

  const StatusTranscribing: string := "正在转写音频"
  const StatusTranscribed: string := "转写完成"
  const StatusTranscriptionFailed: string := "转写失败"

  /**
   * What `transcribe_audio` ends with: the transcript of the backend the
   * factory builds, or the first error, from building the backend or from
   * transcribing. `vars` is the environment and `files` and `dirs` the file
   * system when it is called.
   */
  function TranscriptionOutcome(transcriberType: string, modelPath: string, vars: map<string, string>,
                                files: set<string>, dirs: set<string>, audioFilename: string, foreign: TS.Foreign)
    : Result<TS.Transcript>
  {
    var built := TS.Construction(transcriberType, Some(modelPath), vars, dirs, foreign);
    if built.Err? then Err(built.error) else TS.BackendOutcome(built.value, files, audioFilename, foreign)
  }

  /**
   * The process environment after `transcribe_audio`. Only the hosted
   * service touches it, and only with the proxy on: building it overrides
   * both proxy variables, and a failed build puts them back before raising.
   * A built one puts them back in the `finally` of its `transcribe`, which
   * a missing file never reaches, so then they stay overridden here; the
   * finalizer that would restore them when `transcribe_audio` returns is
   * not part of this model.
   */
  function EnvAfter(transcriberType: string, modelPath: string, vars: map<string, string>,
                    files: set<string>, audioFilename: string, foreign: TS.Foreign): map<string, string>
  {
    if TS.SelectBackend(transcriberType, Some(modelPath)) != Ok(TS.CloudWhisper) || !Cloud.UseProxy(vars) then vars
    else
      var overridden := Cloud.Overridden(vars, Cloud.ProxyUrl(vars));
      if Cloud.Connects(foreign.connect) && audioFilename !in files then overridden
      else Cloud.Restored(overridden, true, Host.LookupEnv(vars, Cloud.HttpProxyKey), Host.LookupEnv(vars, Cloud.HttpsProxyKey))
  }

  /**
   * `transcribe_audio` changes no variable but the two proxy variables.
   * When the hosted service with the proxy on fails to connect, or finds
   * the file, they come back as they were, except that one that held the
   * empty string comes back unset; when it connects but the file is missing
   * both are left pointing at the proxy. Every other backend leaves the
   * environment as it was.
   */
  lemma TranscriptionEnvironment(transcriberType: string, modelPath: string, vars: map<string, string>,
                                 files: set<string>, audioFilename: string, foreign: TS.Foreign)
    ensures var r := EnvAfter(transcriberType, modelPath, vars, files, audioFilename, foreign);
            forall k :: k != Cloud.HttpProxyKey && k != Cloud.HttpsProxyKey ==>
              (k in r <==> k in vars) && (k in r ==> r[k] == vars[k])
    ensures var r := EnvAfter(transcriberType, modelPath, vars, files, audioFilename, foreign);
            var hosted := TS.SelectBackend(transcriberType, Some(modelPath)) == Ok(TS.CloudWhisper) && Cloud.UseProxy(vars);
            && (!hosted ==> r == vars)
            && (hosted && (!Cloud.Connects(foreign.connect) || audioFilename in files) ==>
                  forall k :: k in {Cloud.HttpProxyKey, Cloud.HttpsProxyKey} ==>
                    (k in r <==> k in vars && vars[k] != "") && (k in r ==> r[k] == vars[k]))
            && (hosted && Cloud.Connects(foreign.connect) && audioFilename !in files ==>
                  r[Cloud.HttpProxyKey] == Cloud.ProxyUrl(vars) && r[Cloud.HttpsProxyKey] == Cloud.ProxyUrl(vars))
  {
    Cloud.OverrideThenRestore(vars, Cloud.ProxyUrl(vars));
  }

  /**
   * A transcript comes only from an existing audio file, through a backend
   * the type names exactly; an unknown type is the factory's ValueError
   * naming it. The transcript is plain text exactly for the OpenAI backend.
   */
  lemma TranscriptionNeedsFileAndBackend(transcriberType: string, modelPath: string, vars: map<string, string>,
                                         files: set<string>, dirs: set<string>, audioFilename: string, foreign: TS.Foreign)
    ensures var o := TranscriptionOutcome(transcriberType, modelPath, vars, files, dirs, audioFilename, foreign);
            && (o.Ok? ==> audioFilename in files && TS.ParseBackend(transcriberType).Some?)
            && (o.Ok? ==> (o.value.PlainText? <==> transcriberType == "openai"))
            && (TS.ParseBackend(transcriberType).None? ==>
                  o == Err(Failure(ValueError, "Unsupported transcriber type: " + transcriberType)))
  {
    var built := TS.Construction(transcriberType, Some(modelPath), vars, dirs, foreign);
    if built.Ok? {
      assert TS.BackendName(built.value) == transcriberType;
    }
  }

  /**
   * `transcribe_audio(audio_filename, transcriber_type)`: progress is kept
   * under the audio file name. Building the backend, then '正在转写音频',
   * then transcription, then '转写完成' and the transcript. Any failure is
   * recorded as '转写失败' with its message, and gives no transcript instead
   * of an exception. `modelPath` is the configured local model directory.
   */
  method TranscribeAudio(store: ProgressStore, env: Host.Environment, disk: Host.Disk, audioFilename: string,
                         transcriberType: string, modelPath: string, foreign: TS.Foreign, now: int)
    returns (transcript: Option<TS.Transcript>, ghost failure: Option<Failure>, ghost written: seq<Write>)
    modifies store, env
    ensures var o := TranscriptionOutcome(transcriberType, modelPath, old(env.vars), disk.files, disk.dirs, audioFilename, foreign);
            && transcript == (if o.Ok? then Some(o.value) else None)
            && failure == (if o.Err? then Some(o.error) else None)
    ensures env.vars == EnvAfter(transcriberType, modelPath, old(env.vars), disk.files, audioFilename, foreign)
    ensures store.writes == old(store.writes) + written
    ensures store.entries == Replayed(old(store.entries), written, now)
    ensures forall i :: 0 <= i < |written| ==> written[i].key == audioFilename
    ensures transcript.Some? ==> written == StatusWrites(audioFilename, [StatusTranscribing, StatusTranscribed])
    ensures failure.Some? ==>
              var failed := Write(audioFilename, StatusTranscriptionFailed, Some(failure.value.message));
              written == [failed] || written == [Write(audioFilename, StatusTranscribing, None), failed]
    ensures TS.Construction(transcriberType, Some(modelPath), old(env.vars), disk.dirs, foreign).Err? ==>
              written == [Write(audioFilename, StatusTranscriptionFailed, Some(failure.value.message))]
    ensures TS.Construction(transcriberType, Some(modelPath), old(env.vars), disk.dirs, foreign).Ok? ==>
              |written| == 2 && written[0] == Write(audioFilename, StatusTranscribing, None)
  {
    ghost var w0 := store.writes;
    ghost var m0 := store.entries;
    var made := TS.GetTranscriber(transcriberType, Some(modelPath), env, disk, foreign);
    if made.Err? {
      Report(store, [], Write(audioFilename, StatusTranscriptionFailed, Some(made.error.message)), m0, w0, now);
      return None, Some(made.error), [Write(audioFilename, StatusTranscriptionFailed, Some(made.error.message))];
    }
    assert made.value.Remote? <==> TS.SelectBackend(transcriberType, Some(modelPath)) == Ok(TS.CloudWhisper);
    transcript, failure, written := RunTranscriber(store, made.value, env, disk, audioFilename, foreign, now);
  }

  /** The rest of the try block of `transcribe_audio`, once the backend is built. */
  method RunTranscriber(store: ProgressStore, t: TS.Transcriber, env: Host.Environment, disk: Host.Disk, audioFilename: string,
                        foreign: TS.Foreign, now: int)
    returns (transcript: Option<TS.Transcript>, ghost failure: Option<Failure>, ghost written: seq<Write>)
    requires t.Remote? ==> t.remote.connected
    modifies store, env
    ensures var o := TS.BackendOutcome(TS.KindOf(t), disk.files, audioFilename, foreign);
            && transcript == (if o.Ok? then Some(o.value) else None)
            && failure == (if o.Err? then Some(o.error) else None)
    ensures env.vars == if t.Remote? && audioFilename in disk.files then t.remote.RestoredEnv(old(env.vars)) else old(env.vars)
    ensures store.writes == old(store.writes) + written
    ensures store.entries == Replayed(old(store.entries), written, now)
    ensures transcript.Some? ==> written == StatusWrites(audioFilename, [StatusTranscribing, StatusTranscribed])
    ensures failure.Some? ==>
              written == [Write(audioFilename, StatusTranscribing, None),
                          Write(audioFilename, StatusTranscriptionFailed, Some(failure.value.message))]
  {
    ghost var w0 := store.writes;
    ghost var m0 := store.entries;
    var started := Write(audioFilename, StatusTranscribing, None);
    Report(store, [], started, m0, w0, now);
    assert [] + [started] == [started];
    var out := TS.Transcribe(t, env, disk, audioFilename, foreign);
    transcript, failure, written := Conclude(store, audioFilename, out, m0, w0, now);
  }

  /** '转写完成' with the transcript, or '转写失败' with the error, after '正在转写音频'. */
  method Conclude(store: ProgressStore, audioFilename: string, out: Result<TS.Transcript>,
                  ghost m0: map<string, Record>, ghost w0: seq<Write>, now: int)
    returns (transcript: Option<TS.Transcript>, ghost failure: Option<Failure>, ghost written: seq<Write>)
    requires store.writes == w0 + [Write(audioFilename, StatusTranscribing, None)]
    requires store.entries == Replayed(m0, [Write(audioFilename, StatusTranscribing, None)], now)
    modifies store
    ensures transcript == (if out.Ok? then Some(out.value) else None)
    ensures failure == (if out.Err? then Some(out.error) else None)
    ensures store.writes == w0 + written
    ensures store.entries == Replayed(m0, written, now)
    ensures transcript.Some? ==> written == StatusWrites(audioFilename, [StatusTranscribing, StatusTranscribed])
    ensures failure.Some? ==>
              written == [Write(audioFilename, StatusTranscribing, None),
                          Write(audioFilename, StatusTranscriptionFailed, Some(failure.value.message))]
  {
    var started := Write(audioFilename, StatusTranscribing, None);
    if out.Err? {
      var failed := Write(audioFilename, StatusTranscriptionFailed, Some(out.error.message));
      Report(store, [started], failed, m0, w0, now);
      assert [started] + [failed] == [started, failed];
      return None, Some(out.error), [started, failed];
    }
    var finished := Write(audioFilename, StatusTranscribed, None);
    Report(store, [started], finished, m0, w0, now);
    StatusWritesPair(audioFilename, StatusTranscribing, StatusTranscribed);
    assert [started] + [finished] == [started, finished];
    return Some(out.value), None, [started, finished];
  }

  lemma StatusWritesPair(key: string, a: string, b: string)
    ensures StatusWrites(key, [a, b]) == [Write(key, a, None), Write(key, b, None)]
  {
  }

  // --------------------------------------------------------------- cleanup

  /**
   * `cleanup_files(audio_filename)`: remove the file; a missing file, a
   * refused deletion or any other error is logged and swallowed, so the
   * call never raises. `permitted` is whether the system allows the
   * deletion.
   */
  method CleanupFiles(disk: Host.Disk, audioFilename: string, permitted: bool)
    modifies disk
    ensures permitted ==> disk.files == old(disk.files) - {audioFilename}
    ensures !permitted ==> disk.files == old(disk.files)
    ensures disk.dirs == old(disk.dirs)
  {
    var err := disk.Remove(audioFilename, permitted);
  }
}
