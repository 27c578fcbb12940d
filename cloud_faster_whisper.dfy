/**
 * cloud_faster_whisper.py: the backend that runs transcription on a hosted
 * inference service. Construction may route the connection through a proxy
 * by rewriting two environment variables, and connects with up to three
 * attempts; every transcription restores the variables afterwards; the
 * service's answer is normalised into the common segment list.
 *
 * The service client (`gradio_client.Client`, `Client.predict`) and
 * `json.loads` are foreign calls: their outcomes are parameters.
 */
module CloudFasterWhisper {
  import opened Outcomes
  import opened Text
  import Host
  import opened SubtitleUtils

  const DefaultProxyUrl: string := "http://127.0.0.1:7890"
  const MaxConnectAttempts: nat := 3
  const HttpProxyKey: string := "HTTP_PROXY"
  const HttpsProxyKey: string := "HTTPS_PROXY"

  // --------------------------------------------------- result normalisation

  /**
   * A field of a segment record sent back by the service: a JSON number
   * (`integral` when `json.loads` gives it as an int), a string together
   * with what `float()` makes of it (`None` when `float()` raises
   * ValueError), or null.
   */
  datatype Value = Number(micros: nat, integral: bool) | Str(s: string, asFloat: Option<nat>) | Null

  /** An element of the returned list: a record with named fields, or a value of another Python type, by its type name. */
  datatype Item = Fields(fields: map<string, Value>) | NotARecord(typeName: string)

  /**
   * What `json.loads` makes of a JSON text: an array of items, an object
   * (only its number of keys matters, since iterating it gives its keys),
   * a string, or a number, boolean or null by its Python type name.
   */
  datatype Json = JsonArray(items: seq<Item>) | JsonObject(keyCount: nat) | JsonString(s: string) | JsonScalar(typeName: string)

  /**
   * What `Client.predict` returns: a JSON text (with the outcome of
   * `json.loads` on it, `None` when it does not parse), a list, or a value
   * of some other type.
   */
  datatype RawResult = RawString(decoded: Option<Json>) | RawList(items: seq<Item>) | RawOther(typeName: string)

  /** `type(v).__name__` */
  function TypeName(v: Value): string
  {
    match v
    case Number(_, integral) => if integral then "int" else "float"
    case Str(_, _) => "str"
    case Null => "NoneType"
  }

  /** The TypeError that `x[key]`, for a string key, raises on a value `x` of a type other than a dictionary. */
  function SubscriptError(typeName: string): (e: Failure)
    ensures e.kind == TypeError
  {
    if typeName == "list" then Failure(TypeError, "list indices must be integers or slices, not str")
    else if typeName == "str" then Failure(TypeError, "string indices must be integers, not 'str'")
    else Failure(TypeError, "'" + typeName + "' object is not subscriptable")
  }

  /** `float(item[key])`: the record lookup, then the conversion of the value found. */
  function TimeField(item: Item, key: string): (r: Result<nat>)
    ensures item.NotARecord? ==> r == Err(SubscriptError(item.typeName))
    ensures item.Fields? && key !in item.fields ==> r == Err(Failure(KeyError, "'" + key + "'"))
    ensures r.Ok? <==> item.Fields? && key in item.fields
                       && (item.fields[key].Number? || (item.fields[key].Str? && item.fields[key].asFloat.Some?))
    ensures r.Ok? && item.fields[key].Number? ==> r.value == item.fields[key].micros
    ensures r.Ok? && item.fields[key].Str? ==> r.value == item.fields[key].asFloat.value
    ensures item.Fields? && key in item.fields && item.fields[key].Str? && item.fields[key].asFloat.None? ==>
              r == Err(Failure(ValueError, "could not convert string to float: '" + item.fields[key].s + "'"))
    ensures item.Fields? && key in item.fields && item.fields[key].Null? ==>
              r == Err(Failure(TypeError, "float() argument must be a string or a real number, not 'NoneType'"))
  {
    if item.NotARecord? then Err(SubscriptError(item.typeName))
    else if key !in item.fields then Err(Failure(KeyError, "'" + key + "'"))
    else
      match item.fields[key]
      case Number(micros, _) => Ok(micros)
      case Str(s, asFloat) =>
        if asFloat.Some? then Ok(asFloat.value)
        else Err(Failure(ValueError, "could not convert string to float: '" + s + "'"))
      case Null => Err(Failure(TypeError, "float() argument must be a string or a real number, not 'NoneType'"))
  }

  /** `item['text'].strip()`: only a string has `strip`. */
  function TextField(item: Item): (r: Result<string>)
    ensures item.NotARecord? ==> r == Err(SubscriptError(item.typeName))
    ensures item.Fields? && "text" !in item.fields ==> r == Err(Failure(KeyError, "'text'"))
    ensures r.Ok? <==> item.Fields? && "text" in item.fields && item.fields["text"].Str?
    ensures r.Ok? ==> r.value == PyStrip(item.fields["text"].s)
    ensures item.Fields? && "text" in item.fields && !item.fields["text"].Str? ==>
              r == Err(Failure(AttributeError, "'" + TypeName(item.fields["text"]) + "' object has no attribute 'strip'"))
  {
    if item.NotARecord? then Err(SubscriptError(item.typeName))
    else if "text" !in item.fields then Err(Failure(KeyError, "'text'"))
    else if !item.fields["text"].Str? then
      Err(Failure(AttributeError, "'" + TypeName(item.fields["text"]) + "' object has no attribute 'strip'"))
    else Ok(PyStrip(item.fields["text"].s))
  }

  /** One `{'start': float(...), 'end': float(...), 'text': ....strip()}`, fields evaluated in that order. */
  function ConvertItem(item: Item): (r: Result<Segment>)
    ensures r.Ok? <==> TimeField(item, "start").Ok? && TimeField(item, "end").Ok? && TextField(item).Ok?
    ensures r.Ok? ==> r.value == Segment(TimeField(item, "start").value, TimeField(item, "end").value, TextField(item).value)
  {
    var start := TimeField(item, "start");
    if start.Err? then Err(start.error)
    else
      var end := TimeField(item, "end");
      if end.Err? then Err(end.error)
      else
        var text := TextField(item);
        if text.Err? then Err(text.error) else Ok(Segment(start.value, end.value, text.value))
  }

  /**
   * The conversion loop of `_process_transcription`: every item converted in
   * order, or the error of the first item that does not convert (nothing
   * partial is returned).
   */
  function ConvertAll(items: seq<Item>): (r: Result<seq<Segment>>)
    ensures r.Ok? ==> |r.value| == |items|
  {
    Collect(Conversions(items))
  }

  /** Each item's conversion, at its index. */
  function Conversions(items: seq<Item>): (rs: seq<Result<Segment>>)
    ensures |rs| == |items|
    ensures forall i :: 0 <= i < |items| ==> rs[i] == ConvertItem(items[i])
  {
    seq(|items|, i requires 0 <= i < |items| => ConvertItem(items[i]))
  }

  /** The values of `rs` in order, or the error of the first one that failed. */
  function Collect<T>(rs: seq<Result<T>>): (r: Result<seq<T>>)
    ensures r.Ok? ==> |r.value| == |rs|
  {
    if rs == [] then Ok([])
    else if rs[0].Err? then Err(rs[0].error)
    else
      var tail := Collect(rs[1..]);
      if tail.Err? then Err(tail.error) else Ok([rs[0].value] + tail.value)
  }

  /** `rs[i]` is the first failure in `rs`. */
  predicate FirstErr<T>(rs: seq<Result<T>>, i: int)
  {
    0 <= i < |rs| && rs[i].Err? && forall j :: 0 <= j < i ==> rs[j].Ok?
  }

  lemma {:induction false} CollectOk<T>(rs: seq<Result<T>>)
    ensures Collect(rs).Ok? <==> forall i :: 0 <= i < |rs| ==> rs[i].Ok?
    ensures Collect(rs).Ok? ==> forall i :: 0 <= i < |rs| ==> Collect(rs).value[i] == rs[i].value
  {
    if rs != [] {
      CollectOk(rs[1..]);
      assert forall i :: 1 <= i < |rs| ==> rs[1..][i - 1] == rs[i];
    }
  }

  lemma {:induction false} CollectErr<T>(rs: seq<Result<T>>)
    ensures Collect(rs).Err? ==> exists i :: FirstErr(rs, i) && Collect(rs).error == rs[i].error
  {
    if rs != [] {
      if rs[0].Err? {
        assert FirstErr(rs, 0);
      } else if Collect(rs[1..]).Err? {
        CollectErr(rs[1..]);
        var k :| FirstErr(rs[1..], k) && Collect(rs[1..]).error == rs[1..][k].error;
        assert forall j :: 0 <= j < k ==> rs[1..][j] == rs[j + 1];
        assert FirstErr(rs, k + 1);
      }
    }
  }

  lemma {:induction false} CollectFirstErr<T>(rs: seq<Result<T>>, i: int)
    requires FirstErr(rs, i)
    ensures Collect(rs) == Err(rs[i].error)
  {
    if i > 0 {
      var rest := rs[1..];
      assert rest[i - 1] == rs[i];
      assert forall j :: 0 <= j < i - 1 ==> rest[j] == rs[j + 1];
      assert FirstErr(rest, i - 1);
      CollectFirstErr(rest, i - 1);
    }
  }

  /** The conversion succeeds exactly when every item converts, and then keeps each item's conversion at its index. */
  lemma ConvertAllOk(items: seq<Item>)
    ensures ConvertAll(items).Ok? <==> forall i :: 0 <= i < |items| ==> ConvertItem(items[i]).Ok?
    ensures ConvertAll(items).Ok? ==> forall i :: 0 <= i < |items| ==> ConvertAll(items).value[i] == ConvertItem(items[i]).value
  {
    CollectOk(Conversions(items));
  }

  /** Item `i` is the first one that does not convert. */
  predicate FirstFailure(items: seq<Item>, i: int)
  {
    0 <= i < |items| && ConvertItem(items[i]).Err? && forall j :: 0 <= j < i ==> ConvertItem(items[j]).Ok?
  }

  /** A failed conversion reports the error of the first failing item. */
  lemma ConvertAllErr(items: seq<Item>)
    ensures ConvertAll(items).Err? ==>
              exists i :: FirstFailure(items, i) && ConvertAll(items).error == ConvertItem(items[i]).error
  {
    var rs := Conversions(items);
    CollectErr(rs);
    if Collect(rs).Err? {
      var k :| FirstErr(rs, k) && Collect(rs).error == rs[k].error;
      assert FirstFailure(items, k);
    }
  }

  /**
   * What `for segment in transcription` goes through, or the error raised
   * before the first segment: the ValueError for a text that does not parse
   * or a result of another type, and the TypeError for a decoded value that
   * cannot be iterated. A decoded object gives its keys and a decoded
   * string its characters, all strings.
   */
  function ItemsOf(result: RawResult): (r: Result<seq<Item>>)
    ensures r.Err? <==> result.RawOther? || (result.RawString? && (result.decoded.None? || result.decoded.value.JsonScalar?))
    ensures result.RawList? ==> r == Ok(result.items)
    ensures result.RawString? && result.decoded.Some? && result.decoded.value.JsonArray? ==>
              r == Ok(result.decoded.value.items)
    ensures result.RawString? && result.decoded.Some? && result.decoded.value.JsonScalar? ==>
              r == Err(Failure(TypeError, "'" + result.decoded.value.typeName + "' object is not iterable"))
    ensures r.Err? && !(result.RawString? && result.decoded.Some?) ==> r.error.kind == ValueError
    ensures result.RawString? && result.decoded.Some? && (result.decoded.value.JsonObject? || result.decoded.value.JsonString?) ==>
              r.Ok? && (forall i :: 0 <= i < |r.value| ==> r.value[i] == NotARecord("str"))
              && |r.value| == if result.decoded.value.JsonObject? then result.decoded.value.keyCount else |result.decoded.value.s|
  {
    match result
    case RawString(decoded) =>
      if decoded.None? then Err(Failure(ValueError, "无法解析转写结果"))
      else
        (match decoded.value
         case JsonArray(items) => Ok(items)
         case JsonObject(keyCount) => Ok(seq(keyCount, _ => NotARecord("str")))
         case JsonString(text) => Ok(seq(|text|, _ => NotARecord("str")))
         case JsonScalar(typeName) => Err(Failure(TypeError, "'" + typeName + "' object is not iterable")))
    case RawList(items) => Ok(items)
    case RawOther(typeName) => Err(Failure(ValueError, "未预期的结果类型: <class '" + typeName + "'>"))
  }

  /** What `_process_transcription` returns or raises. */
  function Normalize(result: RawResult): Result<seq<Segment>>
  {
    var items := ItemsOf(result);
    if items.Err? then Err(items.error) else ConvertAll(items.value)
  }

  /**
   * `_process_transcription`: decode a JSON string or take a list as it is,
   * then convert each segment in order. A list comes back with the same
   * length and order, each start and end kept and each text stripped.
   */
  method ProcessTranscription(result: RawResult) returns (r: Result<seq<Segment>>)
    ensures r == Normalize(result)
    ensures result.RawOther? ==> r.Err? && r.error.kind == ValueError
    ensures result.RawString? && result.decoded.None? ==> r == Err(Failure(ValueError, "无法解析转写结果"))
  {
    var items := ItemsOf(result);
    if items.Err? {
      return Err(items.error);
    }
    r := ConvertSegments(items.value);
  }

  /**
   * The loop of `_process_transcription`: convert each segment in turn,
   * appending to the result, and stop at the first segment that raises.
   */
  method ConvertSegments(transcription: seq<Item>) returns (r: Result<seq<Segment>>)
    ensures r == ConvertAll(transcription)
  {
    ghost var rs := Conversions(transcription);
    var processed: seq<Segment> := [];
    for i := 0 to |transcription|
      invariant |processed| == i
      invariant forall j :: 0 <= j < i ==> rs[j].Ok? && processed[j] == rs[j].value
    {
      var segment := ConvertItem(transcription[i]);
      if segment.Err? {
        assert FirstErr(rs, i);
        CollectFirstErr(rs, i);
        return Err(segment.error);
      }
      ValuesSnoc(rs, processed, i);
      processed := processed + [segment.value];
    }
    CollectOk(rs);
    assert Collect(rs).value == processed;
    r := Ok(processed);
  }

  /** Appending the value of a successful `rs[i]` keeps `processed` the values of `rs` up to `i`. */
  lemma ValuesSnoc<T>(rs: seq<Result<T>>, processed: seq<T>, i: nat)
    requires i < |rs| && rs[i].Ok? && |processed| == i
    requires forall j :: 0 <= j < i ==> rs[j].Ok? && processed[j] == rs[j].value
    ensures forall j :: 0 <= j < i + 1 ==> rs[j].Ok? && (processed + [rs[i].value])[j] == rs[j].value
  {
  }

  /** There is only one first failure, so the error `ConvertAll` reports is determined. */
  lemma FirstFailureUnique(items: seq<Item>, i: int)
    requires FirstFailure(items, i)
    ensures ConvertAll(items) == Err(ConvertItem(items[i]).error)
  {
    var rs := Conversions(items);
    assert FirstErr(rs, i);
    CollectFirstErr(rs, i);
  }

  // ------------------------------------------------------ proxy variables

  /** `USE_PROXY`, default "False", compared lower-cased with "true". */
  function UseProxy(vars: map<string, string>): bool
  {
    AsciiLower(Host.GetEnv(vars, "USE_PROXY", "False")) == "true"
  }

  function ProxyUrl(vars: map<string, string>): string
  {
    Host.GetEnv(vars, "PROXY_URL", DefaultProxyUrl)
  }

  /** Both proxy variables pointed at `url`. */
  function Overridden(vars: map<string, string>, url: string): (r: map<string, string>)
    ensures r.Keys == vars.Keys + {HttpProxyKey, HttpsProxyKey}
    ensures r[HttpProxyKey] == url && r[HttpsProxyKey] == url
    ensures forall k :: k in vars && k != HttpProxyKey && k != HttpsProxyKey ==> r[k] == vars[k]
  {
    vars[HttpProxyKey := url][HttpsProxyKey := url]
  }

  /** One key of `_restore_proxy_settings`: put back a non-empty saved value, else remove the key. */
  function RestoreKey(vars: map<string, string>, key: string, saved: Option<string>): (r: map<string, string>)
    ensures saved.Some? && saved.value != "" ==> key in r && r[key] == saved.value
    ensures !(saved.Some? && saved.value != "") ==> key !in r
    ensures forall k :: k != key ==> (k in r <==> k in vars) && (k in r ==> r[k] == vars[k])
  {
    if saved.Some? && saved.value != "" then vars[key := saved.value] else vars - {key}
  }

  /** The environment after `_restore_proxy_settings`; nothing happens without a proxy. */
  function Restored(vars: map<string, string>, useProxy: bool, savedHttp: Option<string>, savedHttps: Option<string>): map<string, string>
  {
    if useProxy then RestoreKey(RestoreKey(vars, HttpProxyKey, savedHttp), HttpsProxyKey, savedHttps) else vars
  }

  /** Restoring twice is the same as restoring once. */
  lemma RestoreIdempotent(vars: map<string, string>, useProxy: bool, savedHttp: Option<string>, savedHttps: Option<string>)
    ensures var once := Restored(vars, useProxy, savedHttp, savedHttps);
            Restored(once, useProxy, savedHttp, savedHttps) == once
  {
  }

  /** Restoring touches no variable other than the two proxy keys. */
  lemma RestoreFrame(vars: map<string, string>, useProxy: bool, savedHttp: Option<string>, savedHttps: Option<string>, k: string)
    requires k != HttpProxyKey && k != HttpsProxyKey
    ensures var r := Restored(vars, useProxy, savedHttp, savedHttps);
            (k in r <==> k in vars) && (k in r ==> r[k] == vars[k])
  {
  }

  /**
   * Override followed by restore gives back the original environment,
   * except that a proxy variable that was set to the empty string comes back
   * unset.
   */
  lemma OverrideThenRestore(vars: map<string, string>, url: string)
    ensures var r := Restored(Overridden(vars, url), true, Host.LookupEnv(vars, HttpProxyKey), Host.LookupEnv(vars, HttpsProxyKey));
            && (forall k :: k != HttpProxyKey && k != HttpsProxyKey ==> (k in r <==> k in vars) && (k in r ==> r[k] == vars[k]))
            && (forall k :: k in {HttpProxyKey, HttpsProxyKey} ==>
                  (k in r <==> k in vars && vars[k] != "") && (k in r ==> r[k] == vars[k]))
  {
  }

  /** The outcome of one `Client("magicsif/fasterwhisper")` call. */
  datatype ConnectOutcome = Connected | Refused(reason: string)

  /** Attempt `i` is the first that connects. */
  predicate FirstConnect(connect: nat -> ConnectOutcome, i: nat)
  {
    connect(i).Connected? && forall j :: 0 <= j < i ==> connect(j).Refused?
  }

  class CloudFasterWhisperTranscriber {
    const useProxy: bool
    const proxyUrl: string
    /** `os.environ.get('HTTP_PROXY')` when the proxy was enabled. */
    const originalHttpProxy: Option<string>
    const originalHttpsProxy: Option<string>
    /** `self.client` has been set. */
    var connected: bool

    /** The environment once this instance has restored the proxy variables. */
    function RestoredEnv(vars: map<string, string>): map<string, string>
    {
      Restored(vars, useProxy, originalHttpProxy, originalHttpsProxy)
    }

    /**
     * The first half of `__init__`: read the proxy settings and, with the
     * proxy enabled, save the two proxy variables and point both at the
     * proxy URL. With it disabled, the environment is untouched.
     */
    constructor (env: Host.Environment)
      modifies env
      ensures useProxy == UseProxy(old(env.vars)) && proxyUrl == ProxyUrl(old(env.vars))
      ensures useProxy ==> originalHttpProxy == Host.LookupEnv(old(env.vars), HttpProxyKey)
                           && originalHttpsProxy == Host.LookupEnv(old(env.vars), HttpsProxyKey)
                           && env.vars == Overridden(old(env.vars), proxyUrl)
      ensures !useProxy ==> env.vars == old(env.vars)
      ensures !connected
    {
      var enabled := UseProxy(env.vars);
      useProxy := enabled;
      proxyUrl := ProxyUrl(env.vars);
      originalHttpProxy := if enabled then Host.LookupEnv(env.vars, HttpProxyKey) else None;
      originalHttpsProxy := if enabled then Host.LookupEnv(env.vars, HttpsProxyKey) else None;
      connected := false;
      new;
      if enabled {
        env.Set(HttpProxyKey, proxyUrl);
        env.Set(HttpsProxyKey, proxyUrl);
      }
    }

    /**
     * The connection loop of `__init__`: at most three attempts, stopping at
     * the first that connects. After the third failure the proxy variables
     * are restored and the error is raised.
     */
    method Connect(env: Host.Environment, connect: nat -> ConnectOutcome) returns (attempts: nat, err: Option<Failure>)
      modifies this, env
      ensures 1 <= attempts <= MaxConnectAttempts
      ensures err.None? <==> Connects(connect)
      ensures err.None? ==> connected && FirstConnect(connect, attempts - 1) && env.vars == old(env.vars)
      ensures err.Some? ==> !connected && attempts == MaxConnectAttempts
                            && err.value == ConnectFailure(connect)
                            && env.vars == RestoredEnv(old(env.vars))
    {
      connected := false;
      var attempt := 0;
      while attempt < MaxConnectAttempts
        invariant 0 <= attempt <= 2
        invariant forall j :: 0 <= j < attempt ==> connect(j).Refused?
        invariant !connected && env.vars == old(env.vars)
        decreases MaxConnectAttempts - attempt
      {
        var outcome := connect(attempt);
        if outcome.Connected? {
          connected := true;
          return attempt + 1, None;
        }
        if attempt == 2 {
          RestoreProxySettings(env);
          return MaxConnectAttempts, Some(Failure(GenericException, "无法连接到 Hugging Face 空间: " + outcome.reason));
        }
        // time.sleep(5) between attempts
        attempt := attempt + 1;
      }
      assert false;
    }

    /** `_restore_proxy_settings` */
    method RestoreProxySettings(env: Host.Environment)
      modifies env
      ensures env.vars == RestoredEnv(old(env.vars))
    {
      if useProxy {
        match originalHttpProxy {
          case Some(v) =>
            if v != "" { env.Set(HttpProxyKey, v); } else { env.Pop(HttpProxyKey); }
          case None =>
            env.Pop(HttpProxyKey);
        }
        match originalHttpsProxy {
          case Some(v) =>
            if v != "" { env.Set(HttpsProxyKey, v); } else { env.Pop(HttpsProxyKey); }
          case None =>
            env.Pop(HttpsProxyKey);
        }
      }
    }

    /**
     * `transcribe`: a missing file raises FileNotFoundError before the
     * service is called, and the proxy variables are then NOT restored (the
     * check is outside the try). Otherwise the service's answer is
     * normalised, and the variables are restored on success and failure.
     */
    method Transcribe(env: Host.Environment, disk: Host.Disk, audioFilename: string, predict: Result<RawResult>)
      returns (r: Result<seq<Segment>>)
      requires connected
      modifies env
      ensures audioFilename !in disk.files ==>
                r == Err(Failure(FileNotFoundError, "音频文件未找到: " + audioFilename)) && env.vars == old(env.vars)
      ensures audioFilename in disk.files ==>
                env.vars == RestoredEnv(old(env.vars))
                && r == (if predict.Err? then Err(predict.error) else Normalize(predict.value))
    {
      if !disk.Exists(audioFilename) {
        return Err(Failure(FileNotFoundError, "音频文件未找到: " + audioFilename));
      }
      if predict.Err? {
        r := Err(predict.error);
      } else {
        r := ProcessTranscription(predict.value);
      }
      RestoreProxySettings(env);   // finally
    }
  }

  /** One of the three connection attempts succeeds. */
  predicate Connects(connect: nat -> ConnectOutcome)
  {
    exists i :: 0 <= i < MaxConnectAttempts && connect(i).Connected?
  }

  /** The error the constructor raises when no attempt connects: it names the third attempt's reason. */
  function ConnectFailure(connect: nat -> ConnectOutcome): Failure
    requires connect(2).Refused?
  {
    Failure(GenericException, "无法连接到 Hugging Face 空间: " + connect(2).reason)
  }

  /**
   * `CloudFasterWhisperTranscriber()`: the proxy override, then the
   * connection loop. An instance keeps the proxy variables overridden and
   * remembers their old values; a failed connection leaves the environment
   * restored and no instance.
   */
  method NewCloudFasterWhisper(env: Host.Environment, connect: nat -> ConnectOutcome)
    returns (r: Result<CloudFasterWhisperTranscriber>)
    modifies env
    ensures r.Ok? <==> Connects(connect)
    ensures r.Err? ==> r.error == ConnectFailure(connect)
    ensures r.Ok? ==> fresh(r.value) && r.value.connected
                      && r.value.useProxy == UseProxy(old(env.vars))
                      && r.value.proxyUrl == ProxyUrl(old(env.vars))
                      && (r.value.useProxy ==>
                            r.value.originalHttpProxy == Host.LookupEnv(old(env.vars), HttpProxyKey)
                            && r.value.originalHttpsProxy == Host.LookupEnv(old(env.vars), HttpsProxyKey)
                            && env.vars == Overridden(old(env.vars), ProxyUrl(old(env.vars))))
                      && (!r.value.useProxy ==> env.vars == old(env.vars))
    ensures r.Err? && UseProxy(old(env.vars)) ==>
              env.vars == Restored(Overridden(old(env.vars), ProxyUrl(old(env.vars))), true,
                                   Host.LookupEnv(old(env.vars), HttpProxyKey),
                                   Host.LookupEnv(old(env.vars), HttpsProxyKey))
    ensures r.Err? && !UseProxy(old(env.vars)) ==> env.vars == old(env.vars)
  {
    var t := new CloudFasterWhisperTranscriber(env);
    var attempts, err := t.Connect(env, connect);
    if err.Some? {
      return Err(err.value);
    }
    return Ok(t);
  }
}
