/**
 * utils.py: the process-wide progress store with its expiry sweep, the
 * video-id validator, and the configuration read from the environment.
 */
module Utils {
  import opened Outcomes
  import opened Text
  import Host

  // ------------------------------------------------------ progress store

  /** Records older than this many seconds are removed by the sweep. */
  const RetentionSeconds: int := 3600

  /** One job's progress: `{'status': ..., 'details': ..., 'timestamp': ...}`. */
  datatype Record = Record(status: string, details: Option<string>, timestamp: int)

  /** One `update_progress` call, as the store's history remembers it. */
  datatype Write = Write(key: string, status: string, details: Option<string>)

  /** The sweep at time `now` keeps `r`: it is at most one hour old. */
  predicate Retained(r: Record, now: int)
  {
    now - r.timestamp <= RetentionSeconds
  }

  /**
   * What the sweep at time `now` leaves of the mapping `m`: exactly the
   * records at most one hour old, each unchanged; no key is added.
   */
  function Swept(m: map<string, Record>, now: int): (r: map<string, Record>)
    ensures r.Keys <= m.Keys
    ensures forall k :: k in m ==> (k in r <==> Retained(m[k], now))
    ensures forall k :: k in r ==> r[k] == m[k]
  {
    map k | k in m && Retained(m[k], now) :: m[k]
  }

  /** The sweep halfway through: keys still `pending` have not been looked at yet. */
  ghost function SweptExcept(m: map<string, Record>, now: int, pending: set<string>): map<string, Record>
  {
    map k | k in m && (k in pending || Retained(m[k], now)) :: m[k]
  }

  /** Sweeping twice at the same time removes nothing more. */
  lemma SweptIdempotent(m: map<string, Record>, now: int)
    ensures Swept(Swept(m, now), now) == Swept(m, now)
  {
  }

  /** An earlier sweep followed by a later one leaves what the later one alone leaves. */
  lemma SweptCompose(m: map<string, Record>, earlier: int, later: int)
    requires earlier <= later
    ensures Swept(Swept(m, earlier), later) == Swept(m, later)
  {
  }

  /** A record written at `t` survives every sweep up to `t + 3600`, and no later one. */
  lemma FreshWriteSurvives(m: map<string, Record>, key: string, r: Record, now: int)
    ensures key in Swept(m[key := r], now) <==> now <= r.timestamp + RetentionSeconds
  {
  }

  /**
   * The mapping after the writes `ws`, made in order at time `now`: a key
   * that was written holds its last write, every other key its old record.
   */
  function Replayed(m: map<string, Record>, ws: seq<Write>, now: int): map<string, Record>
  {
    if ws == [] then m
    else
      var w := ws[|ws| - 1];
      Replayed(m, ws[..|ws| - 1], now)[w.key := Record(w.status, w.details, now)]
  }

  /**
   * Last write wins over the whole history: a key holds the record of the
   * last write that names it, whatever came before and after.
   */
  lemma {:induction false} ReplayedLastWins(m: map<string, Record>, ws: seq<Write>, now: int, i: int)
    requires 0 <= i < |ws|
    requires forall j :: i < j < |ws| ==> ws[j].key != ws[i].key
    ensures var r := Replayed(m, ws, now);
            ws[i].key in r && r[ws[i].key] == Record(ws[i].status, ws[i].details, now)
  {
    if i < |ws| - 1 {
      var front := ws[..|ws| - 1];
      assert forall j :: i < j < |front| ==> front[j] == ws[j];
      ReplayedLastWins(m, front, now, i);
    }
  }

  /** A key none of the writes touches keeps its old record, or stays absent. */
  lemma {:induction false} ReplayedUntouched(m: map<string, Record>, ws: seq<Write>, now: int, k: string)
    requires forall i :: 0 <= i < |ws| ==> ws[i].key != k
    ensures var r := Replayed(m, ws, now); (k in r <==> k in m) && (k in r ==> r[k] == m[k])
  {
    if ws != [] {
      ReplayedUntouched(m, ws[..|ws| - 1], now, k);
    }
  }

  /** Replaying one more write is one more overwrite. */
  lemma ReplayedSnoc(m: map<string, Record>, ws: seq<Write>, w: Write, now: int)
    ensures Replayed(m, ws + [w], now) == Replayed(m, ws, now)[w.key := Record(w.status, w.details, now)]
  {
    assert (ws + [w])[..|ws|] == ws;
  }

  /** Replaying two runs of writes one after the other is replaying them joined. */
  lemma {:induction false} ReplayedAppend(m: map<string, Record>, a: seq<Write>, b: seq<Write>, now: int)
    ensures Replayed(m, a + b, now) == Replayed(Replayed(m, a, now), b, now)
  {
    if b == [] {
      assert a + b == a;
    } else {
      var front := b[..|b| - 1];
      assert (a + b)[..|a + b| - 1] == a + front;
      ReplayedAppend(m, a, front, now);
    }
  }

  /**
   * Two stretches of `update_progress` calls make one: if the log grew from
   * `w0` to `w1` while the mapping went from `m0` to the replay of the new
   * writes, and likewise from `w1` to `w2`, then `m2` is `m0` with every
   * write since `w0` replayed over it.
   */
  lemma ReplayedSince(m0: map<string, Record>, w0: seq<Write>, m1: map<string, Record>, w1: seq<Write>,
                      m2: map<string, Record>, w2: seq<Write>, now: int)
    requires |w0| <= |w1| <= |w2| && w1[..|w0|] == w0 && w2[..|w1|] == w1
    requires m1 == Replayed(m0, w1[|w0|..], now) && m2 == Replayed(m1, w2[|w1|..], now)
    ensures w2[..|w0|] == w0
    ensures m2 == Replayed(m0, w2[|w0|..], now)
  {
    assert w2[..|w0|] == w1[..|w0|];
    assert w2[|w0|..] == w1[|w0|..] + w2[|w1|..];
    ReplayedAppend(m0, w1[|w0|..], w2[|w1|..], now);
  }

  /**
   * `TRANSCRIPTION_PROGRESS`: job key to record. `writes` is the history of
   * every `update_progress` call, kept for stating in what order the
   * orchestration writes; the running code keeps only `entries`.
   */
  class ProgressStore {
    var entries: map<string, Record>
    ghost var writes: seq<Write>

    constructor ()
      ensures entries == map[] && writes == []
    {
      entries := map[];
      writes := [];
    }

    /**
     * `update_progress(key, status, details)` at time `now`: the record for
     * `key` is overwritten (last write wins), every other key is untouched.
     */
    method Update(key: string, status: string, details: Option<string>, now: int)
      modifies this
      ensures entries == old(entries)[key := Record(status, details, now)]
      ensures writes == old(writes) + [Write(key, status, details)]
      ensures entries == Replayed(old(entries), writes[|old(writes)|..], now)
    {
      entries := entries[key := Record(status, details, now)];
      writes := writes + [Write(key, status, details)];
      assert writes[|old(writes)|..] == [] + [Write(key, status, details)];
      ReplayedSnoc(old(entries), [], Write(key, status, details), now);
    }

    /** `get_progress_info(key)`: the stored record, or the empty dictionary (`None`); reads without changing anything. */
    method Get(key: string) returns (info: Option<Record>)
      ensures info.Some? <==> key in entries
      ensures info.Some? ==> info.value == entries[key]
    {
      info := if key in entries then Some(entries[key]) else None;
    }

    /**
     * The body of `cleanup_progress` at time `now`: walk a snapshot of the
     * keys and delete every record strictly older than one hour.
     */
    method Cleanup(now: int)
      modifies this`entries
      ensures entries == Swept(old(entries), now)
    {
      ghost var m0 := entries;
      var pending := entries.Keys;
      while pending != {}
        invariant pending <= m0.Keys
        invariant entries == SweptExcept(m0, now, pending)
        decreases pending
      {
        var k :| k in pending;
        if now - entries[k].timestamp > RetentionSeconds {
          entries := entries - {k};
        }
        pending := pending - {k};
      }
    }
  }

  // ------------------------------------------------------------ validator

  predicate IsAsciiAlnum(c: char)
  {
    'a' <= c <= 'z' || 'A' <= c <= 'Z' || '0' <= c <= '9'
  }

  predicate AllAsciiAlnum(s: string)
  {
    forall i :: 0 <= i < |s| ==> IsAsciiAlnum(s[i])
  }

  const InvalidBvMessage: string := "无效的BV号"

  /**
   * `validate_bv_id`: `re.match(r'^BV[a-zA-Z0-9]{10}$', s)`. The id comes
   * back unchanged when it is "BV" and ten ASCII letters or digits, optionally
   * followed by one final newline (where Python's `$` also matches);
   * otherwise ValueError is raised.
   */
  function ValidateBvId(s: string): (r: Result<string>)
    ensures r.Ok? <==> exists body :: |body| == 10 && AllAsciiAlnum(body)
                                      && (s == "BV" + body || s == "BV" + body + "\n")
    ensures r.Ok? ==> r.value == s
    ensures r.Err? ==> r.error == Failure(ValueError, InvalidBvMessage)
  {
    if |s| >= 12 && s[..2] == "BV" && AllAsciiAlnum(s[2..12]) && (|s| == 12 || s[12..] == "\n") then
      assert s == "BV" + s[2..12] || s == "BV" + s[2..12] + "\n";
      Ok(s)
    else
      Err(Failure(ValueError, InvalidBvMessage))
  }

  /** A validated id validates again (the trailing newline, if any, is kept). */
  lemma ValidateIdempotent(s: string)
    requires ValidateBvId(s).Ok?
    ensures ValidateBvId(ValidateBvId(s).value) == ValidateBvId(s)
  {
  }

  // -------------------------------------------------------- configuration

  /** Which transcription backends the frontend may offer. */
  datatype EnabledTranscribers = EnabledTranscribers(fasterWhisper: bool, openai: bool, cloudFasterWhisper: bool)

  /** The value is "true" in any mix of upper and lower case. */
  predicate SpellsTrue(v: string)
  {
    |v| == 4 && v[0] in "tT" && v[1] in "rR" && v[2] in "uU" && v[3] in "eE"
  }

  /**
   * One flag of `get_enabled_transcribers`: `os.getenv(name, 'true').lower() == 'true'`.
   * Lower-casing is modelled on ASCII letters; no other character lowers to
   * one of "t", "r", "u", "e", so the comparison comes out the same.
   */
  function EnvFlag(env: map<string, string>, name: string): (on: bool)
    ensures on <==> name !in env || SpellsTrue(env[name])
  {
    var v := AsciiLower(Host.GetEnv(env, name, "true"));
    assert v == "true" <==> SpellsTrue(Host.GetEnv(env, name, "true")) by {
      if SpellsTrue(Host.GetEnv(env, name, "true")) { assert v == "true"; }
    }
    v == "true"
  }

  /** `get_enabled_transcribers`: every backend is on unless its variable says otherwise. */
  function GetEnabledTranscribers(env: map<string, string>): (e: EnabledTranscribers)
    ensures e.fasterWhisper <==> "ENABLE_LOCAL_FASTER_WHISPER" !in env || SpellsTrue(env["ENABLE_LOCAL_FASTER_WHISPER"])
    ensures e.openai <==> "ENABLE_OPENAI_WHISPER" !in env || SpellsTrue(env["ENABLE_OPENAI_WHISPER"])
    ensures e.cloudFasterWhisper <==> "ENABLE_CLOUD_FASTER_WHISPER" !in env || SpellsTrue(env["ENABLE_CLOUD_FASTER_WHISPER"])
  {
    EnabledTranscribers(
      EnvFlag(env, "ENABLE_LOCAL_FASTER_WHISPER"),
      EnvFlag(env, "ENABLE_OPENAI_WHISPER"),
      EnvFlag(env, "ENABLE_CLOUD_FASTER_WHISPER"))
  }

  const DefaultMaxVideoDuration: int := 3600

  /**
   * Python's `int(s)` on a string: an optional sign and at least one decimal
   * digit; anything else raises ValueError.
   */
  function ParseInt(s: string): (r: Result<int>)
    ensures r.Ok? <==> (AllDigits(s) && s != [])
                       || (|s| >= 2 && (s[0] == '-' || s[0] == '+') && AllDigits(s[1..]))
  {
    if |s| >= 2 && (s[0] == '-' || s[0] == '+') && AllDigits(s[1..]) then
      Ok(if s[0] == '-' then 0 - DigitsValue(s[1..]) else DigitsValue(s[1..]))
    else if s != [] && AllDigits(s) then
      Ok(DigitsValue(s))
    else
      Err(Failure(ValueError, "invalid literal for int() with base 10: '" + s + "'"))
  }

  /** `get_max_video_duration`: `int(os.getenv('MAX_VIDEO_DURATION', 3600))`. */
  function GetMaxVideoDuration(env: map<string, string>): (r: Result<int>)
    ensures "MAX_VIDEO_DURATION" !in env ==> r == Ok(DefaultMaxVideoDuration)
    ensures "MAX_VIDEO_DURATION" in env ==> r == ParseInt(env["MAX_VIDEO_DURATION"])
  {
    if "MAX_VIDEO_DURATION" in env then ParseInt(env["MAX_VIDEO_DURATION"]) else Ok(DefaultMaxVideoDuration)
  }

  /** A limit written in decimal, with or without a minus sign, is read back exactly. */
  lemma MaxVideoDurationReadsDecimal(env: map<string, string>, n: nat)
    ensures GetMaxVideoDuration(env["MAX_VIDEO_DURATION" := ShowNat(n)]) == Ok(n)
    ensures GetMaxVideoDuration(env["MAX_VIDEO_DURATION" := "-" + ShowNat(n)]) == Ok(0 - n)
  {
    ShowNatRoundTrip(n);
    var s := ShowNat(n);
    assert ("-" + s)[1..] == s;
    if |s| >= 2 {
      assert s[0] != '-' && s[0] != '+' by { assert IsDigit(s[0]); }
    }
  }
}
