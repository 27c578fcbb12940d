/**
 * subtitle_utils.py (and the copy of `format_time` and `generate_srt` in
 * utils.py, which differs only in importing `datetime` inside the
 * function): rendering a transcript as SubRip (SRT) text.
 *
 * Times are whole microseconds from 0 up to, not including, one day, so
 * that `str(datetime.timedelta(...))` is exactly "H:MM:SS" or
 * "H:MM:SS.ffffff".
 */
module SubtitleUtils {
  import opened Text
  import opened Outcomes

  const MicrosPerSecond: nat := 1000000
  const MicrosPerDay: nat := 86400 * 1000000

  /** A transcript segment: start and end offsets in microseconds, and its text. */
  datatype Segment = Segment(start: nat, end: nat, text: string)

  predicate WithinDay(s: Segment) { s.start < MicrosPerDay && s.end < MicrosPerDay }

  // The fields of a duration, as `timedelta.__str__` computes them.
  function WholeSeconds(us: nat): nat { us / MicrosPerSecond }
  function Hours(us: nat): nat { WholeSeconds(us) / 60 / 60 }
  function Minutes(us: nat): nat { WholeSeconds(us) / 60 % 60 }
  function Seconds(us: nat): nat { WholeSeconds(us) % 60 }
  function SubSecond(us: nat): nat { us % MicrosPerSecond }
  /** The sub-second part truncated (not rounded) to milliseconds. */
  function Millis(us: nat): nat { SubSecond(us) / 1000 }

  /**
   * `str(datetime.timedelta(microseconds=us))` below one day: unpadded hours,
   * two-digit minutes and seconds, and ".ffffff" only when the sub-second
   * part is non-zero.
   */
  function TimedeltaStr(us: nat): string
    requires us < MicrosPerDay
  {
    var hms := ShowNat(Hours(us)) + ":" + Fixed(Minutes(us), 2) + ":" + Fixed(Seconds(us), 2);
    if SubSecond(us) == 0 then hms else hms + "." + Fixed(SubSecond(us), 6)
  }

  /** `s.replace(from, to)` for single characters. */
  function ReplaceChar(s: string, from: char, to: char): (r: string)
    ensures |r| == |s|
    ensures forall i :: 0 <= i < |s| ==> r[i] == if s[i] == from then to else s[i]
  {
    seq(|s|, i requires 0 <= i < |s| => if s[i] == from then to else s[i])
  }

  /** Python's `s[:-n]` for n >= 1: everything but the last n characters, "" if shorter. */
  function DropLast(s: string, n: nat): (r: string)
    ensures |s| >= n ==> r == s[..|s| - n]
    ensures |s| < n ==> r == ""
  {
    if |s| >= n then s[..|s| - n] else ""
  }

  /**
   * `format_time`: `str(timedelta(seconds=...)).replace('.', ',')[:-3]`.
   * With a sub-second part this is "H:MM:SS,mmm" (milliseconds truncated);
   * for a whole number of seconds there is no fraction to cut, so `[:-3]`
   * removes ":SS" and leaves "H:MM".
   */
  function FormatTime(us: nat): string
    requires us < MicrosPerDay
  {
    DropLast(ReplaceChar(TimedeltaStr(us), '.', ','), 3)
  }

  /** The two shapes of a rendered time. */
  lemma FormatTimeShape(us: nat)
    requires us < MicrosPerDay
    ensures SubSecond(us) != 0 ==>
      FormatTime(us) == ShowNat(Hours(us)) + ":" + Fixed(Minutes(us), 2) + ":" + Fixed(Seconds(us), 2) + "," + Fixed(Millis(us), 3)
    ensures SubSecond(us) == 0 ==>
      FormatTime(us) == ShowNat(Hours(us)) + ":" + Fixed(Minutes(us), 2)
  {
    var hm := ShowNat(Hours(us)) + ":" + Fixed(Minutes(us), 2);
    var hms := hm + ":" + Fixed(Seconds(us), 2);
    assert forall i :: 0 <= i < |hms| ==> hms[i] != '.' by {
      forall i | 0 <= i < |hms| ensures hms[i] != '.' {
        if i < |ShowNat(Hours(us))| {
          assert IsDigit(ShowNat(Hours(us))[i]);
        } else if |ShowNat(Hours(us))| + 1 <= i < |hm| {
          assert IsDigit(Fixed(Minutes(us), 2)[i - |ShowNat(Hours(us))| - 1]);
        } else if |hm| + 1 <= i {
          assert IsDigit(Fixed(Seconds(us), 2)[i - |hm| - 1]);
        }
      }
    }
    if SubSecond(us) == 0 {
      assert ReplaceChar(hms, '.', ',') == hms;
      assert hms[..|hms| - 3] == hm;
    } else {
      var f := Fixed(SubSecond(us), 6);
      FixedSplit(SubSecond(us), 3, 3);
      assert DropDigits(SubSecond(us), 3) == Millis(us) by {
        DropDigitsDiv(SubSecond(us), 3);
        assert Pow10(3) == 1000;
      }
      assert f == Fixed(Millis(us), 3) + Fixed(SubSecond(us), 3);
      var t := hms + "." + f;
      var expected := hms + "," + f;
      assert ReplaceChar(t, '.', ',') == expected by {
        forall i | 0 <= i < |t| ensures ReplaceChar(t, '.', ',')[i] == expected[i] {
          if |hms| < i {
            assert IsDigit(f[i - |hms| - 1]);
          }
        }
      }
      assert expected[..|expected| - 3] == hms + "," + Fixed(Millis(us), 3);
    }
  }

  /** The SRT block for segment number `index`, without its blank-line terminator. */
  function BlockBody(index: nat, s: Segment): string
    requires WithinDay(s)
  {
    ShowNat(index) + "\n" + FormatTime(s.start) + " --> " + FormatTime(s.end) + "\n" + PyStrip(s.text)
  }

  /** The text `generate_srt` has accumulated after the segments of `t`, numbered 1, 2, ... */
  function Blocks(t: seq<Segment>): string
    requires forall i :: 0 <= i < |t| ==> WithinDay(t[i])
  {
    if t == [] then "" else Blocks(t[..|t| - 1]) + (BlockBody(|t|, t[|t| - 1]) + "\n\n")
  }

  /** The block bodies of `t`, numbered 1, 2, ..., separated by one blank line. */
  function JoinedBlocks(t: seq<Segment>): string
    requires forall i :: 0 <= i < |t| ==> WithinDay(t[i])
  {
    if |t| <= 1 then (if t == [] then "" else BlockBody(1, t[0]))
    else JoinedBlocks(t[..|t| - 1]) + ("\n\n" + BlockBody(|t|, t[|t| - 1]))
  }

  /**
   * `generate_srt`: number the segments from 1, render each as index line,
   * "start --> end" line and stripped text, end each with a blank line, and
   * strip the whole.
   */
  method GenerateSrt(transcript: seq<Segment>) returns (srt: string)
    requires forall i :: 0 <= i < |transcript| ==> WithinDay(transcript[i])
    ensures srt == PyStrip(Blocks(transcript))
    ensures transcript == [] ==> srt == ""
    ensures srt != [] ==> !IsPySpace(srt[0]) && !IsPySpace(srt[|srt| - 1])
  {
    var content := AccumulateBlocks(transcript);
    srt := PyStrip(content);
  }

  /** The loop of `generate_srt`: one block per segment, each followed by a blank line. */
  method AccumulateBlocks(transcript: seq<Segment>) returns (content: string)
    requires forall i :: 0 <= i < |transcript| ==> WithinDay(transcript[i])
    ensures content == Blocks(transcript)
  {
    content := "";
    for i := 0 to |transcript|
      invariant content == Blocks(transcript[..i])
    {
      var segment := transcript[i];
      // f"{index}\n{start_time} --> {end_time}\n{text}\n\n"
      var block := BlockBody(i + 1, segment) + "\n\n";
      BlocksSnoc(transcript, i);
      content := content + block;
    }
    assert transcript[..|transcript|] == transcript;
  }

  lemma BlocksSnoc(t: seq<Segment>, i: nat)
    requires forall i :: 0 <= i < |t| ==> WithinDay(t[i])
    requires i < |t|
    ensures Blocks(t[..i + 1]) == Blocks(t[..i]) + (BlockBody(i + 1, t[i]) + "\n\n")
  {
    assert t[..i + 1][..i] == t[..i];
  }

  /** The accumulated text is the blocks joined by blank lines, plus one final blank line. */
  lemma {:induction false} BlocksJoined(t: seq<Segment>)
    requires forall i :: 0 <= i < |t| ==> WithinDay(t[i])
    requires t != []
    ensures Blocks(t) == JoinedBlocks(t) + "\n\n"
  {
    var p, b := t[..|t| - 1], BlockBody(|t|, t[|t| - 1]);
    if |t| > 1 {
      BlocksJoined(p);
      var j := JoinedBlocks(p);
      assert Blocks(t) == (j + "\n\n") + (b + "\n\n");
      assert JoinedBlocks(t) == j + ("\n\n" + b);
      ConcatRegroup(j, "\n\n", b);
    } else {
      assert p == [];
      assert Blocks(t) == "" + (b + "\n\n");
      assert JoinedBlocks(t) == b;
    }
  }

  lemma ConcatRegroup(a: string, sep: string, b: string)
    ensures (a + sep) + (b + sep) == (a + (sep + b)) + sep
  {
  }

  /** Removing trailing whitespace ignores whitespace appended at the end. */
  lemma {:induction false} TrimEndAppendSpace(s: string, w: string, ws: Spaces)
    requires forall i :: 0 <= i < |w| ==> IsSpace(w[i], ws)
    ensures TrimEnd(s + w, ws) == TrimEnd(s, ws)
    decreases |w|
  {
    if w != [] {
      var sw := s + w;
      assert sw[..|sw| - 1] == s + w[..|w| - 1];
      TrimEndAppendSpace(s, w[..|w| - 1], ws);
    } else {
      assert s + w == s;
    }
  }

  /** A rendered time starts with a digit. */
  lemma FormatTimeStartsWithDigit(us: nat)
    requires us < MicrosPerDay
    ensures |FormatTime(us)| >= 1 && IsDigit(FormatTime(us)[0])
  {
    FormatTimeShape(us);
    var h := ShowNat(Hours(us));
    assert FormatTime(us)[0] == h[0];
  }

  /** Block `index` starts with the index, a newline, then a digit of the start time. */
  lemma BlockBodyStart(index: nat, s: Segment)
    requires WithinDay(s)
    ensures |BlockBody(index, s)| >= |ShowNat(index)| + 2
    ensures BlockBody(index, s)[..|ShowNat(index)| + 1] == ShowNat(index) + "\n"
    ensures IsDigit(BlockBody(index, s)[|ShowNat(index)| + 1])
  {
    var n, f, e, p := ShowNat(index), FormatTime(s.start), FormatTime(s.end), PyStrip(s.text);
    FormatTimeStartsWithDigit(s.start);
    LineThenDigit(n, f, e, p);
    assert BlockBody(index, s) == n + "\n" + f + " --> " + e + "\n" + p;
  }

  lemma LineThenDigit(n: string, f: string, e: string, p: string)
    requires |f| >= 1 && IsDigit(f[0])
    ensures var b := n + "\n" + f + " --> " + e + "\n" + p;
            |b| >= |n| + 2 && b[..|n| + 1] == n + "\n" && IsDigit(b[|n| + 1])
  {
    var b := n + "\n" + f + " --> " + e + "\n" + p;
    assert b[|n| + 1] == f[0];
  }

  /** The joined blocks start with block number 1: "1", a newline, then a timestamp digit. */
  lemma {:induction false} JoinedBlocksStart(t: seq<Segment>)
    requires forall i :: 0 <= i < |t| ==> WithinDay(t[i])
    requires t != []
    ensures |JoinedBlocks(t)| >= 3
    ensures JoinedBlocks(t)[..2] == "1\n" && IsDigit(JoinedBlocks(t)[2])
  {
    if |t| > 1 {
      JoinedBlocksStart(t[..|t| - 1]);
      var p := JoinedBlocks(t[..|t| - 1]);
      var rest := "\n\n" + BlockBody(|t|, t[|t| - 1]);
      assert JoinedBlocks(t) == p + rest;
      PrefixOfConcat(p, rest, 3);
    } else {
      FirstBlockStart(t[0]);
    }
  }

  lemma FirstBlockStart(s: Segment)
    requires WithinDay(s)
    ensures |BlockBody(1, s)| >= 3
    ensures BlockBody(1, s)[..2] == "1\n" && IsDigit(BlockBody(1, s)[2])
  {
    var b := BlockBody(1, s);
    BlockBodyStart(1, s);
    ShowNatOne();
    FirstLine(b, ShowNat(1));
  }

  lemma ShowNatOne()
    ensures ShowNat(1) == "1"
  {
  }

  lemma FirstLine(b: string, n: string)
    requires n == "1" && |b| >= |n| + 2 && b[..|n| + 1] == n + "\n" && IsDigit(b[|n| + 1])
    ensures |b| >= 3 && b[..2] == "1\n" && IsDigit(b[2])
  {
  }

  lemma PrefixOfConcat(a: string, b: string, n: nat)
    requires n <= |a|
    ensures (a + b)[..n] == a[..n]
  {
  }

  /**
   * What an SRT file of a non-empty transcript looks like: it starts with
   * block number 1, and it is the blocks separated by one blank line with
   * only trailing whitespace removed (which empties the last text line when
   * the last segment's text is blank).
   */
  lemma SrtLayout(t: seq<Segment>)
    requires forall i :: 0 <= i < |t| ==> WithinDay(t[i])
    requires t != []
    ensures PyStrip(Blocks(t)) == TrimEnd(JoinedBlocks(t), PySpaces)
    ensures |PyStrip(Blocks(t))| >= 3 && PyStrip(Blocks(t))[..2] == "1\n"
  {
    BlocksJoined(t);
    JoinedBlocksStart(t);
    StripBlankLineTerminated(JoinedBlocks(t));
  }

  /**
   * Stripping text that starts with "1", a newline and a digit, followed by a
   * blank line, removes only trailing whitespace and keeps that start.
   */
  lemma StripBlankLineTerminated(j: string)
    requires |j| >= 3 && j[..2] == "1\n" && IsDigit(j[2])
    ensures PyStrip(j + "\n\n") == TrimEnd(j, PySpaces)
    ensures |TrimEnd(j, PySpaces)| >= 3 && TrimEnd(j, PySpaces)[..2] == "1\n"
  {
    assert !IsPySpace((j + "\n\n")[0]);
    assert TrimStart(j + "\n\n", PySpaces) == j + "\n\n";
    TrimEndAppendSpace(j, "\n\n", PySpaces);
    var r := TrimEnd(j, PySpaces);
    assert !IsPySpace(j[2]);
    assert r[..2] == j[..2];
  }

  // ------------------------------------------- whole seconds lose their seconds

  /**
   * `format_time` as written, on whole seconds: 0 s and 1 s both render as
   * "0:00" (the seconds are lost), where SubRip expects "00:00:00,000" and
   * "00:00:01,000".
   */
  lemma FormatTimeWholeSecondCounterexample()
    ensures FormatTime(0) == "0:00" && FormatTime(MicrosPerSecond) == "0:00"
  {
    WholeSecondsUnderAMinute(0);
    WholeSecondsUnderAMinute(MicrosPerSecond);
  }

  /** The corrected timestamps of the same two times differ. */
  lemma SrtWholeSecondExample()
    ensures SrtTimestamp(0) == "00:00:00,000" && SrtTimestamp(MicrosPerSecond) == "00:00:01,000"
  {
    SrtWholeSecondUnderTen(0);
    SrtWholeSecondUnderTen(MicrosPerSecond);
  }

  /** Below one minute, hours and minutes are zero and the seconds are the whole seconds. */
  lemma UnderAMinute(us: nat)
    requires us < 60 * MicrosPerSecond
    ensures Hours(us) == 0 && Minutes(us) == 0 && Seconds(us) == WholeSeconds(us) < 60
  {
  }

  /** Every whole number of seconds below one minute renders as "0:00". */
  lemma WholeSecondsUnderAMinute(us: nat)
    requires us < 60 * MicrosPerSecond && SubSecond(us) == 0
    ensures FormatTime(us) == "0:00"
  {
    FormatTimeShape(us);
    UnderAMinute(us);
    assert ShowNat(0) == "0";
    assert Fixed(0, 2) == "00";
  }

  /** The corrected timestamp of a whole second `d` below ten is "00:00:0d,000". */
  lemma SrtWholeSecondUnderTen(us: nat)
    requires us < 10 * MicrosPerSecond && SubSecond(us) == 0
    ensures SrtTimestamp(us) == "00:00:0" + [DigitChar(WholeSeconds(us))] + ",000"
  {
    UnderAMinute(us);
    assert Millis(us) == 0;
    ZeroFields();
    FixedOneDigit(WholeSeconds(us));
    var h, m, sec, ms := Fixed(Hours(us), 2), Fixed(Minutes(us), 2), Fixed(Seconds(us), 2), Fixed(Millis(us), 3);
    assert SrtTimestamp(us) == h + ":" + m + ":" + sec + "," + ms;
  }

  /** `format_time` as written on 1.5 s: unpadded hours, "0:00:01,500". */
  lemma FormatTimeFractionExample()
    ensures FormatTime(1500000) == "0:00:01,500"
  {
    FractionUnderTenSeconds(1500000);
    OnePointFiveSeconds();
  }

  lemma OnePointFiveSeconds()
    ensures WholeSeconds(1500000) == 1 && Millis(1500000) == 500
    ensures DigitChar(1) == '1' && Fixed(500, 3) == "500"
  {
    assert Fixed(500, 3) == Fixed(50, 2) + "0";
  }

  /** A time below ten seconds with a sub-second part renders as "0:00:0s,mmm". */
  lemma FractionUnderTenSeconds(us: nat)
    requires us < 10 * MicrosPerSecond && SubSecond(us) != 0
    ensures FormatTime(us) == "0:00:0" + [DigitChar(WholeSeconds(us))] + "," + Fixed(Millis(us), 3)
  {
    FormatTimeShape(us);
    UnderAMinute(us);
    ZeroFields();
    FixedOneDigit(WholeSeconds(us));
  }

  lemma ZeroFields()
    ensures ShowNat(0) == "0" && Fixed(0, 2) == "00" && Fixed(0, 3) == "000"
  {
  }

  /** A single digit in a two-digit field gets one leading zero. */
  lemma FixedOneDigit(d: nat)
    requires d < 10
    ensures Fixed(d, 2) == "0" + [DigitChar(d)]
  {
    assert d / 10 == 0 && d % 10 == d;
    assert Fixed(0, 1) == [DigitChar(0)];
    assert Fixed(d, 2) == Fixed(d / 10, 1) + [DigitChar(d % 10)];
  }

  /** The SubRip timestamp "HH:MM:SS,mmm" that `format_time` is meant to produce. */
  function SrtTimestamp(us: nat): (r: string)
    requires us < MicrosPerDay
    ensures |r| == 12 && r[2] == ':' && r[5] == ':' && r[8] == ','
  {
    Fixed(Hours(us), 2) + ":" + Fixed(Minutes(us), 2) + ":" + Fixed(Seconds(us), 2) + "," + Fixed(Millis(us), 3)
  }

  /** Reads "HH:MM:SS,mmm" back as a number of milliseconds. */
  function ParseSrtTimestamp(s: string): (ms: Option<nat>)
    ensures ms.Some? ==> |s| == 12
  {
    if |s| == 12 && s[2] == ':' && s[5] == ':' && s[8] == ','
       && AllDigits(s[..2]) && AllDigits(s[3..5]) && AllDigits(s[6..8]) && AllDigits(s[9..])
    then Some(DigitsValue(s[..2]) * 3600000 + DigitsValue(s[3..5]) * 60000
              + DigitsValue(s[6..8]) * 1000 + DigitsValue(s[9..]))
    else None
  }

  lemma TimeFields(us: nat)
    requires us < MicrosPerDay
    ensures Hours(us) < 24 && Minutes(us) < 60 && Seconds(us) < 60 && Millis(us) < 1000
    ensures us / 1000 == Hours(us) * 3600000 + Minutes(us) * 60000 + Seconds(us) * 1000 + Millis(us)
  {
    var w := WholeSeconds(us);
    assert us == w * 1000000 + SubSecond(us);
    assert us / 1000 == w * 1000 + Millis(us);
    assert w == (w / 60 / 60) * 3600 + (w / 60 % 60) * 60 + w % 60;
  }

  /** A field narrower than its width reads back as itself. */
  lemma FixedFieldValue(x: nat, w: nat)
    requires x < Pow10(w)
    ensures DigitsValue(Fixed(x, w)) == x
  {
    FixedValue(x, w);
  }

  lemma SrtTimestampFields(us: nat)
    requires us < MicrosPerDay
    ensures SrtTimestamp(us)[..2] == Fixed(Hours(us), 2)
    ensures SrtTimestamp(us)[3..5] == Fixed(Minutes(us), 2)
    ensures SrtTimestamp(us)[6..8] == Fixed(Seconds(us), 2)
    ensures SrtTimestamp(us)[9..] == Fixed(Millis(us), 3)
  {
    var h, m, sec, ms := Fixed(Hours(us), 2), Fixed(Minutes(us), 2), Fixed(Seconds(us), 2), Fixed(Millis(us), 3);
    assert SrtTimestamp(us) == h + ":" + m + ":" + sec + "," + ms;
    FieldSlices(h, m, sec, ms);
  }

  lemma FieldSlices(h: string, m: string, sec: string, ms: string)
    requires |h| == 2 && |m| == 2 && |sec| == 2
    ensures var t := h + ":" + m + ":" + sec + "," + ms;
            t[..2] == h && t[3..5] == m && t[6..8] == sec && t[9..] == ms
  {
    var t := h + ":" + m + ":" + sec + "," + ms;
    assert t == h + ([':'] + (m + ([':'] + (sec + ([','] + ms)))));
  }

  /**
   * The corrected timestamp keeps every millisecond: reading it back gives
   * the time truncated to milliseconds, so distinct milliseconds never
   * render alike.
   */
  lemma SrtTimestampRoundTrip(us: nat)
    requires us < MicrosPerDay
    ensures ParseSrtTimestamp(SrtTimestamp(us)) == Some(us / 1000)
  {
    TimeFields(us);
    SrtTimestampFields(us);
    assert Pow10(2) == 100 && Pow10(3) == 1000;
    FixedFieldValue(Hours(us), 2);
    FixedFieldValue(Minutes(us), 2);
    FixedFieldValue(Seconds(us), 2);
    FixedFieldValue(Millis(us), 3);
  }
}
