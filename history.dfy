/**
 * frontend/src/App.js: the operations on the transcription history the
 * browser keeps (add, delete, update, bulk delete, selection), the search
 * filter, pagination, tag parsing, the Chinese character count and the
 * timestamp label. Each builds a new value; storing it (`localStorage`,
 * React state) is left to the caller.
 */
module History {
  import opened Outcomes
  import opened Text

  const ItemsPerPage: nat := 10

  /** One line of a saved transcript; times in whole seconds. */
  datatype Sentence = Sentence(start: nat, end: nat, text: string)

  /**
   * A history entry. A missing `title` or `bvId` reads as the empty string,
   * as the filter's `?? ''` does.
   */
  datatype Entry = Entry(id: int, bvId: string, title: string, transcriberType: string, createdAt: string,
                         tags: seq<string>, transcript: seq<Sentence>)

  // ------------------------------------------------------ list operations

  /** `addToHistory(entry)`: the new entry goes first. */
  function AddToHistory(history: seq<Entry>, entry: Entry): (r: seq<Entry>)
    ensures |r| == |history| + 1 && r[0] == entry && r[1..] == history
  {
    [entry] + history
  }

  /** `deleteEntry(id)`: keep, in order, the entries whose id differs. */
  function DeleteEntry(history: seq<Entry>, id: int): (r: seq<Entry>)
    ensures |r| <= |history|
    ensures forall e :: e in r <==> e in history && e.id != id
  {
    if history == [] then []
    else (if history[0].id != id then [history[0]] else []) + DeleteEntry(history[1..], id)
  }

  /** Deleting works piecewise, so the survivors keep their relative order. */
  lemma {:induction false} DeleteEntryAppend(a: seq<Entry>, b: seq<Entry>, id: int)
    ensures DeleteEntry(a + b, id) == DeleteEntry(a, id) + DeleteEntry(b, id)
  {
    if a != [] {
      assert (a + b)[1..] == a[1..] + b;
      DeleteEntryAppend(a[1..], b, id);
    } else {
      assert a + b == b;
    }
  }

  /** Deleting an id no entry has changes nothing. */
  lemma {:induction false} DeleteAbsent(history: seq<Entry>, id: int)
    requires forall i :: 0 <= i < |history| ==> history[i].id != id
    ensures DeleteEntry(history, id) == history
  {
    if history != [] {
      DeleteAbsent(history[1..], id);
    }
  }

  /** Deleting twice is deleting once. */
  lemma DeleteIdempotent(history: seq<Entry>, id: int)
    ensures DeleteEntry(DeleteEntry(history, id), id) == DeleteEntry(history, id)
  {
    var once := DeleteEntry(history, id);
    assert forall i :: 0 <= i < |once| ==> once[i] in once;
    DeleteAbsent(once, id);
  }

  /** Adding an entry and then deleting its id undoes the addition (and removes older entries with that id). */
  lemma AddThenDelete(history: seq<Entry>, entry: Entry)
    ensures DeleteEntry(AddToHistory(history, entry), entry.id) == DeleteEntry(history, entry.id)
  {
    assert AddToHistory(history, entry)[1..] == history;
  }

  /** `updateEntry(updated)`: every entry with the same id is replaced, all others stay. */
  function UpdateEntry(history: seq<Entry>, updated: Entry): (r: seq<Entry>)
    ensures |r| == |history|
    ensures forall i :: 0 <= i < |history| ==> r[i] == if history[i].id == updated.id then updated else history[i]
  {
    seq(|history|, i requires 0 <= i < |history| => if history[i].id == updated.id then updated else history[i])
  }

  /** The ids of the entries, in order. */
  function Ids(history: seq<Entry>): (ids: seq<int>)
    ensures |ids| == |history| && forall i :: 0 <= i < |history| ==> ids[i] == history[i].id
  {
    seq(|history|, i requires 0 <= i < |history| => history[i].id)
  }

  /** An update keeps the list of ids, touches nothing outside its id, and is idempotent. */
  lemma UpdateProperties(history: seq<Entry>, updated: Entry)
    ensures Ids(UpdateEntry(history, updated)) == Ids(history)
    ensures DeleteEntry(UpdateEntry(history, updated), updated.id) == DeleteEntry(history, updated.id)
    ensures UpdateEntry(UpdateEntry(history, updated), updated) == UpdateEntry(history, updated)
  {
    UpdateOutsideId(history, updated);
  }

  lemma {:induction false} UpdateOutsideId(history: seq<Entry>, updated: Entry)
    ensures DeleteEntry(UpdateEntry(history, updated), updated.id) == DeleteEntry(history, updated.id)
  {
    if history != [] {
      assert UpdateEntry(history, updated)[1..] == UpdateEntry(history[1..], updated);
      UpdateOutsideId(history[1..], updated);
    }
  }

  // ------------------------------------------------------------ selection

  /** The history together with the ids ticked for bulk deletion. */
  datatype View = View(history: seq<Entry>, selected: seq<int>)

  /** `selectedEntries.filter(entryId => entryId !== id)` */
  function RemoveId(selected: seq<int>, id: int): (r: seq<int>)
    ensures forall x :: x in r <==> x in selected && x != id
    ensures |r| <= |selected|
  {
    if selected == [] then []
    else (if selected[0] != id then [selected[0]] else []) + RemoveId(selected[1..], id)
  }

  /** `handleCheckboxChange`: ticking appends the id (even when already there); unticking removes every copy. */
  function CheckboxChange(selected: seq<int>, id: int, checked: bool): (r: seq<int>)
    ensures checked ==> r == selected + [id]
    ensures !checked ==> id !in r && forall x :: x != id ==> (x in r <==> x in selected)
  {
    if checked then selected + [id] else RemoveId(selected, id)
  }

  /** Ticking and then unticking an id leaves no copy of it, and everything else as it was. */
  lemma {:induction false} TickUntick(selected: seq<int>, id: int)
    ensures CheckboxChange(CheckboxChange(selected, id, true), id, false) == RemoveId(selected, id)
  {
    RemoveIdAppend(selected, [id], id);
    assert RemoveId([id], id) == [];
  }

  lemma {:induction false} RemoveIdAppend(a: seq<int>, b: seq<int>, id: int)
    ensures RemoveId(a + b, id) == RemoveId(a, id) + RemoveId(b, id)
  {
    if a != [] {
      assert (a + b)[1..] == a[1..] + b;
      RemoveIdAppend(a[1..], b, id);
    } else {
      assert a + b == b;
    }
  }

  /** `handleBulkDelete`: drop every entry whose id is ticked, and clear the ticks. */
  function BulkDelete(v: View): (r: View)
    ensures r.selected == []
    ensures forall e :: e in r.history <==> e in v.history && e.id !in v.selected
  {
    View(KeepUnselected(v.history, v.selected), [])
  }

  /** `history.filter(item => !selectedEntries.includes(item.id))` */
  function KeepUnselected(history: seq<Entry>, selected: seq<int>): (r: seq<Entry>)
    ensures forall e :: e in r <==> e in history && e.id !in selected
  {
    if history == [] then []
    else (if history[0].id !in selected then [history[0]] else []) + KeepUnselected(history[1..], selected)
  }

  /** A bulk delete is one `deleteEntry` per ticked id, in any order of ticking. */
  lemma {:induction false} BulkIsRepeatedDelete(history: seq<Entry>, selected: seq<int>, id: int)
    ensures KeepUnselected(history, selected + [id]) == DeleteEntry(KeepUnselected(history, selected), id)
  {
    if history != [] {
      BulkIsRepeatedDelete(history[1..], selected, id);
      var head := history[0];
      assert head.id !in selected + [id] <==> head.id !in selected && head.id != id;
      var rest := KeepUnselected(history[1..], selected);
      var kept := (if head.id !in selected then [head] else []) + rest;
      DeleteEntryAppend(if head.id !in selected then [head] else [], rest, id);
      assert kept == KeepUnselected(history, selected);
    }
  }

  // --------------------------------------------------------------- search

  /** The search box matches the title or the id, ignoring ASCII case. */
  predicate Matches(e: Entry, term: string)
  {
    Contains(AsciiLower(e.title), AsciiLower(term)) || Contains(AsciiLower(e.bvId), AsciiLower(term))
  }

  /** `filteredHistory`: the matching entries, in order. */
  function FilteredHistory(history: seq<Entry>, term: string): (r: seq<Entry>)
    ensures |r| <= |history|
    ensures forall e :: e in r <==> e in history && Matches(e, term)
  {
    if history == [] then []
    else (if Matches(history[0], term) then [history[0]] else []) + FilteredHistory(history[1..], term)
  }

  /**
   * Filtering works piecewise, so the matching entries keep their relative
   * order and every copy of a matching entry is kept.
   */
  lemma {:induction false} FilteredAppend(a: seq<Entry>, b: seq<Entry>, term: string)
    ensures FilteredHistory(a + b, term) == FilteredHistory(a, term) + FilteredHistory(b, term)
  {
    if a != [] {
      assert (a + b)[1..] == a[1..] + b;
      FilteredAppend(a[1..], b, term);
    } else {
      assert a + b == b;
    }
  }

  /** An empty search shows the whole history. */
  lemma {:induction false} EmptySearchKeepsAll(history: seq<Entry>)
    ensures FilteredHistory(history, "") == history
  {
    if history != [] {
      assert OccursAt(AsciiLower(history[0].title), AsciiLower(""), 0);
      EmptySearchKeepsAll(history[1..]);
    }
  }

  // ----------------------------------------------------------- pagination

  /** One index argument of JavaScript's `slice`: negative counts from the end, then clamp. */
  function SliceIndex(k: int, n: nat): (r: nat)
    ensures r <= n
    ensures 0 <= k <= n ==> r == k
  {
    if k < 0 then (if n + k < 0 then 0 else n + k) else if k > n then n else k
  }

  /** JavaScript's `items.slice(start, end)`. */
  function JsSlice<T>(items: seq<T>, start: int, end: int): (r: seq<T>)
    ensures |r| <= |items|
  {
    var s := SliceIndex(start, |items|);
    var e := SliceIndex(end, |items|);
    if e <= s then [] else items[s..e]
  }

  function Min(a: int, b: int): int { if a <= b then a else b }

  /** The rows page `page` (counted from 1) shows. */
  function Page<T>(items: seq<T>, page: int): (r: seq<T>)
    ensures |r| <= ItemsPerPage
    ensures page >= 1 ==> r == items[Min((page - 1) * ItemsPerPage, |items|)..Min(page * ItemsPerPage, |items|)]
  {
    JsSlice(items, (page - 1) * ItemsPerPage, page * ItemsPerPage)
  }

  /** `Math.ceil(n / itemsPerPage)` */
  function TotalPages(n: nat): (t: nat)
    ensures (t - 1) * ItemsPerPage < n <= t * ItemsPerPage || (n == 0 && t == 0)
  {
    (n + ItemsPerPage - 1) / ItemsPerPage
  }

  /** Pages 1 to `k`, one after the other. */
  function FirstPages<T>(items: seq<T>, k: nat): seq<T>
  {
    if k == 0 then [] else FirstPages(items, k - 1) + Page(items, k)
  }

  /** The first `k` pages are the first `10 k` rows. */
  lemma {:induction false} FirstPagesPrefix<T>(items: seq<T>, k: nat)
    ensures FirstPages(items, k) == items[..Min(k * ItemsPerPage, |items|)]
  {
    if k > 0 {
      FirstPagesPrefix(items, k - 1);
      var a := Min((k - 1) * ItemsPerPage, |items|);
      var b := Min(k * ItemsPerPage, |items|);
      assert items[..a] + items[a..b] == items[..b];
    }
  }

  /** Every row is on exactly one of pages 1..totalPages, in order; later pages are empty. */
  lemma PagesCoverHistory<T>(items: seq<T>, page: int)
    ensures FirstPages(items, TotalPages(|items|)) == items
    ensures page > TotalPages(|items|) ==> Page(items, page) == []
    ensures 1 <= page <= TotalPages(|items|) ==> Page(items, page) != []
  {
    FirstPagesPrefix(items, TotalPages(|items|));
    assert items[..|items|] == items;
  }

  // ----------------------------------------------------------------- tags

  /** Non-empty, and neither starts nor ends with whitespace. */
  predicate Trimmed(t: string)
  {
    t != "" && !IsJsSpace(t[0]) && !IsJsSpace(t[|t| - 1])
  }

  /** A trimmed string is its own `trim()`. */
  lemma TrimmedIsOwnTrim(t: string)
    requires Trimmed(t)
    ensures JsTrim(t) == t
  {
    TrimStable(t, JsSpaces);
  }

  /** One piece: `tag.trim()`, kept when the result is truthy. */
  function Kept(piece: string): (tags: seq<string>)
    ensures |tags| <= 1 && forall i :: 0 <= i < |tags| ==> Trimmed(tags[i])
  {
    var t := JsTrim(piece);
    if t == "" then [] else [t]
  }

  /** `.map(tag => tag.trim()).filter(Boolean)`: trimmed, empty pieces dropped. */
  function KeepTrimmed(parts: seq<string>): (tags: seq<string>)
    ensures forall i :: 0 <= i < |tags| ==> Trimmed(tags[i])
  {
    if parts == [] then [] else Kept(parts[0]) + KeepTrimmed(parts[1..])
  }

  /** Trimming only cuts, so a character absent from every piece is absent from every tag. */
  lemma {:induction false} KeepTrimmedAvoids(parts: seq<string>, c: char)
    requires forall i :: 0 <= i < |parts| ==> c !in parts[i]
    ensures forall i :: 0 <= i < |KeepTrimmed(parts)| ==> c !in KeepTrimmed(parts)[i]
  {
    if parts != [] {
      TrimIsSlice(parts[0], JsSpaces);
      KeepTrimmedAvoids(parts[1..], c);
    }
  }

  /**
   * The tag editor: `value.split(',').map(tag => tag.trim()).filter(Boolean)`.
   * Every tag is non-empty, has no surrounding whitespace and no comma.
   */
  function ParseTags(input: string): (tags: seq<string>)
    ensures forall i :: 0 <= i < |tags| ==> CleanTag(tags[i])
  {
    KeepTrimmedAvoids(Split(input, ','), ',');
    KeepTrimmed(Split(input, ','))
  }

  /** A tag as `ParseTags` produces it. */
  predicate CleanTag(t: string)
  {
    Trimmed(t) && ',' !in t
  }

  /** How the editor shows the tags: `tags.join(', ')`. */
  function DisplayTags(tags: seq<string>): string
  {
    if |tags| == 0 then "" else if |tags| == 1 then tags[0] else tags[0] + ", " + DisplayTags(tags[1..])
  }

  /** Showing clean tags in the editor and parsing the text back gives the same tags. */
  lemma {:induction false} TagsRoundTrip(tags: seq<string>)
    requires forall i :: 0 <= i < |tags| ==> CleanTag(tags[i])
    ensures ParseTags(DisplayTags(tags)) == tags
  {
    if |tags| == 0 {
      RoundTripNone(tags);
    } else if |tags| == 1 {
      RoundTripOne(tags);
    } else {
      TagsRoundTrip(tags[1..]);
      RoundTripCons(tags);
    }
  }

  lemma RoundTripNone(tags: seq<string>)
    requires |tags| == 0
    ensures ParseTags(DisplayTags(tags)) == tags
  {
    ParseEmpty();
  }

  lemma RoundTripOne(tags: seq<string>)
    requires |tags| == 1 && CleanTag(tags[0])
    ensures ParseTags(DisplayTags(tags)) == tags
  {
    ParseSingle(tags[0]);
  }

  lemma RoundTripCons(tags: seq<string>)
    requires |tags| >= 2 && CleanTag(tags[0])
    requires ParseTags(DisplayTags(tags[1..])) == tags[1..]
    ensures ParseTags(DisplayTags(tags)) == tags
  {
    ParseCons(tags[0], DisplayTags(tags[1..]));
    assert tags == [tags[0]] + tags[1..];
  }

  /** An empty box gives no tags. */
  lemma ParseEmpty()
    ensures ParseTags("") == []
  {
    assert Split("", ',') == [""];
    assert JsTrim("") == "";
  }

  /** One clean tag, ", ", then more text: that tag, then the tags of the rest. */
  lemma ParseCons(t: string, rest: string)
    requires CleanTag(t)
    ensures ParseTags(t + ", " + rest) == [t] + ParseTags(rest)
  {
    assert t + ", " + rest == t + [','] + (" " + rest);
    ParseAfterComma(t, " " + rest);
    ParseSingle(t);
    ParseLeadingSpace(rest);
  }

  lemma ParseSingle(t: string)
    requires CleanTag(t)
    ensures ParseTags(t) == [t]
  {
    SplitNoSep(t, ',');
    TrimmedIsOwnTrim(t);
    assert [t][1..] == [];
    assert KeepTrimmed([t]) == Kept(t) + KeepTrimmed([]);
  }

  /** Text up to the first comma gives the first tags, the rest the others. */
  lemma ParseAfterComma(a: string, b: string)
    requires ',' !in a
    ensures ParseTags(a + [','] + b) == ParseTags(a) + ParseTags(b)
  {
    SplitAfterSep(a, b, ',');
    SplitNoSep(a, ',');
    KeepTrimmedAppend([a], Split(b, ','));
  }

  lemma {:induction false} KeepTrimmedAppend(a: seq<string>, b: seq<string>)
    ensures KeepTrimmed(a + b) == KeepTrimmed(a) + KeepTrimmed(b)
  {
    if a != [] {
      assert (a + b)[1..] == a[1..] + b;
      KeepTrimmedAppend(a[1..], b);
    } else {
      assert a + b == b;
    }
  }

  /** A space in front of a piece changes nothing once trimmed. */
  lemma TrimLeadingSpace(p: string)
    ensures JsTrim(" " + p) == JsTrim(p)
  {
    var s := " " + p;
    assert s[0] == ' ' && s[1..] == p;
    assert IsJsSpace(s[0]);
    assert TrimStart(s, JsSpaces) == TrimStart(p, JsSpaces);
  }

  /** A space in front of the text changes no tag. */
  lemma ParseLeadingSpace(s: string)
    ensures ParseTags(" " + s) == ParseTags(s)
  {
    var parts := Split(s, ',');
    assert (" " + s)[1..] == s;
    assert Split(" " + s, ',') == [" " + parts[0]] + parts[1..];
    TrimLeadingSpace(parts[0]);
    assert Kept(" " + parts[0]) == Kept(parts[0]);
    assert [parts[0]] + parts[1..] == parts;
  }

  /** A text without the separator is one piece. */
  lemma {:induction false} SplitNoSep(s: string, sep: char)
    requires sep !in s
    ensures Split(s, sep) == [s]
  {
    if s != [] {
      SplitNoSep(s[1..], sep);
      assert [s[0]] + s[1..] == s;
    }
  }

  /** Text up to the first separator is the first piece. */
  lemma {:induction false} SplitAfterSep(a: string, b: string, sep: char)
    requires sep !in a
    ensures Split(a + [sep] + b, sep) == [a] + Split(b, sep)
  {
    if a == [] {
      assert ([sep] + b)[1..] == b;
    } else {
      assert (a + [sep] + b)[1..] == a[1..] + [sep] + b;
      SplitAfterSep(a[1..], b, sep);
      assert [a[0]] + a[1..] == a;
    }
  }

  // ------------------------------------------------------------ counting

  /** The characters `/[一-龥]/g` matches. */
  predicate IsCjk(c: char)
  {
    '一' <= c <= '龥'
  }

  /** `countChineseCharacters(text)` on a string. */
  function CountChineseCharacters(text: string): (n: nat)
    ensures n <= |text|
    ensures n == |text| <==> forall i :: 0 <= i < |text| ==> IsCjk(text[i])
  {
    if text == [] then 0
    else
      var rest := CountChineseCharacters(text[1..]);
      assert forall i :: 1 <= i < |text| ==> text[i] == text[1..][i - 1];
      (if IsCjk(text[0]) then 1 else 0) + rest
  }

  /** Counting is additive over concatenation. */
  lemma {:induction false} CountAppend(a: string, b: string)
    ensures CountChineseCharacters(a + b) == CountChineseCharacters(a) + CountChineseCharacters(b)
  {
    if a != [] {
      assert (a + b)[1..] == a[1..] + b;
      CountAppend(a[1..], b);
    } else {
      assert a + b == b;
    }
  }

  /** `text.map(t => t.text).join('')` for a transcript. */
  function JoinedText(transcript: seq<Sentence>): string
  {
    if transcript == [] then "" else transcript[0].text + JoinedText(transcript[1..])
  }

  /** The count over a transcript. */
  function CountTranscriptCharacters(transcript: seq<Sentence>): nat
  {
    CountChineseCharacters(JoinedText(transcript))
  }

  /** The count for a transcript is the sum of the counts of its sentences. */
  lemma {:induction false} CountTranscriptIsSum(transcript: seq<Sentence>)
    ensures CountTranscriptCharacters(transcript) == SumOfCounts(transcript)
  {
    if transcript != [] {
      CountAppend(transcript[0].text, JoinedText(transcript[1..]));
      CountTranscriptIsSum(transcript[1..]);
    }
  }

  function SumOfCounts(transcript: seq<Sentence>): nat
  {
    if transcript == [] then 0 else CountChineseCharacters(transcript[0].text) + SumOfCounts(transcript[1..])
  }

  // ------------------------------------------------------------ timestamps

  /** `String(n).padStart(2, '0')` */
  function Pad2(n: nat): (s: string)
    ensures |s| >= 2 && AllDigits(s) && DigitsValue(s) == n
    ensures n < 100 ==> |s| == 2
  {
    ShowNatRoundTrip(n);
    ShowNatShort(n);
    PaddedValue(ShowNat(n), 2);
    PadStart(ShowNat(n), 2, '0')
  }

  lemma ShowNatShort(n: nat)
    ensures n < 100 ==> |ShowNat(n)| <= 2
  {
    if 10 <= n < 100 {
      assert ShowNat(n) == ShowNat(n / 10) + [DigitChar(n % 10)];
    }
  }

  /**
   * The inner `formatTime(time)` of `formatTimestamp`, for whole seconds:
   * minutes padded to two digits, a colon, seconds as two digits.
   */
  function FormatClock(t: nat): (s: string)
    ensures |s| >= 5 && s[|s| - 3] == ':'
    ensures t < 6000 ==> |s| == 5
  {
    ClockSlices(Pad2(t / 60), Pad2(t % 60));
    Pad2(t / 60) + ":" + Pad2(t % 60)
  }

  lemma ClockSlices(minutes: string, seconds: string)
    requires |seconds| == 2
    ensures var s := minutes + ":" + seconds;
            s[|s| - 3] == ':' && s[..|s| - 3] == minutes && s[|s| - 2..] == seconds
  {
  }

  /** Reading a clock label back: minutes before the colon, two digits of seconds after it. */
  function ParseClock(s: string): Option<nat>
  {
    if |s| >= 5 && s[|s| - 3] == ':' && AllDigits(s[..|s| - 3]) && AllDigits(s[|s| - 2..]) then
      Some(60 * DigitsValue(s[..|s| - 3]) + DigitsValue(s[|s| - 2..]))
    else
      None
  }

  /** Every label reads back as the time it shows. */
  lemma ClockRoundTrip(t: nat)
    ensures ParseClock(FormatClock(t)) == Some(t)
  {
    ClockOf(t / 60, t % 60);
  }

  /** Minutes and seconds kept apart, so that no division meets the digit reasoning. */
  lemma ClockOf(m: nat, sec: nat)
    requires sec < 60
    ensures ParseClock(Pad2(m) + ":" + Pad2(sec)) == Some(60 * m + sec)
  {
    var minutes, seconds := Pad2(m), Pad2(sec);
    assert |seconds| == 2;
    ParseJoined(minutes, seconds, m, sec);
  }

  lemma ParseJoined(minutes: string, seconds: string, m: nat, sec: nat)
    requires |minutes| >= 2 && AllDigits(minutes) && DigitsValue(minutes) == m
    requires |seconds| == 2 && AllDigits(seconds) && DigitsValue(seconds) == sec
    ensures ParseClock(minutes + ":" + seconds) == Some(60 * m + sec)
  {
    ClockSlices(minutes, seconds);
  }

  /** Zeros in front change no value. */
  lemma {:induction false} PaddedValue(s: string, w: nat)
    requires AllDigits(s)
    ensures AllDigits(PadStart(s, w, '0')) && DigitsValue(PadStart(s, w, '0')) == DigitsValue(s)
    decreases w - |s|
  {
    if |s| < w {
      LeadingZeros("0", s);
      PaddedValue("0" + s, w);
    }
  }

  lemma {:induction false} LeadingZeros(z: string, s: string)
    requires forall i :: 0 <= i < |z| ==> z[i] == '0'
    requires AllDigits(s)
    ensures AllDigits(z + s) && DigitsValue(z + s) == DigitsValue(s)
  {
    if s == [] {
      assert z + s == z;
      AllZeros(z);
    } else {
      assert (z + s)[..|z + s| - 1] == z + s[..|s| - 1];
      LeadingZeros(z, s[..|s| - 1]);
    }
  }

  lemma {:induction false} AllZeros(z: string)
    requires forall i :: 0 <= i < |z| ==> z[i] == '0'
    ensures AllDigits(z) && DigitsValue(z) == 0
  {
    if z != [] {
      AllZeros(z[..|z| - 1]);
    }
  }

  /** Distinct times get distinct labels. */
  lemma FormatClockInjective(a: nat, b: nat)
    requires FormatClock(a) == FormatClock(b)
    ensures a == b
  {
    ClockRoundTrip(a);
    ClockRoundTrip(b);
  }

  /** `formatTimestamp(start, end)`: the two clocks joined by " - ". */
  function FormatTimestamp(start: nat, end: nat): string
  {
    FormatClock(start) + " - " + FormatClock(end)
  }

  /** Under 100 minutes each clock is five characters, so the label is thirteen and both times can be read off it. */
  lemma FormatTimestampShape(start: nat, end: nat)
    requires start < 6000 && end < 6000
    ensures var s := FormatTimestamp(start, end);
            |s| == 13 && s[5..8] == " - " && ParseClock(s[..5]) == Some(start) && ParseClock(s[8..]) == Some(end)
  {
    ClockRoundTrip(start);
    ClockRoundTrip(end);
    LabelSlices(FormatClock(start), FormatClock(end));
  }

  lemma LabelSlices(a: string, b: string)
    requires |a| == 5 && |b| == 5
    ensures var s := a + " - " + b; |s| == 13 && s[5..8] == " - " && s[..5] == a && s[8..] == b
  {
  }
}
