// The line rules of the .osu/.osb loader: the format-version header, the
// key/value split of the settings sections, editor bookmarks, the online id
// sentinels, storyboard variables, colour lines and the pre-v5 time offset.

module Beatmap {
  import opened Wrappers
  import opened Strings
  import Utility
  import Floats

  /** `updateTime(time)`: files older than format version 5 store times 24 ms early. */
  function UpdateTime(version: int, time: Option<int>): (r: Option<int>)
    ensures r.Some? <==> time.Some?
    ensures time.Some? && version < 5 ==> r.value == time.value + 24
    ensures version >= 5 ==> r == time
  {
    if version < 5 && time.Some? then Some(time.value + 24) else time
  }

  /** Correcting two times keeps the distance between them. */
  lemma UpdateTimeKeepsDurations(version: int, a: int, b: int)
    ensures UpdateTime(version, Some(a)).value - UpdateTime(version, Some(b)).value == a - b
  {
  }

  // ---------------------------------------------------------------- header

  /** The version in the first line: it must contain 'v', and what follows
      its last 'v' must be decimal digits. */
  function ParseVersion(firstLine: string): (r: Result<int>)
    ensures Free(firstLine, 'v') ==> r == Err(ValueError)
    ensures r.Err? ==> r.error == ValueError
    ensures r.Ok? ==> (exists i :: 0 <= i < |firstLine| && firstLine[i] == 'v'
                                  && Free(firstLine[i + 1..], 'v') && IsDecimal(firstLine[i + 1..])
                                  && r.value == DigitsValue(firstLine[i + 1..]))
  {
    if Free(firstLine, 'v') then Err(ValueError)
    else
      var p := Split(firstLine, 'v');
      var version := p[|p| - 1];
      if !IsDecimal(version) then Err(ValueError)
      else
        SplitLast(firstLine, 'v');
        SplitSingle(firstLine, 'v');
        var i := |firstLine| - |version| - 1;
        assert firstLine[i + 1..] == version;
        Ok(DigitsValue(version))
  }

  /** Every line whose last 'v' is followed by decimal digits loads, with
      those digits as its version: `osu file format v014` reads as 14. */
  lemma VersionOf(s: string, i: int)
    requires 0 <= i < |s| && s[i] == 'v' && Free(s[i + 1..], 'v') && IsDecimal(s[i + 1..])
    ensures ParseVersion(s) == Ok(DigitsValue(s[i + 1..]))
  {
    assert s == s[..i] + ['v'] + s[i + 1..];
    SplitEndsWith(s[..i], 'v', s[i + 1..]);
    SplitSingle(s, 'v');
    assert s[i] == 'v';
  }

  /** The header the saver writes, "osu file format v<n>", reads back as n;
      so does any text ending in 'v' and a decimal number. */
  lemma VersionHeaderRoundTrip(prefix: string, n: nat)
    ensures ParseVersion(prefix + "v" + NatToString(n)) == Ok(n)
  {
    var d := NatToString(n);
    assert Free(d, 'v');
    assert prefix + "v" + d == prefix + ['v'] + d;
    SplitEndsWith(prefix, 'v', d);
    SplitSingle(prefix + ['v'] + d, 'v');
    assert (prefix + ['v'] + d)[|prefix|] == 'v';
  }

  // ---------------------------------------------------------------- settings

  /** The key and value of a line in [General], [Editor], [Metadata] or
      [Difficulty]: outside [Metadata] and [Difficulty] the line is cut at the
      first ": ", or at the first ':' when there is none; inside them always
      at the first ':'. A line without ':' does not unpack. */
  function KeyValue(section: string, line: string): (r: Result<(string, string)>)
    ensures r.Err? <==> Free(line, ':')
    ensures r.Err? ==> r.error == ValueError
    ensures r.Ok? && section in {"Metadata", "Difficulty"} ==>
      line == r.value.0 + ":" + r.value.1 && Free(r.value.0, ':')
    ensures r.Ok? && section !in {"Metadata", "Difficulty"} ==>
      (line == r.value.0 + ": " + r.value.1 && Find(line, ": ") == |r.value.0|)
      || (Find(line, ": ") == |line| && line == r.value.0 + ":" + r.value.1 && Free(r.value.0, ':'))
  {
    var kv := if section !in {"Metadata", "Difficulty"} then SplitStrOnce(line, ": ") else [];
    var kv := if |kv| < 2 then SplitOnce(line, ':') else kv;
    if |kv| != 2 then Err(ValueError)
    else
      ColonAt(line, Find(line, ": "));
      Ok((kv[0], kv[1]))
  }

  /** Where ": " is found there is a ':'. */
  lemma ColonAt(line: string, i: nat)
    requires i <= |line| && (i < |line| ==> OccursAt(line, ": ", i))
    ensures i < |line| ==> !Free(line, ':')
  {
    if i < |line| {
      assert line[i..i + 2][0] == ':';
    }
  }

  /** The last piece of a split is all that follows the last separator. */
  lemma {:induction false} SplitEndsWith(a: string, c: char, d: string)
    requires Free(d, c)
    ensures var p := Split(a + [c] + d, c); p[|p| - 1] == d
    decreases |a|
  {
    var s := a + [c] + d;
    var i := IndexOf(s, c);
    assert s[|a|] == c;
    if i == |a| {
      assert s[i + 1..] == d;
      IndexOfAbsent(d, c);
    } else {
      assert s[i + 1..] == a[i + 1..] + [c] + d;
      SplitEndsWith(a[i + 1..], c, d);
    }
  }

  /** What the saver writes comes back: "Key:value" in [Metadata] and
      [Difficulty], "Key: value" in [General] and [Editor], for a key without ':'. */
  lemma KeyValueOfSaved(k: string, v: string)
    requires Free(k, ':')
    ensures KeyValue("Metadata", k + ":" + v) == Ok((k, v))
    ensures KeyValue("Difficulty", k + ":" + v) == Ok((k, v))
    ensures KeyValue("General", k + ": " + v) == Ok((k, v))
    ensures KeyValue("Editor", k + ": " + v) == Ok((k, v))
  {
    assert k + ":" + v == k + [':'] + v;
    SplitOnceAt(k, ':', v);
    assert k + ": " + v == k + ": " + v;
    FindAfter(k, ": ", v);
    var s := k + ": " + v;
    assert s[..|k|] == k && s[|k| + 2..] == v;
  }

  /** In [Metadata] the blank after the colon stays in the value. */
  lemma MetadataKeepsBlank()
    ensures KeyValue("Metadata", "Title: X") == Ok(("Title", " X"))
  {
    assert Free("Title", ':');
    assert "Title" + ":" + " X" == "Title: X";
    KeyValueOfSaved("Title", " X");
  }

  /** The bookmark times of a comma-split list: empty tokens are skipped,
      every other one must be an integer. */
  function BookmarkTimes(tokens: seq<string>): (r: Result<seq<int>>)
    ensures r.Ok? ==> |r.value| <= |tokens|
    ensures r.Err? ==> r.error == ValueError
    decreases |tokens|
  {
    if |tokens| == 0 then Ok([])
    else
      var before :- BookmarkTimes(tokens[..|tokens| - 1]);
      var t := tokens[|tokens| - 1];
      if t == "" then Ok(before)
      else
        var n :- ParseInt(t);
        Ok(before + [n])
  }

  /** One more token: skipped when empty, otherwise parsed and appended. */
  lemma BookmarkTimesSnoc(tokens: seq<string>, i: nat)
    requires i < |tokens| && BookmarkTimes(tokens[..i]).Ok?
    ensures BookmarkTimes(tokens[..i + 1]) ==
      if tokens[i] == "" then BookmarkTimes(tokens[..i])
      else if ParseInt(tokens[i]).Err? then Err(ValueError)
      else Ok(BookmarkTimes(tokens[..i]).value + [ParseInt(tokens[i]).value])
  {
    assert tokens[..i + 1][..i] == tokens[..i];
    assert tokens[..i + 1][i] == tokens[i];
    assert ParseInt(tokens[i]).Err? ==> ParseInt(tokens[i]).error == ValueError;
  }

  /** A bad token anywhere spoils the whole list. */
  lemma {:induction false} BookmarkTimesErr(tokens: seq<string>, i: nat)
    requires i <= |tokens| && BookmarkTimes(tokens[..i]).Err?
    ensures BookmarkTimes(tokens).Err?
    decreases |tokens| - i
  {
    if i < |tokens| {
      assert tokens[..i + 1][..i] == tokens[..i];
      BookmarkTimesErr(tokens, i + 1);
    } else {
      assert tokens[..i] == tokens;
    }
  }

  /** Times written as integers joined by ',' read back as they were. */
  lemma BookmarksRoundTrip(times: seq<int>)
    ensures BookmarkTimes(IntTexts(times)) == Ok(times)
  {
    var ts := IntTexts(times);
    forall k | 0 <= k < |ts| ensures ts[k] != "" && ParseInt(ts[k]) == Ok(times[k]) {
      IntToStringChars(times[k]);
      ParseIntToString(times[k]);
    }
    BookmarksReadBack(ts, times);
  }

  /** Non-empty tokens that each read back as a number read back as the list. */
  lemma {:induction false} BookmarksReadBack(ts: seq<string>, times: seq<int>)
    requires |ts| == |times|
    requires forall k :: 0 <= k < |ts| ==> ts[k] != "" && ParseInt(ts[k]) == Ok(times[k])
    ensures BookmarkTimes(ts) == Ok(times)
    decreases |ts|
  {
    if |ts| > 0 {
      var n := |ts|;
      BookmarksReadBack(ts[..n - 1], times[..n - 1]);
      assert times[..n - 1] + [times[n - 1]] == times;
    }
  }

  /** ... and split from the saved line. */
  lemma BookmarkLineRoundTrip(times: seq<int>)
    requires |times| > 0
    ensures BookmarkTimes(Split(Join(IntTexts(times), ','), ',')) == Ok(times)
  {
    var ts := IntTexts(times);
    forall k | 0 <= k < |ts| ensures Free(ts[k], ',') {
      IntToStringChars(times[k]);
      FreeInt(ts[k], ',');
    }
    SplitJoin(ts, ',');
    BookmarksRoundTrip(times);
  }

  /** `BeatmapID`: 0 stands for no id. */
  function MapIdOf(v: string): (r: Result<Option<int>>)
    ensures r.Err? <==> ParseInt(v).Err?
    ensures r.Ok? ==> (r.value == None <==> ParseInt(v).value == 0)
    ensures r.Ok? && r.value.Some? ==> r.value.value == ParseInt(v).value
  {
    var n :- ParseInt(v);
    Ok(if n != 0 then Some(n) else None)
  }

  /** `BeatmapSetID`: every negative number stands for no id. */
  function MapsetIdOf(v: string): (r: Result<Option<int>>)
    ensures r.Err? <==> ParseInt(v).Err?
    ensures r.Ok? ==> (r.value == None <==> ParseInt(v).value < 0)
    ensures r.Ok? && r.value.Some? ==> r.value.value == ParseInt(v).value
  {
    var n :- ParseInt(v);
    Ok(if n >= 0 then Some(n) else None)
  }

  /** How the saver writes the ids: no map id as 0, no set id as -1.  Either
      text loads back as the id, except that a map id 0 and a negative set
      id load as no id. */
  function MapIdText(id: Option<int>): (r: string)
    ensures MapIdOf(r) == Ok(if id == Some(0) then None else id)
  {
    var n := if id.Some? then id.value else 0;
    ParseIntToString(n);
    IntToString(n)
  }

  function MapsetIdText(id: Option<int>): (r: string)
    ensures MapsetIdOf(r) == Ok(if id.Some? && id.value < 0 then None else id)
  {
    var n := if id.Some? then id.value else -1;
    ParseIntToString(n);
    IntToString(n)
  }

  /** A canonical decimal id is written back as read: every BeatmapID, and
      every BeatmapSetID from -1 up; lower set ids come back as -1. */
  lemma IdRoundTrip(n: int)
    ensures MapIdOf(IntToString(n)).Ok? && MapIdText(MapIdOf(IntToString(n)).value) == IntToString(n)
    ensures MapsetIdOf(IntToString(n)).Ok?
    ensures n >= -1 ==> MapsetIdText(MapsetIdOf(IntToString(n)).value) == IntToString(n)
    ensures n < -1 ==> MapsetIdText(MapsetIdOf(IntToString(n)).value) == "-1"
  {
    ParseIntToString(n);
    assert IntToString(0) == "0";
    assert IntToString(-1) == "-" + NatToString(1);
  }

  // ---------------------------------------------------------------- variables, colours

  /** A [Variables] line: cut at the first '='; a line without '=' does not unpack. */
  function VariableOf(line: string): (r: Result<(string, string)>)
    ensures r.Err? <==> Free(line, '=')
    ensures r.Err? ==> r.error == ValueError
    ensures r.Ok? ==> line == r.value.0 + "=" + r.value.1 && Free(r.value.0, '=')
  {
    var kv := SplitOnce(line, '=');
    if |kv| != 2 then Err(ValueError) else Ok((kv[0], kv[1]))
  }

  /** Every name without '=' and every value come back from "name=value". */
  lemma VariableRoundTrip(k: string, v: string)
    requires Free(k, '=')
    ensures VariableOf(k + "=" + v) == Ok((k, v))
  {
    assert k + "=" + v == k + ['='] + v;
    SplitOnceAt(k, '=', v);
  }

  /** A [Colours] line "key : r,g,b": exactly one " : ", then one to three
      integers given to `Color`, which defaults the missing components to 0
      and refuses more than three. */
  function ColourOf(line: string): (r: Result<(string, Utility.Color)>)
    ensures r.Ok? ==> |SplitStr(line, " : ")| == 2 && r.value.0 == SplitStr(line, " : ")[0]
    ensures |SplitStr(line, " : ")| != 2 ==> r == Err(ValueError)
    ensures r.Ok? ==> Ints(Split(SplitStr(line, " : ")[1], ',')).Ok?
    ensures r.Ok? ==> var cs := Ints(Split(SplitStr(line, " : ")[1], ',')).value;
      1 <= |cs| <= 3 && r.value.1.r == cs[0]
      && r.value.1.g == (if |cs| > 1 then cs[1] else 0) && r.value.1.b == (if |cs| > 2 then cs[2] else 0)
    ensures |SplitStr(line, " : ")| == 2 && Ints(Split(SplitStr(line, " : ")[1], ',')).Err? ==>
      r == Err(Ints(Split(SplitStr(line, " : ")[1], ',')).error)
    ensures |SplitStr(line, " : ")| == 2 && Ints(Split(SplitStr(line, " : ")[1], ',')).Ok? ==>
      if |Ints(Split(SplitStr(line, " : ")[1], ',')).value| <= 3 then r.Ok? else r == Err(TypeError)
  {
    var kv := SplitStr(line, " : ");
    if |kv| != 2 then Err(ValueError)
    else
      var cs :- Ints(Split(kv[1], ','));
      if |cs| > 3 then Err(TypeError)
      else
        Ok((kv[0], Utility.Color(cs[0], if |cs| > 1 then cs[1] else 0, if |cs| > 2 then cs[2] else 0)))
  }

  /** The components of a colour in its text. */
  lemma ColourComponents(c: Utility.Color)
    ensures Free(c.Text(), ' ')
    ensures Ints(Split(c.Text(), ',')) == Ok([c.r, c.g, c.b])
  {
    var ts := IntTexts([c.r, c.g, c.b]);
    assert ts == [IntToString(c.r), IntToString(c.g), IntToString(c.b)];
    assert c.Text() == Join(ts, ',');
    forall j | 0 <= j < 3 ensures Free(ts[j], ' ') && Free(ts[j], ',') {
      IntToStringChars([c.r, c.g, c.b][j]);
      FreeInt(ts[j], ' ');
      FreeInt(ts[j], ',');
    }
    JoinFree(ts, ',', ' ');
    SplitJoin(ts, ',');
    IntsOfTexts([c.r, c.g, c.b]);
  }

  /** A key without blanks and the text of a colour come back from "key : r,g,b". */
  lemma ColourRoundTrip(k: string, c: Utility.Color)
    requires Free(k, ' ')
    ensures ColourOf(k + " : " + c.Text()) == Ok((k, c))
  {
    var t := c.Text();
    var line := k + " : " + t;
    ColourComponents(c);
    FindAfter(k, " : ", t);
    FindAbsent(t, " : ");
    assert line[..|k|] == k && line[|k| + 3..] == t;
    assert SplitStr(line, " : ") == [k, t];
  }

  /** The settings keys whose value goes through `int`, through `float`, or
      through one of the `Countdown`, `SampleSet` and `OverlayPosition` names:
      `SampleSet` is a plain class that takes no arguments, and the other two
      are not defined anywhere in the package. */
  const INT_KEYS: set<string> :=
    {"AudioLeadIn", "PreviewTime", "Mode", "CountdownOffset", "BeatDivisor", "GridSize"}
  const FLOAT_KEYS: set<string> :=
    {"StackLeniency", "DistanceSpacing", "TimelineZoom", "HPDrainRate", "CircleSize",
     "OverallDifficulty", "ApproachRate", "SliderMultiplier", "SliderTickRate"}
  const ENUM_KEYS: set<string> := {"Countdown", "SampleSet", "OverlayPosition"}

  /** Whether the line for a key whose value is not part of the modelled
      state raises: an `int` or `float` field raises ValueError on a value it
      cannot convert, the three type conversions always raise, and the fields
      stored as text or compared with '1' never raise. */
  function SettingOutcome(k: string, v: string): (r: Result<()>)
    ensures k in INT_KEYS ==> (r.Ok? <==> ParseInt(v).Ok?)
    ensures k in FLOAT_KEYS ==> (r.Ok? <==> Floats.ParseFloat(v).Ok?)
    ensures k == "SampleSet" ==> r == Err(TypeError)
    ensures k in {"Countdown", "OverlayPosition"} ==> r == Err(NameError)
    ensures r.Err? && k !in ENUM_KEYS ==> r.error == ValueError
    ensures k !in INT_KEYS + FLOAT_KEYS + ENUM_KEYS ==> r.Ok?
  {
    if k in INT_KEYS then (if ParseInt(v).Ok? then Ok(()) else Err(ValueError))
    else if k in FLOAT_KEYS then (if Floats.ParseFloat(v).Ok? then Ok(()) else Err(ValueError))
    else if k == "SampleSet" then Err(TypeError)
    else if k in ENUM_KEYS then Err(NameError)
    else Ok(())
  }

  // ---------------------------------------------------------------- the beatmap

  /** The loaded state the modelled line rules write. */
  datatype LoadState = LoadState(
    version: int,
    bookmarks: multiset<int>,
    id: Option<int>,
    mapsetID: Option<int>,
    variables: map<string, string>,
    comboColors: map<int, Utility.Color>,
    sliderColor: Option<Utility.Color>,
    sliderTrackColor: Option<Utility.Color>,
    sliderBorderColor: Option<Utility.Color>)

  class Beatmap {
    var version: int
    /** The editor bookmarks, a sorted list: what it holds is a multiset. */
    var editorBookmarks: multiset<int>
    var id: Option<int>
    var mapsetID: Option<int>
    var variables: map<string, string>
    var comboColors: map<int, Utility.Color>
    var sliderColor: Option<Utility.Color>
    var sliderTrackColor: Option<Utility.Color>
    var sliderBorderColor: Option<Utility.Color>

    function State(): LoadState
      reads this
    {
      LoadState(version, editorBookmarks, id, mapsetID, variables, comboColors,
                sliderColor, sliderTrackColor, sliderBorderColor)
    }

    /** A beatmap before loading: format version 14, nothing else set. */
    constructor ()
      ensures State() == LoadState(14, multiset{}, None, None, map[], map[], None, None, None)
    {
      version := 14;
      editorBookmarks := multiset{};
      id := None;
      mapsetID := None;
      variables := map[];
      comboColors := map[];
      sliderColor := None;
      sliderTrackColor := None;
      sliderBorderColor := None;
    }

    /** The version-header check at the start of `load`. */
    method LoadHeader(firstLine: string) returns (r: Result<()>)
      modifies this
      ensures r.Ok? <==> ParseVersion(firstLine).Ok?
      ensures r.Err? ==> r.error == ValueError && State() == old(State())
      ensures r.Ok? ==> State() == old(State()).(version := ParseVersion(firstLine).value)
    {
      var v := ParseVersion(firstLine);
      if v.Err? {
        return Err(ValueError);
      }
      version := v.value;
      r := Ok(());
    }

    /** The time stored in the file, corrected for this beatmap's version. */
    function Time(time: Option<int>): Option<int>
      reads this
    {
      UpdateTime(version, time)
    }

    /** `Bookmarks`: each non-empty token is added as an integer, in order;
        a bad token raises after the ones before it were added. */
    method AddBookmarks(tokens: seq<string>) returns (r: Result<()>)
      modifies this
      ensures r.Ok? <==> BookmarkTimes(tokens).Ok?
      ensures r.Ok? ==> State() == old(State()).(bookmarks := old(editorBookmarks) + multiset(BookmarkTimes(tokens).value))
      ensures r.Err? ==> (r.error == ValueError && old(editorBookmarks) <= editorBookmarks
                          && State() == old(State()).(bookmarks := editorBookmarks))
    {
      var i := 0;
      while i < |tokens|
        invariant 0 <= i <= |tokens|
        invariant BookmarkTimes(tokens[..i]).Ok?
        invariant State() == old(State()).(bookmarks := old(editorBookmarks) + multiset(BookmarkTimes(tokens[..i]).value))
      {
        BookmarkTimesSnoc(tokens, i);
        if tokens[i] != "" {
          var n := ParseInt(tokens[i]);
          if n.Err? {
            BookmarkTimesErr(tokens, i + 1);
            return Err(ValueError);
          }
          editorBookmarks := editorBookmarks + multiset{n.value};
        }
        i := i + 1;
      }
      assert tokens[..i] == tokens;
      r := Ok(());
    }

    /** One line of [General], [Editor], [Metadata] or [Difficulty]: the key
        and value are split off, and Bookmarks, BeatmapID and BeatmapSetID
        store into the state modelled here; the other keys only raise or not
        as their conversion does. */
    method LoadSetting(section: string, line: string) returns (r: Result<()>)
      modifies this
      ensures KeyValue(section, line).Err? ==> r == Err(ValueError) && State() == old(State())
      ensures KeyValue(section, line).Ok? ==> var (k, v) := KeyValue(section, line).value;
        (k == "Bookmarks" ==>
           (r.Ok? <==> BookmarkTimes(Split(v, ',')).Ok?)
           && (r.Ok? ==> State() == old(State()).(bookmarks := old(editorBookmarks) + multiset(BookmarkTimes(Split(v, ',')).value))))
        && (k == "BeatmapID" ==>
              (r.Ok? <==> MapIdOf(v).Ok?) && (r.Ok? ==> State() == old(State()).(id := MapIdOf(v).value)))
        && (k == "BeatmapSetID" ==>
              (r.Ok? <==> MapsetIdOf(v).Ok?) && (r.Ok? ==> State() == old(State()).(mapsetID := MapsetIdOf(v).value)))
        && (k !in {"Bookmarks", "BeatmapID", "BeatmapSetID"} ==>
              r == SettingOutcome(k, v) && State() == old(State()))
      ensures r.Err? ==> (old(editorBookmarks) <= editorBookmarks
                          && State() == old(State()).(bookmarks := editorBookmarks))
    {
      var kv := KeyValue(section, line);
      if kv.Err? {
        return Err(ValueError);
      }
      var (k, v) := kv.value;
      if k == "Bookmarks" {
        r := AddBookmarks(Split(v, ','));
      } else if k == "BeatmapID" {
        var n := MapIdOf(v);
        if n.Err? {
          return Err(n.error);
        }
        id := n.value;
        r := Ok(());
      } else if k == "BeatmapSetID" {
        var n := MapsetIdOf(v);
        if n.Err? {
          return Err(n.error);
        }
        mapsetID := n.value;
        r := Ok(());
      } else {
        r := SettingOutcome(k, v);
      }
    }

    /** One line of [Variables]. */
    method LoadVariable(line: string) returns (r: Result<()>)
      modifies this
      ensures r == if VariableOf(line).Ok? then Ok(()) else Err(ValueError)
      ensures r.Err? ==> State() == old(State())
      ensures r.Ok? ==> var (k, v) := VariableOf(line).value;
        State() == old(State()).(variables := old(variables)[k := v])
    {
      var kv := VariableOf(line);
      if kv.Err? {
        return Err(ValueError);
      }
      var (k, v) := kv.value;
      variables := variables[k := v];
      r := Ok(());
    }

    /** One line of [Colours]: the slider colours by name, a combo colour
        under its number; other keys are read and dropped. */
    method LoadColour(line: string) returns (r: Result<()>)
      modifies this
      ensures ColourOf(line).Err? ==> r == Err(ColourOf(line).error) && State() == old(State())
      ensures ColourOf(line).Ok? ==> var (k, c) := ColourOf(line).value;
        (k == "SliderBody" ==> r.Ok? && State() == old(State()).(sliderColor := Some(c)))
        && (k == "SliderTrackOverride" ==> r.Ok? && State() == old(State()).(sliderTrackColor := Some(c)))
        && (k == "SliderBorder" ==> r.Ok? && State() == old(State()).(sliderBorderColor := Some(c)))
        && (k !in {"SliderBody", "SliderTrackOverride", "SliderBorder"} && StartsWith(k, "Combo") ==>
              (r.Ok? <==> ParseInt(k[5..]).Ok?)
              && (r.Ok? ==> State() == old(State()).(comboColors := old(comboColors)[ParseInt(k[5..]).value := c]))
              && (r.Err? ==> r.error == ValueError && State() == old(State())))
        && (k !in {"SliderBody", "SliderTrackOverride", "SliderBorder"} && !StartsWith(k, "Combo") ==>
              r.Ok? && State() == old(State()))
    {
      var kc := ColourOf(line);
      if kc.Err? {
        return Err(kc.error);
      }
      var (k, c) := kc.value;
      if k == "SliderBody" {
        sliderColor := Some(c);
      } else if k == "SliderTrackOverride" {
        sliderTrackColor := Some(c);
      } else if k == "SliderBorder" {
        sliderBorderColor := Some(c);
      } else if StartsWith(k, "Combo") {
        var n := ParseInt(k[|"Combo"|..]);
        if n.Err? {
          return Err(n.error);
        }
        comboColors := comboColors[n.value := c];
      }
      r := Ok(());
    }
  }
}
