// Links in the osu! URL scheme that make the game client join a match, jump
// into the editor, join a chat channel, download a map or spectate a user.

module OsuUrl {
  import opened Wrappers
  import opened Strings

  const URL_BASE: string := "osu"

  /** `multiplayerMatch(matchID, password)`: "osu://mp/<id>/<password>", with
      no password rendered as the empty text. */
  function MultiplayerMatch(matchID: int, password: Option<string>): (r: string)
    ensures StartsWith(r, "osu://mp/")
    ensures password == None ==> r == "osu://mp/" + IntToString(matchID) + "/"
    ensures password.Some? ==> |r| > |password.value| && r[|r| - |password.value|..] == password.value
  {
    assert URL_BASE + "://mp/" == "osu://mp/";
    var pw := if password.Some? then password.value else "";
    var r := "osu://mp/" + (IntToString(matchID) + "/" + pw);
    assert r[..9] == "osu://mp/" && r[|r| - |pw|..] == pw;
    r
  }

  /** The match id and the password can be read back from a match link. */
  lemma MultiplayerMatchFields(matchID: int, password: Option<string>)
    ensures var u := MultiplayerMatch(matchID, password);
      StartsWith(u, "osu://mp/")
      && var parts := SplitOnce(u[9..], '/');
      |parts| == 2 && ParseInt(parts[0]) == Ok(matchID)
      && parts[1] == (if password == None then "" else password.value)
  {
    var id := IntToString(matchID);
    var pw := if password.Some? then password.value else "";
    var u := MultiplayerMatch(matchID, password);
    assert u == "osu://mp/" + (id + ['/'] + pw);
    assert u[9..] == id + ['/'] + pw;
    IntToStringChars(matchID);
    assert Free(id, '/');
    SplitOnceAt(id, '/', pw);
    ParseIntToString(matchID);
  }

  // ---------------------------------------------------------------- editor

  /** The minutes, seconds and milliseconds `editMap` shows for a time in
      milliseconds, by Python's floor division and modulo. */
  function EditTime(timeMs: int): (r: (int, int, int))
    ensures r.0 * 60000 + r.1 * 1000 + r.2 == timeMs
    ensures 0 <= r.1 < 60 && 0 <= r.2 < 1000
    ensures timeMs >= 0 ==> r.0 >= 0
  {
    var ms := timeMs % 1000;
    var sec := timeMs / 1000;
    var min := sec / 60;
    (min, sec % 60, ms)
  }

  /** The three fields of the time text: minutes and seconds padded on the
      left with '0' to 2 places, milliseconds to 3. */
  function TimeFields(timeMs: int): (r: seq<string>)
  {
    var (min, sec, ms) := EditTime(timeMs);
    [PadLeft(IntToString(min), '0', 2), PadLeft(IntToString(sec), '0', 2), PadLeft(IntToString(ms), '0', 3)]
  }

  /** "mm:ss:mmm": the three fields joined by ':', none of which holds one. */
  function EditTimeText(timeMs: int): (r: string)
    ensures Split(r, ':') == TimeFields(timeMs)
  {
    TimeFieldsFree(timeMs, ':');
    SplitJoin(TimeFields(timeMs), ':');
    Join(TimeFields(timeMs), ':')
  }

  /** Each field is an integer text, and `int` reads back the decomposed time. */
  lemma TimeFieldsRead(timeMs: int)
    ensures |TimeFields(timeMs)| == 3
    ensures IntChars(TimeFields(timeMs)[0]) && ParseInt(TimeFields(timeMs)[0]) == Ok(EditTime(timeMs).0)
    ensures IntChars(TimeFields(timeMs)[1]) && ParseInt(TimeFields(timeMs)[1]) == Ok(EditTime(timeMs).1)
    ensures IntChars(TimeFields(timeMs)[2]) && ParseInt(TimeFields(timeMs)[2]) == Ok(EditTime(timeMs).2)
  {
    var e := EditTime(timeMs);
    MinutesPadded(e.0);
    PaddedInt(e.1, 2);
    PaddedInt(e.2, 3);
  }

  /** No field of the time text holds c, a character of no integer text. */
  lemma TimeFieldsFree(timeMs: int, c: char)
    requires c != '-' && !IsDigit(c)
    ensures forall k :: 0 <= k < |TimeFields(timeMs)| ==> Free(TimeFields(timeMs)[k], c)
  {
    TimeFieldsRead(timeMs);
    ThreeFree(TimeFields(timeMs), c);
  }

  lemma ThreeFree(f: seq<string>, c: char)
    requires |f| == 3 && IntChars(f[0]) && IntChars(f[1]) && IntChars(f[2])
    requires c != '-' && !IsDigit(c)
    ensures forall k :: 0 <= k < |f| ==> Free(f[k], c)
  {
    forall k | 0 <= k < |f| ensures Free(f[k], c) {
      FreeInt(f[k], c);
    }
  }

  /** The minutes have at least two places when negative, so they are
      padded only when not. */
  lemma MinutesPadded(min: int)
    ensures IntChars(PadLeft(IntToString(min), '0', 2))
    ensures ParseInt(PadLeft(IntToString(min), '0', 2)) == Ok(min)
  {
    if min < 0 {
      assert IntToString(min) == "-" + NatToString(-min);
    }
    PaddedInt(min, 2);
  }

  /** " (n1,n2,...)" for a non-empty list of combo numbers, nothing for an empty one. */
  function ComboSuffix(combos: seq<int>): string
  {
    if |combos| == 0 then "" else " (" + Join(IntTexts(combos), ',') + ")"
  }

  /** `editMap(timeMs, selectedComboNumbers)`; no list is the empty list. */
  function EditMap(timeMs: int, combos: Option<seq<int>>): (r: string)
    ensures StartsWith(r, "osu://edit/" + EditTimeText(timeMs))
    ensures combos == None || combos == Some([]) ==> r == "osu://edit/" + EditTimeText(timeMs)
  {
    assert URL_BASE + "://edit/" == "osu://edit/";
    var head := "osu://edit/" + EditTimeText(timeMs);
    var r := head + ComboSuffix(if combos.Some? then combos.value else []);
    assert r[..|head|] == head;
    r
  }

  /** The time text splits on ':' into three fields that `int` reads back
      as a decomposition of the time. */
  lemma EditTimeRoundTrip(timeMs: int)
    ensures var p := Split(EditTimeText(timeMs), ':');
      |p| == 3 && ParseInt(p[0]).Ok? && ParseInt(p[1]).Ok? && ParseInt(p[2]).Ok?
      && ParseInt(p[0]).value * 60000 + ParseInt(p[1]).value * 1000 + ParseInt(p[2]).value == timeMs
      && 0 <= ParseInt(p[1]).value < 60 && 0 <= ParseInt(p[2]).value < 1000
  {
    var f := TimeFields(timeMs);
    TimeFieldsRead(timeMs);
    TimeFieldsFree(timeMs, ':');
    SplitJoin(f, ':');
  }

  /** The combo list splits on ',' into texts `int` reads back as the numbers. */
  lemma ComboListRoundTrip(combos: seq<int>)
    requires |combos| > 0
    ensures var p := Split(Join(IntTexts(combos), ','), ',');
      |p| == |combos| && forall k :: 0 <= k < |p| ==> ParseInt(p[k]) == Ok(combos[k])
  {
    var ts := IntTexts(combos);
    forall k | 0 <= k < |ts|
      ensures Free(ts[k], ',') && ParseInt(ts[k]) == Ok(combos[k])
    {
      IntToStringChars(combos[k]);
      FreeInt(ts[k], ',');
      ParseIntToString(combos[k]);
    }
    SplitJoin(ts, ',');
  }

  /** An editor link is the prefix, then the time text up to the first
      space; there is a space, followed by the parenthesised list, exactly
      when the list is not empty. */
  lemma EditMapParts(timeMs: int, combos: Option<seq<int>>)
    ensures var u := EditMap(timeMs, combos);
      var cs := if combos.Some? then combos.value else [];
      u == "osu://edit/" + EditTimeText(timeMs) + ComboSuffix(cs)
      && var parts := SplitOnce(EditTimeText(timeMs) + ComboSuffix(cs), ' ');
      parts[0] == EditTimeText(timeMs)
      && (|parts| == 2 <==> |cs| > 0)
      && (|parts| == 2 ==> parts[1] == "(" + Join(IntTexts(cs), ',') + ")")
  {
    var cs := if combos.Some? then combos.value else [];
    assert URL_BASE + "://edit/" == "osu://edit/";
    EditTimeTextFree(timeMs);
    WithComboSuffix(EditTimeText(timeMs), cs);
  }

  /** A space-free text followed by the combo suffix of a list splits at the
      first space exactly when the list is not empty. */
  lemma WithComboSuffix(t: string, cs: seq<int>)
    requires Free(t, ' ')
    ensures var parts := SplitOnce(t + ComboSuffix(cs), ' ');
      parts[0] == t
      && (|parts| == 2 <==> |cs| > 0)
      && (|parts| == 2 ==> parts[1] == "(" + Join(IntTexts(cs), ',') + ")")
  {
    if |cs| == 0 {
      assert t + ComboSuffix(cs) == t;
    } else {
      NonEmptySuffix(t, cs);
    }
  }

  /** A non-empty list's suffix starts with the only space. */
  lemma NonEmptySuffix(t: string, cs: seq<int>)
    requires Free(t, ' ') && |cs| > 0
    ensures SplitOnce(t + ComboSuffix(cs), ' ') == [t, "(" + Join(IntTexts(cs), ',') + ")"]
  {
    var j := Join(IntTexts(cs), ',');
    var rest := "(" + j + ")";
    assert t + ComboSuffix(cs) == t + ([' '] + rest) by {
      SpaceFirst(j);
    }
    assert t + ([' '] + rest) == t + [' '] + rest;
    SplitOnceAt(t, ' ', rest);
  }

  /** The suffix text around a list is a space and the bracketed list. */
  lemma SpaceFirst(j: string)
    ensures " (" + j + ")" == [' '] + ("(" + j + ")")
  {
    var r := "(" + j + ")";
    assert |" (" + j + ")"| == |[' '] + r|;
    forall k | 0 <= k < |[' '] + r| ensures (" (" + j + ")")[k] == ([' '] + r)[k] {
      if k > 0 {
        assert ([' '] + r)[k] == r[k - 1];
      }
    }
  }

  /** The time text holds no space. */
  lemma EditTimeTextFree(timeMs: int)
    ensures Free(EditTimeText(timeMs), ' ')
  {
    TimeFieldsFree(timeMs, ' ');
    JoinFree(TimeFields(timeMs), ':', ' ');
  }

  // ---------------------------------------------------------------- others

  /** `chatChannel(name)`: "osu://chan/<name>". */
  function ChatChannel(name: string): (r: string)
    ensures StartsWith(r, "osu://chan/") && r[11..] == name
  {
    URL_BASE + "://chan/" + name
  }

  /** Whether Python counts an optional id as true: present and not 0. */
  predicate Truthy(id: Option<int>) { id.Some? && id.value != 0 }

  /** `directDownload(mapSetID=..., mapID=...)`: exactly one of the ids must be
      given (and not 0); a set id gives "osu://dl/<id>", a map id "osu://b/<id>". */
  function DirectDownload(mapSetID: Option<int>, mapID: Option<int>): (r: Result<string>)
    ensures r.Err? <==> Truthy(mapSetID) == Truthy(mapID)
    ensures r.Err? ==> r.error == ValueError
    ensures r.Ok? && Truthy(mapSetID) ==>
      StartsWith(r.value, "osu://dl/") && ParseInt(r.value[9..]) == Ok(mapSetID.value)
    ensures r.Ok? && Truthy(mapID) ==>
      StartsWith(r.value, "osu://b/") && ParseInt(r.value[8..]) == Ok(mapID.value)
  {
    if Truthy(mapSetID) then
      if Truthy(mapID) then Err(ValueError)
      else
        ParseIntToString(mapSetID.value);
        Ok(URL_BASE + "://dl/" + IntToString(mapSetID.value))
    else if Truthy(mapID) then
      ParseIntToString(mapID.value);
      Ok(URL_BASE + "://b/" + IntToString(mapID.value))
    else Err(ValueError)
  }

  /** Who to spectate: a user name or a user id. */
  datatype User = UserName(name: string) | UserId(id: int)

  /** `spectate(user)`: "osu://spectate/<user>". */
  function Spectate(user: User): (r: string)
    ensures StartsWith(r, "osu://spectate/")
    ensures user.UserName? ==> r[15..] == user.name
    ensures user.UserId? ==> ParseInt(r[15..]) == Ok(user.id)
  {
    assert URL_BASE + "://spectate/" == "osu://spectate/";
    match user
    case UserName(name) => URL_BASE + "://spectate/" + name
    case UserId(id) =>
      ParseIntToString(id);
      URL_BASE + "://spectate/" + IntToString(id)
  }
}
