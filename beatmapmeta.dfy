// Beatmap metadata: the path setter, the Unicode/ASCII name fallbacks,
// the display string, the star-rating check and the per-mode rank accessors.

module BeatmapMeta {
  import opened Wrappers
  import opened Strings
  import opened Floats

  // Game modes (class Mode).
  const STD: int := 0
  const TAIKO: int := 1
  const CTB: int := 2
  const MANIA: int := 3

  // Letter ranks (class Rank); N means no rank.
  const RANK_XH: int := 0
  const RANK_N: int := 9

  /** Python's `xs[i]` over a four-slot list: negative indexes count from the end. */
  function Slot4(i: int): (r: Result<nat>)
    ensures r.Ok? <==> -4 <= i < 4
    ensures r.Ok? ==> r.value < 4 && (r.value == i || r.value == i + 4)
    ensures r.Err? ==> r.error == IndexError
  {
    if 0 <= i < 4 then Ok(i) else if -4 <= i < 0 then Ok(i + 4) else Err(IndexError)
  }

  /** The directory and file name the `path` setter takes from a path: the
      two pieces of a split on '/', or, when there is no '/', of a split on
      '\'; any other number of pieces is a ValueError. */
  function PathParts(val: string): (r: Result<(string, string)>)
    ensures r.Err? ==> r.error == ValueError
    ensures r.Ok? ==>
      (val == r.value.0 + "/" + r.value.1 && Free(r.value.0, '/') && Free(r.value.1, '/'))
      || (Free(val, '/') && val == r.value.0 + "\\" + r.value.1
          && Free(r.value.0, '\\') && Free(r.value.1, '\\'))
  {
    var bySlash := Split(val, '/');
    var parts := if |bySlash| == 1 then Split(val, '\\') else bySlash;
    JoinSplit(val, '/');
    JoinSplit(val, '\\');
    SplitSingle(val, '/');
    if |parts| != 2 then Err(ValueError)
    else
      assert Join(parts, if |bySlash| == 1 then '\\' else '/') == parts[0] + [if |bySlash| == 1 then '\\' else '/'] + parts[1];
      Ok((parts[0], parts[1]))
  }

  /** Every directory/file pair joined by '/', or by '\' when neither part
      holds a separator, is taken apart again by `PathParts`. */
  lemma PathPartsJoined(d: string, f: string)
    ensures Free(d, '/') && Free(f, '/') ==> PathParts(d + "/" + f) == Ok((d, f))
    ensures Free(d, '/') && Free(f, '/') && Free(d, '\\') && Free(f, '\\') ==>
      PathParts(d + "\\" + f) == Ok((d, f))
  {
    if Free(d, '/') && Free(f, '/') {
      SplitPair(d, '/', f);
      assert d + "/" + f == d + ['/'] + f;
      assert Split(d + "/" + f, '/') == [d, f];
      if Free(d, '\\') && Free(f, '\\') {
        var s := d + "\\" + f;
        assert s == d + ['\\'] + f;
        SplitPair(d, '\\', f);
        assert Free(s, '/') by {
          forall i | 0 <= i < |s| ensures s[i] != '/' {
            if i < |d| { assert s[i] == d[i]; }
            else if i > |d| { assert s[i] == f[i - |d| - 1]; }
          }
        }
        SplitSingle(s, '/');
      }
    }
  }

  /** `artist` and `title`: the Unicode name when it is present and not
      empty, the ASCII name otherwise. */
  function Fallback(unicode: Option<string>, ascii: string): (r: string)
    ensures unicode.Some? && unicode.value != "" ==> r == unicode.value
    ensures unicode == None || unicode == Some("") ==> r == ascii
    ensures r == "" <==> (unicode == None || unicode == Some("")) && ascii == ""
  {
    if unicode.Some? && |unicode.value| > 0 then unicode.value else ascii
  }

  /** Reads "artist - title [diffName]" back: the artist ends at the first
      '-', the title at the first '[' after it. */
  function DisplayParts(t: string): (r: Option<(string, string, string)>)
    ensures r.Some? ==> r.value.0 + " - " + r.value.1 + " [" + r.value.2 + "]" == t
  {
    var i := IndexOf(t, '-');
    if 1 <= i && i + 2 <= |t| && t[i - 1..i + 2] == " - " then
      var rest := t[i + 2..];
      var j := IndexOf(rest, '[');
      if 1 <= j < |rest| - 1 && rest[j - 1] == ' ' && rest[|rest| - 1] == ']' then
        var r := (t[..i - 1], rest[..j - 1], rest[j + 1..|rest| - 1]);
        assert rest == r.1 + " [" + r.2 + "]";
        assert t == r.0 + " - " + rest;
        Some(r)
      else None
    else None
  }

  /** The display text splits back into its parts when the artist holds no
      '-' and the title no '['. */
  lemma DisplayRoundTrip(a: string, t: string, d: string)
    requires Free(a, '-') && Free(t, '[')
    ensures DisplayParts(a + " - " + t + " [" + d + "]") == Some((a, t, d))
  {
    var rest := t + " [" + d + "]";
    var s := a + " - " + rest;
    assert a + " - " + t + " [" + d + "]" == s;
    DisplayArtist(a, rest);
    DisplayTitle(t, d);
    var i, j := |a| + 1, |t| + 1;
    assert IndexOf(s, '-') == i && s[i - 1..i + 2] == " - " && s[i + 2..] == rest;
    assert IndexOf(rest, '[') == j && rest[j - 1] == ' ' && rest[|rest| - 1] == ']';
    assert (s[..i - 1], rest[..j - 1], rest[j + 1..|rest| - 1]) == (a, t, d);
  }

  /** Where DisplayParts cuts the artist off the display text. */
  lemma DisplayArtist(a: string, rest: string)
    requires Free(a, '-')
    ensures var s := a + " - " + rest;
      IndexOf(s, '-') == |a| + 1 && s[|a|..|a| + 3] == " - " && s[..|a|] == a && s[|a| + 3..] == rest
  {
    var s := a + " - " + rest;
    assert s == (a + " ") + ['-'] + (" " + rest);
    IndexOfAfter(a + " ", '-', " " + rest);
  }

  /** Where DisplayParts cuts the title off the rest of the display text. */
  lemma DisplayTitle(t: string, d: string)
    requires Free(t, '[')
    ensures var rest := t + " [" + d + "]";
      IndexOf(rest, '[') == |t| + 1 && rest[|t|] == ' ' && rest[|rest| - 1] == ']'
      && rest[..|t|] == t && rest[|t| + 2..|rest| - 1] == d
  {
    var rest := t + " [" + d + "]";
    assert rest == (t + " ") + ['['] + (d + "]");
    IndexOfAfter(t + " ", '[', d + "]");
  }

  class BeatmapMetadata {
    var artistA: string
    var artistU: Option<string>
    var titleA: string
    var titleU: Option<string>
    var diffName: string
    var directory: string
    var beatmapFile: string
    /** Star ratings per mode, keyed by mod combination. */
    var SR: seq<map<int, Real>>
    /** The rank per mode; the rank setters write its slots in place. */
    var playerRank: array<int>

    predicate Valid()
      reads this
    {
      |SR| == 4 && playerRank.Length == 4
    }

    constructor ()
      ensures Valid()
      ensures artistA == "" && artistU == Some("") && titleA == "" && titleU == Some("")
      ensures diffName == "" && directory == "" && beatmapFile == ""
      ensures SR == [map[], map[], map[], map[]]
      ensures fresh(playerRank) && playerRank[..] == [RANK_N, RANK_N, RANK_N, RANK_N]
    {
      artistA := "";
      artistU := Some("");
      titleA := "";
      titleU := Some("");
      diffName := "";
      directory := "";
      beatmapFile := "";
      SR := [map[], map[], map[], map[]];
      playerRank := new int[4](_ => RANK_N);
    }

    /** `hasSRData(mode)`: whether star ratings are stored for the mode. */
    function HasSRData(mode: int): (r: Result<bool>)
      requires Valid()
      reads this
      ensures r.Err? <==> !(-4 <= mode < 4)
      ensures 0 <= mode < 4 ==> r == Ok(|SR[mode]| > 0)
      ensures -4 <= mode < 0 ==> r == Ok(|SR[mode + 4]| > 0)
    {
      var m :- Slot4(mode);
      Ok(|SR[m]| > 0)
    }

    /** The `path` setter. */
    method SetPath(val: string) returns (r: Result<()>)
      requires Valid()
      modifies this
      ensures Valid()
      ensures r.Err? ==> r.error == ValueError && unchanged(this)
      ensures r.Ok? <==> PathParts(val).Ok?
      ensures r.Ok? ==> (directory, beatmapFile) == PathParts(val).value
      ensures r.Ok? ==> (artistA == old(artistA) && artistU == old(artistU) && titleA == old(titleA)
                         && titleU == old(titleU) && diffName == old(diffName) && SR == old(SR)
                         && playerRank == old(playerRank) && playerRank[..] == old(playerRank[..]))
    {
      var parts := PathParts(val);
      if parts.Err? {
        return Err(ValueError);
      }
      directory := parts.value.0;
      beatmapFile := parts.value.1;
      r := Ok(());
    }

    function Artist(): string
      reads this
    {
      Fallback(artistU, artistA)
    }

    function Title(): string
      reads this
    {
      Fallback(titleU, titleA)
    }

    /** `str(meta)`: "artist - title [diffName]". */
    function Text(): (r: string)
      reads this
      ensures r == Artist() + " - " + Title() + " [" + diffName + "]"
      ensures |r| == |Artist()| + |Title()| + |diffName| + 6
      ensures r[..|Artist()|] == Artist() && r[|r| - 1] == ']'
      ensures Free(Artist(), '-') && Free(Title(), '[') ==> DisplayParts(r) == Some((Artist(), Title(), diffName))
    {
      if Free(Artist(), '-') && Free(Title(), '[') then
        DisplayRoundTrip(Artist(), Title(), diffName);
        Artist() + " - " + Title() + " [" + diffName + "]"
      else
        Artist() + " - " + Title() + " [" + diffName + "]"
    }

    // The per-mode rank slots and what the rank getters read.

    /** `osuRank` (also `stdRank`). */
    function OsuRank(): int
      requires Valid()
      reads this, playerRank
    {
      playerRank[STD]
    }

    /** The `taikoRank`, `ctbRank` and `maniaRank` getters as written: each
        property is built from the `osuRank` property, so it reads the osu! slot. */
    function OtherRankAsWritten(mode: int): (r: int)
      requires Valid() && mode in {TAIKO, CTB, MANIA}
      reads this, playerRank
      ensures r == OsuRank()
    {
      playerRank[STD]
    }

    /** The rank getter of a mode as evidently intended: its own slot. */
    function Rank(mode: int): int
      requires Valid() && 0 <= mode < 4
      reads this, playerRank
    {
      playerRank[mode]
    }

    /** The `osuRank`/`stdRank` setter. */
    method SetOsuRank(val: int)
      requires Valid()
      modifies playerRank
      ensures playerRank[..] == old(playerRank[..])[STD := val]
      ensures OsuRank() == val && Rank(STD) == val
    {
      playerRank[STD] := val;
    }

    /** The `taikoRank` setter. */
    method SetTaikoRank(val: int)
      requires Valid()
      modifies playerRank
      ensures playerRank[..] == old(playerRank[..])[TAIKO := val]
      ensures Rank(TAIKO) == val && OtherRankAsWritten(TAIKO) == old(OsuRank())
    {
      playerRank[TAIKO] := val;
    }

    /** The `ctbRank` setter. */
    method SetCtbRank(val: int)
      requires Valid()
      modifies playerRank
      ensures playerRank[..] == old(playerRank[..])[CTB := val]
      ensures Rank(CTB) == val && OtherRankAsWritten(CTB) == old(OsuRank())
    {
      playerRank[CTB] := val;
    }

    /** The `maniaRank` setter. */
    method SetManiaRank(val: int)
      requires Valid()
      modifies playerRank
      ensures playerRank[..] == old(playerRank[..])[MANIA := val]
      ensures Rank(MANIA) == val && OtherRankAsWritten(MANIA) == old(OsuRank())
    {
      playerRank[MANIA] := val;
    }
  }

  /** A rank read back through the getter as written after setting it through
      the setter of a mode other than osu!: the osu! slot, not the value set. */
  function RankSetGetAsWritten(ranks: seq<int>, mode: int, val: int): int
    requires |ranks| == 4 && mode in {TAIKO, CTB, MANIA}
  {
    ranks[mode := val][STD]
  }

  /** On fresh metadata, setting the taiko rank to XH reads back N. */
  lemma RankAsWrittenLosesValue()
    ensures RankSetGetAsWritten([RANK_N, RANK_N, RANK_N, RANK_N], TAIKO, RANK_XH) == RANK_N != RANK_XH
  {
  }
}
