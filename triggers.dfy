/** Storyboard loop triggers (osu/events.py, classes Trigger and
    HitSoundTrigger): the trigger lookup by name and the hit-sound trigger
    name codec, e.g. "HitSoundSoftWhistle2" for a soft whistle with custom
    sample index 2. */
module Triggers {
  import opened Wrappers
  import opened Strings
  import opened Bits
  import Objects

  // HitSound.NONE, NORMAL, WHISTLE, FINISH and CLAP as sound values.
  const SOUND_NONE: int := 0
  const SOUND_NORMAL: int := 1
  const SOUND_WHISTLE: int := 2
  const SOUND_FINISH: int := 4
  const SOUND_CLAP: int := 8

  const ALL: int := Objects.SAMPLESET_ALL
  const NONE: int := Objects.SAMPLESET_NONE

  /** The name tables of `_parseName`, in the order Python iterates them. */
  const SAMPLE_SETS: seq<(string, int)> :=
    [("Any", -1), ("None", 0), ("Normal", 1), ("Soft", 2), ("Drum", 3)]
  const SOUND_TYPES: seq<(string, int)> :=
    [("None", 0), ("Normal", 1), ("Whistle", 2), ("Finish", 4), ("Clap", 8)]

  /** The sample sets a trigger name can hold. */
  predicate IsSampleSet(v: int) { -1 <= v <= 3 }

  /** The sounds a trigger name can hold. */
  predicate IsSoundType(v: int) { v in {0, 1, 2, 4, 8} }

  /** The position of the first entry, from entry k on, whose name starts
      `s`, or the size of the table. */
  function FirstMatch(table: seq<(string, int)>, s: string, k: nat): (j: nat)
    requires k <= |table|
    decreases |table| - k
    ensures k <= j <= |table|
    ensures j < |table| ==> StartsWith(s, table[j].0)
    ensures forall m :: k <= m < j ==> !StartsWith(s, table[m].0)
  {
    if k == |table| then k
    else if StartsWith(s, table[k].0) then k
    else FirstMatch(table, s, k + 1)
  }

  /** The value of the first entry whose name starts `s`, and what follows
      the name in `s`: one turn of a `for k, v in table.items()` loop that
      breaks at the first `s.startswith(k)`. */
  function FirstPrefix(table: seq<(string, int)>, s: string): Option<(int, string)>
  {
    var j := FirstMatch(table, s, 0);
    if j == |table| then None else Some((table[j].1, s[|table[j].0|..]))
  }

  lemma TableValues()
    ensures forall j :: 0 <= j < |SAMPLE_SETS| ==> IsSampleSet(SAMPLE_SETS[j].1)
    ensures forall j :: 0 <= j < |SOUND_TYPES| ==> IsSoundType(SOUND_TYPES[j].1)
  {
  }

  /** The fields `_parseName` assigns. */
  datatype HitSoundFields = HitSoundFields(sampleSet: int, additionSet: int, sounds: int, customIndex: int)

  /** A loop trigger: one of the three singletons or a hit-sound trigger. */
  datatype Trigger = Passing | Failing | HitObjectHit | HitSoundTrigger(hitSound: HitSoundFields)

  /** What follows "HitSound" in a name. */
  function NameBody(name: string): string
  {
    if |name| >= 8 then name[8..] else ""
  }

  /** The sample set, the addition set and the rest after the set names. */
  function SetsOf(body: string): (r: (string, int, int))
    ensures IsSampleSet(r.1) && IsSampleSet(r.2)
  {
    TableValues();
    match FirstPrefix(SAMPLE_SETS, body)
    case None => (body, NONE, NONE)
    case Some((v, rest)) =>
      match FirstPrefix(SAMPLE_SETS, rest)
      case None => (rest, v, NONE)
      case Some((w, rest2)) => (rest2, v, w)
  }

  /** The sound and the rest after the sound name. */
  function SoundOf(s: string): (r: (string, int))
    ensures IsSoundType(r.1)
  {
    TableValues();
    match FirstPrefix(SOUND_TYPES, s)
    case None => (s, SOUND_NONE)
    case Some((v, rest)) => (rest, v)
  }

  /** `HitSoundTrigger._parseName(name)`: a sample set name, then maybe an
      addition set name, then maybe a sound name, then maybe the custom
      index, which must be an integer.  A sound given with a sample set but
      no addition set is moved: the set becomes the addition set and the
      sample set becomes ALL. */
  function ParseHitSoundName(name: string): (r: Result<HitSoundFields>)
    ensures r.Err? ==> r.error == ValueError
    ensures r.Ok? ==> (IsSampleSet(r.value.sampleSet) && IsSampleSet(r.value.additionSet)
                       && IsSoundType(r.value.sounds))
    ensures r.Ok? ==> !(r.value.sounds != SOUND_NONE && r.value.sampleSet != NONE && r.value.additionSet == NONE)
  {
    var (rest, ss, adds) := SetsOf(NameBody(name));
    var (rest2, snd) := SoundOf(rest);
    var index :- if |rest2| > 0 then ParseInt(rest2) else Ok(0);
    if snd != SOUND_NONE && ss != NONE && adds == NONE then Ok(HitSoundFields(ALL, ss, snd, index))
    else Ok(HitSoundFields(ss, adds, snd, index))
  }

  /** One `for k, v in table.items()` loop of `_parseName`: the first name
      that starts `s`, with its value and what follows it. */
  method FindPrefix(table: seq<(string, int)>, s: string) returns (r: Option<(int, string)>)
    ensures r == FirstPrefix(table, s)
  {
    var k := 0;
    while k < |table|
      invariant k <= |table|
      invariant FirstMatch(table, s, k) == FirstMatch(table, s, 0)
    {
      if StartsWith(s, table[k].0) {
        return Some((table[k].1, s[|table[k].0|..]));
      }
      k := k + 1;
    }
    return None;
  }

  /** A hit-sound trigger object and the sample fields of its `hitSound`. */
  class HitSoundTrigger {
    var hitSound: Objects.HitSound

    /** `HitSoundTrigger()`: a hit sound with nothing set. */
    constructor ()
      ensures fresh(hitSound) && Fields() == HitSoundFields(NONE, NONE, SOUND_NONE, 0)
    {
      hitSound := new Objects.HitSound(SOUND_NONE);
    }

    function Fields(): HitSoundFields
      reads this, hitSound
    {
      HitSoundFields(hitSound.sampleSet, hitSound.additionSet, hitSound.sounds, hitSound.customIndex)
    }

    /** `_parseName(name)`: assigns the sample set, the addition set, the
        sound and the custom index read from the name, as
        `ParseHitSoundName` describes; the volume and file name are kept. */
    method ParseName(name: string) returns (r: Result<()>)
      modifies hitSound`sampleSet, hitSound`additionSet, hitSound`sounds, hitSound`customIndex
      ensures r.Ok? <==> ParseHitSoundName(name).Ok?
      ensures r.Ok? ==> Fields() == ParseHitSoundName(name).value
      ensures r.Err? ==> r.error == ParseHitSoundName(name).error
      ensures hitSound.volume == old(hitSound.volume) && hitSound.filename == old(hitSound.filename)
    {
      var h := hitSound;
      var s := if |name| >= 8 then name[8..] else "";
      h.sampleSet := NONE;
      h.additionSet := NONE;
      var found := FindPrefix(SAMPLE_SETS, s);
      if found.Some? {
        h.sampleSet := found.value.0;
        s := found.value.1;
        var addition := FindPrefix(SAMPLE_SETS, s);
        if addition.Some? {
          h.additionSet := addition.value.0;
          s := addition.value.1;
        }
      }
      assert SetsOf(NameBody(name)) == (s, h.sampleSet, h.additionSet);
      ghost var sets := s;
      h.sounds := SOUND_NONE;
      var sound := FindPrefix(SOUND_TYPES, s);
      if sound.Some? {
        h.sounds := sound.value.0;
        s := sound.value.1;
      }
      assert SoundOf(sets) == (s, h.sounds);
      h.customIndex := 0;
      if |s| > 0 {
        var index := ParseInt(s);
        if index.Err? {
          return Err(index.error);
        }
        h.customIndex := index.value;
      }
      if h.sounds != SOUND_NONE && h.sampleSet != NONE && h.additionSet == NONE {
        h.additionSet := h.sampleSet;
        h.sampleSet := ALL;
      }
      r := Ok(());
    }
  }

  /** `Trigger.fromName(s)`. */
  function FromName(s: string): (r: Result<Trigger>)
    ensures s == "Passing" <==> r == Ok(Passing)
    ensures s == "Failing" <==> r == Ok(Failing)
    ensures s == "HitObjectHit" <==> r == Ok(HitObjectHit)
    ensures r.Ok? && r.value.HitSoundTrigger? <==> StartsWith(s, "HitSound") && ParseHitSoundName(s).Ok?
    ensures r.Ok? && r.value.HitSoundTrigger? ==> r.value.hitSound == ParseHitSoundName(s).value
    ensures r.Err? ==> r.error == ValueError
  {
    HitSoundNamesApart(s);
    if s == "Passing" then Ok(Passing)
    else if s == "Failing" then Ok(Failing)
    else if s == "HitObjectHit" then Ok(HitObjectHit)
    else if StartsWith(s, "HitSound") then
      var h :- ParseHitSoundName(s);
      Ok(HitSoundTrigger(h))
    else Err(ValueError)
  }

  /** A name starting "HitSound" is none of the three singleton names. */
  lemma HitSoundNamesApart(s: string)
    ensures StartsWith(s, "HitSound") ==> s != "Passing" && s != "Failing" && s != "HitObjectHit"
  {
    if StartsWith(s, "HitSound") {
      assert s[0] == 'H' && s[3] == 'S';
      assert "Passing"[0] == 'P' && "Failing"[0] == 'F' && "HitObjectHit"[3] == 'O';
    }
  }

  // ---------------------------------------------------------------- rendering

  /** `sampleSets[v]` of `__str__`: KeyError for a value not in the table. */
  function SetName(v: int): (r: Result<string>)
    ensures r.Ok? <==> IsSampleSet(v)
    ensures r.Ok? ==> r.value == SAMPLE_SETS[v + 1].0
    ensures r.Err? ==> r.error == KeyError
  {
    if v == -1 then Ok("Any") else if v == 0 then Ok("None") else if v == 1 then Ok("Normal")
    else if v == 2 then Ok("Soft") else if v == 3 then Ok("Drum") else Err(KeyError)
  }

  /** The text of a sample set in a name: nothing for NONE. */
  function SetText(v: int): Result<string>
  {
    if v == NONE then Ok("") else SetName(v)
  }

  /** The sound `__str__` writes: the first of NORMAL, WHISTLE, FINISH and
      CLAP whose bit `sounds` has (`sounds & NONE` is never non-zero). */
  function LowestSound(sounds: int): (r: int)
    ensures IsSoundType(r)
  {
    if IAnd(sounds, 1) != 0 then 1
    else if IAnd(sounds, 2) != 0 then 2
    else if IAnd(sounds, 4) != 0 then 4
    else if IAnd(sounds, 8) != 0 then 8
    else 0
  }

  function SoundText(v: int): string
  {
    if v == 1 then "Normal" else if v == 2 then "Whistle" else if v == 4 then "Finish"
    else if v == 8 then "Clap" else ""
  }

  function IndexText(index: int): string
  {
    if index != 0 then IntToString(index) else ""
  }

  /** The sample set and addition set `__str__` writes: a sound on set ALL
      with an addition set is written on the addition set, and with no sample
      set there is no addition set either. */
  function RenderedSets(h: HitSoundFields): (r: (int, int))
    ensures r.0 == NONE ==> r.1 == NONE
  {
    var (ss, adds) :=
      if h.sounds != SOUND_NONE && h.sampleSet == ALL && h.additionSet != NONE then (h.additionSet, NONE)
      else (h.sampleSet, h.additionSet);
    (ss, if ss == NONE then NONE else adds)
  }

  /** `HitSoundTrigger.__str__`: the name without its "HitSound" prefix. */
  function HitSoundText(h: HitSoundFields): (r: Result<string>)
    ensures r.Ok? <==> IsSampleSet(RenderedSets(h).0) && IsSampleSet(RenderedSets(h).1)
    ensures r.Err? ==> r.error == KeyError
  {
    var (ss, adds) := RenderedSets(h);
    var a :- SetText(ss);
    var b :- SetText(adds);
    Ok(a + b + SoundText(LowestSound(h.sounds)) + IndexText(h.customIndex))
  }

  /** `str(trigger)` as written: a hit-sound trigger loses its "HitSound"
      prefix, so `fromName` cannot read it back. */
  function TriggerTextAsWritten(t: Trigger): (r: Result<string>)
    ensures !t.HitSoundTrigger? ==> r == TriggerText(t)
    ensures r.Ok? <==> TriggerText(t).Ok?
    ensures r.Ok? && t.HitSoundTrigger? ==> TriggerText(t).value == "HitSound" + r.value
    ensures r.Err? ==> r.error == KeyError
  {
    match t
    case Passing => Ok("Passing")
    case Failing => Ok("Failing")
    case HitObjectHit => Ok("HitObjectHit")
    case HitSoundTrigger(h) => HitSoundText(h)
  }

  /** `str(trigger)` as evidently intended: the full trigger name. */
  function TriggerText(t: Trigger): (r: Result<string>)
    ensures t.HitSoundTrigger? && r.Ok? ==> StartsWith(r.value, "HitSound")
    ensures !t.HitSoundTrigger? ==> r.Ok?
    ensures r.Err? ==> r.error == KeyError
  {
    match t
    case Passing => Ok("Passing")
    case Failing => Ok("Failing")
    case HitObjectHit => Ok("HitObjectHit")
    case HitSoundTrigger(h) =>
      var text :- HitSoundText(h);
      Ok("HitSound" + text)
  }

  // ---------------------------------------------------------------- round trip

  /** The hit-sound fields that writing and reading back cannot keep apart:
      an addition set without a sample set is not written, and a Normal
      sound written right after the sample set, or with no set at all, is
      read back as a sample-set name. */
  predicate Ambiguous(h: HitSoundFields)
  {
    (h.sampleSet == NONE && h.additionSet != NONE)
    || (h.sounds == SOUND_NORMAL && (h.sampleSet == NONE || h.sampleSet == ALL))
  }

  /** The fields a parse can give: known sets and sounds, and never a sound
      on a sample set without an addition set. */
  predicate Parsed(h: HitSoundFields)
  {
    IsSampleSet(h.sampleSet) && IsSampleSet(h.additionSet) && IsSoundType(h.sounds)
    && !(h.sounds != SOUND_NONE && h.sampleSet != NONE && h.additionSet == NONE)
  }

  lemma FirstPrefixMiss(table: seq<(string, int)>, s: string)
    requires forall j :: 0 <= j < |table| ==> |table[j].0| > 0 && (|s| == 0 || s[0] != table[j].0[0])
    ensures FirstPrefix(table, s) == None
  {
  }

  /** A set name is read back as that set, whatever follows it. */
  lemma SetNameRead(v: int, rest: string)
    requires IsSampleSet(v)
    ensures FirstPrefix(SAMPLE_SETS, SetName(v).value + rest) == Some((v, rest))
  {
    var s := SetName(v).value + rest;
    assert StartsWith(s, SAMPLE_SETS[v + 1].0) by {
      assert s[..|SetName(v).value|] == SetName(v).value;
    }
    forall m | 0 <= m < v + 1 ensures !StartsWith(s, SAMPLE_SETS[m].0) {
      if m == 1 && v == 1 {
        assert s[2] == 'r';
      } else {
        assert s[0] == SetName(v).value[0];
      }
    }
    assert FirstMatch(SAMPLE_SETS, s, 0) == v + 1;
  }

  /** A sound name is read back as that sound, whatever follows it. */
  lemma SoundNameRead(v: int, rest: string)
    requires IsSoundType(v) && v != SOUND_NONE
    ensures FirstPrefix(SOUND_TYPES, SoundText(v) + rest) == Some((v, rest))
  {
    var s := SoundText(v) + rest;
    var j := if v == 1 then 1 else if v == 2 then 2 else if v == 4 then 3 else 4;
    assert SOUND_TYPES[j].0 == SoundText(v);
    assert StartsWith(s, SOUND_TYPES[j].0) by {
      assert s[..|SoundText(v)|] == SoundText(v);
    }
    forall m | 0 <= m < j ensures !StartsWith(s, SOUND_TYPES[m].0) {
      if m == 0 && j == 1 {
        assert s[2] == 'r';
      } else {
        assert s[0] == SoundText(v)[0];
      }
    }
    assert FirstMatch(SOUND_TYPES, s, 0) == j;
  }

  /** No name starts with a digit or a minus sign. */
  lemma IndexTextMiss(index: int)
    ensures FirstPrefix(SAMPLE_SETS, IndexText(index)) == None
    ensures FirstPrefix(SOUND_TYPES, IndexText(index)) == None
    ensures IndexText(index) == "" <==> index == 0
  {
    var d := IndexText(index);
    if index != 0 {
      IntToStringChars(index);
      assert |d| > 0 by {
        ParseIntToString(index);
      }
      assert IsDigit(d[0]) || d[0] == '-';
    }
    FirstPrefixMiss(SAMPLE_SETS, d);
    FirstPrefixMiss(SOUND_TYPES, d);
  }

  /** Reading a sound name (other than Normal) and an index as sample sets
      finds none. */
  lemma SoundTextMissesSets(v: int, index: int)
    requires IsSoundType(v) && v != SOUND_NORMAL
    ensures FirstPrefix(SAMPLE_SETS, SoundText(v) + IndexText(index)) == None
  {
    IndexTextMiss(index);
    if v == SOUND_NONE {
      assert SoundText(v) + IndexText(index) == IndexText(index);
    } else {
      FirstPrefixMiss(SAMPLE_SETS, SoundText(v) + IndexText(index));
    }
  }

  /** The custom index is read back from its text. */
  lemma IndexTextRead(index: int)
    ensures (if |IndexText(index)| > 0 then ParseInt(IndexText(index)) else Ok(0)) == Ok(index)
  {
    IndexTextMiss(index);
    if index != 0 {
      ParseIntToString(index);
    }
  }

  /** The sound written for a parsed sound is that sound. */
  lemma LowestSoundOf(v: int)
    requires IsSoundType(v)
    ensures LowestSound(v) == v
  {
    forall j: nat, k: nat | j < 4 && k < 4 ensures IAnd(Pow2(j), Pow2(k)) != 0 <==> j == k {
      IAndPow2(Pow2(j), k);
      BitPow2(j, k);
    }
    assert Pow2(0) == 1 && Pow2(1) == 2 && Pow2(2) == 4 && Pow2(3) == 8;
    assert IAnd(0, 1) == 0 && IAnd(0, 2) == 0 && IAnd(0, 4) == 0 && IAnd(0, 8) == 0;
  }

  /** The sound and index part of a name: the sound is read back, then the index. */
  lemma SoundIndexRead(v: int, index: int)
    requires IsSoundType(v)
    ensures var (rest, snd) := SoundOf(SoundText(v) + IndexText(index));
      snd == v && rest == IndexText(index)
  {
    IndexTextMiss(index);
    if v == SOUND_NONE {
      assert SoundText(v) + IndexText(index) == IndexText(index);
    } else {
      SoundNameRead(v, IndexText(index));
    }
  }

  /** `_parseName` reads a name in the steps `SetsOf`, `SoundOf` and `int`. */
  lemma ParseOfParts(text: string, rest: string, ss: int, adds: int, rest2: string, snd: int, index: int)
    requires SetsOf(text) == (rest, ss, adds) && SoundOf(rest) == (rest2, snd)
    requires (if |rest2| > 0 then ParseInt(rest2) else Ok(0)) == Ok(index)
    ensures ParseHitSoundName("HitSound" + text)
      == Ok(if snd != SOUND_NONE && ss != NONE && adds == NONE then HitSoundFields(ALL, ss, snd, index)
            else HitSoundFields(ss, adds, snd, index))
  {
    assert NameBody("HitSound" + text) == text;
  }

  /** The text written for the fields: the two set names, the sound name and
      the index. */
  lemma TextParts(h: HitSoundFields)
    requires IsSampleSet(RenderedSets(h).0) && IsSampleSet(RenderedSets(h).1)
    ensures HitSoundText(h) == Ok(SetText(RenderedSets(h).0).value + SetText(RenderedSets(h).1).value
                                 + SoundText(LowestSound(h.sounds)) + IndexText(h.customIndex))
  {
  }

  /** With no sample set only the sound and the index are written. */
  lemma RoundTripNoSet(h: HitSoundFields)
    requires Parsed(h) && !Ambiguous(h) && RenderedSets(h).0 == NONE
    ensures ParseHitSoundName("HitSound" + HitSoundText(h).value) == Ok(h)
  {
    var c := SoundText(h.sounds);
    var d := IndexText(h.customIndex);
    LowestSoundOf(h.sounds);
    TextParts(h);
    assert HitSoundText(h).value == c + d;
    SoundTextMissesSets(h.sounds, h.customIndex);
    SoundIndexRead(h.sounds, h.customIndex);
    IndexTextRead(h.customIndex);
    ParseOfParts(c + d, c + d, NONE, NONE, d, h.sounds, h.customIndex);
  }

  /** With a sample set and no addition set the sound follows the set name;
      a sound written so is read back onto ALL with the set as addition set. */
  lemma RoundTripOneSet(h: HitSoundFields)
    requires Parsed(h) && !Ambiguous(h) && RenderedSets(h).0 != NONE && RenderedSets(h).1 == NONE
    ensures ParseHitSoundName("HitSound" + HitSoundText(h).value) == Ok(h)
  {
    var ss := RenderedSets(h).0;
    var a := SetName(ss).value;
    var c := SoundText(h.sounds);
    var d := IndexText(h.customIndex);
    LowestSoundOf(h.sounds);
    TextParts(h);
    assert HitSoundText(h).value == a + (c + d);
    SetNameRead(ss, c + d);
    SoundTextMissesSets(h.sounds, h.customIndex);
    SoundIndexRead(h.sounds, h.customIndex);
    IndexTextRead(h.customIndex);
    ParseOfParts(a + (c + d), c + d, ss, NONE, d, h.sounds, h.customIndex);
  }

  /** With both sets written, both are read back, and then the sound. */
  lemma RoundTripTwoSets(h: HitSoundFields)
    requires Parsed(h) && !Ambiguous(h) && RenderedSets(h).0 != NONE && RenderedSets(h).1 != NONE
    ensures ParseHitSoundName("HitSound" + HitSoundText(h).value) == Ok(h)
  {
    var a := SetName(h.sampleSet).value;
    var b := SetName(h.additionSet).value;
    var c := SoundText(h.sounds);
    var d := IndexText(h.customIndex);
    LowestSoundOf(h.sounds);
    TextParts(h);
    assert HitSoundText(h).value == a + (b + (c + d));
    SetNameRead(h.sampleSet, b + (c + d));
    SetNameRead(h.additionSet, c + d);
    SoundIndexRead(h.sounds, h.customIndex);
    IndexTextRead(h.customIndex);
    ParseOfParts(a + (b + (c + d)), c + d, h.sampleSet, h.additionSet, d, h.sounds, h.customIndex);
  }

  /** Writing the fields of a parsed trigger name and parsing the text back
      gives the same fields, except for the ambiguous ones. */
  lemma HitSoundRoundTrip(h: HitSoundFields)
    requires Parsed(h) && !Ambiguous(h)
    ensures HitSoundText(h).Ok?
    ensures ParseHitSoundName("HitSound" + HitSoundText(h).value) == Ok(h)
  {
    if RenderedSets(h).0 == NONE {
      RoundTripNoSet(h);
    } else if RenderedSets(h).1 == NONE {
      RoundTripOneSet(h);
    } else {
      RoundTripTwoSets(h);
    }
  }

  /** The trigger name written for any trigger a name can give is read back
      by `fromName` as the same trigger, except for the ambiguous hit-sound
      fields. */
  lemma TriggerRoundTrip(t: Trigger)
    requires t.HitSoundTrigger? ==> Parsed(t.hitSound) && !Ambiguous(t.hitSound)
    ensures TriggerText(t).Ok? && FromName(TriggerText(t).value) == Ok(t)
  {
    if t.HitSoundTrigger? {
      HitSoundRoundTrip(t.hitSound);
      HitSoundNamesApart(TriggerText(t).value);
    }
  }

  /** An addition set without a sample set is lost: "HitSoundNoneSoftWhistle"
      is written "Whistle", which reads back without the addition set. */
  lemma AmbiguousAddition()
    ensures ParseHitSoundName("HitSoundNoneSoftWhistle") == Ok(HitSoundFields(NONE, 2, SOUND_WHISTLE, 0))
    ensures HitSoundText(HitSoundFields(NONE, 2, SOUND_WHISTLE, 0)) == Ok("Whistle")
    ensures ParseHitSoundName("HitSoundWhistle") == Ok(HitSoundFields(NONE, NONE, SOUND_WHISTLE, 0))
  {
    ParseNoneSoftWhistle();
    WriteSound(HitSoundFields(NONE, 2, SOUND_WHISTLE, 0));
    ParseSoundOnly(SOUND_WHISTLE);
    WhistleName();
  }

  lemma WhistleName()
    ensures "HitSound" + SoundText(SOUND_WHISTLE) == "HitSoundWhistle"
  {
  }

  lemma ParseNoneSoftWhistle()
    ensures ParseHitSoundName("HitSoundNoneSoftWhistle") == Ok(HitSoundFields(NONE, 2, SOUND_WHISTLE, 0))
  {
    var t := "Whistle";
    assert t == SoundText(SOUND_WHISTLE) + IndexText(0);
    SetNameRead(2, t);
    var t2 := SetName(2).value + t;
    SetNameRead(NONE, t2);
    var t3 := SetName(NONE).value + t2;
    assert SetsOf(t3) == (t, NONE, 2);
    SoundIndexRead(SOUND_WHISTLE, 0);
    IndexTextMiss(0);
    ParseOfParts(t3, t, NONE, 2, "", SOUND_WHISTLE, 0);
    assert t3 == "None" + ("Soft" + "Whistle");
    NoneSoftWhistleName();
  }

  lemma NoneSoftWhistleName()
    ensures "HitSound" + ("None" + ("Soft" + "Whistle")) == "HitSoundNoneSoftWhistle"
  {
  }

  /** Fields with a sound and no set are written as the sound name alone. */
  lemma WriteSound(h: HitSoundFields)
    requires h.sampleSet == NONE && IsSampleSet(h.additionSet) && h.customIndex == 0
    requires IsSoundType(h.sounds)
    ensures HitSoundText(h) == Ok(SoundText(h.sounds))
  {
    LowestSoundOf(h.sounds);
    TextParts(h);
    assert RenderedSets(h) == (NONE, NONE);
    assert SetText(NONE) == Ok("") && IndexText(0) == "";
    assert "" + "" + SoundText(h.sounds) + "" == SoundText(h.sounds);
  }

  /** A name holding only a sound, other than Normal, is read as that sound. */
  lemma ParseSoundOnly(v: int)
    requires IsSoundType(v) && v != SOUND_NORMAL
    ensures ParseHitSoundName("HitSound" + SoundText(v)) == Ok(HitSoundFields(NONE, NONE, v, 0))
  {
    var t := SoundText(v);
    assert t == SoundText(v) + IndexText(0);
    SoundTextMissesSets(v, 0);
    assert SetsOf(t) == (t, NONE, NONE);
    SoundIndexRead(v, 0);
    IndexTextMiss(0);
    ParseOfParts(t, t, NONE, NONE, "", v, 0);
  }

  /** A Normal sound with no set is written "Normal", which reads back as the
      Normal sample set with no sound. */
  lemma AmbiguousNormal()
    ensures ParseHitSoundName("HitSoundNoneNoneNormal") == Ok(HitSoundFields(NONE, NONE, SOUND_NORMAL, 0))
    ensures HitSoundText(HitSoundFields(NONE, NONE, SOUND_NORMAL, 0)) == Ok("Normal")
    ensures ParseHitSoundName("HitSoundNormal") == Ok(HitSoundFields(1, NONE, SOUND_NONE, 0))
  {
    ParseNoneNoneNormal();
    WriteSound(HitSoundFields(NONE, NONE, SOUND_NORMAL, 0));
    ParseNormalSet();
  }

  lemma ParseNoneNoneNormal()
    ensures ParseHitSoundName("HitSoundNoneNoneNormal") == Ok(HitSoundFields(NONE, NONE, SOUND_NORMAL, 0))
  {
    var t3 := SetsNoneNone("Normal");
    SoundIndexRead(SOUND_NORMAL, 0);
    IndexTextMiss(0);
    assert "Normal" == SoundText(SOUND_NORMAL) + IndexText(0);
    ParseOfParts(t3, "Normal", NONE, NONE, "", SOUND_NORMAL, 0);
    NoneNoneNormalName();
  }

  lemma NoneNoneNormalName()
    ensures "HitSound" + ("NoneNone" + "Normal") == "HitSoundNoneNoneNormal"
  {
  }

  /** "NoneNone" reads as no sample set and no addition set. */
  lemma SetsNoneNone(t: string) returns (t3: string)
    ensures t3 == "NoneNone" + t && SetsOf(t3) == (t, NONE, NONE)
  {
    SetNameRead(NONE, t);
    var t2 := SetName(NONE).value + t;
    SetNameRead(NONE, t2);
    t3 := SetName(NONE).value + t2;
  }

  lemma ParseNormalSet()
    ensures ParseHitSoundName("HitSoundNormal") == Ok(HitSoundFields(1, NONE, SOUND_NONE, 0))
  {
    var t := "";
    SetNameRead(1, t);
    var t2 := SetName(1).value + t;
    IndexTextMiss(0);
    assert t == IndexText(0);
    assert SetsOf(t2) == (t, 1, NONE);
    SoundIndexRead(SOUND_NONE, 0);
    assert SoundText(SOUND_NONE) + IndexText(0) == t;
    ParseOfParts(t2, t, 1, NONE, "", SOUND_NONE, 0);
    assert t2 == "Normal";
    NormalName();
  }

  lemma NormalName()
    ensures "HitSound" + "Normal" == "HitSoundNormal"
  {
  }

  /** As written, the clap trigger read from "HitSoundClap" is written "Clap",
      which `fromName` refuses. */
  lemma TriggerTextAsWrittenUnreadable()
    ensures FromName("HitSoundClap") == Ok(HitSoundTrigger(HitSoundFields(NONE, NONE, SOUND_CLAP, 0)))
    ensures TriggerTextAsWritten(HitSoundTrigger(HitSoundFields(NONE, NONE, SOUND_CLAP, 0))) == Ok("Clap")
    ensures FromName("Clap") == Err(ValueError)
  {
    ClapReads();
    ClapWritten();
    ClapRefused();
  }

  lemma ClapReads()
    ensures FromName("HitSoundClap") == Ok(HitSoundTrigger(HitSoundFields(NONE, NONE, SOUND_CLAP, 0)))
  {
    ParseSoundOnly(SOUND_CLAP);
    ClapName();
  }

  lemma ClapWritten()
    ensures TriggerTextAsWritten(HitSoundTrigger(HitSoundFields(NONE, NONE, SOUND_CLAP, 0))) == Ok("Clap")
  {
    WriteSound(HitSoundFields(NONE, NONE, SOUND_CLAP, 0));
  }

  lemma ClapRefused()
    ensures FromName("Clap") == Err(ValueError)
  {
    assert !StartsWith("Clap", "HitSound");
  }

  lemma ClapName()
    ensures "HitSound" + SoundText(SOUND_CLAP) == "HitSoundClap"
  {
  }

  // ---------------------------------------------------------------- characters

  lemma NameCharsLiteral(s: string)
    requires s in {"", "Any", "None", "Normal", "Soft", "Drum", "Whistle", "Finish", "Clap", "HitSound"}
    ensures NameChars(s)
  {
  }

  lemma HitSoundTextChars(h: HitSoundFields)
    requires HitSoundText(h).Ok?
    ensures NameChars(HitSoundText(h).value)
  {
    var (ss, adds) := RenderedSets(h);
    var a := SetText(ss).value;
    var b := SetText(adds).value;
    NameCharsLiteral(a);
    NameCharsLiteral(b);
    NameCharsLiteral(SoundText(LowestSound(h.sounds)));
    if h.customIndex != 0 {
      IntToStringChars(h.customIndex);
    }
    NameCharsConcat(a, b);
    NameCharsConcat(a + b, SoundText(LowestSound(h.sounds)));
    NameCharsConcat(a + b + SoundText(LowestSound(h.sounds)), IndexText(h.customIndex));
  }

  /** A trigger name is made of letters, digits and '-', so it holds no
      field separator of a storyboard line. */
  lemma TriggerTextChars(t: Trigger)
    requires TriggerText(t).Ok?
    ensures NameChars(TriggerText(t).value)
  {
    if t.HitSoundTrigger? {
      HitSoundTextChars(t.hitSound);
      NameCharsLiteral("HitSound");
      NameCharsConcat("HitSound", HitSoundText(t.hitSound).value);
    } else {
      assert NameChars("Passing") && NameChars("Failing") && NameChars("HitObjectHit");
    }
  }
}
