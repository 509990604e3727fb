/** Hit objects of a beatmap (osu/objects.py): the hit-sound bit set with its
    extra sample fields, the flags field of a hit-object line, the choice of
    object kind from those flags, the base line reader and writer, the
    `repeatCount` setter of sliders and the slider curve-type table. */
module Objects {
  import opened Wrappers
  import opened Strings
  import opened Bits

  // ---------------------------------------------------------------- sample sets

  const SAMPLESET_ALL: int := -1
  const SAMPLESET_NONE: int := 0   // also AUTO
  const SAMPLESET_NORMAL: int := 1
  const SAMPLESET_SOFT: int := 2
  const SAMPLESET_DRUM: int := 3

  // ---------------------------------------------------------------- sounds

  /** A sound of `HitSound.sounds`: the position of its bit. */
  type Sound = k: nat | k < 4

  const NORMAL: Sound := 0    // HitSound.NORMAL = 1
  const WHISTLE: Sound := 1   // HitSound.WHISTLE = 2
  const FINISH: Sound := 2    // HitSound.FINISH = 4
  const CLAP: Sound := 3      // HitSound.CLAP = 8

  function SoundMask(s: Sound): nat
  {
    Pow2(s)
  }

  /** The getter of a sound: `(sounds & MASK) != 0`. */
  predicate HasSound(x: int, s: Sound)
  {
    IAnd(x, SoundMask(s)) != 0
  }

  /** The value after a sound setter: `|=` its mask for True, `&= ~` it for False. */
  function SoundsWith(x: int, s: Sound, val: bool): int
  {
    if val then IOr(x, SoundMask(s)) else IAndNot(x, SoundMask(s))
  }

  /** A sound setter sets or clears its own bit and keeps every other digit. */
  lemma SoundsWithDigits(x: int, s: Sound, val: bool, k: nat)
    ensures IBit(SoundsWith(x, s, val), k) == if k == s then val else IBit(x, k)
  {
    BitPow2(s, k);
    if val {
      IBitOr(x, SoundMask(s), k);
    } else {
      IBitAndNot(x, SoundMask(s), k);
    }
  }

  lemma HasSoundBit(x: int, s: Sound)
    ensures HasSound(x, s) <==> IBit(x, s)
  {
    IAndPow2(x, s);
  }

  /** After a sound setter its getter returns the value set, and the getters
      of the other three sounds are unchanged. */
  lemma SoundSetterGetter(x: int, s: Sound, val: bool, o: Sound)
    ensures HasSound(SoundsWith(x, s, val), o) == if o == s then val else HasSound(x, o)
  {
    HasSoundBit(SoundsWith(x, s, val), o);
    HasSoundBit(x, o);
    SoundsWithDigits(x, s, val, o);
  }

  // ---------------------------------------------------------------- extra sample fields

  /** The five fields of `sampleSet:additionSet:customIndex:volume:filename`. */
  datatype Extras = Extras(sampleSet: int, additionSet: int, customIndex: int, volume: int, filename: string)

  /** `_getExtrasString` */
  function ExtrasText(e: Extras): (r: string)
    ensures Free(e.filename, ':') ==> var p := Split(r, ':');
      |p| == 5 && p[4] == e.filename && p[0] == IntToString(e.sampleSet) && p[1] == IntToString(e.additionSet)
      && p[2] == IntToString(e.customIndex) && p[3] == IntToString(e.volume)
  {
    var s0, s1, s2, s3 := IntToString(e.sampleSet), IntToString(e.additionSet),
      IntToString(e.customIndex), IntToString(e.volume);
    var r := s0 + ":" + s1 + ":" + s2 + ":" + s3 + ":" + e.filename;
    if Free(e.filename, ':') then
      IntTextFree(e.sampleSet, ':');
      IntTextFree(e.additionSet, ':');
      IntTextFree(e.customIndex, ':');
      IntTextFree(e.volume, ':');
      SplitFive(s0, s1, s2, s3, e.filename, ':');
      assert r == s0 + [':'] + s1 + [':'] + s2 + [':'] + s3 + [':'] + e.filename;
      r
    else r
  }

  /** The four integer fields and the file name of a split extras field. */
  function ParseExtras(p: seq<string>): (r: Result<Extras>)
    requires |p| == 5
    ensures r.Ok? <==> ParseInt(p[0]).Ok? && ParseInt(p[1]).Ok? && ParseInt(p[2]).Ok? && ParseInt(p[3]).Ok?
    ensures r.Ok? ==>
      r.value.filename == p[4] && ParseInt(p[0]) == Ok(r.value.sampleSet)
      && ParseInt(p[1]) == Ok(r.value.additionSet) && ParseInt(p[2]) == Ok(r.value.customIndex)
      && ParseInt(p[3]) == Ok(r.value.volume)
    ensures r.Err? ==> r.error == ValueError
  {
    var a :- ParseInt(p[0]);
    var b :- ParseInt(p[1]);
    var c :- ParseInt(p[2]);
    var d :- ParseInt(p[3]);
    Ok(Extras(a, b, c, d, p[4]))
  }

  /** What `_loadExtraSampleInfo` makes of one field: None when it does not
      split into exactly five parts at ':', otherwise the parsed fields, or
      ValueError when one of the four numbers is not an integer. */
  function ReadExtras(field: string): Option<Result<Extras>>
  {
    var p := Split(field, ':');
    if |p| != 5 then None else Some(ParseExtras(p))
  }

  lemma IntTextFree(n: int, c: char)
    requires c != '-' && !IsDigit(c)
    ensures Free(IntToString(n), c)
  {
    IntToStringChars(n);
  }

  /** Reading back what `_getExtrasString` wrote restores all five fields, as
      long as the file name holds no ':'. */
  lemma ExtrasRoundTrip(e: Extras)
    requires Free(e.filename, ':')
    ensures ReadExtras(ExtrasText(e)) == Some(Ok(e))
  {
    ParseIntToString(e.sampleSet);
    ParseIntToString(e.additionSet);
    ParseIntToString(e.customIndex);
    ParseIntToString(e.volume);
  }

  /** The hit sounds of an object or of a timing point. */
  class HitSound {
    var sounds: int
    var sampleSet: int
    var additionSet: int
    var customIndex: int
    var volume: int
    var filename: string

    /** `HitSound(hitSound)` with no keyword arguments. */
    constructor (hitSound: int)
      ensures sounds == hitSound
      ensures Fields() == Extras(SAMPLESET_NONE, SAMPLESET_NONE, 0, 0, "")
    {
      sounds := hitSound;
      sampleSet := SAMPLESET_NONE;
      additionSet := SAMPLESET_NONE;
      customIndex := 0;
      volume := 0;
      filename := "";
    }

    function Fields(): Extras
      reads this
    {
      Extras(sampleSet, additionSet, customIndex, volume, filename)
    }

    /** The getters `normal`, `whistle`, `finish` and `clap`. */
    predicate Get(s: Sound)
      reads this
    {
      HasSound(sounds, s)
    }

    /** The setters `normal`, `whistle`, `finish` and `clap`. */
    method Set(s: Sound, val: bool)
      modifies this
      ensures sounds == SoundsWith(old(sounds), s, val)
      ensures Fields() == old(Fields())
      ensures forall o: Sound :: Get(o) == if o == s then val else old(Get(o))
    {
      ghost var before := sounds;
      if val {
        sounds := IOr(sounds, SoundMask(s));
      } else {
        sounds := IAndNot(sounds, SoundMask(s));
      }
      forall o: Sound ensures HasSound(sounds, o) == if o == s then val else HasSound(before, o) {
        SoundSetterGetter(before, s, val, o);
      }
    }

    /** `_loadExtraSampleInfo(objectInfo, i)`: nothing happens when i is past
        the end or when field i does not split into five parts; otherwise the
        five fields are assigned in order, and a field that is not an integer
        raises ValueError after the fields before it were assigned. */
    method LoadExtraSampleInfo(objectInfo: seq<string>, i: nat) returns (r: Result<()>)
      modifies this
      ensures sounds == old(sounds)
      ensures i >= |objectInfo| || ReadExtras(objectInfo[i]).None? ==> r.Ok? && Fields() == old(Fields())
      ensures i < |objectInfo| && ReadExtras(objectInfo[i]).Some? ==>
        var p := ReadExtras(objectInfo[i]).value;
        (r.Ok? <==> p.Ok?) && (p.Ok? ==> Fields() == p.value)
      ensures r.Err? ==> r.error == ValueError && filename == old(filename)
    {
      if i >= |objectInfo| {
        return Ok(());
      }
      var extras := Split(objectInfo[i], ':');
      if |extras| != 5 {
        return Ok(());
      }
      var a := ParseInt(extras[0]);
      if a.Err? {
        return Err(a.error);
      }
      sampleSet := a.value;
      var b := ParseInt(extras[1]);
      if b.Err? {
        return Err(b.error);
      }
      additionSet := b.value;
      var c := ParseInt(extras[2]);
      if c.Err? {
        return Err(c.error);
      }
      customIndex := c.value;
      var d := ParseInt(extras[3]);
      if d.Err? {
        return Err(d.error);
      }
      volume := d.value;
      filename := extras[4];
      return Ok(());
    }

    /** `_getExtrasString` */
    function ExtrasString(): (s: string)
      reads this
      ensures Free(filename, ':') ==> ReadExtras(s) == Some(Ok(Fields()))
    {
      var t := ExtrasText(Fields());
      assert Free(filename, ':') ==> ReadExtras(t) == Some(Ok(Fields())) by {
        if Free(filename, ':') {
          ExtrasRoundTrip(Fields());
        }
      }
      t
    }
  }

  /** Loading the extras string of one hit sound into another copies the five
      fields. */
  method CopyExtras(src: HitSound, dst: HitSound) returns (r: Result<()>)
    requires Free(src.filename, ':')
    modifies dst
    ensures r.Ok? && dst.Fields() == old(src.Fields()) && dst.sounds == old(dst.sounds)
  {
    var text := src.ExtrasString();
    r := dst.LoadExtraSampleInfo([text], 0);
  }

  // ---------------------------------------------------------------- flags

  const FLAGS_CIRCLE: nat := 1              // 1 << 0
  const FLAGS_SLIDER: nat := 2              // 1 << 1
  const FLAGS_COMBO_START: nat := 4         // 1 << 2
  const FLAGS_SPINNER: nat := 8             // 1 << 3
  const FLAGS_COMBO_COLOR_SKIP: nat := 112  // (1 << 4) | (1 << 5) | (1 << 6)
  const FLAGS_MANIA_HOLD_NOTE: nat := 128   // 1 << 7

  lemma SkipMaskDigits(k: nat)
    ensures Bit(FLAGS_COMBO_COLOR_SKIP, k) <==> 4 <= k < 7
  {
    if k >= 7 {
      HighBitClear(FLAGS_COMBO_COLOR_SKIP, 7, k);
    } else {
      assert Bit(112, 0) == false && Bit(112, 1) == false && Bit(112, 2) == false && Bit(112, 3) == false;
      assert Bit(112, 4) && Bit(112, 5) && Bit(112, 6);
    }
  }

  /** The subclass of a hit object; `Plain` is a `HitObject` of none of them. */
  datatype Kind = Circle | Slider | Spinner | ManiaHoldNote | Plain

  /** The bit of the type flag of each subclass. */
  function TypeBit(k: Kind): (b: nat)
    requires k != Plain
    ensures b == 0 || b == 1 || b == 3 || b == 7
  {
    match k
    case Circle => 0
    case Slider => 1
    case Spinner => 3
    case ManiaHoldNote => 7
  }

  /** comboStart: `(flags & FLAGS_COMBO_START) != 0` */
  predicate ComboStartOf(flags: int)
  {
    IAnd(flags, FLAGS_COMBO_START) != 0
  }

  /** comboColorSkip: `(flags & FLAGS_COMBO_COLOR_SKIP) >> 4`, always in 0..7. */
  function ComboColorSkipOf(flags: int): (r: int)
    ensures 0 <= r < 8
  {
    var a := IAnd(flags, FLAGS_COMBO_COLOR_SKIP);
    IAndBound(flags, FLAGS_COMBO_COLOR_SKIP);
    assert Pow2(4) == 16;
    IShr(a, 4)
  }

  /** The flags `getSaveString` writes: the type bit, 4 when comboStart, and
      `(comboColorSkip << 4) & FLAGS_COMBO_COLOR_SKIP`.  A plain `HitObject`
      raises TypeError. */
  function EncodeFlags(k: Kind, comboStart: bool, skip: int): (r: Result<int>)
    ensures r.Err? <==> k == Plain
    ensures r.Err? ==> r.error == TypeError
  {
    if k == Plain then Err(TypeError)
    else
      var flags := IOr(0, Pow2(TypeBit(k)));
      var flags := if comboStart then IOr(flags, FLAGS_COMBO_START) else flags;
      Ok(IOr(flags, IAnd(skip * Pow2(4), FLAGS_COMBO_COLOR_SKIP)))
  }

  /** The digits of encoded flags: the type bit, bit 2 for comboStart and the
      three low digits of skip at bits 4 to 6. */
  lemma EncodeDigits(k: Kind, comboStart: bool, skip: int, j: nat)
    requires k != Plain
    ensures IBit(EncodeFlags(k, comboStart, skip).value, j) ==
      (j == TypeBit(k) || (j == 2 && comboStart) || (4 <= j < 7 && IBit(skip, j - 4)))
  {
    var t := IOr(0, Pow2(TypeBit(k)));
    IBitOr(0, Pow2(TypeBit(k)), j);
    ZeroHasNoBit(j);
    BitPow2(TypeBit(k), j);
    var f := if comboStart then IOr(t, FLAGS_COMBO_START) else t;
    IBitOr(t, FLAGS_COMBO_START, j);
    BitPow2(2, j);
    IBitOr(f, IAnd(skip * Pow2(4), FLAGS_COMBO_COLOR_SKIP), j);
    IBitAnd(skip * Pow2(4), FLAGS_COMBO_COLOR_SKIP, j);
    SkipMaskDigits(j);
    IBitShl(skip, 4, j);
  }

  /** Decoding written flags gives back comboStart. */
  lemma DecodeComboStart(k: Kind, comboStart: bool, skip: int)
    requires k != Plain
    ensures ComboStartOf(EncodeFlags(k, comboStart, skip).value) == comboStart
  {
    var f := EncodeFlags(k, comboStart, skip).value;
    IAndPow2(f, 2);
    EncodeDigits(k, comboStart, skip, 2);
  }

  /** Decoding written flags gives back the colour skip modulo 8. */
  lemma DecodeComboColorSkip(k: Kind, comboStart: bool, skip: int)
    requires k != Plain
    ensures ComboColorSkipOf(EncodeFlags(k, comboStart, skip).value) == skip % 8
  {
    var f := EncodeFlags(k, comboStart, skip).value;
    var d := ComboColorSkipOf(f);
    forall j: nat ensures IBit(d, j) == IBit(skip % 8, j) {
      IBitShr(IAnd(f, FLAGS_COMBO_COLOR_SKIP), 4, j);
      IBitAnd(f, FLAGS_COMBO_COLOR_SKIP, j + 4);
      SkipMaskDigits(j + 4);
      EncodeDigits(k, comboStart, skip, j + 4);
      IBitMod(skip, 3, j);
    }
    IBitsDetermine(d, skip % 8);
  }

  /** The object kind `fromBeatmapFile` picks from the flags: the first of the
      circle, slider, spinner and hold bits that is present.  With none of
      them `ret` is never bound and the call raises UnboundLocalError. */
  function KindOf(flags: int): (r: Result<Kind>)
    ensures r.Err? <==> !IBit(flags, 0) && !IBit(flags, 1) && !IBit(flags, 3) && !IBit(flags, 7)
    ensures r.Err? ==> r.error == UnboundLocalError
    ensures r.Ok? ==> r.value != Plain
  {
    assert FLAGS_CIRCLE == Pow2(0) && FLAGS_SLIDER == Pow2(1) && FLAGS_SPINNER == Pow2(3);
    assert FLAGS_MANIA_HOLD_NOTE == Pow2(7);
    IAndPow2(flags, 0);
    IAndPow2(flags, 1);
    IAndPow2(flags, 3);
    IAndPow2(flags, 7);
    if IAnd(flags, FLAGS_CIRCLE) != 0 then Ok(Circle)
    else if IAnd(flags, FLAGS_SLIDER) != 0 then Ok(Slider)
    else if IAnd(flags, FLAGS_SPINNER) != 0 then Ok(Spinner)
    else if IAnd(flags, FLAGS_MANIA_HOLD_NOTE) != 0 then Ok(ManiaHoldNote)
    else Err(UnboundLocalError)
  }

  /** The dispatch of `fromBeatmapFile` on a line split at ','. */
  function Dispatch(objectInfo: seq<string>): (r: Result<Kind>)
    ensures |objectInfo| <= 3 ==> r == Err(ValueError)
    ensures |objectInfo| > 3 && ParseInt(objectInfo[3]).Err? ==> r == Err(ParseInt(objectInfo[3]).error)
    ensures r.Ok? ==> r.value != Plain
  {
    if |objectInfo| <= 3 then Err(ValueError)
    else
      var flags :- ParseInt(objectInfo[3]);
      KindOf(flags)
  }

  /** Which kind a parsed flags field selects, bit by bit: circle (bit 0)
      first, then slider (bit 1), spinner (bit 3) and hold note (bit 7). */
  lemma DispatchKind(objectInfo: seq<string>)
    requires |objectInfo| > 3 && ParseInt(objectInfo[3]).Ok?
    ensures var f := ParseInt(objectInfo[3]).value;
      Dispatch(objectInfo) ==
        if IBit(f, 0) then Ok(Circle)
        else if IBit(f, 1) then Ok(Slider)
        else if IBit(f, 3) then Ok(Spinner)
        else if IBit(f, 7) then Ok(ManiaHoldNote)
        else Err(UnboundLocalError)
  {
    var f := ParseInt(objectInfo[3]).value;
    assert FLAGS_CIRCLE == Pow2(0) && FLAGS_SLIDER == Pow2(1) && FLAGS_SPINNER == Pow2(3);
    assert FLAGS_MANIA_HOLD_NOTE == Pow2(7);
    IAndPow2(f, 0);
    IAndPow2(f, 1);
    IAndPow2(f, 3);
    IAndPow2(f, 7);
  }

  /** Written flags are dispatched to the kind that wrote them. */
  lemma KindOfEncode(k: Kind, comboStart: bool, skip: int)
    requires k != Plain
    ensures KindOf(EncodeFlags(k, comboStart, skip).value) == Ok(k)
  {
    var f := EncodeFlags(k, comboStart, skip).value;
    assert FLAGS_CIRCLE == Pow2(0) && FLAGS_SLIDER == Pow2(1) && FLAGS_SPINNER == Pow2(3);
    assert FLAGS_MANIA_HOLD_NOTE == Pow2(7);
    IAndPow2(f, 0);
    IAndPow2(f, 1);
    IAndPow2(f, 3);
    IAndPow2(f, 7);
    EncodeDigits(k, comboStart, skip, 0);
    EncodeDigits(k, comboStart, skip, 1);
    EncodeDigits(k, comboStart, skip, 3);
    EncodeDigits(k, comboStart, skip, 7);
  }

  /** The integer at position i of a split line, as `int(objectInfo[i])` reads it. */
  function FieldInt(objectInfo: seq<string>, i: nat): Result<int>
  {
    if i < |objectInfo| then ParseInt(objectInfo[i]) else Err(IndexError)
  }

  /** The fields every hit object has. */
  class HitObject {
    var kind: Kind
    var x: int
    var y: int
    var time: int
    var comboStart: bool
    var comboColorSkip: int
    var hitSound: HitSound

    constructor (k: Kind)
      ensures kind == k && x == 0 && y == 0 && time == 0 && !comboStart && comboColorSkip == 0
      ensures fresh(hitSound) && hitSound.sounds == 0
    {
      kind := k;
      x := 0;
      y := 0;
      time := 0;
      comboStart := false;
      comboColorSkip := 0;
      hitSound := new HitSound(0);
    }

    /** `HitObject._loadFromBeatmapFile`: x, y, time, the two flag fields and
        the sounds, read in that order from the first five fields. */
    method LoadFromBeatmapFile(objectInfo: seq<string>) returns (r: Result<()>)
      modifies this, hitSound
      ensures kind == old(kind) && hitSound == old(hitSound)
      ensures r.Ok? <==> forall i :: 0 <= i < 5 ==> FieldInt(objectInfo, i).Ok?
      ensures r.Ok? ==>
        x == FieldInt(objectInfo, 0).value && y == FieldInt(objectInfo, 1).value
        && time == FieldInt(objectInfo, 2).value
        && comboStart == ComboStartOf(FieldInt(objectInfo, 3).value)
        && comboColorSkip == ComboColorSkipOf(FieldInt(objectInfo, 3).value)
        && hitSound.sounds == FieldInt(objectInfo, 4).value
      ensures hitSound.Fields() == old(hitSound.Fields())
    {
      var v := FieldInt(objectInfo, 0);
      if v.Err? {
        return Err(v.error);
      }
      x := v.value;
      v := FieldInt(objectInfo, 1);
      if v.Err? {
        return Err(v.error);
      }
      y := v.value;
      v := FieldInt(objectInfo, 2);
      if v.Err? {
        return Err(v.error);
      }
      time := v.value;
      v := FieldInt(objectInfo, 3);
      if v.Err? {
        return Err(v.error);
      }
      var flags := v.value;
      comboStart := ComboStartOf(flags);
      comboColorSkip := ComboColorSkipOf(flags);
      v := FieldInt(objectInfo, 4);
      if v.Err? {
        return Err(v.error);
      }
      hitSound.sounds := v.value;
      return Ok(());
    }

    /** `HitObject.getSaveString`: `x,y,time,flags,sounds`; the plain
        HitObject has no type bit and raises. The saved line dispatches back
        to this kind with the same position, time, combo fields and sounds. */
    function SaveString(): (r: Result<string>)
      reads this, hitSound
      ensures r.Err? <==> kind == Plain
      ensures r.Err? ==> r.error == TypeError
      ensures r.Ok? ==> var p := Split(r.value, ',');
        Dispatch(p) == Ok(kind) && |p| == 5
        && FieldInt(p, 0) == Ok(x) && FieldInt(p, 1) == Ok(y) && FieldInt(p, 2) == Ok(time)
        && ComboStartOf(FieldInt(p, 3).value) == comboStart
        && ComboColorSkipOf(FieldInt(p, 3).value) == comboColorSkip % 8
        && FieldInt(p, 4) == Ok(hitSound.sounds)
    {
      var flags :- EncodeFlags(kind, comboStart, comboColorSkip);
      SaveTextFields(x, y, time, flags, hitSound.sounds);
      SaveLoadRoundTrip(kind, x, y, time, comboStart, comboColorSkip, hitSound.sounds);
      Ok(SaveText(x, y, time, flags, hitSound.sounds))
    }
  }

  function SaveText(x: int, y: int, time: int, flags: int, sounds: int): string
  {
    IntToString(x) + "," + IntToString(y) + "," + IntToString(time) + "," + IntToString(flags)
      + "," + IntToString(sounds)
  }

  /** The line `getSaveString` writes splits back into the five integers. */
  lemma SaveTextFields(x: int, y: int, time: int, flags: int, sounds: int)
    ensures var p := Split(SaveText(x, y, time, flags, sounds), ',');
      |p| == 5 && FieldInt(p, 0) == Ok(x) && FieldInt(p, 1) == Ok(y) && FieldInt(p, 2) == Ok(time)
      && FieldInt(p, 3) == Ok(flags) && FieldInt(p, 4) == Ok(sounds)
  {
    var s0, s1, s2, s3, s4 := IntToString(x), IntToString(y), IntToString(time), IntToString(flags),
      IntToString(sounds);
    IntTextFree(x, ',');
    IntTextFree(y, ',');
    IntTextFree(time, ',');
    IntTextFree(flags, ',');
    IntTextFree(sounds, ',');
    SplitFive(s0, s1, s2, s3, s4, ',');
    assert SaveText(x, y, time, flags, sounds) == s0 + [','] + s1 + [','] + s2 + [','] + s3 + [','] + s4;
    var p := Split(SaveText(x, y, time, flags, sounds), ',');
    assert p == [s0, s1, s2, s3, s4];
    assert FieldInt(p, 0) == ParseInt(s0) && FieldInt(p, 1) == ParseInt(s1) && FieldInt(p, 2) == ParseInt(s2);
    assert FieldInt(p, 3) == ParseInt(s3) && FieldInt(p, 4) == ParseInt(s4);
    ParseIntToString(x);
    ParseIntToString(y);
    ParseIntToString(time);
    ParseIntToString(flags);
    ParseIntToString(sounds);
  }

  /** A written hit-object line is dispatched to the kind that wrote it, and
      its flags decode to the same comboStart and to the skip modulo 8. */
  lemma SaveLoadRoundTrip(k: Kind, x: int, y: int, time: int, comboStart: bool, skip: int, sounds: int)
    requires k != Plain
    ensures var flags := EncodeFlags(k, comboStart, skip).value;
      var p := Split(SaveText(x, y, time, flags, sounds), ',');
      Dispatch(p) == Ok(k) && ComboStartOf(flags) == comboStart && ComboColorSkipOf(flags) == skip % 8
  {
    var flags := EncodeFlags(k, comboStart, skip).value;
    SaveTextFields(x, y, time, flags, sounds);
    KindOfEncode(k, comboStart, skip);
    DecodeComboStart(k, comboStart, skip);
    DecodeComboColorSkip(k, comboStart, skip);
  }

  // ---------------------------------------------------------------- sliders

  /** Python's `l[:n]`. */
  function PyPrefix<T>(l: seq<T>, n: int): (r: seq<T>)
    ensures n >= 0 ==> |r| == if n <= |l| then n else |l|
    ensures n < 0 ==> |r| == if |l| + n >= 0 then |l| + n else 0
    ensures r == l[..|r|]
  {
    if n >= 0 then (if n <= |l| then l[..n] else l)
    else if |l| + n >= 0 then l[..|l| + n] else []
  }

  /** `resizeList(l, n, d)`: pad l to length n with d, then cut it to `[:n]`.
      For n >= 0 that is exactly n entries, the old ones that fit and then
      copies of the default; a negative n drops that many entries from the
      end, as Python's slice does. */
  function Resize<T>(l: seq<T>, n: int, d: T): (r: seq<T>)
    ensures n >= 0 ==> |r| == n
    ensures n >= 0 ==> forall i :: 0 <= i < n ==> r[i] == if i < |l| then l[i] else d
    ensures n < 0 ==> r == l[..if |l| + n >= 0 then |l| + n else 0]
  {
    PyPrefix(l + seq(if n > |l| then n - |l| else 0, _ => d), n)
  }

  /** The part of `Slider` the `repeatCount` setter touches. */
  class SliderSounds {
    var repeatCount: int
    var sliderHitSounds: seq<HitSound>

    /** `Slider()`: `sliderHitSounds` starts empty and the `repeatCount`
        setter pads it to two entries with one new default `HitSound`. */
    constructor ()
      ensures repeatCount == 1 && |sliderHitSounds| == 2
      ensures sliderHitSounds[0] == sliderHitSounds[1] && fresh(sliderHitSounds[0])
      ensures sliderHitSounds[0].sounds == 0 && sliderHitSounds[0].Fields() == Extras(0, 0, 0, 0, "")
    {
      repeatCount := 1;
      var d := new HitSound(0);
      sliderHitSounds := [d, d];
    }

    /** The `repeatCount` setter: `sliderHitSounds` becomes `resizeList(...,
        val + 1, HitSound())`.  The padding entries are one and the same new
        `HitSound`, as the list is padded with one default object. */
    method SetRepeatCount(val: int)
      modifies this
      ensures repeatCount == val
      ensures exists d: HitSound ::
        fresh(d) && d.sounds == 0 && d.Fields() == Extras(0, 0, 0, 0, "")
        && sliderHitSounds == Resize(old(sliderHitSounds), val + 1, d)
    {
      repeatCount := val;
      var d := new HitSound(0);
      var l := sliderHitSounds;
      var n0 := |l|;
      var i := n0;
      while i < val + 1
        invariant n0 <= i && (i == n0 || i <= val + 1)
        invariant l == sliderHitSounds + seq(i - n0, _ => d)
      {
        l := l + [d];
        i := i + 1;
      }
      assert l == sliderHitSounds + seq(if val + 1 > n0 then val + 1 - n0 else 0, _ => d);
      sliderHitSounds := PyPrefix(l, val + 1);
    }
  }

  // ---------------------------------------------------------------- curve types

  const LINEAR: int := 0
  const PERFECT: int := 1
  const BEZIER: int := 2
  const CATMULL: int := 3

  const STR_TO_TYPE: map<string, int> := map["L" := LINEAR, "P" := PERFECT, "B" := BEZIER, "C" := CATMULL]
  const TYPE_TO_STR: map<int, string> := map[LINEAR := "L", PERFECT := "P", BEZIER := "B", CATMULL := "C"]

  /** The two curve-type tables are inverse to each other. */
  lemma CurveTypesInverse()
    ensures forall s :: s in STR_TO_TYPE ==> STR_TO_TYPE[s] in TYPE_TO_STR && TYPE_TO_STR[STR_TO_TYPE[s]] == s
    ensures forall t :: t in TYPE_TO_STR ==> TYPE_TO_STR[t] in STR_TO_TYPE && STR_TO_TYPE[TYPE_TO_STR[t]] == t
    ensures STR_TO_TYPE.Keys == {"L", "P", "B", "C"} && TYPE_TO_STR.Keys == {0, 1, 2, 3}
  {
  }
}
