/** Timing points (osu/timing.py): the kiai flag byte, the `inherited` test,
    and the comma-separated line a timing point is read from and written to. */
module Timing {
  import opened Wrappers
  import opened Strings
  import opened Floats
  import opened Bits
  import opened Objects

  const KIAI: nat := 1
  const OMITFIRSTBARLINE: nat := 8

  /** The `kiaiFlags` getter: `(KIAI if kiai else 0) | (OMITFIRSTBARLINE if omitFirstBarline else 0)`. */
  function KiaiFlagsOf(kiai: bool, omit: bool): int
  {
    IOr(if kiai then KIAI else 0, if omit then OMITFIRSTBARLINE else 0)
  }

  /** The flags are one of 0, 1, 8 and 9; bit 0 is kiai and bit 3 the omitted barline. */
  lemma KiaiFlagsValues(kiai: bool, omit: bool)
    ensures KiaiFlagsOf(kiai, omit) == (if kiai then 1 else 0) + (if omit then 8 else 0)
    ensures KiaiFlagsOf(kiai, omit) in {0, 1, 8, 9}
  {
    assert Or(1, 8) == 9;
  }

  /** The `kiaiFlags` setter as written: `(v | KIAI) != 0` and
      `(v | OMITFIRSTBARLINE) != 0`. */
  function KiaiFlagsAsWritten(v: int): (bool, bool)
  {
    (IOr(v, KIAI) != 0, IOr(v, OMITFIRSTBARLINE) != 0)
  }

  /** `v | m` is never 0 when m is not. */
  lemma OrNonZero(v: int, k: nat)
    ensures IOr(v, Pow2(k)) != 0
  {
    IBitOr(v, Pow2(k), k);
    BitPow2(k, k);
    ZeroHasNoBit(k);
  }

  /** The setter as written turns both flags on, whatever the value. */
  lemma KiaiSetterAsWrittenSetsBoth(v: int)
    ensures KiaiFlagsAsWritten(v) == (true, true)
  {
    OrNonZero(v, 0);
    OrNonZero(v, 3);
  }

  /** So writing the flags of a point that has neither reads back both. */
  lemma KiaiAsWrittenDoesNotRoundTrip()
    ensures KiaiFlagsAsWritten(KiaiFlagsOf(false, false)) != (false, false)
  {
    KiaiSetterAsWrittenSetsBoth(KiaiFlagsOf(false, false));
  }

  /** The setter as evidently intended: `(v & KIAI) != 0` and `(v & OMITFIRSTBARLINE) != 0`. */
  function KiaiFlagsFrom(v: int): (bool, bool)
  {
    (IAnd(v, KIAI) != 0, IAnd(v, OMITFIRSTBARLINE) != 0)
  }

  /** The intended setter reads bits 0 and 3 of the value. */
  lemma KiaiFlagsFromBits(v: int)
    ensures KiaiFlagsFrom(v) == (IBit(v, 0), IBit(v, 3))
  {
    IAndPow2(v, 0);
    IAndPow2(v, 3);
  }

  /** Setting the flags the getter returns gives back both booleans. */
  lemma KiaiRoundTrip(kiai: bool, omit: bool)
    ensures KiaiFlagsFrom(KiaiFlagsOf(kiai, omit)) == (kiai, omit)
  {
    KiaiFlagsValues(kiai, omit);
    assert And(1, 1) == 1 && And(1, 8) == 0 && And(8, 1) == 0 && And(8, 8) == 8;
    assert And(9, 1) == 1 && And(9, 8) == 8;
  }

  /** What a timing point line holds. */
  datatype TimingFields = TimingFields(
    time: int,
    msPerBeat: Real,
    inheritable: bool,
    beatsPerBar: int,
    sampleSet: int,
    customIndex: int,
    volume: int,
    kiai: bool,
    omitFirstBarline: bool)

  const ZERO: Real := Real("0", false, 0, 0)

  /** The six fields `fromFileData` reads after the first two: beatsPerBar,
      sampleSet, customIndex, volume, inheritable and kiaiFlags, in that order. */
  function ParseTail(d: seq<string>): (r: Result<(int, int, int, int, int, int)>)
    ensures |d| < 8 ==> r.Err?
    ensures r.Err? ==> r.error in {IndexError, ValueError}
  {
    var beatsPerBar :- FieldInt(d, 2);
    var sampleSet :- FieldInt(d, 3);
    var customIndex :- FieldInt(d, 4);
    var volume :- FieldInt(d, 5);
    var inheritable :- FieldInt(d, 6);
    var flags :- FieldInt(d, 7);
    Ok((beatsPerBar, sampleSet, customIndex, volume, inheritable, flags))
  }

  /** The `try` around `self.time = int(float(d[0]))`: the float truncated
      toward zero; 0 when `float` or `int` raises ValueError (a text that is
      not a float, or `nan`); an OverflowError, which is not caught, when the
      float is infinite, spelled `inf` or too large for a double. */
  function TimeOf(s: string): (r: Result<int>)
    ensures r.Err? ==> r.error == OverflowError
    ensures ParseFloat(s).Ok? ==> (r.Ok? <==> !Overflows(ParseFloat(s).value))
    ensures ParseFloat(s).Ok? && r.Ok? ==> r.value == Trunc(ParseFloat(s).value)
    ensures ParseFloat(s).Err? ==> (r.Err? <==> InfText(s)) && (r.Ok? ==> r.value == 0)
  {
    match ParseFloat(s)
    case Ok(x) => if Overflows(x) then Err(OverflowError) else Ok(Trunc(x))
    case Err(_) => if InfText(s) then Err(OverflowError) else Ok(0)
  }

  /** "1E-06" reads as the float 10 to the power -6. */
  lemma SmallTimeText()
    ensures ParseFloat("1E-06") == Ok(Real("1E-06", false, 1, -6))
  {
    assert "-06"[1..] == "06" && "06"[..1] == "0";
    assert IsDecimal("06") && DigitsValue("06") == 6;
    assert ParseInt("-06") == Ok(-6);
  }

  /** The comment's "1E-06" loads as time 0. */
  lemma SmallTimeIsZero()
    ensures TimeOf("1E-06") == Ok(0)
  {
    SmallTimeText();
    assert Pow10(6) == 1000000;
    assert !Overflows(Real("1E-06", false, 1, -6));
  }

  /** An infinite time raises OverflowError. */
  lemma InfiniteTimeRaises()
    ensures TimeOf("inf") == Err(OverflowError) && TimeOf("-Infinity") == Err(OverflowError)
  {
    assert Lower("inf") == "inf";
    assert Lower("Infinity") == "infinity";
  }

  /** The comment's "1E-06" loads as time 0, an infinite time raises, and
      any other text float() refuses loads as 0. */
  lemma TimeOfExamples()
    ensures TimeOf("1E-06") == Ok(0)
    ensures TimeOf("inf") == Err(OverflowError) && TimeOf("-Infinity") == Err(OverflowError)
    ensures TimeOf("abc") == Ok(0)
  {
    SmallTimeIsZero();
    InfiniteTimeRaises();
    assert !InfText("abc") by { assert Lower("abc") == "abc"; }
  }

  /** `fromFileData(d)` with a `kiaiFlags` setter: the time through
      `int(float(d[0]))`, msPerBeat through `float(d[1])`, and with more than
      two fields the remaining six in order, the last through the setter.
      A missing field raises IndexError. */
  function LoadTiming(d: seq<string>, setter: int -> (bool, bool)): (r: Result<TimingFields>)
    ensures r.Ok? && |d| <= 2 ==> var f := r.value;
      !f.inheritable && f.beatsPerBar == 0 && f.sampleSet == 0 && f.customIndex == 0 && f.volume == 0
      && !f.kiai && !f.omitFirstBarline
    ensures |d| == 0 ==> r == Err(IndexError)
    ensures |d| > 0 && TimeOf(d[0]).Err? ==> r == Err(OverflowError)
    ensures |d| == 1 && TimeOf(d[0]).Ok? ==> r == Err(IndexError)
    ensures 2 < |d| < 8 ==> r.Err?
    ensures |d| >= 2 ==> (r.Ok? <==> TimeOf(d[0]).Ok? && ParseFloat(d[1]).Ok? && (|d| > 2 ==> ParseTail(d).Ok?))
    ensures r.Ok? ==> TimeOf(d[0]) == Ok(r.value.time) && ParseFloat(d[1]) == Ok(r.value.msPerBeat)
    ensures r.Ok? && |d| > 2 ==> var (beatsPerBar, sampleSet, customIndex, volume, inheritable, flags) := ParseTail(d).value;
      var f := r.value;
      f.beatsPerBar == beatsPerBar && f.sampleSet == sampleSet && f.customIndex == customIndex
      && f.volume == volume && f.inheritable == (inheritable != 0)
      && (f.kiai, f.omitFirstBarline) == setter(flags)
    ensures r.Err? ==> r.error in {IndexError, ValueError, OverflowError}
  {
    if |d| == 0 then Err(IndexError)
    else
      var time :- TimeOf(d[0]);
      if |d| < 2 then Err(IndexError)
      else
        var ms :- ParseFloat(d[1]);
        if |d| > 2 then
          var (beatsPerBar, sampleSet, customIndex, volume, inheritable, flags) :- ParseTail(d);
          var (kiai, omit) := setter(flags);
          Ok(TimingFields(time, ms, inheritable != 0, beatsPerBar, sampleSet, customIndex, volume, kiai, omit))
        else
          Ok(TimingFields(time, ms, false, 0, 0, 0, 0, false, false))
  }

  /** `fromFileData` as written: its `kiaiFlags` setter turns both flags on,
      so every line with more than two fields loads with kiai and the
      omitted first barline. */
  function ParseTimingAsWritten(d: seq<string>): (r: Result<TimingFields>)
    ensures r.Ok? <==> ParseTiming(d).Ok?
    ensures r.Ok? && |d| > 2 ==> r.value.kiai && r.value.omitFirstBarline
    ensures r.Ok? ==> r.value.(kiai := false, omitFirstBarline := false)
                      == ParseTiming(d).value.(kiai := false, omitFirstBarline := false)
  {
    var r := LoadTiming(d, KiaiFlagsAsWritten);
    if |d| > 2 && r.Ok? then
      KiaiSetterAsWrittenSetsBoth(ParseTail(d).value.5);
      r
    else r
  }

  /** `fromFileData` with the intended setter: kiai is bit 0 and the omitted
      first barline bit 3 of the last field. */
  function ParseTiming(d: seq<string>): (r: Result<TimingFields>)
    ensures r.Ok? && |d| > 2 ==> ParseTail(d).Ok? && var flags := ParseTail(d).value.5;
      r.value.kiai == IBit(flags, 0) && r.value.omitFirstBarline == IBit(flags, 3)
  {
    var r := LoadTiming(d, KiaiFlagsFrom);
    if |d| > 2 && r.Ok? then
      KiaiFlagsFromBits(ParseTail(d).value.5);
      r
    else r
  }

  /** A timing line with no kiai flag set loads, as written, with both
      flags on; with the intended setter, with neither. */
  lemma LoadAsWrittenSetsKiai()
    ensures var d := ["0", "500", "4", "1", "0", "100", "1", "0"];
      ParseTimingAsWritten(d).Ok? && ParseTimingAsWritten(d).value.kiai && ParseTimingAsWritten(d).value.omitFirstBarline
      && ParseTiming(d).Ok? && !ParseTiming(d).value.kiai && !ParseTiming(d).value.omitFirstBarline
  {
    var d := ["0", "500", "4", "1", "0", "100", "1", "0"];
    assert "100"[..2] == "10" && "10"[..1] == "1";
    assert ParseInt("0") == Ok(0) && ParseInt("1") == Ok(1) && ParseInt("4") == Ok(4) && ParseInt("100") == Ok(100);
    assert "500"[..2] == "50" && "50"[..1] == "5";
    assert ParseFloat("0") == Ok(Real("0", false, 0, 0));
    assert ParseFloat("500").Ok?;
    assert ParseTail(d).Ok? && ParseTail(d).value.5 == 0;
    ZeroHasNoBit(0);
    ZeroHasNoBit(3);
  }

  /** `inherited` of a point with these fields: not inheritable and
      msPerBeat <= 0. */
  predicate InheritedFields(f: TimingFields)
  {
    !f.inheritable && NonPositive(f.msPerBeat)
  }

  /** A loaded timing line is inherited exactly when its inheritable field
      (if it has one) is 0 and its msPerBeat text is negative or zero. */
  lemma LoadedInherited(d: seq<string>)
    requires ParseTiming(d).Ok?
    ensures InheritedFields(ParseTiming(d).value)
            <==> (|d| <= 2 || ParseInt(d[6]) == Ok(0)) && NonPositiveText(d[1])
  {
    FloatNonPositive(d[1]);
  }

  /** The eight fields `getSaveString` writes. */
  function SaveFields(f: TimingFields): seq<string>
  {
    [IntToString(f.time), f.msPerBeat.text, IntToString(f.beatsPerBar), IntToString(f.sampleSet),
     IntToString(f.customIndex), IntToString(f.volume), IntToString(if f.inheritable then 1 else 0),
     IntToString(KiaiFlagsOf(f.kiai, f.omitFirstBarline))]
  }

  /** `getSaveString`: the eight fields joined by ','. */
  function TimingText(f: TimingFields): (r: string)
    ensures ParseFloat(f.msPerBeat.text) == Ok(f.msPerBeat) ==> Split(r, ',') == SaveFields(f)
  {
    if ParseFloat(f.msPerBeat.text) == Ok(f.msPerBeat) then
      SaveFieldsFree(f);
      SplitJoin(SaveFields(f), ',');
      Join(SaveFields(f), ',')
    else Join(SaveFields(f), ',')
  }

  /** A float that `float()` gave back holds no ','. */
  lemma FloatTextFree(x: Real)
    requires ParseFloat(x.text) == Ok(x)
    ensures Free(x.text, ',')
  {
    ParseFloatChars(x.text);
  }

  /** The last six written fields read back as the integers written. */
  lemma ParseTailSaved(f: TimingFields)
    ensures ParseTail(SaveFields(f)) == Ok((f.beatsPerBar, f.sampleSet, f.customIndex, f.volume,
      if f.inheritable then 1 else 0, KiaiFlagsOf(f.kiai, f.omitFirstBarline)))
  {
    var p := SaveFields(f);
    ParseIntToString(f.beatsPerBar);
    ParseIntToString(f.sampleSet);
    ParseIntToString(f.customIndex);
    assert FieldInt(p, 2) == Ok(f.beatsPerBar) && FieldInt(p, 3) == Ok(f.sampleSet) && FieldInt(p, 4) == Ok(f.customIndex);
    ParseIntToString(f.volume);
    ParseIntToString(if f.inheritable then 1 else 0);
    ParseIntToString(KiaiFlagsOf(f.kiai, f.omitFirstBarline));
  }

  /** The written fields parse back to the values they were written from. */
  lemma ParseSaveFields(f: TimingFields)
    requires ParseFloat(f.msPerBeat.text) == Ok(f.msPerBeat)
    requires -FLOAT_OVERFLOW < f.time < FLOAT_OVERFLOW
    ensures ParseTiming(SaveFields(f)) == Ok(f)
  {
    var p := SaveFields(f);
    ParseTailSaved(f);
    FloatOfIntText(f.time);
    assert TimeOf(p[0]) == Ok(f.time);
    assert ParseFloat(p[0]).Ok? && Trunc(ParseFloat(p[0]).value) == f.time;
    assert ParseFloat(p[1]) == Ok(f.msPerBeat);
    KiaiRoundTrip(f.kiai, f.omitFirstBarline);
  }

  /** No written field holds the ',' that separates them. */
  lemma SaveFieldsFree(f: TimingFields)
    requires ParseFloat(f.msPerBeat.text) == Ok(f.msPerBeat)
    ensures forall k :: 0 <= k < |SaveFields(f)| ==> Free(SaveFields(f)[k], ',')
  {
    FloatTextFree(f.msPerBeat);
    IntTextFree(f.time, ',');
    IntTextFree(f.beatsPerBar, ',');
    IntTextFree(f.sampleSet, ',');
    IntTextFree(f.customIndex, ',');
    IntTextFree(f.volume, ',');
    IntTextFree(if f.inheritable then 1 else 0, ',');
    IntTextFree(KiaiFlagsOf(f.kiai, f.omitFirstBarline), ',');
  }

  /** Reading back a written timing point restores every field, as long as
      msPerBeat is a float read from its text and the time is not so large
      that `float` makes it infinite. */
  lemma TimingRoundTrip(f: TimingFields)
    requires ParseFloat(f.msPerBeat.text) == Ok(f.msPerBeat)
    requires -FLOAT_OVERFLOW < f.time < FLOAT_OVERFLOW
    ensures ParseTiming(Split(TimingText(f), ',')) == Ok(f)
  {
    SaveFieldsFree(f);
    SplitJoin(SaveFields(f), ',');
    ParseSaveFields(f);
  }

  /** One timing point. */
  class TimingPoint {
    var time: int
    var msPerBeat: Real
    var inheritable: bool
    var beatsPerBar: int
    var hitSound: HitSound
    var kiai: bool
    var omitFirstBarline: bool

    /** `TimingPoint()` with no keyword arguments. */
    constructor ()
      ensures Fields() == TimingFields(0, ZERO, false, 0, SAMPLESET_NONE, 0, 0, false, false)
      ensures fresh(hitSound)
    {
      time := 0;
      msPerBeat := ZERO;
      inheritable := false;
      beatsPerBar := 0;
      hitSound := new HitSound(0);
      kiai := false;
      omitFirstBarline := false;
    }

    function Fields(): TimingFields
      reads this, hitSound
    {
      TimingFields(time, msPerBeat, inheritable, beatsPerBar, hitSound.sampleSet, hitSound.customIndex,
        hitSound.volume, kiai, omitFirstBarline)
    }

    /** The `kiaiFlags` getter. */
    function KiaiFlags(): (r: int)
      reads this
      ensures r in {0, 1, 8, 9}
      ensures KiaiFlagsFrom(r) == (kiai, omitFirstBarline)
    {
      KiaiFlagsValues(kiai, omitFirstBarline);
      KiaiRoundTrip(kiai, omitFirstBarline);
      KiaiFlagsOf(kiai, omitFirstBarline)
    }

    /** The `kiaiFlags` setter as written: both flags end up True. */
    method SetKiaiFlagsAsWritten(v: int)
      modifies this
      ensures kiai && omitFirstBarline && KiaiFlags() == 9
      ensures time == old(time) && msPerBeat == old(msPerBeat) && inheritable == old(inheritable)
      ensures beatsPerBar == old(beatsPerBar) && hitSound == old(hitSound)
    {
      kiai := IOr(v, KIAI) != 0;
      omitFirstBarline := IOr(v, OMITFIRSTBARLINE) != 0;
      KiaiSetterAsWrittenSetsBoth(v);
      KiaiFlagsValues(true, true);
    }

    /** The `kiaiFlags` setter as evidently intended: bit 0 and bit 3 of v. */
    method SetKiaiFlags(v: int)
      modifies this
      ensures (kiai, omitFirstBarline) == KiaiFlagsFrom(v)
      ensures time == old(time) && msPerBeat == old(msPerBeat) && inheritable == old(inheritable)
      ensures beatsPerBar == old(beatsPerBar) && hitSound == old(hitSound)
    {
      kiai := IAnd(v, KIAI) != 0;
      omitFirstBarline := IAnd(v, OMITFIRSTBARLINE) != 0;
    }

    /** `inherited`: not inheritable and msPerBeat <= 0.  For a msPerBeat
        read from its text, that is a text that is negative or zero. */
    function Inherited(): (r: bool)
      reads this, hitSound
      ensures r == InheritedFields(Fields())
      ensures ParseFloat(msPerBeat.text) == Ok(msPerBeat) ==> (r <==> !inheritable && NonPositiveText(msPerBeat.text))
    {
      if ParseFloat(msPerBeat.text) == Ok(msPerBeat) then
        FloatNonPositive(msPerBeat.text);
        !inheritable && NonPositive(msPerBeat)
      else !inheritable && NonPositive(msPerBeat)
    }

    /** `getSaveString`: a line that loads back as this point when msPerBeat
        was read from its text and the time is below the float overflow. */
    function SaveString(): (r: string)
      reads this, hitSound
      ensures ParseFloat(msPerBeat.text) == Ok(msPerBeat) && -FLOAT_OVERFLOW < time < FLOAT_OVERFLOW
              ==> ParseTiming(Split(r, ',')) == Ok(Fields())
    {
      if ParseFloat(msPerBeat.text) == Ok(msPerBeat) && -FLOAT_OVERFLOW < time < FLOAT_OVERFLOW then
        TimingRoundTrip(Fields());
        TimingText(Fields())
      else TimingText(Fields())
    }
  }

  /** `TimingPoint.fromFileData(d)`, with the intended `kiaiFlags` setter. */
  method FromFileData(d: seq<string>) returns (r: Result<TimingPoint>)
    ensures r.Err? ==> ParseTiming(d) == Err(r.error)
    ensures r.Ok? ==> fresh(r.value) && fresh(r.value.hitSound) && ParseTiming(d) == Ok(r.value.Fields())
  {
    if |d| == 0 {
      return Err(IndexError);
    }
    var time := TimeOf(d[0]);
    if time.Err? {
      return Err(time.error);
    }
    if |d| < 2 {
      return Err(IndexError);
    }
    var ms := ParseFloat(d[1]);
    if ms.Err? {
      assert ParseTiming(d) == Err(ms.error);
      return Err(ms.error);
    }
    var self := new TimingPoint();
    self.time := time.value;
    self.msPerBeat := ms.value;
    if |d| > 2 {
      var tail := ParseTail(d);
      if tail.Err? {
        assert ParseTiming(d) == Err(tail.error);
        return Err(tail.error);
      }
      var (beatsPerBar, sampleSet, customIndex, volume, inheritable, flags) := tail.value;
      self.beatsPerBar := beatsPerBar;
      self.hitSound.sampleSet := sampleSet;
      self.hitSound.customIndex := customIndex;
      self.hitSound.volume := volume;
      self.inheritable := inheritable != 0;
      self.SetKiaiFlags(flags);
      assert self.Fields() == TimingFields(time.value, ms.value, inheritable != 0, beatsPerBar, sampleSet,
        customIndex, volume, self.kiai, self.omitFirstBarline);
    }
    return Ok(self);
  }
}
