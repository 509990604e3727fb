/** Storyboard transform commands (osu/events.py, the SpriteTransformEvent
    classes, Loop and TriggeredLoop): the reader of each command, which
    takes the comma-separated fields of a line and the index of its first
    field and gives the command and the index after it, and the line each
    command is written as.  A reader fills in a fresh command object that
    nothing else refers to before it returns, so the command is modelled as
    the value it ends up holding. */
module Commands {
  import opened Wrappers
  import opened Strings
  import opened Floats
  import opened Triggers

  // ---------------------------------------------------------------- fields

  /** `eventInfo[k]` */
  function Field(info: seq<string>, k: nat): (r: Result<string>)
    ensures r.Ok? <==> k < |info|
    ensures r.Ok? ==> r.value == info[k]
    ensures r.Err? ==> r.error == IndexError
  {
    if k < |info| then Ok(info[k]) else Err(IndexError)
  }

  /** `int(eventInfo[k])` */
  function IntField(info: seq<string>, k: nat): (r: Result<int>)
    ensures r.Ok? <==> k < |info| && ParseInt(info[k]).Ok?
    ensures r.Ok? ==> r == ParseInt(info[k])
    ensures r.Err? ==> r.error == (if k < |info| then ValueError else IndexError)
  {
    var s :- Field(info, k);
    ParseInt(s)
  }

  /** `float(eventInfo[k])` */
  function FloatField(info: seq<string>, k: nat): (r: Result<Real>)
    ensures r.Ok? <==> k < |info| && ParseFloat(info[k]).Ok?
    ensures r.Ok? ==> r == ParseFloat(info[k])
    ensures r.Err? ==> r.error == (if k < |info| then ValueError else IndexError)
  {
    var s :- Field(info, k);
    ParseFloat(s)
  }

  function Min(a: nat, b: nat): nat { if a <= b then a else b }

  /** `eventInfo[a:b]`: the fields from a to b that exist. */
  function Slice(info: seq<string>, a: nat, b: nat): (r: seq<string>)
    requires a <= b
    ensures |r| == Min(b, |info|) - Min(a, |info|)
    ensures forall k :: 0 <= k < |r| ==> r[k] == info[a + k]
  {
    info[Min(a, |info|)..Min(b, |info|)]
  }

  // ---------------------------------------------------------------- commands

  /** Easing, start time and end time, shared by every transform. */
  datatype Header = Header(easing: int, time: int, endTime: int)

  datatype Command =
    | Fade(h: Header, opacity: Real, endOpacity: Real)
    | Move(h: Header, x: Option<Real>, y: Option<Real>, endX: Option<Real>, endY: Option<Real>)
    | Scale(h: Header, scale: Real, endScale: Real)
    | VectorScale(h: Header, scaleX: Real, scaleY: Real, endScaleX: Real, endScaleY: Real)
    | Rotate(h: Header, angle: Real, endAngle: Real)
    | Colour(h: Header, color: seq<int>, endColor: seq<int>)
    | Parameters(h: Header, effect: int)
    | Loop(time: int, loopCount: int, children: seq<Command>)
    | Triggered(trigger: Trigger, tTime: Option<int>, tEndTime: Option<int>, triggerGroup: int,
                children: seq<Command>)
  {
    /** `Loop` and `TriggeredLoop` hold commands of their own. */
    predicate IsContainer() { Loop? || Triggered? }
  }

  /** The keys of `eventTypeDict`. */
  const TAGS: set<string> := {"F", "M", "MX", "MY", "S", "V", "R", "C", "P", "L", "T"}

  /** `eventInfo[0] in 'LT'` for a key of `eventTypeDict`. */
  predicate ContainerTag(tag: string) { |tag| == 1 && (tag[0] == 'L' || tag[0] == 'T') }

  // ---------------------------------------------------------------- readers

  /** The header fields at i are integers, except that the end time may be empty. */
  predicate HeaderAt(info: seq<string>, i: nat)
  {
    i + 2 < |info| && IntField(info, i).Ok? && IntField(info, i + 1).Ok?
    && (info[i + 2] == "" || IntField(info, i + 2).Ok?)
  }

  /** `SpriteTransformEvent._loadInfoFromFile`: easing, time and end time,
      where an empty end time is the start time; the index moves past all three. */
  function ReadHeader(info: seq<string>, i: nat): (r: Result<(Header, nat)>)
    ensures r.Ok? <==> HeaderAt(info, i)
    ensures r.Ok? ==> r.value.1 == i + 3
    ensures r.Ok? ==> (IntField(info, i) == Ok(r.value.0.easing) && IntField(info, i + 1) == Ok(r.value.0.time)
                       && (info[i + 2] == "" ==> r.value.0.endTime == r.value.0.time)
                       && (info[i + 2] != "" ==> IntField(info, i + 2) == Ok(r.value.0.endTime)))
    ensures r.Err? ==> r.error == IndexError || r.error == ValueError
  {
    var easing :- IntField(info, i);
    var time :- IntField(info, i + 1);
    var last :- Field(info, i + 2);
    var endTime :- if |last| > 0 then ParseInt(last) else Ok(time);
    Ok((Header(easing, time, endTime), i + 3))
  }

  /** A start value, then an end value if a field remains; otherwise the end
      value is the start value. */
  function ReadStartEnd(info: seq<string>, k: nat): (r: Result<(Real, Real, nat)>)
    ensures r.Ok? <==> k < |info| && FloatField(info, k).Ok? && (k + 1 < |info| ==> FloatField(info, k + 1).Ok?)
    ensures r.Ok? ==> FloatField(info, k) == Ok(r.value.0)
    ensures r.Ok? && k + 1 < |info| ==> FloatField(info, k + 1) == Ok(r.value.1) && r.value.2 == k + 2
    ensures r.Ok? && k + 1 >= |info| ==> r.value.1 == r.value.0 && r.value.2 == k + 1
    ensures r.Err? ==> r.error == IndexError || r.error == ValueError
  {
    var start :- FloatField(info, k);
    if k + 1 < |info| then
      var end :- FloatField(info, k + 1);
      Ok((start, end, k + 2))
    else Ok((start, start, k + 1))
  }

  /** What every reader gives: on success, a command written under `tag`
      with no children and an index past i; on failure, an IndexError or a
      ValueError. */
  predicate Yields(r: Result<(Command, nat)>, tag: string, i: nat)
  {
    (r.Ok? ==> Tag(r.value.0) == tag && r.value.1 > i && (r.value.0.IsContainer() ==> r.value.0.children == []))
    && (r.Err? ==> r.error == IndexError || r.error == ValueError)
  }

  /** `FadeTransform._loadInfoFromFile` */
  function ReadFade(info: seq<string>, i: nat): (r: Result<(Command, nat)>)
    ensures Yields(r, "F", i)
    ensures r.Ok? <==> ReadHeader(info, i).Ok? && ReadStartEnd(info, i + 3).Ok?
    ensures r.Ok? ==> (r.value.0.Fade? && ReadHeader(info, i).value.0 == r.value.0.h
                       && ReadStartEnd(info, i + 3).value == (r.value.0.opacity, r.value.0.endOpacity, r.value.1))
  {
    var hj :- ReadHeader(info, i);
    var v :- ReadStartEnd(info, hj.1);
    Ok((Fade(hj.0, v.0, v.1), v.2))
  }

  /** `ScaleTransform._loadInfoFromFile` */
  function ReadScale(info: seq<string>, i: nat): (r: Result<(Command, nat)>)
    ensures Yields(r, "S", i)
    ensures r.Ok? <==> ReadHeader(info, i).Ok? && ReadStartEnd(info, i + 3).Ok?
    ensures r.Ok? ==> (r.value.0.Scale? && ReadHeader(info, i).value.0 == r.value.0.h
                       && ReadStartEnd(info, i + 3).value == (r.value.0.scale, r.value.0.endScale, r.value.1))
  {
    var hj :- ReadHeader(info, i);
    var v :- ReadStartEnd(info, hj.1);
    Ok((Scale(hj.0, v.0, v.1), v.2))
  }

  /** `RotateTransform._loadInfoFromFile` as written: the end angle is read
      when a field remains, but the index stays on it, so the next command
      of the line starts at the end angle. */
  function ReadRotateAsWritten(info: seq<string>, i: nat): (r: Result<(Command, nat)>)
    ensures Yields(r, "R", i)
    ensures r.Ok? <==> ReadHeader(info, i).Ok? && ReadStartEnd(info, i + 3).Ok?
    ensures r.Ok? ==> (r.value.0.Rotate? && r.value.1 == i + 4
                       && ReadStartEnd(info, i + 3).value.0 == r.value.0.angle
                       && ReadStartEnd(info, i + 3).value.1 == r.value.0.endAngle)
  {
    var hj :- ReadHeader(info, i);
    var v :- ReadStartEnd(info, hj.1);
    Ok((Rotate(hj.0, v.0, v.1), hj.1 + 1))
  }

  /** `RotateTransform._loadInfoFromFile` as evidently intended: the index
      moves past the end angle when there is one, as for Fade and Scale. */
  function ReadRotate(info: seq<string>, i: nat): (r: Result<(Command, nat)>)
    ensures Yields(r, "R", i)
    ensures r.Ok? <==> ReadHeader(info, i).Ok? && ReadStartEnd(info, i + 3).Ok?
    ensures r.Ok? ==> (r.value.0.Rotate? && ReadHeader(info, i).value.0 == r.value.0.h
                       && ReadStartEnd(info, i + 3).value == (r.value.0.angle, r.value.0.endAngle, r.value.1))
  {
    var hj :- ReadHeader(info, i);
    var v :- ReadStartEnd(info, hj.1);
    Ok((Rotate(hj.0, v.0, v.1), v.2))
  }

  /** On the line "R,0,0,1,0,1" the reader as written stops on the end angle,
      so the line loop starts a second rotation there and runs out of fields;
      the corrected reader consumes the whole line. */
  lemma RotateAsWrittenRereads()
    ensures var info := ["R", "0", "0", "1", "0", "1"];
      ReadRotateAsWritten(info, 1).Ok? && ReadRotateAsWritten(info, 1).value.1 == 5
      && ReadRotateAsWritten(info, 5) == Err(IndexError)
      && ReadRotate(info, 1).Ok? && ReadRotate(info, 1).value.1 == 6
  {
    var info := ["R", "0", "0", "1", "0", "1"];
    assert ParseInt("0") == Ok(0) && ParseInt("1") == Ok(1);
    assert ParseFloat("0").Ok? && ParseFloat("1").Ok?;
    assert ReadHeader(info, 1).Ok?;
    assert ReadStartEnd(info, 4).Ok?;
  }

  /** A float when `load`, nothing otherwise. */
  function ReadIf(load: bool, info: seq<string>, k: nat): (r: Result<(Option<Real>, nat)>)
    ensures r.Ok? <==> !load || (k < |info| && FloatField(info, k).Ok?)
    ensures r.Ok? && load ==> r.value.0.Some? && FloatField(info, k) == Ok(r.value.0.value) && r.value.1 == k + 1
    ensures r.Ok? && !load ==> r.value == (None, k)
    ensures r.Err? ==> r.error == IndexError || r.error == ValueError
  {
    if load then
      var v :- FloatField(info, k);
      Ok((Some(v), k + 1))
    else Ok((None, k))
  }

  /** The tags of `MoveTransform`. */
  predicate MoveTag(tag: string) { tag == "M" || tag == "MX" || tag == "MY" }

  /** What the last character of a move tag selects. */
  lemma MoveLoads(tag: string)
    requires MoveTag(tag)
    ensures (tag[|tag| - 1] != 'Y') <==> tag != "MY"
    ensures (tag[|tag| - 1] != 'X') <==> tag != "MX"
  {
  }

  /** `MoveTransform._loadInfoFromFile`, with `tag` the line's first field:
      a tag ending in 'Y' reads no x values, one ending in 'X' no y values;
      an end value is read only when a field is left for it (for "M", the
      end x only when the end y field exists too), else it is the start. */
  function ReadMove(tag: string, info: seq<string>, i: nat): (r: Result<(Command, nat)>)
    requires MoveTag(tag)
    ensures Yields(r, tag, i)
    ensures r.Ok? ==> r.value.0.Move?
    ensures r.Ok? ==> ReadHeader(info, i).Ok? && ReadHeader(info, i).value.0 == r.value.0.h
    ensures r.Ok? && tag == "MX" ==> (var c := r.value.0;
      c.y == None && c.endY == None && c.x.Some? && FloatField(info, i + 3) == Ok(c.x.value)
      && (if i + 4 < |info| then c.endX.Some? && FloatField(info, i + 4) == Ok(c.endX.value) && r.value.1 == i + 5
          else c.endX == c.x && r.value.1 == i + 4))
    ensures r.Ok? && tag == "MY" ==> (var c := r.value.0;
      c.x == None && c.endX == None && c.y.Some? && FloatField(info, i + 3) == Ok(c.y.value)
      && (if i + 4 < |info| then c.endY.Some? && FloatField(info, i + 4) == Ok(c.endY.value) && r.value.1 == i + 5
          else c.endY == c.y && r.value.1 == i + 4))
    ensures r.Ok? && tag == "M" ==> (var c := r.value.0;
      c.x.Some? && c.y.Some? && FloatField(info, i + 3) == Ok(c.x.value) && FloatField(info, i + 4) == Ok(c.y.value)
      && (if i + 6 < |info| then
            c.endX.Some? && FloatField(info, i + 5) == Ok(c.endX.value) && c.endY.Some? && FloatField(info, i + 6) == Ok(c.endY.value)
            && r.value.1 == i + 7
          else if i + 5 < |info| then
            c.endX == c.x && c.endY.Some? && FloatField(info, i + 5) == Ok(c.endY.value) && r.value.1 == i + 6
          else c.endX == c.x && c.endY == c.y && r.value.1 == i + 5))
  {
    var hj :- ReadHeader(info, i);
    var loadX := tag[|tag| - 1] != 'Y';
    var loadY := tag[|tag| - 1] != 'X';
    MoveLoads(tag);
    assert hj.1 == i + 3;
    var xk :- ReadIf(loadX, info, hj.1);
    var yk :- ReadIf(loadY, info, xk.1);
    var k := yk.1;
    assert k == if tag == "M" then i + 5 else i + 4;
    var ex :- if loadX && k < |info| && (!loadY || k + 1 < |info|) then ReadIf(true, info, k)
              else Ok((xk.0, k));
    var ey :- if loadY && ex.1 < |info| then ReadIf(true, info, ex.1)
              else Ok((yk.0, ex.1));
    Ok((Move(hj.0, xk.0, yk.0, ex.0, ey.0), ey.1))
  }

  /** Two floats in a row. */
  function ReadPair(info: seq<string>, k: nat): (r: Result<(Real, Real)>)
    ensures r.Ok? <==> FloatField(info, k).Ok? && FloatField(info, k + 1).Ok?
    ensures r.Ok? ==> FloatField(info, k) == Ok(r.value.0) && FloatField(info, k + 1) == Ok(r.value.1)
    ensures r.Err? ==> r.error == IndexError || r.error == ValueError
  {
    var a :- FloatField(info, k);
    var b :- FloatField(info, k + 1);
    Ok((a, b))
  }

  /** `VectorScaleTransform._loadInfoFromFile`: both end scales only when two
      fields remain, otherwise both copy the start scales. */
  function ReadVectorScale(info: seq<string>, i: nat): (r: Result<(Command, nat)>)
    ensures Yields(r, "V", i)
    ensures r.Ok? ==> r.value.0.VectorScale? && ReadHeader(info, i).Ok? && ReadHeader(info, i).value.0 == r.value.0.h
    ensures r.Ok? ==> ReadPair(info, i + 3) == Ok((r.value.0.scaleX, r.value.0.scaleY))
    ensures r.Ok? && i + 6 < |info| ==>
      ReadPair(info, i + 5) == Ok((r.value.0.endScaleX, r.value.0.endScaleY)) && r.value.1 == i + 7
    ensures r.Ok? && i + 6 >= |info| ==>
      r.value.0.endScaleX == r.value.0.scaleX && r.value.0.endScaleY == r.value.0.scaleY && r.value.1 == i + 5
    ensures r.Err? ==> r.error == IndexError || r.error == ValueError
  {
    var hj :- ReadHeader(info, i);
    var start :- ReadPair(info, hj.1);
    if hj.1 + 3 < |info| then
      var end :- ReadPair(info, hj.1 + 2);
      Ok((VectorScale(hj.0, start.0, start.1, end.0, end.1), hj.1 + 4))
    else Ok((VectorScale(hj.0, start.0, start.1, start.0, start.1), hj.1 + 2))
  }

  /** `ColorTransform._loadInfoFromFile`: the colour is the integers of the
      (up to) three fields after the header; the index moves three places
      whatever was there; the end colour is the next three fields when three
      remain, and (0,0,0), not the start colour, otherwise. */
  function ReadColour(info: seq<string>, i: nat): (r: Result<(Command, nat)>)
    ensures Yields(r, "C", i)
    ensures r.Ok? ==> r.value.0.Colour? && ReadHeader(info, i).Ok? && ReadHeader(info, i).value.0 == r.value.0.h
    ensures r.Ok? ==> Ints(Slice(info, i + 3, i + 6)) == Ok(r.value.0.color)
    ensures r.Ok? && i + 8 < |info| ==> Ints(info[i + 6..i + 9]) == Ok(r.value.0.endColor) && r.value.1 == i + 9
    ensures r.Ok? && i + 8 >= |info| ==> r.value.0.endColor == [0, 0, 0] && r.value.1 == i + 6
    ensures r.Ok? ==> |r.value.0.endColor| == 3
    ensures r.Err? ==> r.error == IndexError || r.error == ValueError
  {
    var hj :- ReadHeader(info, i);
    var j := hj.1;
    var color :- Ints(Slice(info, j, j + 3));
    var k := j + 3;
    if k + 2 < |info| then
      var endColor :- Ints(info[k..k + 3]);
      Ok((Colour(hj.0, color, endColor), k + 3))
    else Ok((Colour(hj.0, color, [0, 0, 0]), k))
  }

  /** `ParametersTransform._loadInfoFromFile`: the effect is an integer field. */
  function ReadParameters(info: seq<string>, i: nat): (r: Result<(Command, nat)>)
    ensures Yields(r, "P", i)
    ensures r.Ok? <==> ReadHeader(info, i).Ok? && IntField(info, i + 3).Ok?
    ensures r.Ok? ==> (r.value.0 == Parameters(ReadHeader(info, i).value.0, IntField(info, i + 3).value)
                       && r.value.1 == i + 4)
  {
    var hj :- ReadHeader(info, i);
    var effect :- IntField(info, hj.1);
    Ok((Parameters(hj.0, effect), hj.1 + 1))
  }

  /** `Loop._loadInfoFromFile`: the start time and the loop count, no header. */
  function ReadLoop(info: seq<string>, i: nat): (r: Result<(Command, nat)>)
    ensures Yields(r, "L", i)
    ensures r.Ok? <==> IntField(info, i).Ok? && IntField(info, i + 1).Ok?
    ensures r.Ok? ==> (r.value.0 == Loop(IntField(info, i).value, IntField(info, i + 1).value, [])
                       && r.value.1 == i + 2)
  {
    var time :- IntField(info, i);
    var count :- IntField(info, i + 1);
    Ok((Loop(time, count, []), i + 2))
  }

  /** `TriggeredLoop._loadInfoFromFile`: the trigger name; the start and end
      times only when two fields follow the name, else neither; the trigger
      group when a field is left, else 0. */
  function ReadTriggered(info: seq<string>, i: nat): (r: Result<(Command, nat)>)
    ensures Yields(r, "T", i)
    ensures r.Ok? ==> (r.value.0.Triggered? && r.value.0.children == []
                       && i < |info| && FromName(info[i]) == Ok(r.value.0.trigger))
    ensures r.Ok? && i + 2 < |info| ==> (var c := r.value.0;
      c.tTime.Some? && c.tEndTime.Some?
      && IntField(info, i + 1) == Ok(c.tTime.value) && IntField(info, i + 2) == Ok(c.tEndTime.value)
      && (if i + 3 < |info| then IntField(info, i + 3) == Ok(c.triggerGroup) && r.value.1 == i + 4
          else c.triggerGroup == 0 && r.value.1 == i + 3))
    ensures r.Ok? && i + 2 >= |info| ==> (var c := r.value.0;
      c.tTime == None && c.tEndTime == None
      && (if i + 1 < |info| then IntField(info, i + 1) == Ok(c.triggerGroup) && r.value.1 == i + 2
          else c.triggerGroup == 0 && r.value.1 == i + 1))
    ensures r.Err? ==> r.error == IndexError || r.error == ValueError
  {
    var name :- Field(info, i);
    var trigger :- FromName(name);
    var times :- ReadTimes(info, i + 1);
    assert times.2 == if i + 2 < |info| then i + 3 else i + 1;
    var group :- ReadGroup(info, times.2);
    var c := Triggered(trigger, times.0, times.1, group.0, []);
    assert Tag(c) == "T";
    Ok((c, group.1))
  }

  /** The start and end times of a triggered loop at k: both when two fields
      remain, neither otherwise. */
  function ReadTimes(info: seq<string>, k: nat): (r: Result<(Option<int>, Option<int>, nat)>)
    ensures r.Ok? && k + 1 < |info| ==>
      IntField(info, k).Ok? && IntField(info, k + 1).Ok?
      && r.value == (Some(IntField(info, k).value), Some(IntField(info, k + 1).value), k + 2)
    ensures r.Ok? && k + 1 >= |info| ==> r.value == (None, None, k)
    ensures r.Err? ==> r.error == IndexError || r.error == ValueError
  {
    if k + 1 < |info| then
      var t :- IntField(info, k);
      var e :- IntField(info, k + 1);
      Ok((Some(t), Some(e), k + 2))
    else Ok((None, None, k))
  }

  /** The trigger group at k when a field remains, else 0. */
  function ReadGroup(info: seq<string>, k: nat): (r: Result<(int, nat)>)
    ensures r.Ok? && k < |info| ==> IntField(info, k) == Ok(r.value.0) && r.value.1 == k + 1
    ensures r.Ok? && k >= |info| ==> r.value == (0, k)
    ensures r.Err? ==> r.error == IndexError || r.error == ValueError
  {
    if k < |info| then
      var g :- IntField(info, k);
      Ok((g, k + 1))
    else Ok((0, k))
  }

  /** `eventTypeDict[tag]()._loadInfoFromFile(eventInfo, i)`: the reader of
      the tag, and a KeyError for a tag that has none.  Every reader moves
      the index forward and gives a command with no children, written under
      the same tag. */
  function ReadCommand(tag: string, info: seq<string>, i: nat): (r: Result<(Command, nat)>)
    ensures tag !in TAGS ==> r == Err(KeyError)
    ensures r.Ok? ==> tag in TAGS && Tag(r.value.0) == tag && r.value.1 > i
    ensures r.Ok? ==> (r.value.0.IsContainer() <==> ContainerTag(tag))
    ensures r.Ok? && r.value.0.IsContainer() ==> r.value.0.children == []
    ensures r.Err? && tag in TAGS ==> r.error == IndexError || r.error == ValueError
  {
    if tag == "F" then ReadFade(info, i)
    else if MoveTag(tag) then ReadMove(tag, info, i)
    else if tag == "S" then ReadScale(info, i)
    else if tag == "V" then ReadVectorScale(info, i)
    else if tag == "R" then ReadRotate(info, i)
    else if tag == "C" then ReadColour(info, i)
    else if tag == "P" then ReadParameters(info, i)
    else if tag == "L" then ReadLoop(info, i)
    else if tag == "T" then ReadTriggered(info, i)
    else Err(KeyError)
  }

  /** `eventTypeDict[tag]()._loadInfoFromFile(eventInfo, i)` with the table
      as written, whose `R` reader leaves the index on the end angle; every
      other tag reads as in `ReadCommand`. */
  function ReadCommandAsWritten(tag: string, info: seq<string>, i: nat): (r: Result<(Command, nat)>)
    ensures tag != "R" ==> r == ReadCommand(tag, info, i)
    ensures tag !in TAGS ==> r == Err(KeyError)
    ensures r.Ok? ==> tag in TAGS && Tag(r.value.0) == tag && r.value.1 > i
    ensures r.Ok? ==> (r.value.0.IsContainer() <==> ContainerTag(tag))
    ensures r.Ok? && r.value.0.IsContainer() ==> r.value.0.children == []
    ensures r.Err? && tag in TAGS ==> r.error == IndexError || r.error == ValueError
  {
    if tag == "R" then ReadRotateAsWritten(info, i) else ReadCommand(tag, info, i)
  }

  // ---------------------------------------------------------------- writers

  /** The tag a command is written under; a move without x is "MY", one
      without y is "MX". */
  function Tag(c: Command): string
  {
    match c
    case Fade(_, _, _) => "F"
    case Move(_, x, y, _, _) => if x == None then "MY" else if y == None then "MX" else "M"
    case Scale(_, _, _) => "S"
    case VectorScale(_, _, _, _, _) => "V"
    case Rotate(_, _, _) => "R"
    case Colour(_, _, _) => "C"
    case Parameters(_, _) => "P"
    case Loop(_, _, _) => "L"
    case Triggered(_, _, _, _, _) => "T"
  }

  /** `f'{x}'` of an optional value: "None" for no value. */
  function OptText(x: Option<Real>): string
  {
    if x.Some? then x.value.text else "None"
  }

  function OptIntText(x: Option<int>): string
  {
    if x.Some? then IntToString(x.value) else "None"
  }

  /** `_getBaseSaveString` of a transform: "easing,time,endTime". */
  function HeaderFields(h: Header): seq<string>
  {
    [IntToString(h.easing), IntToString(h.time), IntToString(h.endTime)]
  }

  /** The fields after the tag of the line `getSaveString` writes (for a
      loop, `_getBaseSaveString`), with the colour written as evidently
      intended and a hit-sound trigger by its full name. */
  function Fields(c: Command): (r: Result<seq<string>>)
    ensures r.Err? <==> c.Triggered? && TriggerText(c.trigger).Err?
    ensures r.Err? ==> r.error == KeyError
    ensures r.Ok? ==> |r.value| >= 2
    ensures r.Ok? && !c.Loop? && !c.Triggered? ==> |r.value| >= 4 && r.value[..3] == HeaderFields(c.h)
  {
    match c
    case Fade(h, o, e) => Ok(HeaderFields(h) + [o.text, e.text])
    case Move(h, x, y, ex, ey) =>
      if x == None then Ok(HeaderFields(h) + [OptText(y), OptText(ey)])
      else if y == None then Ok(HeaderFields(h) + [OptText(x), OptText(ex)])
      else Ok(HeaderFields(h) + [OptText(x), OptText(y), OptText(ex), OptText(ey)])
    case Scale(h, s, e) => Ok(HeaderFields(h) + [s.text, e.text])
    case VectorScale(h, sx, sy, ex, ey) => Ok(HeaderFields(h) + [sx.text, sy.text, ex.text, ey.text])
    case Rotate(h, a, e) => Ok(HeaderFields(h) + [a.text, e.text])
    case Colour(h, color, endColor) =>
      Ok(HeaderFields(h) + [Join(IntTexts(color), ','), Join(IntTexts(endColor), ',')])
    case Parameters(h, effect) => Ok(HeaderFields(h) + [IntToString(effect)])
    case Loop(time, count, _) => Ok([IntToString(time), IntToString(count)])
    case Triggered(t, time, endTime, group, _) =>
      var name :- TriggerText(t);
      Ok([name, OptIntText(time), OptIntText(endTime), IntToString(group)])
  }

  /** The line a command is written as, without its children. */
  function CommandLine(c: Command): (r: Result<string>)
    ensures r.Err? <==> c.Triggered? && TriggerText(c.trigger).Err?
    ensures r.Err? ==> r.error == KeyError
    ensures r.Ok? ==> StartsWith(r.value, Tag(c) + ",")
  {
    var fs :- Fields(c);
    var line := Join([Tag(c)] + fs, ',');
    assert line == Tag(c) + [','] + Join(fs, ',');
    assert line[..|Tag(c) + ","|] == Tag(c) + ",";
    Ok(line)
  }

  /** `ColorTransform.getSaveString` as written: `",".join` and `"".join` of
      integers raise TypeError unless the colours are empty. */
  function ColourLineAsWritten(c: Command): (r: Result<string>)
    requires c.Colour?
    ensures r.Ok? <==> |c.color| == 0 && |c.endColor| == 0
  {
    if |c.color| > 0 || |c.endColor| > 0 then Err(TypeError)
    else Ok(Join(["C"] + HeaderFields(c.h) + ["", ""], ','))
  }

  /** As written, no colour command that was read can be written: its end
      colour always has three components. */
  lemma ColourNeverWritten(info: seq<string>, i: nat)
    requires ReadColour(info, i).Ok?
    ensures ColourLineAsWritten(ReadColour(info, i).value.0) == Err(TypeError)
  {
  }

  // ---------------------------------------------------------------- round trip

  /** The fields a command's line holds after its tag once split on ','. */
  function Tokens(c: Command): seq<string>
    requires Fields(c).Ok?
  {
    if c.Colour? then HeaderFields(c.h) + IntTexts(c.color) + IntTexts(c.endColor) else Fields(c).value
  }

  /** The command a reader gives back: a loop without its children. */
  function Bare(c: Command): Command
  {
    match c
    case Loop(time, count, _) => Loop(time, count, [])
    case Triggered(t, time, endTime, group, _) => Triggered(t, time, endTime, group, [])
    case _ => c
  }

  /** A float `float` reads back from its own text. */
  predicate FloatOk(x: Real) { ParseFloat(x.text) == Ok(x) }

  predicate OptFloatOk(x: Option<Real>) { x.Some? ==> FloatOk(x.value) }

  /** The commands a reader can give back unchanged from their line: floats
      that are their own text, a move whose end values are present exactly
      for its axes, three colour components, a triggered loop with times,
      and a trigger whose name reads back. */
  predicate WellFormed(c: Command)
  {
    Fields(c).Ok? &&
    match c
    case Fade(_, o, e) => FloatOk(o) && FloatOk(e)
    case Move(_, x, y, ex, ey) =>
      (x.Some? || y.Some?) && (x.Some? <==> ex.Some?) && (y.Some? <==> ey.Some?)
      && OptFloatOk(x) && OptFloatOk(y) && OptFloatOk(ex) && OptFloatOk(ey)
    case Scale(_, s, e) => FloatOk(s) && FloatOk(e)
    case VectorScale(_, sx, sy, ex, ey) => FloatOk(sx) && FloatOk(sy) && FloatOk(ex) && FloatOk(ey)
    case Rotate(_, a, e) => FloatOk(a) && FloatOk(e)
    case Colour(_, color, endColor) => |color| == 3 && |endColor| == 3
    case Parameters(_, _) => true
    case Loop(_, _, _) => true
    case Triggered(t, time, endTime, _, _) =>
      time.Some? && endTime.Some? && (t.HitSoundTrigger? ==> Parsed(t.hitSound) && !Ambiguous(t.hitSound))
  }

  /** The fields from i on are `toks`. */
  predicate WindowAt(info: seq<string>, i: nat, toks: seq<string>)
  {
    i + |toks| <= |info| && info[i..i + |toks|] == toks
  }

  lemma WindowSplit(info: seq<string>, i: nat, xs: seq<string>, ys: seq<string>)
    requires WindowAt(info, i, xs + ys)
    ensures WindowAt(info, i, xs) && WindowAt(info, i + |xs|, ys)
  {
    assert info[i..i + |xs|] == info[i..i + |xs + ys|][..|xs|];
    assert info[i + |xs|..i + |xs| + |ys|] == info[i..i + |xs + ys|][|xs|..];
  }

  lemma WindowField(info: seq<string>, i: nat, toks: seq<string>, m: nat)
    requires WindowAt(info, i, toks) && m < |toks|
    ensures i + m < |info| && info[i + m] == toks[m]
  {
    assert info[i + m] == info[i..i + |toks|][m];
  }

  lemma IntBack(info: seq<string>, k: nat, n: int)
    requires k < |info| && info[k] == IntToString(n)
    ensures IntField(info, k) == Ok(n)
  {
    ParseIntToString(n);
  }

  lemma FloatBack(info: seq<string>, k: nat, x: Real)
    requires k < |info| && info[k] == x.text && FloatOk(x)
    ensures FloatField(info, k) == Ok(x)
  {
  }

  /** A header is read back from its three fields. */
  lemma HeaderBack(info: seq<string>, i: nat, h: Header)
    requires WindowAt(info, i, HeaderFields(h))
    ensures ReadHeader(info, i) == Ok((h, i + 3))
  {
    var f := HeaderFields(h);
    WindowField(info, i, f, 0);
    WindowField(info, i, f, 1);
    WindowField(info, i, f, 2);
    IntBack(info, i, h.easing);
    IntBack(info, i + 1, h.time);
    IntBack(info, i + 2, h.endTime);
    ParseIntToString(h.endTime);
  }

  /** A header followed by two floats, as Fade, Scale and Rotate write them. */
  lemma StartEndBack(info: seq<string>, i: nat, h: Header, a: Real, b: Real)
    requires FloatOk(a) && FloatOk(b) && WindowAt(info, i, HeaderFields(h) + [a.text, b.text])
    ensures ReadHeader(info, i) == Ok((h, i + 3)) && ReadStartEnd(info, i + 3) == Ok((a, b, i + 5))
  {
    WindowSplit(info, i, HeaderFields(h), [a.text, b.text]);
    HeaderBack(info, i, h);
    WindowField(info, i + 3, [a.text, b.text], 0);
    WindowField(info, i + 3, [a.text, b.text], 1);
    FloatBack(info, i + 3, a);
    FloatBack(info, i + 4, b);
  }

  lemma FadeBack(info: seq<string>, i: nat, c: Command)
    requires c.Fade? && WellFormed(c) && WindowAt(info, i, Tokens(c))
    ensures ReadCommand(Tag(c), info, i) == Ok((Bare(c), i + |Tokens(c)|))
  {
    StartEndBack(info, i, c.h, c.opacity, c.endOpacity);
  }

  lemma ScaleBack(info: seq<string>, i: nat, c: Command)
    requires c.Scale? && WellFormed(c) && WindowAt(info, i, Tokens(c))
    ensures ReadCommand(Tag(c), info, i) == Ok((Bare(c), i + |Tokens(c)|))
  {
    StartEndBack(info, i, c.h, c.scale, c.endScale);
  }

  lemma RotateBack(info: seq<string>, i: nat, c: Command)
    requires c.Rotate? && WellFormed(c) && WindowAt(info, i, Tokens(c))
    ensures ReadCommand(Tag(c), info, i) == Ok((Bare(c), i + |Tokens(c)|))
  {
    StartEndBack(info, i, c.h, c.angle, c.endAngle);
  }

  lemma MoveBack(info: seq<string>, i: nat, c: Command)
    requires c.Move? && WellFormed(c) && WindowAt(info, i, Tokens(c))
    ensures ReadCommand(Tag(c), info, i) == Ok((Bare(c), i + |Tokens(c)|))
  {
    var vs := Tokens(c)[3..];
    assert Tokens(c) == HeaderFields(c.h) + vs;
    WindowSplit(info, i, HeaderFields(c.h), vs);
    HeaderBack(info, i, c.h);
    if c.x == None {
      WindowField(info, i + 3, vs, 0);
      WindowField(info, i + 3, vs, 1);
      FloatBack(info, i + 3, c.y.value);
      FloatBack(info, i + 4, c.endY.value);
      assert Tag(c) == "MY";
    } else if c.y == None {
      WindowField(info, i + 3, vs, 0);
      WindowField(info, i + 3, vs, 1);
      FloatBack(info, i + 3, c.x.value);
      FloatBack(info, i + 4, c.endX.value);
      assert Tag(c) == "MX";
    } else {
      WindowField(info, i + 3, vs, 0);
      WindowField(info, i + 3, vs, 1);
      WindowField(info, i + 3, vs, 2);
      WindowField(info, i + 3, vs, 3);
      FloatBack(info, i + 3, c.x.value);
      FloatBack(info, i + 4, c.y.value);
      FloatBack(info, i + 5, c.endX.value);
      FloatBack(info, i + 6, c.endY.value);
      assert Tag(c) == "M";
    }
  }

  lemma VectorScaleBack(info: seq<string>, i: nat, c: Command)
    requires c.VectorScale? && WellFormed(c) && WindowAt(info, i, Tokens(c))
    ensures ReadCommand(Tag(c), info, i) == Ok((Bare(c), i + |Tokens(c)|))
  {
    var vs := [c.scaleX.text, c.scaleY.text, c.endScaleX.text, c.endScaleY.text];
    WindowSplit(info, i, HeaderFields(c.h), vs);
    HeaderBack(info, i, c.h);
    WindowField(info, i + 3, vs, 0);
    WindowField(info, i + 3, vs, 1);
    WindowField(info, i + 3, vs, 2);
    WindowField(info, i + 3, vs, 3);
    FloatBack(info, i + 3, c.scaleX);
    FloatBack(info, i + 4, c.scaleY);
    FloatBack(info, i + 5, c.endScaleX);
    FloatBack(info, i + 6, c.endScaleY);
  }

  lemma ColourBack(info: seq<string>, i: nat, c: Command)
    requires c.Colour? && WellFormed(c) && WindowAt(info, i, Tokens(c))
    ensures ReadCommand(Tag(c), info, i) == Ok((Bare(c), i + |Tokens(c)|))
  {
    ColourRead(info, i, c.h, c.color, c.endColor);
    assert Tag(c) == "C";
  }

  lemma ColourRead(info: seq<string>, i: nat, h: Header, color: seq<int>, endColor: seq<int>)
    requires |color| == 3 && |endColor| == 3
    requires WindowAt(info, i, HeaderFields(h) + IntTexts(color) + IntTexts(endColor))
    ensures ReadColour(info, i) == Ok((Colour(h, color, endColor), i + 9))
  {
    var cs := IntTexts(color);
    var es := IntTexts(endColor);
    WindowSplit3(info, i, HeaderFields(h), cs, es);
    HeaderBack(info, i, h);
    ColourValuesBack(info, i + 3, color, endColor);
    ReadColourOf(info, i, h, color, endColor);
  }

  lemma WindowSplit3(info: seq<string>, i: nat, xs: seq<string>, ys: seq<string>, zs: seq<string>)
    requires WindowAt(info, i, xs + ys + zs)
    ensures WindowAt(info, i, xs) && WindowAt(info, i + |xs|, ys) && WindowAt(info, i + |xs| + |ys|, zs)
  {
    assert xs + ys + zs == xs + (ys + zs);
    WindowSplit(info, i, xs, ys + zs);
    WindowSplit(info, i + |xs|, ys, zs);
  }

  /** The reader of a colour, once its header and both colours are read. */
  lemma ReadColourOf(info: seq<string>, i: nat, h: Header, color: seq<int>, endColor: seq<int>)
    requires ReadHeader(info, i) == Ok((h, i + 3))
    requires Ints(Slice(info, i + 3, i + 6)) == Ok(color)
    requires i + 8 < |info| && Ints(info[i + 6..i + 9]) == Ok(endColor)
    ensures ReadColour(info, i) == Ok((Colour(h, color, endColor), i + 9))
  {
  }

  /** The two colours of a colour command read back from their six fields. */
  lemma ColourValuesBack(info: seq<string>, j: nat, color: seq<int>, endColor: seq<int>)
    requires |color| == 3 && |endColor| == 3
    requires WindowAt(info, j, IntTexts(color)) && WindowAt(info, j + 3, IntTexts(endColor))
    ensures Ints(Slice(info, j, j + 3)) == Ok(color)
    ensures j + 5 < |info| && Ints(info[j + 3..j + 6]) == Ok(endColor)
  {
    assert Slice(info, j, j + 3) == IntTexts(color);
    IntsOfTexts(color);
    IntsOfTexts(endColor);
  }

  lemma ParametersBack(info: seq<string>, i: nat, c: Command)
    requires c.Parameters? && WellFormed(c) && WindowAt(info, i, Tokens(c))
    ensures ReadCommand(Tag(c), info, i) == Ok((Bare(c), i + |Tokens(c)|))
  {
    WindowSplit(info, i, HeaderFields(c.h), [IntToString(c.effect)]);
    HeaderBack(info, i, c.h);
    WindowField(info, i + 3, [IntToString(c.effect)], 0);
    IntBack(info, i + 3, c.effect);
  }

  lemma LoopBack(info: seq<string>, i: nat, c: Command)
    requires c.Loop? && WellFormed(c) && WindowAt(info, i, Tokens(c))
    ensures ReadCommand(Tag(c), info, i) == Ok((Bare(c), i + |Tokens(c)|))
  {
    WindowField(info, i, Tokens(c), 0);
    WindowField(info, i, Tokens(c), 1);
    IntBack(info, i, c.time);
    IntBack(info, i + 1, c.loopCount);
  }

  lemma TriggeredBack(info: seq<string>, i: nat, c: Command)
    requires c.Triggered? && WellFormed(c) && WindowAt(info, i, Tokens(c))
    ensures ReadCommand(Tag(c), info, i) == Ok((Bare(c), i + |Tokens(c)|))
  {
    var toks := Tokens(c);
    TriggerRoundTrip(c.trigger);
    var name := TriggerText(c.trigger).value;
    assert toks == [name, IntToString(c.tTime.value), IntToString(c.tEndTime.value), IntToString(c.triggerGroup)];
    WindowField(info, i, toks, 0);
    WindowField(info, i, toks, 1);
    WindowField(info, i, toks, 2);
    WindowField(info, i, toks, 3);
    IntBack(info, i + 1, c.tTime.value);
    IntBack(info, i + 2, c.tEndTime.value);
    IntBack(info, i + 3, c.triggerGroup);
    assert ReadTimes(info, i + 1) == Ok((c.tTime, c.tEndTime, i + 3));
    assert ReadGroup(info, i + 3) == Ok((c.triggerGroup, i + 4));
    TriggeredOf(info, i, c.trigger, c.tTime, c.tEndTime, c.triggerGroup);
  }

  /** The `T` entry of the reader table is the triggered-loop reader. */
  lemma ReadCommandT(info: seq<string>, i: nat)
    ensures ReadCommand("T", info, i) == ReadTriggered(info, i)
  {
    var t := "T";
    assert t[0] == 'T';
    assert t != "F" && t != "M" && t != "MX" && t != "MY" && t != "S" && t != "V";
    assert t != "R" && t != "C" && t != "P" && t != "L";
  }

  /** The reader of a triggered loop, once its name, times and group are read. */
  lemma TriggeredOf(info: seq<string>, i: nat, t: Trigger, time: Option<int>, endTime: Option<int>, group: int)
    requires i < |info| && FromName(info[i]) == Ok(t)
    requires ReadTimes(info, i + 1) == Ok((time, endTime, i + 3))
    requires ReadGroup(info, i + 3) == Ok((group, i + 4))
    ensures ReadCommand("T", info, i) == Ok((Triggered(t, time, endTime, group, []), i + 4))
  {
    ReadCommandT(info, i);
    assert Field(info, i) == Ok(info[i]);
  }

  /** Reading the fields a well-formed command is written as, wherever they
      stand in a line and whatever follows them, gives the command back
      (without children) and the index just past its last field. */
  lemma ReadBack(info: seq<string>, i: nat, c: Command)
    requires WellFormed(c) && WindowAt(info, i, Tokens(c))
    ensures ReadCommand(Tag(c), info, i) == Ok((Bare(c), i + |Tokens(c)|))
  {
    match c
    case Fade(_, _, _) => FadeBack(info, i, c);
    case Move(_, _, _, _, _) => MoveBack(info, i, c);
    case Scale(_, _, _) => ScaleBack(info, i, c);
    case VectorScale(_, _, _, _, _) => VectorScaleBack(info, i, c);
    case Rotate(_, _, _) => RotateBack(info, i, c);
    case Colour(_, _, _) => ColourBack(info, i, c);
    case Parameters(_, _) => ParametersBack(info, i, c);
    case Loop(_, _, _) => LoopBack(info, i, c);
    case Triggered(_, _, _, _, _) => TriggeredBack(info, i, c);
  }

  // ---------------------------------------------------------------- lines

  /** The characters of tags, integers, floats and trigger names. */
  predicate TokenChar(ch: char) { FloatChar(ch) || IsLetter(ch) }

  predicate TokenText(s: string) { forall k :: 0 <= k < |s| ==> TokenChar(s[k]) }

  lemma TokenFree(s: string, ch: char)
    requires TokenText(s) && !TokenChar(ch)
    ensures Free(s, ch)
  {
  }

  lemma IntTokenText(n: int)
    ensures TokenText(IntToString(n))
  {
    IntToStringChars(n);
  }

  lemma FloatTokenText(x: Real)
    requires FloatOk(x)
    ensures TokenText(x.text)
  {
    ParseFloatChars(x.text);
  }

  /** Every text of a list is made of token characters. */
  predicate AllTokens(ts: seq<string>) { forall k :: 0 <= k < |ts| ==> TokenText(ts[k]) }

  lemma TokensConcat(xs: seq<string>, ys: seq<string>)
    requires AllTokens(xs) && AllTokens(ys)
    ensures AllTokens(xs + ys)
  {
    forall k | 0 <= k < |xs + ys| ensures TokenText((xs + ys)[k]) {
      if k < |xs| { assert (xs + ys)[k] == xs[k]; } else { assert (xs + ys)[k] == ys[k - |xs|]; }
    }
  }

  lemma IntTextsTokenText(ns: seq<int>)
    ensures AllTokens(IntTexts(ns))
  {
    forall k | 0 <= k < |ns| ensures TokenText(IntTexts(ns)[k]) {
      IntTokenText(ns[k]);
    }
  }

  lemma HeaderTokenText(h: Header)
    ensures AllTokens(HeaderFields(h))
  {
    IntTokenText(h.easing);
    IntTokenText(h.time);
    IntTokenText(h.endTime);
  }

  /** A header followed by the texts of two or four floats that read back. */
  lemma HeaderPairTokens(h: Header, a: Real, b: Real)
    requires FloatOk(a) && FloatOk(b)
    ensures AllTokens(HeaderFields(h) + [a.text, b.text])
  {
    HeaderTokenText(h);
    FloatTokenText(a);
    FloatTokenText(b);
    TokensConcat(HeaderFields(h), [a.text, b.text]);
  }

  lemma HeaderQuadTokens(h: Header, a: Real, b: Real, d: Real, e: Real)
    requires FloatOk(a) && FloatOk(b) && FloatOk(d) && FloatOk(e)
    ensures AllTokens(HeaderFields(h) + [a.text, b.text, d.text, e.text])
  {
    HeaderTokenText(h);
    FloatTokenText(a);
    FloatTokenText(b);
    FloatTokenText(d);
    FloatTokenText(e);
    TokensConcat(HeaderFields(h), [a.text, b.text, d.text, e.text]);
  }

  /** Every field a well-formed command is written with, and its tag, is made
      of token characters. */
  lemma TokensText(c: Command)
    requires WellFormed(c)
    ensures AllTokens([Tag(c)] + Tokens(c))
  {
    FieldsText(c);
    TagTokens(c, Tokens(c));
  }

  lemma FieldsText(c: Command)
    requires WellFormed(c)
    ensures AllTokens(Tokens(c))
  {
    if c.Fade? || c.Scale? || c.Rotate? || c.VectorScale? {
      FloatFieldsText(c);
    } else if c.Move? {
      MoveFieldsText(c);
    } else if c.Colour? {
      ColourFieldsText(c);
    } else {
      IntFieldsText(c);
    }
  }

  lemma FloatFieldsText(c: Command)
    requires c.Fade? || c.Scale? || c.Rotate? || c.VectorScale?
    requires WellFormed(c)
    ensures AllTokens(Tokens(c))
  {
    match c
    case Fade(h, o, e) => HeaderPairTokens(h, o, e);
    case Scale(h, a, e) => HeaderPairTokens(h, a, e);
    case Rotate(h, a, e) => HeaderPairTokens(h, a, e);
    case VectorScale(h, sx, sy, ex, ey) => HeaderQuadTokens(h, sx, sy, ex, ey);
  }

  lemma MoveFieldsText(c: Command)
    requires c.Move? && WellFormed(c)
    ensures AllTokens(Tokens(c))
  {
    var Move(h, x, y, ex, ey) := c;
    if x == None {
      HeaderPairTokens(h, y.value, ey.value);
    } else if y == None {
      HeaderPairTokens(h, x.value, ex.value);
    } else {
      HeaderQuadTokens(h, x.value, y.value, ex.value, ey.value);
    }
  }

  lemma ColourFieldsText(c: Command)
    requires c.Colour? && WellFormed(c)
    ensures AllTokens(Tokens(c))
  {
    HeaderTokenText(c.h); IntTextsTokenText(c.color); IntTextsTokenText(c.endColor);
    TokensConcat(HeaderFields(c.h), IntTexts(c.color));
    TokensConcat(HeaderFields(c.h) + IntTexts(c.color), IntTexts(c.endColor));
  }

  lemma IntFieldsText(c: Command)
    requires c.Parameters? || c.Loop? || c.Triggered?
    requires WellFormed(c)
    ensures AllTokens(Tokens(c))
  {
    match c
    case Parameters(h, effect) =>
      HeaderTokenText(h); IntTokenText(effect);
      TokensConcat(HeaderFields(h), [IntToString(effect)]);
    case Loop(time, count, _) =>
      IntTokenText(time); IntTokenText(count);
    case Triggered(tr, time, endTime, group, _) =>
      TriggerTextChars(tr);
      IntTokenText(time.value); IntTokenText(endTime.value); IntTokenText(group);
  }

  lemma PartsFree(parts: seq<string>, ch: char)
    requires AllTokens(parts) && !TokenChar(ch)
    ensures forall k :: 0 <= k < |parts| ==> Free(parts[k], ch)
  {
    forall k | 0 <= k < |parts| ensures Free(parts[k], ch) {
      TokenFree(parts[k], ch);
    }
  }

  lemma TagTokens(c: Command, ts: seq<string>)
    requires AllTokens(ts)
    ensures AllTokens([Tag(c)] + ts)
  {
    assert TokenText(Tag(c));
    TokensConcat([Tag(c)], ts);
  }

  /** The written line of a colour is its tag and tokens joined by ','. */
  lemma ColourLine(c: Command)
    requires c.Colour? && |c.color| == 3 && |c.endColor| == 3
    ensures CommandLine(c) == Ok(Join([Tag(c)] + Tokens(c), ','))
  {
    var cs := IntTexts(c.color);
    var es := IntTexts(c.endColor);
    assert Fields(c) == Ok(HeaderFields(c.h) + [Join(cs, ','), Join(es, ',')]);
    assert Tokens(c) == HeaderFields(c.h) + cs + es;
    ColourParts(Tag(c), HeaderFields(c.h), cs, es);
  }

  /** Joining the colours into one field each, then the line, is joining
      all the components into the line. */
  lemma ColourParts(t: string, hf: seq<string>, cs: seq<string>, es: seq<string>)
    requires |cs| > 0 && |es| > 0
    ensures Join([t] + (hf + [Join(cs, ','), Join(es, ',')]), ',') == Join([t] + (hf + cs + es), ',')
  {
    assert [t] + (hf + [Join(cs, ','), Join(es, ',')]) == ([t] + hf) + [Join(cs, ','), Join(es, ',')];
    assert [t] + (hf + cs + es) == ([t] + hf) + cs + es;
    JoinNested([t] + hf, cs, es, ',');
  }

  /** The line of a well-formed command is its tag and tokens joined by ',',
      and splitting it on ',' gives them back. */
  lemma LineSplit(c: Command)
    requires WellFormed(c)
    ensures CommandLine(c) == Ok(Join([Tag(c)] + Tokens(c), ','))
    ensures Split(CommandLine(c).value, ',') == [Tag(c)] + Tokens(c)
  {
    if c.Colour? {
      ColourLine(c);
    }
    var parts := [Tag(c)] + Tokens(c);
    TokensText(c);
    PartsFree(parts, ',');
    SplitJoin(parts, ',');
  }

  /** The line of a well-formed command is not empty and holds no character
      that is neither a token character nor ',': no space, no '_'. */
  lemma LineFree(c: Command, ch: char)
    requires WellFormed(c) && !TokenChar(ch) && ch != ','
    ensures |CommandLine(c).value| > 0 && Free(CommandLine(c).value, ch)
  {
    LineSplit(c);
    var parts := [Tag(c)] + Tokens(c);
    TokensText(c);
    PartsFree(parts, ch);
    JoinFree(parts, ',', ch);
    assert |Tag(c)| > 0;
    JoinHead(parts, ',');
  }
}
