/** Storyboard events (osu/events.py): the layer, origin and loop-type
    names, the Background and Animation line loaders, the reading of the
    indented command lines under an event and the lines an event is saved as. */
module Events {
  import opened Wrappers
  import opened Strings
  import opened Floats
  import opened Commands

  // ---------------------------------------------------------------- layers

  const LAYER_BACKGROUND: int := 0
  const LAYER_FAIL: int := 1
  const LAYER_PASS: int := 2
  const LAYER_FOREGROUND: int := 3

  /** `Event._parseLayer`: a numeric text is its value, the four names are
      0 to 3, anything else gives None. */
  function ParseLayer(l: string): (r: Option<int>)
    ensures IsDecimal(l) ==> r == Some(DigitsValue(l))
    ensures r.Some? ==> r.value >= 0
  {
    if IsDecimal(l) then Some(DigitsValue(l))
    else if l == "Background" then Some(LAYER_BACKGROUND)
    else if l == "Fail" then Some(LAYER_FAIL)
    else if l == "Pass" then Some(LAYER_PASS)
    else if l == "Foreground" then Some(LAYER_FOREGROUND)
    else None
  }

  /** `Event._serializeLayer`: the name of a layer 0 to 3, None otherwise. */
  function SerializeLayer(l: int): (r: Option<string>)
    ensures r.Some? <==> 0 <= l < 4
  {
    if l == 0 then Some("Background")
    else if l == 1 then Some("Fail")
    else if l == 2 then Some("Pass")
    else if l == 3 then Some("Foreground")
    else None
  }

  /** A layer name is read back as its layer, and so is the decimal text of
      any layer number. */
  lemma LayerRoundTrip(l: int)
    requires 0 <= l < 4
    ensures ParseLayer(SerializeLayer(l).value) == Some(l)
    ensures ParseLayer(IntToString(l)) == Some(l)
  {
    var name := SerializeLayer(l).value;
    assert !IsDigit(name[0]);
    ParseIntToString(l);
    assert IntToString(l) == NatToString(l);
  }

  /** The decimal text of any non-negative number is read as that number. */
  lemma LayerNumeric(n: nat)
    ensures ParseLayer(NatToString(n)) == Some(n)
  {
  }

  // ---------------------------------------------------------------- origins

  /** `SpriteEvent.ORIGIN_*`: the origin names by value. */
  const ORIGINS: seq<string> := ["TopLeft", "TopCentre", "TopRight", "CentreLeft", "Centre",
                                  "CentreRight", "BottomLeft", "BottomCentre", "BottomRight"]

  /** `SpriteEvent._serializeOrigin`: the name of an origin 0 to 8, and a
      ValueError for any other value. */
  function SerializeOrigin(o: int): (r: Result<string>)
    ensures r.Ok? <==> 0 <= o < 9
    ensures r.Ok? ==> r.value == ORIGINS[o]
    ensures r.Err? ==> r.error == ValueError
  {
    if 0 <= o < 9 then Ok(ORIGINS[o]) else Err(ValueError)
  }

  /** `SpriteEvent._parseOrigin` as written: `o.isnumeric` is a method and
      therefore true, so every text goes through `int`. */
  function ParseOriginAsWritten(o: string): (r: Result<int>)
    ensures r == ParseInt(o)
  {
    ParseInt(o)
  }

  /** `SpriteEvent._parseOrigin` as evidently intended: a numeric text is its
      value, a name its position in the table, anything else a ValueError. */
  function ParseOrigin(o: string): (r: Result<int>)
    ensures IsDecimal(o) ==> r == Ok(DigitsValue(o))
    ensures r.Ok? <==> IsDecimal(o) || o in ORIGINS
    ensures r.Ok? && !IsDecimal(o) ==> 0 <= r.value < 9 && ORIGINS[r.value] == o
    ensures r.Err? ==> r.error == ValueError
  {
    if IsDecimal(o) then Ok(DigitsValue(o))
    else if o == "TopLeft" then Ok(0)
    else if o == "TopCentre" then Ok(1)
    else if o == "TopRight" then Ok(2)
    else if o == "CentreLeft" then Ok(3)
    else if o == "Centre" then Ok(4)
    else if o == "CentreRight" then Ok(5)
    else if o == "BottomLeft" then Ok(6)
    else if o == "BottomCentre" then Ok(7)
    else if o == "BottomRight" then Ok(8)
    else Err(ValueError)
  }

  /** As written, no origin name is read: the name is not an integer. */
  lemma OriginNamesRefused(o: int)
    requires 0 <= o < 9
    ensures ParseOriginAsWritten(SerializeOrigin(o).value) == Err(ValueError)
  {
    var name := ORIGINS[o];
    assert !IsDigit(name[0]) && name[0] != '-' && name[0] != '+';
  }

  /** As intended, every name written is read back as its origin, and so is
      every origin number. */
  lemma OriginRoundTrip(o: int)
    requires 0 <= o < 9
    ensures ParseOrigin(SerializeOrigin(o).value) == Ok(o)
    ensures ParseOrigin(IntToString(o)) == Ok(o)
    ensures ParseOriginAsWritten(IntToString(o)) == Ok(o)
  {
    var name := ORIGINS[o];
    assert !IsDigit(name[0]);
    OriginName(o);
    assert IntToString(o) == NatToString(o);
    ParseIntToString(o);
  }

  lemma OriginName(o: int)
    requires 0 <= o < 9
    ensures !IsDecimal(ORIGINS[o]) ==> ParseOrigin(ORIGINS[o]) == Ok(o)
  {
    if o == 0 {
    } else if o == 1 {
      assert ORIGINS[1][3] != ORIGINS[0][3];
    } else if o == 2 {
      assert ORIGINS[2][3] != ORIGINS[0][3] && ORIGINS[2][3] != ORIGINS[1][3];
    } else if o == 3 {
      assert ORIGINS[3][0] != 'T';
    } else if o == 4 {
      assert ORIGINS[4][0] != 'T' && |ORIGINS[4]| != |ORIGINS[3]|;
    } else if o == 5 {
      assert ORIGINS[5][0] != 'T' && |ORIGINS[5]| != |ORIGINS[3]| && |ORIGINS[5]| != |ORIGINS[4]|;
    } else if o == 6 {
      assert ORIGINS[6][0] == 'B';
    } else if o == 7 {
      assert ORIGINS[7][0] == 'B' && ORIGINS[7][6] != ORIGINS[6][6];
    } else {
      assert ORIGINS[8][0] == 'B' && ORIGINS[8][6] != ORIGINS[6][6] && ORIGINS[8][6] != ORIGINS[7][6];
    }
  }

  // ---------------------------------------------------------------- background

  /** The fields of a Background (or Video) event line. */
  datatype Background = Background(filename: string, time: int, x: int, y: int)

  /** `BackgroundEvent._loadFromFile` as written, on the comma-separated
      fields of the line: after the file name and the time, `eventInfo >= 5`
      compares a list with an integer, which raises TypeError. */
  function LoadBackgroundAsWritten(info: seq<string>): (r: Result<Background>)
    ensures r.Err?
    ensures |info| <= 2 ==> r == Err(ValueError)
    ensures |info| > 2 && ParseInt(info[1]).Ok? ==> r == Err(TypeError)
  {
    if |info| <= 2 then Err(ValueError)
    else
      var time :- ParseInt(info[1]);
      Err(TypeError)
  }

  /** `BackgroundEvent._loadFromFile` as evidently intended, on the fields of
      the line and the event it updates: the file name without its quotes,
      the time, and the position when the line has one. */
  function LoadBackground(info: seq<string>, prev: Background): (r: Result<Background>)
    ensures r.Ok? <==> |info| > 2 && ParseInt(info[1]).Ok? && (|info| >= 5 ==> ParseInt(info[3]).Ok? && ParseInt(info[4]).Ok?)
    ensures r.Ok? ==> r.value.filename == Strip(info[2], '"') && ParseInt(info[1]) == Ok(r.value.time)
    ensures r.Ok? && |info| >= 5 ==> ParseInt(info[3]) == Ok(r.value.x) && ParseInt(info[4]) == Ok(r.value.y)
    ensures r.Ok? && |info| < 5 ==> r.value.x == prev.x && r.value.y == prev.y
    ensures r.Err? ==> r.error == ValueError
  {
    if |info| <= 2 then Err(ValueError)
    else
      var filename := Strip(info[2], '"');
      var time :- ParseInt(info[1]);
      if |info| >= 5 then
        var x :- ParseInt(info[3]);
        var y :- ParseInt(info[4]);
        Ok(Background(filename, time, x, y))
      else Ok(Background(filename, time, prev.x, prev.y))
  }

  /** `BackgroundEvent._getBaseSaveString` */
  function BackgroundLine(b: Background): (r: string)
    ensures Free(b.filename, ',') ==> var p := Split(r, ',');
      |p| == 5 && p[0] == "Background" && p[2] == b.filename
      && ParseInt(p[1]) == Ok(b.time) && ParseInt(p[3]) == Ok(b.x) && ParseInt(p[4]) == Ok(b.y)
  {
    var parts := ["Background", IntToString(b.time), b.filename, IntToString(b.x), IntToString(b.y)];
    if Free(b.filename, ',') then
      IntToStringChars(b.time);
      IntToStringChars(b.x);
      IntToStringChars(b.y);
      FreeInt(IntToString(b.time), ',');
      FreeInt(IntToString(b.x), ',');
      FreeInt(IntToString(b.y), ',');
      SplitJoin(parts, ',');
      ParseIntToString(b.time);
      ParseIntToString(b.x);
      ParseIntToString(b.y);
      Join(parts, ',')
    else Join(parts, ',')
  }

  /** `BackgroundEvent._loadFromFile` with only its length test corrected to
      `len(eventInfo) >= 5`: the position is then read as written, so field 3
      is stored in x, overwritten at once by field 4, and y keeps its old value. */
  function LoadBackgroundLengthFixed(info: seq<string>, prev: Background): (r: Result<Background>)
    ensures r.Ok? <==> |info| > 2 && ParseInt(info[1]).Ok? && (|info| >= 5 ==> ParseInt(info[3]).Ok? && ParseInt(info[4]).Ok?)
    ensures r.Ok? ==> r.value.filename == Strip(info[2], '"') && ParseInt(info[1]) == Ok(r.value.time)
    ensures r.Ok? && |info| >= 5 ==> ParseInt(info[4]) == Ok(r.value.x) && r.value.y == prev.y
    ensures r.Ok? && |info| < 5 ==> r.value.x == prev.x && r.value.y == prev.y
    ensures r.Err? ==> r.error == ValueError
  {
    if |info| <= 2 then Err(ValueError)
    else
      var filename := Strip(info[2], '"');
      var time :- ParseInt(info[1]);
      if |info| >= 5 then
        var x :- ParseInt(info[3]);
        var x :- ParseInt(info[4]);
        Ok(Background(filename, time, x, prev.y))
      else Ok(Background(filename, time, prev.x, prev.y))
  }

  /** On `0,0,"bg.jpg",1,2` the partly corrected loader stores 2 in x and
      leaves y as it was, where the corrected one stores x = 1 and y = 2. */
  lemma BackgroundYLost(prev: Background)
    requires prev.y != 2
    ensures var info := ["0", "0", "\"bg.jpg\"", "1", "2"];
      LoadBackgroundLengthFixed(info, prev) == Ok(Background("bg.jpg", 0, 2, prev.y))
      && LoadBackground(info, prev) == Ok(Background("bg.jpg", 0, 1, 2))
      && LoadBackgroundLengthFixed(info, prev) != LoadBackground(info, prev)
  {
    var info := ["0", "0", "\"bg.jpg\"", "1", "2"];
    ParseIntToString(0);
    ParseIntToString(1);
    ParseIntToString(2);
    assert IntToString(0) == "0" && IntToString(1) == "1" && IntToString(2) == "2";
    assert info[2] == "\"" + "bg.jpg" + "\"";
    QuotedStrip("bg.jpg");
  }

  /** The line a background is saved as is loaded back as that background,
      when its file name has no ',' and does not start or end with '"'. */
  lemma BackgroundRoundTrip(b: Background, prev: Background)
    requires Free(b.filename, ',') && (|b.filename| > 0 ==> b.filename[0] != '"' && b.filename[|b.filename| - 1] != '"')
    ensures LoadBackground(Split(BackgroundLine(b), ','), prev) == Ok(b)
  {
    StripNoop(b.filename, '"');
  }

  // ---------------------------------------------------------------- sprites

  /** The fields `_loadSpriteEventInfo` reads. */
  datatype Sprite = Sprite(layer: Option<int>, origin: int, filename: string, x: Real, y: Real)

  /** `SpriteEvent._loadSpriteEventInfo` with the origin already parsed. */
  function SpriteFields(info: seq<string>, origin: int): (r: Result<Sprite>)
    requires |info| > 5
    ensures r.Ok? <==> ParseFloat(info[4]).Ok? && ParseFloat(info[5]).Ok?
    ensures r.Ok? ==> r.value == Sprite(ParseLayer(info[1]), origin, Strip(info[3], '"'),
                                        ParseFloat(info[4]).value, ParseFloat(info[5]).value)
    ensures r.Err? ==> r.error == ValueError
  {
    var x :- ParseFloat(info[4]);
    var y :- ParseFloat(info[5]);
    Ok(Sprite(ParseLayer(info[1]), origin, Strip(info[3], '"'), x, y))
  }

  /** An Animation line's own fields after the sprite's. */
  datatype Animation = Animation(sprite: Sprite, frameCount: int, frameDelay: Real, loopType: int)

  const LOOP_FOREVER: int := 0
  const LOOP_ONCE: int := 1

  /** `AnimationEvent._loadFromFile` as written: with the sprite fields, the
      frame count and the frame delay read, `eventInfo > 8` compares a list
      with an integer, which raises TypeError; so does every line that gets
      that far. */
  function LoadAnimationAsWritten(info: seq<string>): (r: Result<Animation>)
    ensures r.Err?
    ensures |info| <= 7 ==> r == Err(ValueError)
  {
    if |info| <= 7 then Err(ValueError)
    else
      var origin :- ParseOriginAsWritten(info[2]);
      var sprite :- SpriteFields(info, origin);
      var frameCount :- ParseInt(info[6]);
      var frameDelay :- ParseFloat(info[7]);
      Err(TypeError)
  }

  /** The loop type of an Animation line: a numeric text is its value,
      "Forever" and "Once" their constants, anything else a ValueError. */
  function ParseLoopType(t: string): (r: Result<int>)
    ensures IsDecimal(t) ==> r == Ok(DigitsValue(t))
    ensures t == "Forever" ==> r == Ok(LOOP_FOREVER)
    ensures t == "Once" ==> r == Ok(LOOP_ONCE)
    ensures !IsDecimal(t) && t != "Forever" && t != "Once" ==> r == Err(ValueError)
  {
    if IsDecimal(t) then Ok(DigitsValue(t))
    else if t == "Forever" then Ok(LOOP_FOREVER)
    else if t == "Once" then Ok(LOOP_ONCE)
    else Err(ValueError)
  }

  /** `AnimationEvent._loadFromFile` as evidently intended: the loop type is
      read when the line has a ninth field and is Forever otherwise. */
  function LoadAnimation(info: seq<string>): (r: Result<Animation>)
    ensures |info| <= 7 ==> r == Err(ValueError)
    ensures |info| > 7 ==> (r.Ok? <==> ParseOrigin(info[2]).Ok? && ParseFloat(info[4]).Ok? && ParseFloat(info[5]).Ok?
                                       && ParseInt(info[6]).Ok? && ParseFloat(info[7]).Ok?
                                       && (|info| > 8 ==> ParseLoopType(info[8]).Ok?))
    ensures r.Ok? ==> (|info| > 7 && ParseOrigin(info[2]).Ok?
                       && SpriteFields(info, ParseOrigin(info[2]).value) == Ok(r.value.sprite)
                       && ParseInt(info[6]) == Ok(r.value.frameCount) && ParseFloat(info[7]) == Ok(r.value.frameDelay))
    ensures r.Ok? && |info| > 8 ==> ParseLoopType(info[8]) == Ok(r.value.loopType)
    ensures r.Ok? && |info| <= 8 ==> r.value.loopType == LOOP_FOREVER
    ensures r.Err? ==> r.error == ValueError
  {
    if |info| <= 7 then Err(ValueError)
    else
      var origin :- ParseOrigin(info[2]);
      var sprite :- SpriteFields(info, origin);
      var frameCount :- ParseInt(info[6]);
      var frameDelay :- ParseFloat(info[7]);
      var loopType :- if |info| > 8 then ParseLoopType(info[8]) else Ok(LOOP_FOREVER);
      Ok(Animation(sprite, frameCount, frameDelay, loopType))
  }

  /** `AnimationEvent._serializeLoopType` */
  function SerializeLoopType(t: int): (r: Result<string>)
    ensures r.Ok? <==> t == LOOP_FOREVER || t == LOOP_ONCE
    ensures r.Err? ==> r.error == ValueError
  {
    if t == LOOP_FOREVER then Ok("Forever") else if t == LOOP_ONCE then Ok("Once") else Err(ValueError)
  }

  /** `_serializeLayer(layer)` inside an f-string: the name of the layer,
      and "None" for a layer that has none. */
  function LayerText(layer: Option<int>): string
  {
    if layer.Some? && SerializeLayer(layer.value).Some? then SerializeLayer(layer.value).value else "None"
  }

  /** The fields `AnimationEvent._getBaseSaveString` writes, for an origin
      and a loop type that have names. */
  function AnimationParts(a: Animation): (r: seq<string>)
    requires 0 <= a.sprite.origin < 9 && (a.loopType == LOOP_FOREVER || a.loopType == LOOP_ONCE)
    ensures |r| == 9
  {
    ["Animation", LayerText(a.sprite.layer), SerializeOrigin(a.sprite.origin).value, "\"" + a.sprite.filename + "\"",
     a.sprite.x.text, a.sprite.y.text, IntToString(a.frameCount), a.frameDelay.text, SerializeLoopType(a.loopType).value]
  }

  /** `AnimationEvent._getBaseSaveString`: the layer, origin, quoted file
      name, position, frame count, frame delay and loop type after the
      word `Animation`; an origin or loop type without a name raises
      ValueError. */
  function AnimationLine(a: Animation): (r: Result<string>)
    ensures r.Ok? <==> 0 <= a.sprite.origin < 9 && (a.loopType == LOOP_FOREVER || a.loopType == LOOP_ONCE)
    ensures r.Ok? ==> r.value == Join(AnimationParts(a), ',')
    ensures r.Err? ==> r.error == ValueError
  {
    var origin :- SerializeOrigin(a.sprite.origin);
    var loopType :- SerializeLoopType(a.loopType);
    Ok(Join(AnimationParts(a), ','))
  }

  /** Stripping the quotes the writer puts around a file name gives it back. */
  lemma QuotedStrip(f: string)
    requires |f| > 0 ==> f[0] != '"' && f[|f| - 1] != '"'
    ensures Strip("\"" + f + "\"", '"') == f
  {
    var q := "\"" + f + "\"";
    assert q[1..] == f + "\"";
    if |f| > 0 {
      assert LStrip(q, '"') == f + "\"";
      assert (f + "\"")[..|f|] == f;
    } else {
      assert LStrip(q, '"') == "";
    }
  }

  /** No layer, origin or loop-type name holds a ','. */
  lemma NamesFree(layer: Option<int>, o: int, t: int)
    requires 0 <= o < 9 && (t == LOOP_FOREVER || t == LOOP_ONCE)
    ensures Free(LayerText(layer), ',') && Free(SerializeOrigin(o).value, ',') && Free(SerializeLoopType(t).value, ',')
  {
    var names := ORIGINS;
    assert forall k, i :: 0 <= k < 9 && 0 <= i < |names[k]| ==> names[k][i] != ',';
  }

  /** An animation whose written fields hold no ',' splits back into them. */
  lemma AnimationPartsSplit(a: Animation)
    requires 0 <= a.sprite.origin < 9 && (a.loopType == LOOP_FOREVER || a.loopType == LOOP_ONCE)
    requires Free(a.sprite.filename, ',')
    requires FloatOk(a.sprite.x) && FloatOk(a.sprite.y) && FloatOk(a.frameDelay)
    ensures Split(Join(AnimationParts(a), ','), ',') == AnimationParts(a)
  {
    var sp := a.sprite;
    NamesFree(sp.layer, sp.origin, a.loopType);
    assert Free("\"" + sp.filename + "\"", ',');
    ParseFloatChars(sp.x.text);
    ParseFloatChars(sp.y.text);
    ParseFloatChars(a.frameDelay.text);
    IntToStringChars(a.frameCount);
    FreeInt(IntToString(a.frameCount), ',');
    SplitJoin(AnimationParts(a), ',');
  }

  /** The written fields of an animation load back as that animation. */
  lemma AnimationPartsLoad(a: Animation)
    requires a.sprite.layer.Some? && 0 <= a.sprite.layer.value < 4
    requires 0 <= a.sprite.origin < 9 && (a.loopType == LOOP_FOREVER || a.loopType == LOOP_ONCE)
    requires |a.sprite.filename| > 0 ==> a.sprite.filename[0] != '"' && a.sprite.filename[|a.sprite.filename| - 1] != '"'
    requires FloatOk(a.sprite.x) && FloatOk(a.sprite.y) && FloatOk(a.frameDelay)
    ensures LoadAnimation(AnimationParts(a)) == Ok(a)
  {
    var sp := a.sprite;
    var info := AnimationParts(a);
    var origin, loop := SerializeOrigin(sp.origin).value, SerializeLoopType(a.loopType).value;
    assert info[2] == origin && info[8] == loop;
    LayerRoundTrip(sp.layer.value);
    OriginRoundTrip(sp.origin);
    LoopTypeRoundTrip(a.loopType);
    QuotedStrip(sp.filename);
    ParseIntToString(a.frameCount);
    assert ParseOrigin(info[2]) == Ok(sp.origin);
    assert SpriteFields(info, sp.origin) == Ok(sp);
    assert ParseLoopType(info[8]) == Ok(a.loopType);
  }

  /** The line an animation is saved as is loaded back as that animation,
      when it has a layer 0 to 3, an origin and loop type with a name, a
      file name with no ',' and no outer '"', and floats read from their
      texts. */
  lemma AnimationRoundTrip(a: Animation)
    requires a.sprite.layer.Some? && 0 <= a.sprite.layer.value < 4
    requires 0 <= a.sprite.origin < 9 && (a.loopType == LOOP_FOREVER || a.loopType == LOOP_ONCE)
    requires Free(a.sprite.filename, ',')
    requires |a.sprite.filename| > 0 ==> a.sprite.filename[0] != '"' && a.sprite.filename[|a.sprite.filename| - 1] != '"'
    requires FloatOk(a.sprite.x) && FloatOk(a.sprite.y) && FloatOk(a.frameDelay)
    ensures AnimationLine(a).Ok? && LoadAnimation(Split(AnimationLine(a).value, ',')) == Ok(a)
  {
    AnimationPartsSplit(a);
    AnimationPartsLoad(a);
  }

  /** Both loop-type names are read back as their loop type. */
  lemma LoopTypeRoundTrip(t: int)
    requires t == LOOP_FOREVER || t == LOOP_ONCE
    ensures ParseLoopType(SerializeLoopType(t).value) == Ok(t)
  {
    var name := SerializeLoopType(t).value;
    assert !IsDigit(name[0]);
    assert name == "Once" ==> name != "Forever";
  }

  // ---------------------------------------------------------------- command tree

  /** A container with other children. */
  function WithChildren(x: Command, ch: seq<Command>): (r: Command)
    requires x.IsContainer()
    ensures r.IsContainer() && r.children == ch && Bare(r) == Bare(x)
  {
    x.(children := ch)
  }

  /** How deep the chain of last commands that are containers goes: the
      containers a new command can be appended to, the event itself being
      depth 0. */
  function Spine(cs: seq<Command>): nat
    decreases cs
  {
    if |cs| > 0 && cs[|cs| - 1].IsContainer() then 1 + Spine(cs[|cs| - 1].children) else 0
  }

  /** The commands of a tree in the order they were appended: each command
      (without its children) followed by its children's listing. */
  function Flatten(cs: seq<Command>): seq<Command>
    decreases cs
  {
    if |cs| == 0 then []
    else
      var last := cs[|cs| - 1];
      Flatten(cs[..|cs| - 1]) + [Bare(last)] + (if last.IsContainer() then Flatten(last.children) else [])
  }

  /** A command as a reader gives it is listed as itself. */
  lemma FlattenRead(c: Command)
    requires c.IsContainer() ==> c.children == []
    ensures Flatten([c]) == [c]
  {
    assert [c][..0] == [];
    if c.IsContainer() {
      assert Flatten(c.children) == [];
    }
  }

  /** `target.transformEvents.append(c)` where target is the container at
      depth d along the spine: the commands off the spine are kept, and the
      spine now ends in c's own. */
  function AppendAt(cs: seq<Command>, d: nat, c: Command): (r: seq<Command>)
    requires d <= Spine(cs)
    ensures Spine(r) == d + (if c.IsContainer() then 1 + Spine(c.children) else 0)
    decreases d
  {
    if d == 0 then cs + [c]
    else
      var last := cs[|cs| - 1];
      var r := cs[..|cs| - 1] + [WithChildren(last, AppendAt(last.children, d - 1, c))];
      assert r[..|cs| - 1] == cs[..|cs| - 1];
      assert r[|r| - 1] == WithChildren(last, AppendAt(last.children, d - 1, c));
      r
  }

  /** The listing of a tree with one more command at its end. */
  lemma FlattenSnoc(pre: seq<Command>, x: Command)
    ensures Flatten(pre + [x]) == Flatten(pre) + [Bare(x)] + (if x.IsContainer() then Flatten(x.children) else [])
  {
    assert (pre + [x])[..|pre|] == pre;
  }

  /** Appending at the spine puts c, and what it holds, at the end of the
      listing of the tree. */
  lemma {:induction false} AppendFlatten(cs: seq<Command>, d: nat, c: Command)
    requires d <= Spine(cs)
    ensures Flatten(AppendAt(cs, d, c)) == Flatten(cs) + Flatten([c])
    decreases d
  {
    if d == 0 {
      AppendTop(cs, c);
    } else {
      var ch := cs[|cs| - 1].children;
      assert d - 1 <= Spine(ch);
      AppendFlatten(ch, d - 1, c);
      var inner, before, tail := Flatten(AppendAt(ch, d - 1, c)), Flatten(ch), Flatten([c]);
      assert inner == before + tail;
      AppendStep(cs, d, c);
    }
  }

  /** One level of AppendFlatten: appending below the event extends the
      listing as appending into the last command's children does. */
  lemma AppendStep(cs: seq<Command>, d: nat, c: Command)
    requires 0 < d <= Spine(cs)
    requires cs[|cs| - 1].IsContainer() && d - 1 <= Spine(cs[|cs| - 1].children)
    requires Flatten(AppendAt(cs[|cs| - 1].children, d - 1, c)) == Flatten(cs[|cs| - 1].children) + Flatten([c])
    ensures Flatten(AppendAt(cs, d, c)) == Flatten(cs) + Flatten([c])
  {
    var pre, last := cs[..|cs| - 1], cs[|cs| - 1];
    assert cs == pre + [last];
    AppendDeeper(cs, d, c);
    FlattenLast(pre, last, AppendAt(last.children, d - 1, c), Flatten([c]));
  }

  /** Appending at the top level lists c, and what it holds, last. */
  lemma AppendTop(cs: seq<Command>, c: Command)
    ensures Flatten(cs + [c]) == Flatten(cs) + Flatten([c])
  {
    FlattenSnoc(cs, c);
    FlattenSnoc([], c);
    assert [] + [c] == [c];
  }

  /** Appending below the event goes into the last command's children. */
  lemma AppendDeeper(cs: seq<Command>, d: nat, c: Command)
    requires 0 < d <= Spine(cs)
    ensures cs[|cs| - 1].IsContainer() && d - 1 <= Spine(cs[|cs| - 1].children)
    ensures AppendAt(cs, d, c)
            == cs[..|cs| - 1] + [WithChildren(cs[|cs| - 1], AppendAt(cs[|cs| - 1].children, d - 1, c))]
  {
  }

  /** Extending the children of the last command extends the listing. */
  lemma FlattenLast(pre: seq<Command>, last: Command, inner: seq<Command>, tail: seq<Command>)
    requires last.IsContainer() && Flatten(inner) == Flatten(last.children) + tail
    ensures Flatten(pre + [WithChildren(last, inner)]) == Flatten(pre + [last]) + tail
  {
    var x := WithChildren(last, inner);
    FlattenSnoc(pre, x);
    FlattenSnoc(pre, last);
    var a, b, l := Flatten(pre), Bare(last), Flatten(last.children);
    assert a + [b] + (l + tail) == a + [b] + l + tail;
  }

  // ---------------------------------------------------------------- child block

  /** What `readLine` gives at position p: past the last line it is "". */
  function LineAt(lines: seq<string>, p: nat): string
  {
    if p < |lines| then lines[p] else ""
  }

  predicate Indentation(ch: char) { ch == ' ' || ch == '_' }

  /** A line of the block under an event: two characters or more, the
      first of them indentation. */
  predicate IsChildLine(line: string) { |line| >= 2 && Indentation(line[0]) }

  /** The fields of a child line, with `.trim` read as `strip`: stripped of
      ' ' and then of '_' at both ends, and split on ','. */
  function ChildFields(line: string): (r: seq<string>)
    ensures |r| > 0
  {
    Split(Strip(Strip(line, ' '), '_'), ',')
  }

  /** A table in the shape of `eventTypeDict`: for a tag, the reader that
      makes a command of that kind from the fields of a line, starting at an
      index, and gives the index after the fields it used. */
  type Readers = (string, seq<string>, nat) -> Result<(Command, nat)>

  /** A command as a reader makes it: a container without children yet. */
  predicate Fresh(c: Command) { c.IsContainer() ==> c.children == [] }

  /** What the block loader relies on in its table: a read that succeeds
      moves the index forward and makes a fresh command, a container exactly
      under the tags 'L' and 'T'; a read fails with the errors of parsing. */
  ghost predicate Advancing(read: Readers)
  {
    forall tag, info, i ::
      (read(tag, info, i).Ok? ==>
         read(tag, info, i).value.1 > i && Fresh(read(tag, info, i).value.0)
         && (read(tag, info, i).value.0.IsContainer() <==> ContainerTag(tag)))
      && (read(tag, info, i).Err? ==> read(tag, info, i).error in {IndexError, ValueError, KeyError})
  }

  /** `eventTypeDict` with the corrected `R` reader: each tag mapped to the
      reader of its command. */
  function EventTypes(): (r: Readers)
    ensures Advancing(r)
    ensures forall tag, info, i :: r(tag, info, i) == ReadCommand(tag, info, i)
  {
    ReadCommand
  }

  /** `eventTypeDict` as written, with the `R` reader that leaves the index
      on the end angle. */
  function EventTypesAsWritten(): (r: Readers)
    ensures Advancing(r)
    ensures forall tag, info, i :: tag != "R" ==> r(tag, info, i) == EventTypes()(tag, info, i)
  {
    ReadCommandAsWritten
  }

  /** The commands the reader of one tag makes one after the other from
      field i of a line to its end. */
  function ReadAll(read: Readers, tag: string, info: seq<string>, i: nat): (r: Result<seq<Command>>)
    requires Advancing(read)
    ensures r.Ok? ==> forall k :: 0 <= k < |r.value| ==>
                        Fresh(r.value[k]) && (r.value[k].IsContainer() <==> ContainerTag(tag))
    decreases |info| - i
  {
    if i >= |info| then Ok([])
    else
      var (c, next) :- read(tag, info, i);
      var rest :- ReadAll(read, tag, info, next);
      Ok([c] + rest)
  }

  /** The inner loop over one line: each command read is appended to the
      target, and a loop read becomes the target. */
  function LoadSegments(read: Readers, tag: string, info: seq<string>, i: nat, events: seq<Command>,
                        target: Option<nat>)
    : (r: Result<(seq<Command>, Option<nat>)>)
    requires Advancing(read)
    requires target.Some? ==> target.value <= Spine(events)
    ensures r.Ok? ==> r.value.1.Some? ==> r.value.1.value <= Spine(r.value.0)
    ensures r.Err? ==> r.error in {AttributeError, IndexError, ValueError, KeyError}
    decreases |info| - i
  {
    if i >= |info| then Ok((events, target))
    else
      var (c, next) :- read(tag, info, i);
      if target.None? then Err(AttributeError)
      else LoadSegments(read, tag, info, next, AppendAt(events, target.value, c),
                        if ContainerTag(tag) then Some(target.value + 1) else target)
  }

  /** The listing after a line is the listing before it followed by the
      commands read from it. */
  lemma {:induction false} SegmentsListing(read: Readers, tag: string, info: seq<string>, i: nat,
                                           events: seq<Command>, target: Option<nat>)
    requires Advancing(read)
    requires target.Some? ==> target.value <= Spine(events)
    ensures var r := LoadSegments(read, tag, info, i, events, target); var all := ReadAll(read, tag, info, i);
      r.Ok? ==> all.Ok? && Flatten(r.value.0) == Flatten(events) + all.value
    decreases |info| - i
  {
    if i >= |info| {
      assert Flatten(events) + [] == Flatten(events);
    } else if read(tag, info, i).Ok? && target.Some? {
      var (c, next) := read(tag, info, i).value;
      var events' := AppendAt(events, target.value, c);
      var target' := if ContainerTag(tag) then Some(target.value + 1) else target;
      SegmentsStep(read, tag, info, i, events, target.value);
      ReadAllStep(read, tag, info, i);
      SegmentsListing(read, tag, info, next, events', target');
      var r := LoadSegments(read, tag, info, next, events', target');
      if r.Ok? {
        FlattenStep(events, target.value, c, ReadAll(read, tag, info, next).value, r.value.0);
      }
    }
  }

  /** With a target a line loads exactly when all its fields read. */
  lemma {:induction false} SegmentsAgree(read: Readers, tag: string, info: seq<string>, i: nat,
                                         events: seq<Command>, target: Option<nat>)
    requires Advancing(read)
    requires target.Some? ==> target.value <= Spine(events)
    ensures target.Some? ==> (LoadSegments(read, tag, info, i, events, target).Ok? <==> ReadAll(read, tag, info, i).Ok?)
    decreases |info| - i
  {
    if i < |info| && read(tag, info, i).Ok? && target.Some? {
      var (c, next) := read(tag, info, i).value;
      var events' := AppendAt(events, target.value, c);
      var target' := if ContainerTag(tag) then Some(target.value + 1) else target;
      SegmentsAgree(read, tag, info, next, events', target');
      assert LoadSegments(read, tag, info, i, events, target) == LoadSegments(read, tag, info, next, events', target');
      assert ReadAll(read, tag, info, i).Ok? <==> ReadAll(read, tag, info, next).Ok?;
    }
  }

  /** One step of the inner loop: what is read is appended at the target. */
  lemma SegmentsStep(read: Readers, tag: string, info: seq<string>, i: nat, events: seq<Command>, d: nat)
    requires Advancing(read) && d <= Spine(events)
    requires i < |info| && read(tag, info, i).Ok?
    ensures var (c, next) := read(tag, info, i).value;
      LoadSegments(read, tag, info, i, events, Some(d))
      == LoadSegments(read, tag, info, next, AppendAt(events, d, c), Some(if ContainerTag(tag) then d + 1 else d))
  {
  }

  /** One step of reading all the commands of a line. */
  lemma ReadAllStep(read: Readers, tag: string, info: seq<string>, i: nat)
    requires Advancing(read)
    requires i < |info| && read(tag, info, i).Ok?
    ensures var (c, next) := read(tag, info, i).value;
      ReadAll(read, tag, info, next).Ok? ==> ReadAll(read, tag, info, i) == Ok([c] + ReadAll(read, tag, info, next).value)
    ensures var (c, next) := read(tag, info, i).value;
      ReadAll(read, tag, info, next).Err? ==> ReadAll(read, tag, info, i).Err?
  {
  }

  /** The target moves down once per `L` or `T` read. */
  lemma {:induction false} SegmentsDescend(read: Readers, tag: string, info: seq<string>, i: nat,
                                           events: seq<Command>, d: nat)
    requires Advancing(read) && ContainerTag(tag)
    requires d <= Spine(events)
    ensures var r := LoadSegments(read, tag, info, i, events, Some(d)); var all := ReadAll(read, tag, info, i);
      r.Ok? && all.Ok? ==> r.value.1 == Some(d + |all.value|)
    decreases |info| - i
  {
    if i < |info| && read(tag, info, i).Ok? {
      var (c, next) := read(tag, info, i).value;
      SegmentsStep(read, tag, info, i, events, d);
      ReadAllStep(read, tag, info, i);
      SegmentsDescend(read, tag, info, next, AppendAt(events, d, c), d + 1);
    }
  }

  /** Reading anything but `L` and `T` leaves the target where it is. */
  lemma {:induction false} SegmentsStay(read: Readers, tag: string, info: seq<string>, i: nat,
                                        events: seq<Command>, d: nat)
    requires Advancing(read) && !ContainerTag(tag)
    requires d <= Spine(events)
    ensures var r := LoadSegments(read, tag, info, i, events, Some(d)); r.Ok? ==> r.value.1 == Some(d)
    decreases |info| - i
  {
    if i < |info| && read(tag, info, i).Ok? {
      var (c, next) := read(tag, info, i).value;
      SegmentsStep(read, tag, info, i, events, d);
      SegmentsStay(read, tag, info, next, AppendAt(events, d, c), d);
    }
  }

  /** With no target only a line with nothing to read loads, and it
      changes nothing. */
  lemma SegmentsUntargeted(read: Readers, tag: string, info: seq<string>, i: nat, events: seq<Command>)
    requires Advancing(read)
    ensures var r := LoadSegments(read, tag, info, i, events, None);
      r.Ok? ==> r.value == (events, None) && ReadAll(read, tag, info, i) == Ok([])
  {
  }

  /** When the listing after appending a fresh c at the spine goes on with
      rest, the listing from before goes on with c and then rest. */
  lemma FlattenStep(events: seq<Command>, d: nat, c: Command, rest: seq<Command>, out: seq<Command>)
    requires d <= Spine(events) && Fresh(c)
    requires Flatten(out) == Flatten(AppendAt(events, d, c)) + rest
    ensures Flatten(out) == Flatten(events) + ([c] + rest)
  {
    FlattenRead(c);
    AppendFlatten(events, d, c);
    assert Flatten(events) + [c] + rest == Flatten(events) + ([c] + rest);
  }

  /** How the block loader takes a child line apart: `fields` strips and
      splits it, `keys` are the tags of `eventTypeDict` and `read` its
      readers. */
  datatype Parser = Parser(fields: string -> seq<string>, keys: set<string>, read: Readers)

  /** What the block loader relies on in a parser: a split line has a tag,
      and the readers are advancing. */
  ghost predicate Sound(pr: Parser)
  {
    Advancing(pr.read) && forall line :: |pr.fields(line)| > 0
  }

  /** The parser of `_loadChildEventsFromFile` as evidently intended:
      `.trim(' ').trim('_')` read as `.strip`, `.split(',')`, and
      `eventTypeDict` with the corrected `R` reader. */
  function ChildParser(): (pr: Parser)
    ensures Sound(pr)
  {
    Parser(ChildFields, TAGS, EventTypes())
  }

  /** On the line `R,0,0,1,0,1` the inner loop with the table as written
      reads a rotation, starts a second one on its end angle and runs out of
      fields, so the line raises IndexError; with the corrected table it
      appends exactly one rotation under the target. */
  lemma RotateLineAsWritten(events: seq<Command>)
    ensures var info := ["R", "0", "0", "1", "0", "1"];
      LoadSegments(EventTypesAsWritten(), "R", info, 1, events, Some(0)) == Err(IndexError)
    ensures var info := ["R", "0", "0", "1", "0", "1"];
      var r := LoadSegments(EventTypes(), "R", info, 1, events, Some(0));
      r.Ok? && r.value.1 == Some(0) && Flatten(r.value.0) == Flatten(events) + [ReadRotate(info, 1).value.0]
  {
    var info := ["R", "0", "0", "1", "0", "1"];
    RotateAsWrittenRereads();
    var (c, next) := ReadRotateAsWritten(info, 1).value;
    assert LoadSegments(EventTypesAsWritten(), "R", info, 1, events, Some(0))
        == LoadSegments(EventTypesAsWritten(), "R", info, 5, AppendAt(events, 0, c), Some(0));
    assert ReadRotateAsWritten(info, 5) == Err(IndexError);
    var (c', next') := ReadRotate(info, 1).value;
    assert next' == 6;
    assert LoadSegments(EventTypes(), "R", info, 1, events, Some(0)) == Ok((AppendAt(events, 0, c'), Some(0)));
    FlattenRead(c');
    AppendFlatten(events, 0, c');
  }

  /** One child line given the commands and the target so far: a line
      indented once makes the event itself the target again; the tag must
      be a key of the table, then the fields are read from the second on. */
  function LoadLine(pr: Parser, line: string, events: seq<Command>, target: Option<nat>)
    : (r: Result<(seq<Command>, Option<nat>)>)
    requires Sound(pr)
    requires IsChildLine(line)
    requires target.Some? ==> target.value <= Spine(events)
    ensures pr.fields(line)[0] !in pr.keys ==> r == Err(KeyError)
    ensures pr.fields(line)[0] in pr.keys && !Indentation(line[1])
            ==> r == LoadSegments(pr.read, pr.fields(line)[0], pr.fields(line), 1, events, Some(0))
    ensures pr.fields(line)[0] in pr.keys && Indentation(line[1])
            ==> r == LoadSegments(pr.read, pr.fields(line)[0], pr.fields(line), 1, events, target)
    ensures r.Ok? ==> r.value.1.Some? ==> r.value.1.value <= Spine(r.value.0)
    ensures r.Err? ==> r.error in {AttributeError, IndexError, ValueError, KeyError}
  {
    var target' := if Indentation(line[1]) then target else Some(0);
    var info := pr.fields(line);
    if info[0] !in pr.keys then Err(KeyError) else LoadSegments(pr.read, info[0], info, 1, events, target')
  }

  /** `Event._loadChildEventsFromFile` from line p on, given the commands
      and the target so far: the commands and the position of the line
      that ends the block (the line pushed back). */
  function LoadBlock(pr: Parser, lines: seq<string>, p: nat, events: seq<Command>, target: Option<nat>)
    : (r: Result<(seq<Command>, nat)>)
    requires Sound(pr)
    requires target.Some? ==> target.value <= Spine(events)
    ensures r.Err? ==> r.error in {AttributeError, IndexError, ValueError, KeyError}
    decreases |lines| - p
  {
    var line := LineAt(lines, p);
    if !IsChildLine(line) then Ok((events, p))
    else
      var (events', target') :- LoadLine(pr, line, events, target);
      LoadBlock(pr, lines, p + 1, events', target')
  }

  /** A line that is not a child line ends the block read. */
  lemma BlockStop(pr: Parser, lines: seq<string>, p: nat, events: seq<Command>, target: Option<nat>)
    requires Sound(pr)
    requires target.Some? ==> target.value <= Spine(events)
    requires !IsChildLine(LineAt(lines, p))
    ensures LoadBlock(pr, lines, p, events, target) == Ok((events, p))
  {
  }

  /** A child line that does not load fails the block read. */
  lemma BlockFail(pr: Parser, lines: seq<string>, p: nat, events: seq<Command>, target: Option<nat>)
    requires Sound(pr)
    requires target.Some? ==> target.value <= Spine(events)
    requires IsChildLine(LineAt(lines, p)) && LoadLine(pr, LineAt(lines, p), events, target).Err?
    ensures LoadBlock(pr, lines, p, events, target) == Err(LoadLine(pr, LineAt(lines, p), events, target).error)
  {
  }

  /** After a child line that loads, the block read goes on with the next. */
  lemma BlockNext(pr: Parser, lines: seq<string>, p: nat, events: seq<Command>, target: Option<nat>)
    requires Sound(pr)
    requires target.Some? ==> target.value <= Spine(events)
    requires IsChildLine(LineAt(lines, p)) && LoadLine(pr, LineAt(lines, p), events, target).Ok?
    ensures var (events', target') := LoadLine(pr, LineAt(lines, p), events, target).value;
      LoadBlock(pr, lines, p, events, target) == LoadBlock(pr, lines, p + 1, events', target')
  {
  }

  /** b starts with a. */
  predicate Extends(a: seq<Command>, b: seq<Command>) { |a| <= |b| && b[..|a|] == a }

  /** A block read ends at the first line from p on that is not a child
      line, and the commands loaded before are kept, in order, in front of
      the new ones. */
  lemma BlockStops(pr: Parser, lines: seq<string>, p: nat, events: seq<Command>, target: Option<nat>)
    requires Sound(pr)
    requires target.Some? ==> target.value <= Spine(events)
    ensures var r := LoadBlock(pr, lines, p, events, target);
      r.Ok? ==> r.value.1 >= p && !IsChildLine(LineAt(lines, r.value.1))
                && (forall q :: p <= q < r.value.1 ==> IsChildLine(LineAt(lines, q)))
                && Extends(Flatten(events), Flatten(r.value.0))
  {
    BlockEnds(pr, lines, p, events, target);
    BlockConsumes(pr, lines, p, events, target);
    BlockKeeps(pr, lines, p, events, target);
  }

  /** The block ends at a line from p on that is not a child line. */
  lemma {:induction false} BlockEnds(pr: Parser, lines: seq<string>, p: nat, events: seq<Command>,
                                     target: Option<nat>)
    requires Sound(pr)
    requires target.Some? ==> target.value <= Spine(events)
    ensures var r := LoadBlock(pr, lines, p, events, target); r.Ok? ==> r.value.1 >= p
    ensures var r := LoadBlock(pr, lines, p, events, target); r.Ok? ==> !IsChildLine(LineAt(lines, r.value.1))
    decreases |lines| - p
  {
    var line := LineAt(lines, p);
    if IsChildLine(line) && LoadLine(pr, line, events, target).Ok? {
      var (events', target') := LoadLine(pr, line, events, target).value;
      BlockEnds(pr, lines, p + 1, events', target');
      assert LoadBlock(pr, lines, p, events, target) == LoadBlock(pr, lines, p + 1, events', target');
    }
  }

  /** Every line the block read consumed is a child line. */
  lemma {:induction false} BlockConsumes(pr: Parser, lines: seq<string>, p: nat, events: seq<Command>,
                                         target: Option<nat>)
    requires Sound(pr)
    requires target.Some? ==> target.value <= Spine(events)
    ensures var r := LoadBlock(pr, lines, p, events, target);
      r.Ok? ==> forall q :: p <= q < r.value.1 ==> IsChildLine(LineAt(lines, q))
    decreases |lines| - p
  {
    var line := LineAt(lines, p);
    if IsChildLine(line) && LoadLine(pr, line, events, target).Ok? {
      var (events', target') := LoadLine(pr, line, events, target).value;
      BlockConsumes(pr, lines, p + 1, events', target');
      var r := LoadBlock(pr, lines, p + 1, events', target');
      assert LoadBlock(pr, lines, p, events, target) == r;
      if r.Ok? {
        forall q | p <= q < r.value.1
          ensures IsChildLine(LineAt(lines, q))
        {
          if q == p {
            assert LineAt(lines, q) == line;
          }
        }
      }
    }
  }

  /** A block read keeps the listing of the commands loaded before it in
      front of the new ones. */
  lemma {:induction false} BlockKeeps(pr: Parser, lines: seq<string>, p: nat, events: seq<Command>,
                                      target: Option<nat>)
    requires Sound(pr)
    requires target.Some? ==> target.value <= Spine(events)
    ensures var r := LoadBlock(pr, lines, p, events, target);
      r.Ok? ==> Extends(Flatten(events), Flatten(r.value.0))
    decreases |lines| - p
  {
    var line := LineAt(lines, p);
    if IsChildLine(line) && LoadLine(pr, line, events, target).Ok? {
      var (events', target') := LoadLine(pr, line, events, target).value;
      LineKeeps(pr, line, events, target);
      BlockKeeps(pr, lines, p + 1, events', target');
      var r := LoadBlock(pr, lines, p + 1, events', target');
      assert LoadBlock(pr, lines, p, events, target) == r;
      if r.Ok? {
        ExtendsTrans(Flatten(events), Flatten(events'), Flatten(r.value.0));
      }
    } else {
      assert Flatten(events)[..|Flatten(events)|] == Flatten(events);
    }
  }

  /** One line keeps the listing from before it in front. */
  lemma LineKeeps(pr: Parser, line: string, events: seq<Command>, target: Option<nat>)
    requires Sound(pr)
    requires IsChildLine(line)
    requires target.Some? ==> target.value <= Spine(events)
    ensures var r := LoadLine(pr, line, events, target);
      r.Ok? ==> Extends(Flatten(events), Flatten(r.value.0))
  {
    var target1 := if Indentation(line[1]) then target else Some(0);
    var info := pr.fields(line);
    if info[0] in pr.keys {
      SegmentsListing(pr.read, info[0], info, 1, events, target1);
      var r := LoadSegments(pr.read, info[0], info, 1, events, target1);
      if r.Ok? {
        assert Flatten(r.value.0)[..|Flatten(events)|] == Flatten(events);
      }
    }
  }

  lemma ExtendsTrans(a: seq<Command>, b: seq<Command>, c: seq<Command>)
    requires Extends(a, b) && Extends(b, c)
    ensures Extends(a, c)
  {
    assert c[..|a|] == c[..|b|][..|a|];
  }

  /** As written, `.trim` is not a method of `str`: the first child line
      raises AttributeError. */
  function LoadBlockAsWritten(lines: seq<string>, p: nat): (r: Result<nat>)
    ensures r.Ok? <==> !IsChildLine(LineAt(lines, p))
    ensures r.Ok? ==> r.value == p
    ensures r.Err? ==> r.error == AttributeError
  {
    if !IsChildLine(LineAt(lines, p)) then Ok(p) else Err(AttributeError)
  }

  // ---------------------------------------------------------------- save lines

  /** Every line with one ' ' in front. */
  function Indent(ls: seq<string>): (r: seq<string>)
    ensures |r| == |ls| && forall k :: 0 <= k < |ls| ==> r[k] == " " + ls[k]
  {
    seq(|ls|, k requires 0 <= k < |ls| => " " + ls[k])
  }

  /** `' ' + text` on a text of several lines: only the first line gains
      the ' '. */
  function IndentFirst(ls: seq<string>): (r: seq<string>)
    ensures |r| == |ls| && forall k :: 0 < k < |ls| ==> r[k] == ls[k]
    ensures |ls| > 0 ==> r[0] == " " + ls[0]
  {
    seq(|ls|, k requires 0 <= k < |ls| => if k == 0 then " " + ls[0] else ls[k])
  }

  /** How a command writes its own line: `e.getSaveString()` for a command
      without children, and the first line of it for a loop. */
  type Writer = Command -> Result<string>

  /** The lines of a command's text: its own line, then for a loop the
      lines of its children written the way an event writes its commands
      (a loop inherits `Event.getSaveString`). */
  function CommandText(write: Writer, c: Command): Result<seq<string>>
    decreases c
  {
    var head :- write(c);
    if c.IsContainer() then WithBase(head, BlockLines(write, c.children)) else Ok([head])
  }

  /** The lines the commands under an event save to, every line of a
      command's text indented once more than the event's own: the
      line-per-line form of `Event.getSaveString` after its first line. */
  function BlockLines(write: Writer, cs: seq<Command>): Result<seq<string>>
    decreases cs
  {
    if |cs| == 0 then Ok([])
    else
      var init :- BlockLines(write, cs[..|cs| - 1]);
      var text :- CommandText(write, cs[|cs| - 1]);
      Ok(init + Indent(text))
  }

  /** The same as written: `' ' + e.getSaveString()` indents only the first
      line of a loop's text, so children of a nested loop come out
      indented as deep as the loop itself. */
  function CommandTextAsWritten(write: Writer, c: Command): Result<seq<string>>
    decreases c
  {
    var head :- write(c);
    if c.IsContainer() then WithBase(head, BlockLinesAsWritten(write, c.children)) else Ok([head])
  }

  function BlockLinesAsWritten(write: Writer, cs: seq<Command>): Result<seq<string>>
    decreases cs
  {
    if |cs| == 0 then Ok([])
    else
      var init :- BlockLinesAsWritten(write, cs[..|cs| - 1]);
      var text :- CommandTextAsWritten(write, cs[|cs| - 1]);
      Ok(init + IndentFirst(text))
  }

  /** A command whose lines cannot be made fails the save of every
      block it starts. */
  lemma {:induction false} FailsOn(write: Writer, cs: seq<Command>, j: nat)
    requires j <= |cs| && BlockLines(write, cs[..j]).Err?
    ensures BlockLines(write, cs) == BlockLines(write, cs[..j])
    decreases |cs| - j
  {
    if j < |cs| {
      assert cs[..j + 1][..j] == cs[..j];
      FailsOn(write, cs, j + 1);
    } else {
      assert cs[..j] == cs;
    }
  }

  lemma {:induction false} FailsOnAsWritten(write: Writer, cs: seq<Command>, j: nat)
    requires j <= |cs| && BlockLinesAsWritten(write, cs[..j]).Err?
    ensures BlockLinesAsWritten(write, cs) == BlockLinesAsWritten(write, cs[..j])
    decreases |cs| - j
  {
    if j < |cs| {
      assert cs[..j + 1][..j] == cs[..j];
      FailsOnAsWritten(write, cs, j + 1);
    } else {
      assert cs[..j] == cs;
    }
  }

  /** One more command's text after the lines of the commands before it. */
  lemma TextStep(write: Writer, cs: seq<Command>, k: nat, done: seq<string>, text: seq<string>)
    requires k < |cs| && BlockLines(write, cs[..k]) == Ok(done) && CommandText(write, cs[k]) == Ok(text)
    ensures BlockLines(write, cs[..k + 1]) == Ok(done + Indent(text))
  {
    assert cs[..k + 1][..k] == cs[..k];
  }

  /** A command whose text cannot be written stops the save. */
  lemma TextFails(write: Writer, cs: seq<Command>, k: nat)
    requires k < |cs| && BlockLines(write, cs[..k]).Ok? && CommandText(write, cs[k]).Err?
    ensures BlockLines(write, cs) == Err(CommandText(write, cs[k]).error)
  {
    assert cs[..k + 1][..k] == cs[..k];
    FailsOn(write, cs, k + 1);
  }

  lemma WrittenStep(write: Writer, cs: seq<Command>, k: nat, done: seq<string>, text: seq<string>)
    requires k < |cs| && BlockLinesAsWritten(write, cs[..k]) == Ok(done)
    requires CommandTextAsWritten(write, cs[k]) == Ok(text)
    ensures BlockLinesAsWritten(write, cs[..k + 1]) == Ok(done + IndentFirst(text))
  {
    assert cs[..k + 1][..k] == cs[..k];
  }

  lemma WrittenFails(write: Writer, cs: seq<Command>, k: nat)
    requires k < |cs| && BlockLinesAsWritten(write, cs[..k]).Ok? && CommandTextAsWritten(write, cs[k]).Err?
    ensures BlockLinesAsWritten(write, cs) == Err(CommandTextAsWritten(write, cs[k]).error)
  {
    assert cs[..k + 1][..k] == cs[..k];
    FailsOnAsWritten(write, cs, k + 1);
  }

  /** The event's own line in front of the lines of its commands. */
  function WithBase(base: string, b: Result<seq<string>>): (r: Result<seq<string>>)
    ensures r.Ok? <==> b.Ok?
    ensures r.Ok? ==> r.value == [base] + b.value
    ensures b.Err? ==> r == Err(b.error)
  {
    var ls :- b;
    Ok([base] + ls)
  }

  /** A method's outcome paired with the commands it leaves behind, in the
      shape the loaders above give. */
  function Paired<T>(r: Result<T>, events: seq<Command>): Result<(seq<Command>, T)>
  {
    match r
    case Ok(v) => Ok((events, v))
    case Err(e) => Err(e)
  }

  /** What one pass of the outer loop leaves: the block ended (None) or
      the target for the next line. */
  function Passed(pr: Parser, lines: seq<string>, p: nat, r: Result<Option<Option<nat>>>, events: seq<Command>)
    : Result<(seq<Command>, nat)>
    requires Sound(pr)
    requires r.Ok? && r.value.Some? && r.value.value.Some? ==> r.value.value.value <= Spine(events)
  {
    match r
    case Err(e) => Err(e)
    case Ok(None) => Ok((events, p))
    case Ok(Some(t)) => LoadBlock(pr, lines, p + 1, events, t)
  }

  /** An event with the transform commands under it. */
  class Event {
    var transformEvents: seq<Command>

    constructor()
      ensures transformEvents == []
    {
      transformEvents := [];
    }

    /** `_loadChildEventsFromFile` on the lines from pos on, with the
        parser `ChildParser()`: appends the commands of the block to
        `transformEvents` and gives the position of the line that ended it. */
    method LoadChildEventsFromFile(lines: seq<string>, pos: nat) returns (r: Result<nat>)
      modifies this
      ensures LoadBlock(ChildParser(), lines, pos, old(transformEvents), None) == Paired(r, transformEvents)
    {
      r := LoadChildEvents(ChildParser(), lines, pos);
    }

    /** `getSaveString` given the event's own line, as written: the lines
        of the text `'\n'.join(ret)`. */
    method GetSaveLinesAsWritten(base: string) returns (r: Result<seq<string>>)
      ensures r == WithBase(base, BlockLinesAsWritten(CommandLine, transformEvents))
    {
      r := SaveLinesAsWritten(CommandLine, base);
    }

    /** `getSaveString` with every line of a command's text indented. */
    method GetSaveLines(base: string) returns (r: Result<seq<string>>)
      ensures r == WithBase(base, BlockLines(CommandLine, transformEvents))
    {
      r := SaveLines(CommandLine, base);
    }

    /** The loop of `getSaveString` as written, with the commands' writer. */
    method SaveLinesAsWritten(write: Writer, base: string) returns (r: Result<seq<string>>)
      ensures r == WithBase(base, BlockLinesAsWritten(write, transformEvents))
    {
      var cs := transformEvents;
      var ret := [base];
      ghost var done: seq<string> := [];
      var k := 0;
      assert cs[..0] == [];
      while k < |cs|
        invariant 0 <= k <= |cs|
        invariant ret == [base] + done
        invariant BlockLinesAsWritten(write, cs[..k]) == Ok(done)
      {
        var text := CommandTextAsWritten(write, cs[k]);
        if text.Err? {
          WrittenFails(write, cs, k);
          assert BlockLinesAsWritten(write, cs) == Err(text.error);
          return Err(text.error);
        }
        WrittenStep(write, cs, k, done, text.value);
        ret := ret + IndentFirst(text.value);
        done := done + IndentFirst(text.value);
        k := k + 1;
      }
      assert cs[..k] == cs;
      r := Ok(ret);
    }

    /** The loop of `getSaveString` with every line of a command's text
        indented, with the commands' writer. */
    method SaveLines(write: Writer, base: string) returns (r: Result<seq<string>>)
      ensures r == WithBase(base, BlockLines(write, transformEvents))
    {
      var cs := transformEvents;
      var ret := [base];
      ghost var done: seq<string> := [];
      var k := 0;
      assert cs[..0] == [];
      while k < |cs|
        invariant 0 <= k <= |cs|
        invariant ret == [base] + done
        invariant BlockLines(write, cs[..k]) == Ok(done)
      {
        var text := CommandText(write, cs[k]);
        if text.Err? {
          TextFails(write, cs, k);
          assert BlockLines(write, cs) == Err(text.error);
          return Err(text.error);
        }
        TextStep(write, cs, k, done, text.value);
        ret := ret + Indent(text.value);
        done := done + Indent(text.value);
        k := k + 1;
      }
      assert cs[..k] == cs;
      r := Ok(ret);
    }

    /** The loop of `_loadChildEventsFromFile` with the parser pr. */
    method LoadChildEvents(pr: Parser, lines: seq<string>, pos: nat) returns (r: Result<nat>)
      requires Sound(pr)
      modifies this
      ensures LoadBlock(pr, lines, pos, old(transformEvents), None) == Paired(r, transformEvents)
    {
      var target: Option<nat> := None;
      var p := pos;
      while true
        invariant target.Some? ==> target.value <= Spine(transformEvents)
        invariant LoadBlock(pr, lines, pos, old(transformEvents), None)
                  == LoadBlock(pr, lines, p, transformEvents, target)
        decreases |lines| - p
      {
        var pass := LoadChildLine(pr, lines, p, target);
        if pass.Err? {
          return Err(pass.error);
        }
        if pass.value.None? {
          return Ok(p);
        }
        target := pass.value.value;
        p := p + 1;
      }
    }

    /** One pass of the outer loop of `_loadChildEventsFromFile` on line p:
        None when the line ends the block, else the target after it. */
    method LoadChildLine(pr: Parser, lines: seq<string>, p: nat, target0: Option<nat>)
      returns (r: Result<Option<Option<nat>>>)
      requires Sound(pr)
      requires target0.Some? ==> target0.value <= Spine(transformEvents)
      modifies this
      ensures r.Ok? && r.value.Some? && r.value.value.Some? ==> r.value.value.value <= Spine(transformEvents)
      ensures LoadBlock(pr, lines, p, old(transformEvents), target0) == Passed(pr, lines, p, r, transformEvents)
    {
      var line := LineAt(lines, p);
      if |line| < 2 || !Indentation(line[0]) {
        BlockStop(pr, lines, p, transformEvents, target0);
        return Ok(None);
      }
      ghost var events0 := transformEvents;
      var target: Option<nat> := target0;
      if !Indentation(line[1]) {
        target := Some(0);
      }
      var info := pr.fields(line);
      if info[0] !in pr.keys {
        BlockFail(pr, lines, p, events0, target0);
        return Err(KeyError);
      }
      var next := LoadSegmentsInto(pr.read, info[0], info, target);
      if next.Err? {
        BlockFail(pr, lines, p, events0, target0);
        return Err(next.error);
      }
      BlockNext(pr, lines, p, events0, target0);
      return Ok(Some(next.value));
    }

    /** The inner loop of `_loadChildEventsFromFile` over the fields of one
        line whose tag is `tag`: gives the target after the line. */
    method LoadSegmentsInto(eventTypes: Readers, tag: string, info: seq<string>, target0: Option<nat>)
      returns (r: Result<Option<nat>>)
      requires Advancing(eventTypes)
      requires target0.Some? ==> target0.value <= Spine(transformEvents)
      modifies this
      ensures LoadSegments(eventTypes, tag, info, 1, old(transformEvents), target0) == Paired(r, transformEvents)
    {
      var target: Option<nat> := target0;
      var oldI := -1;
      var i := 1;
      while i < |info| && i != oldI
        invariant oldI < i
        invariant target.Some? ==> target.value <= Spine(transformEvents)
        invariant LoadSegments(eventTypes, tag, info, 1, old(transformEvents), target0)
                  == LoadSegments(eventTypes, tag, info, i, transformEvents, target)
        decreases |info| - i
      {
        oldI := i;
        var read := eventTypes(tag, info, i);
        if read.Err? {
          return Err(read.error);
        }
        var (c, next) := read.value;
        i := next;
        if target.None? {
          return Err(AttributeError);
        }
        transformEvents := AppendAt(transformEvents, target.value, c);
        if ContainerTag(tag) {
          target := Some(target.value + 1);
        }
      }
      return Ok(target);
    }
  }
}
