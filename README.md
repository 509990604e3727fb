# osu-py core, modelled in Dafny

This project models the parsing and serialisation core of `osu-py`, a Python
library for the file formats of the rhythm game osu!. It covers:

- **Storyboard events** (`events.dfy`, `commands.dfy`, `triggers.dfy`): layer and
  origin names, the background, sprite and animation headers, the index-threaded
  readers of the transform commands `F`, `M`/`MX`/`MY`, `S`, `V`, `R`, `C`, `P`,
  `L` and `T` and the lines they are written back as, the indentation-driven loop
  that files commands under their event or under an open `L`/`T` container, and
  the trigger-name codec (`Passing`, `Failing`, `HitObjectHit`,
  `HitSound<set><addition><sound><index>`).
- **Bit-flag sets**: `Mods` (`enums.dfy`), the `HitSound` sound bits, the
  hit-object flags byte and the object-kind dispatch (`objects.dfy`), and the
  timing-point kiai flags (`timing.dfy`).
- **Binary primitives** (`utility.dfy`): little-endian struct integers, the
  unsigned LEB128 "7-bit" integer, the strict bool byte, length-prefixed byte
  strings, .NET tick timestamps, the tagged osu! string and `readOsuAny`, plus the
  comment-skipping line reader and `Color`.
- **Small text rules**: the beatmap version header, `key: value` splitting,
  bookmarks, the id sentinels, variables, colour lines and the pre-v5 time offset
  (`beatmap.dfy`); path splitting, Unicode/ASCII fallbacks and the rank slots
  (`beatmapmeta.dfy`); the `osu://` URL builders (`osuurl.dfy`).

Python exceptions are error outcomes: every operation that can raise returns a
`Result` whose error names the exception class (`Wrappers.Error`). Floats are
kept as opaque tokens (`Floats.Real`): a float field is its text plus a decoded
sign, mantissa and exponent. Files are in-memory values: `Utility.BinaryFile` is a
byte buffer with a cursor, `Utility.TextFile` a sequence of lines with a cursor.
Each reading method of `BinaryFile` is proved to agree with a function on the
bytes that remain (`ReadVarint`, `ReadBytesOf`, `ReadOsuAnyOf`, ...). The
round-trip lemmas are stated against those functions. Python's `int()` is
`Strings.ParseInt`: an optional sign, then ASCII digits.

Where the source cannot work as written, the loaders and writers are modelled
as evidently intended, and a member whose name ends in `AsWritten` models the code as
written beside them (see "## Findings"). In particular, the child-command loader reads
`.trim(' ').trim('_')` as `.strip`. Its reader table uses an `R` reader that returns the
index after the last field it read. The timing loader uses a kiai setter that tests bits
with `&` rather than `|`.

Storyboard commands are values (`Commands.Command`). The mutable part of the
event loader is `Events.Event`, whose `transformEvents` field the loading methods
reassign. The Python `target` reference is modelled as a depth along the chain of
last children (`Option<nat>`, with `None` for the initial `target = None`).
`Events.Flatten` lists a command tree in reading order, and the loader is proved
to append exactly the commands the readers produce, in order.

## Model

| member | source | states |
|---|---|---|
| `Events.ParseLayer` | osu/events.py:13-23 | a decimal layer text parses to its value; any parsed layer is non-negative |
| `Events.SerializeLayer` | osu/events.py:26-34 | a layer has a name exactly when it is one of the four known values 0..3 |
| `Events.LayerRoundTrip` | osu/events.py:13-34 | parsing the serialised name, or the decimal text, of a layer 0..3 gives the layer back |
| `Events.LayerNumeric` | osu/events.py:13-23 | every numeric layer text parses to its integer |
| `Events.SerializeOrigin` | osu/events.py:221-241 | origins 0..8 map to the nine names in table order; any other value raises ValueError |
| `Events.ParseOriginAsWritten` | osu/events.py:195-218 | as written, every origin text goes through `int`, so the result is exactly `int(o)` |
| `Events.OriginNamesRefused` | osu/events.py:195-218 | as written, no origin name (for example `TopLeft`) can be read back: each raises ValueError |
| `Events.ParseOrigin` | osu/events.py:195-218 | the corrected parser reads a decimal text as its value and a name as its index in the table of nine names; every other text raises ValueError |
| `Events.OriginRoundTrip` | osu/events.py:195-241 | the corrected parser reads back every serialised origin name and every decimal origin |
| `Events.OriginName` | osu/events.py:195-218 | every non-numeric origin name reads back as its index |
| `Events.LoadBackgroundAsWritten` | osu/events.py:121-129 | as written, loading a background always fails: ValueError for 2 or fewer fields or a bad time, TypeError otherwise, because `eventInfo >= 5` compares a list with an int |
| `Events.LoadBackgroundLengthFixed` | osu/events.py:121-129 | with only line 127 corrected, the loader succeeds on the same lines as the corrected one, but with five fields x comes from field 4 and y is the old y |
| `Events.BackgroundYLost` | osu/events.py:127-129 | on `0,0,"bg.jpg",1,2` that loader gives x = 2 and keeps y, while the corrected loader gives x = 1 and y = 2 |
| `Events.LoadBackground` | osu/events.py:121-129 | the corrected loader succeeds exactly when the time and, with five or more fields, x and y parse; it keeps the file name stripped of quotes and sets y from field 4 |
| `Events.BackgroundLine` | osu/events.py:131-132 | the saved background line splits back into `Background`, the time, the file name, x and y when the file name has no ',' |
| `Events.BackgroundRoundTrip` | osu/events.py:121-132 | a background saved as `Background,time,file,x,y` loads back unchanged when the file name has no ',' and no outer quotes |
| `Events.SpriteFields` | osu/events.py:249-254 | the sprite fields are the layer, origin, unquoted file name and the two coordinates, and fail exactly when a coordinate is not a float |
| `Events.LoadAnimationAsWritten` | osu/events.py:300-315 | as written, loading an animation always fails: ValueError for 7 or fewer fields, otherwise an error from the fields or TypeError, because `eventInfo > 8` compares a list with an int |
| `Events.ParseLoopType` | osu/events.py:292-315 | a loop type is a decimal, `Forever` or `Once`; anything else raises ValueError |
| `Events.LoadAnimation` | osu/events.py:300-315 | with 7 or fewer fields ValueError; otherwise the corrected loader succeeds exactly when the origin, both coordinates, the frame count, the frame delay and any loop type parse, and reads them in that order, the loop type defaulting to Forever |
| `Events.SerializeLoopType` | osu/events.py:292-298 | only the two known loop types have a name; others raise ValueError |
| `Events.LoopTypeRoundTrip` | osu/events.py:292-315 | parsing a serialised loop type gives it back |
| `Events.AnimationLine` | osu/events.py:256-318 | the saved animation line is the nine fields joined by ','; it raises ValueError exactly when the origin or the loop type has no name |
| `Events.QuotedStrip` | osu/events.py:252-257 | stripping the quotes the writer puts around a file name gives the name back |
| `Events.AnimationPartsSplit` | osu/events.py:256-318 | the saved line splits back at ',' into its nine fields when the file name has no ',' |
| `Events.AnimationPartsLoad` | osu/events.py:249-318 | the nine saved fields load back as the same animation |
| `Events.AnimationRoundTrip` | osu/events.py:243-318 | a saved animation line, split at ',', loads back as the same animation for a layer 0..3, a plain file name and floats read from their texts |
| `Events.WithChildren` | osu/events.py:509-523 | replacing a container's children keeps its own fields |
| `Events.FlattenRead` | osu/events.py:93-99 | a freshly read command lists as itself |
| `Events.AppendAt` | osu/events.py:99-102 | appending at depth d leaves a chain of open containers ending at the new command |
| `Events.FlattenSnoc` | osu/events.py:99 | appending a command to a list extends the reading order by that command and its subtree |
| `Events.AppendFlatten` | osu/events.py:99 | appending under the current target extends the reading order by exactly the appended command |
| `Events.AppendDeeper` | osu/events.py:99-102 | appending below depth 0 goes into the last container of the list |
| `Events.FlattenLast` | osu/events.py:99 | growing the last container extends the reading order by what its children gained |
| `Events.ChildFields` | osu/events.py:89 | stripping `' '` then `'_'` and splitting at ',' always gives at least one field |
| `Events.EventTypes` | osu/events.py:67-79 | the corrected reader table is `ReadCommand` on every tag, with the corrected `R` reader, and advances the index on every successful read |
| `Events.EventTypesAsWritten` | osu/events.py:67-79 | the table as written advances the index on every successful read and agrees with the corrected table on every tag but `R` |
| `Events.ReadAll` | osu/events.py:93-99 | every command read from one line is fresh and is a container exactly when the tag is `L` or `T` |
| `Events.LoadSegments` | osu/events.py:93-102 | reading one line keeps the target within the container chain and raises only AttributeError, IndexError, ValueError or KeyError |
| `Events.SegmentsListing` | osu/events.py:93-99 | when one line loads, the trees list the old commands followed by all commands read from that line, in order |
| `Events.SegmentsAgree` | osu/events.py:93-99 | with a target set, a line loads exactly when all of its commands read |
| `Events.SegmentsStep` | osu/events.py:93-102 | one read appends the command under the target and moves the target into it for `L`/`T` |
| `Events.ReadAllStep` | osu/events.py:93-99 | the commands of a line are the first command followed by those read after it |
| `Events.SegmentsDescend` | osu/events.py:101-102 | after a line of `L`/`T` commands the target is one level deeper per command read |
| `Events.SegmentsStay` | osu/events.py:101-102 | after a line of other commands the target is where it was |
| `Events.SegmentsUntargeted` | osu/events.py:66-99 | with no target yet, a line that loads reads no commands and changes nothing |
| `Events.FlattenStep` | osu/events.py:99 | one append followed by the rest of a line lists as the command followed by the rest |
| `Events.ChildParser` | osu/events.py:65-102 | the corrected child-line parser (`.strip` for `.trim`, the corrected `R` reader) is sound: its readers advance and every line has a tag field |
| `Events.RotateLineAsWritten` | osu/events.py:90-102 | on the child line `R,0,0,1,0,1` the table as written raises IndexError, while the corrected table appends one rotation under the target |
| `Events.LoadLine` | osu/events.py:86-102 | an unknown tag raises KeyError; a line whose second character is not ' ' or '_' loads from the event itself (target depth 0), any other keeps the target; a loaded line keeps the target inside the chain; errors are AttributeError, IndexError, ValueError or KeyError |
| `Events.LoadBlock` | osu/events.py:80-102 | the block loader raises only AttributeError, IndexError, ValueError or KeyError |
| `Events.BlockStop` | osu/events.py:81-84 | at a line shorter than 2 or not starting with ' ' or '_', the block ends there and nothing changes |
| `Events.BlockFail` | osu/events.py:86-99 | a child line that fails makes the whole block fail with the same error |
| `Events.BlockNext` | osu/events.py:80-102 | a child line that loads is followed by loading from the next line with the new trees and target |
| `Events.BlockStops` | osu/events.py:80-84 | a block that loads ends at or after its first line |
| `Events.BlockEnds` | osu/events.py:80-84 | the line the loader stops at is not a child line |
| `Events.BlockConsumes` | osu/events.py:80-84 | every line before the stopping line is a child line |
| `Events.BlockKeeps` | osu/events.py:80-102 | loading a block only appends: the old reading order is a prefix of the new one |
| `Events.LineKeeps` | osu/events.py:86-102 | loading one line only appends |
| `Events.LoadBlockAsWritten` | osu/events.py:80-89 | as written, `.trim` does not exist: the block loader ends at once on a non-child line and raises AttributeError on any child line |
| `Events.Indent` | osu/events.py:110 | the corrected layout prefixes every line of a child's text with one space |
| `Events.IndentFirst` | osu/events.py:110 | as written, only the first line of a child's text gets the space |
| `Events.FailsOn` | osu/events.py:107-111 | once a child fails to render, the whole corrected layout fails |
| `Events.FailsOnAsWritten` | osu/events.py:107-111 | once a child fails to render, the as-written layout fails |
| `Events.TextStep` | osu/events.py:109-110 | the corrected layout of one more child appends that child's text, fully indented |
| `Events.TextFails` | osu/events.py:109-110 | a child that fails to render gives the corrected layout its error |
| `Events.WrittenStep` | osu/events.py:109-110 | the as-written layout of one more child appends its text with only the first line indented |
| `Events.WrittenFails` | osu/events.py:109-110 | a child that fails to render gives the as-written layout its error |
| `Events.WithBase` | osu/events.py:107-111 | the save text is the base line followed by the child lines, failing exactly when they fail; `Events.CommandText` and `Events.BlockLines` build a command's and a block's text this way |
| `Events.Event.constructor` | osu/events.py:9-10 | a new event has no transform commands |
| `Events.Event.LoadChildEventsFromFile` | osu/events.py:65-102 | loading child lines with the corrected reader table agrees with `LoadBlock` from no target |
| `Events.Event.LoadChildEvents` | osu/events.py:65-102 | the while loop over lines agrees with `LoadBlock`: same result, same command trees |
| `Events.Event.LoadChildLine` | osu/events.py:81-102 | one iteration stops at a non-child line, or loads the line and keeps the target in the chain |
| `Events.Event.LoadSegmentsInto` | osu/events.py:90-102 | the inner loop over one line's fields agrees with `LoadSegments` |
| `Events.Event.GetSaveLinesAsWritten` | osu/events.py:107-111 | the as-written save text indents only the first line of each child |
| `Events.Event.GetSaveLines` | osu/events.py:107-111 | the corrected save text indents every line of each child |
| `Events.Event.SaveLinesAsWritten` | osu/events.py:107-111 | the loop building the as-written save text agrees with its specification |
| `Events.Event.SaveLines` | osu/events.py:107-111 | the loop building the corrected save text agrees with its specification |
| `Commands.Field` | osu/events.py:330-340 | a field read succeeds exactly inside the list; past the end it raises IndexError |
| `Commands.IntField` | osu/events.py:330-340 | an int field reads exactly when present and decimal; IndexError past the end, ValueError otherwise |
| `Commands.FloatField` | osu/events.py:354-363 | a float field reads exactly when present and a float; IndexError past the end, ValueError otherwise |
| `Commands.Slice` | osu/events.py:495-504 | a slice past the end is cut short like a Python slice |
| `Commands.ReadHeader` | osu/events.py:330-340 | the header reads easing, time and endTime, returns i+3, and an empty endTime copies time |
| `Commands.ReadStartEnd` | osu/events.py:354-363 | a start value is read, and an end value only if a field remains, otherwise end = start |
| `Commands.ReadFade` | osu/events.py:354-363 | `F` is the header then opacity and optional end opacity, defaulting end to start |
| `Commands.ReadScale` | osu/events.py:427-436 | `S` is the header then scale and optional end scale, defaulting end to start |
| `Commands.ReadRotateAsWritten` | osu/events.py:474-482 | as written, `R` returns the index just after the angle even when it read the end angle |
| `Commands.ReadRotate` | osu/events.py:474-482 | the corrected `R` returns the index after the last field it read |
| `Commands.RotateAsWrittenRereads` | osu/events.py:474-482 | on `R,0,0,1,0,1` the as-written reader stops at index 5, and reading on from there raises IndexError; the corrected reader ends at 6 |
| `Commands.ReadIf` | osu/events.py:376-412 | an optional coordinate is read when asked for and copied from nothing otherwise |
| `Commands.MoveLoads` | osu/events.py:376-412 | which coordinates a move tag loads: `MX` only x, `MY` only y, `M` both |
| `Commands.ReadMove` | osu/events.py:376-412 | `MX` reads only x and endX, `MY` only y and endY, `M` both, taking ends only when enough fields remain and copying missing ends from the start |
| `Commands.ReadPair` | osu/events.py:449-463 | a pair of floats reads exactly when both fields are floats |
| `Commands.ReadVectorScale` | osu/events.py:449-463 | `V` reads both end scales only when two fields remain, otherwise both copy the start |
| `Commands.ReadColour` | osu/events.py:495-504 | `C` reads three end components only when three remain; otherwise the end colour is (0,0,0) |
| `Commands.ReadParameters` | osu/events.py:651-654 | `P` is the header then the effect number, returning i+4 |
| `Commands.ReadLoop` | osu/events.py:515-520 | `L` reads time and loop count, returns i+2, and starts with no children |
| `Commands.ReadTriggered` | osu/events.py:623-637 | `T` reads the trigger name, then time and endTime only if two fields follow (else None), then an optional group defaulting to 0 |
| `Commands.ReadTimes` | osu/events.py:626-633 | the trigger times are read only when two fields remain; otherwise both are None |
| `Commands.ReadGroup` | osu/events.py:634-636 | the trigger group is read when a field remains and defaults to 0 |
| `Commands.ReadCommand` | osu/events.py:67-99 | the corrected reader table: an unknown tag raises KeyError; a read command has the tag it was read with, advances the index and is a container exactly for `L`/`T` |
| `Commands.ReadCommandAsWritten` | osu/events.py:67-99 | the table as written has the same guarantees and differs from the corrected one only for `R` |
| `Commands.ColourLineAsWritten` | osu/events.py:506-507 | as written, a colour line renders only when both colour lists are empty |
| `Commands.ColourNeverWritten` | osu/events.py:495-507 | as written, no colour command that was read can be saved: joining its ints raises TypeError |
| `Commands.Fields` | osu/events.py:342-657 | the fields after the tag start with easing, time and endTime for every transform; writing fails, with KeyError, exactly for a trigger that cannot be rendered |
| `Commands.CommandLine` | osu/events.py:342-657 | a saved command line starts with its tag and a ','; it fails with KeyError exactly when its trigger cannot be rendered |
| `Commands.FadeBack` | osu/events.py:354-366 | a saved `F` line reads back as the same command |
| `Commands.ScaleBack` | osu/events.py:427-439 | a saved `S` line reads back as the same command |
| `Commands.RotateBack` | osu/events.py:474-485 | a saved `R` line reads back with the corrected reader |
| `Commands.MoveBack` | osu/events.py:376-419 | a saved `M`, `MX` or `MY` line reads back as the same command |
| `Commands.VectorScaleBack` | osu/events.py:449-466 | a saved `V` line reads back as the same command |
| `Commands.ColourBack` | osu/events.py:495-507 | a corrected `C` line reads back as the same command |
| `Commands.ColourRead` | osu/events.py:495-504 | a header and six components read as that colour command, ending at i+9 |
| `Commands.ParametersBack` | osu/events.py:651-657 | a saved `P` line reads back as the same command |
| `Commands.LoopBack` | osu/events.py:515-523 | a saved `L` header reads back as the same loop, without children |
| `Commands.TriggeredBack` | osu/events.py:623-640 | a saved `T` header reads back as the same triggered loop, without children |
| `Commands.TriggeredOf` | osu/events.py:623-637 | the triggered reader is built from the name, times and group it reads |
| `Commands.ReadBack` | osu/events.py:345-657 | every well-formed command, written as a line, reads back as itself and consumes exactly its fields |
| `Commands.LineSplit` | osu/events.py:342-657 | a saved command line splits at ',' into its tag and fields |
| `Commands.LineFree` | osu/events.py:342-657 | a saved command line is non-empty and free of line breaks and other separators |
| `Triggers.FirstMatch` | osu/events.py:560-576 | the first table entry the text starts with, and no earlier entry matches |
| `Triggers.TableValues` | osu/events.py:556-557 | the name tables hold sample sets and sound types |
| `Triggers.SetsOf` | osu/events.py:558-569 | the set prefix reads sample sets for both slots |
| `Triggers.SoundOf` | osu/events.py:571-576 | the sound prefix reads a sound type |
| `Triggers.ParseHitSoundName` | osu/events.py:554-584 | the parsed name holds known sets and sounds, never leaves a sound with a set and no addition, and fails only with ValueError from a non-integer index |
| `Triggers.FindPrefix` | osu/events.py:560-569 | the loop over a name table finds the first name the text starts with and the rest of the text |
| `Triggers.HitSoundTrigger.constructor` | osu/events.py:548-553 | a new hit-sound trigger starts with no sets, no sounds and index 0 |
| `Triggers.HitSoundTrigger.ParseName` | osu/events.py:554-584 | parsing in place sets exactly the fields `ParseHitSoundName` gives, or reports its error |
| `Triggers.FromName` | osu/events.py:537-546 | `Passing`, `Failing` and `HitObjectHit` give the singletons, other `HitSound...` names give a hit-sound trigger, and anything else raises ValueError |
| `Triggers.HitSoundNamesApart` | osu/events.py:537-546 | no `HitSound...` name is one of the three singleton names |
| `Triggers.SetName` | osu/events.py:598-606 | a sample set has a name exactly when it is known; otherwise KeyError |
| `Triggers.LowestSound` | osu/events.py:600-604 | the lowest sound bit present is a sound type |
| `Triggers.RenderedSets` | osu/events.py:592-597 | rendering blanks the addition set when the sample set is None |
| `Triggers.HitSoundText` | osu/events.py:586-609 | rendering succeeds exactly when both rendered sets are known; otherwise KeyError |
| `Triggers.TriggerText` | osu/events.py:533-609 | the corrected rendering of a hit-sound trigger starts with `HitSound`; the singletons always render; the only error is KeyError |
| `Triggers.HitSoundRoundTrip` | osu/events.py:554-609 | for a parsed, unambiguous hit sound, parsing `HitSound` + its rendering restores all four fields |
| `Triggers.RoundTripNoSet` | osu/events.py:554-609 | the round trip when no set is rendered |
| `Triggers.RoundTripOneSet` | osu/events.py:554-609 | the round trip when one set is rendered |
| `Triggers.RoundTripTwoSets` | osu/events.py:554-609 | the round trip when both sets are rendered |
| `Triggers.TriggerRoundTrip` | osu/events.py:537-613 | every trigger renders and its text reads back as the same trigger |
| `Triggers.AmbiguousAddition` | osu/events.py:554-609 | a parsed None sample set with a Soft addition renders as `Whistle`, which reads back without the addition |
| `Triggers.AmbiguousNormal` | osu/events.py:554-609 | the sound Normal with no sets renders as `Normal`, which reads back as a sample set |
| `Triggers.TriggerTextAsWrittenUnreadable` | osu/events.py:586-609 | as written, `HitSoundClap` renders as `Clap`, which `fromName` refuses with ValueError |
| `Triggers.TriggerTextAsWritten` | osu/events.py:586-609 | as written, a hit-sound trigger renders as the corrected text without its `HitSound` prefix, failing (KeyError) exactly when the corrected rendering fails |
| `Triggers.HitSoundTextChars` | osu/events.py:586-609 | a rendered hit-sound name contains only letters and digits |
| `Triggers.TriggerTextChars` | osu/events.py:533-609 | a rendered trigger name contains no field separator |
| `Enums.MaskBits` | osu/enums.py:13-42 | each single mask is exactly bit m |
| `Enums.MasksDisjoint` | osu/enums.py:13-42 | distinct single masks share no bit |
| `Enums.MaskOfBits` | osu/enums.py:44-48 | a union of masks has exactly the bits of its members |
| `Enums.MaskOfMeets` | osu/enums.py:44-48 | a value meets a union exactly when it holds one of its members |
| `Enums.CompositeMasks` | osu/enums.py:44-48 | KEYMODS is the nine key bits plus COOP, UNRANKED is AUTOUNRANKED, MANIAUNRANKED, TP and V2, SCOREINCREASE is HD, HR, DT, FL and FI |
| `Enums.UnrankedUnion` | osu/enums.py:44-48 | MASK_UNRANKED is the union of its four parts |
| `Enums.NoModIsZero` | osu/enums.py:53-55 | a 30-bit value is 0 exactly when it holds no mod |
| `Enums.ImpliedBits` | osu/enums.py:172-181 | the bits a setter adds besides its own: DT for NC, SD for PF, none otherwise |
| `Enums.With` | osu/enums.py:59-457 | after `mods.<m> = val` the bit of m equals val |
| `Enums.WithBit` | osu/enums.py:59-457 | a setter sets or clears its own bit, adds the implied bit when setting, and keeps every other bit |
| `Enums.WithSets` | osu/enums.py:59-457 | after a setter, the getter returns the value set |
| `Enums.WithOthers` | osu/enums.py:59-457 | a setter leaves every other mod unchanged, except the bit NC or PF adds when set |
| `Enums.WithImplied` | osu/enums.py:172-247 | setting NC also sets DT, setting PF also sets SD |
| `Enums.WithHighBits` | osu/enums.py:59-457 | bits above the 30 mods are never touched |
| `Enums.WithIdempotent` | osu/enums.py:59-457 | setting the same value twice is the same as once |
| `Enums.WithCommutes` | osu/enums.py:59-457 | setters of two different mods without implied bits commute |
| `Enums.Mods.constructor` | osu/enums.py:50-51 | construction stores the integer unchanged |
| `Enums.Mods.GetAsWritten` | osu/enums.py:446-448 | as written, the ScoreV2 getter raises AttributeError; every other getter tests its bit |
| `Enums.Mods.Set` | osu/enums.py:59-457 | the setter updates the field as `With`: its own bit becomes the value read by the getter `Enums.Mods.Get`, the implied bit is set, and every getter other than these two is unchanged |
| `Enums.Mods.NM` | osu/enums.py:53-55 | NM is true exactly when the value is 0, that is when no mod is held |
| `Enums.Mods.Unranked` | osu/enums.py:459-464 | the corrected Unranked holds exactly when some unranked mod is set |
| `Enums.Mods.Ranked` | osu/enums.py:465-467 | Ranked holds exactly when no unranked mod is set |
| `Enums.Mods.UnrankedAsWritten` | osu/enums.py:459-464 | as written, the Unranked getter raises AttributeError |
| `Enums.Mods.RankedAsWritten` | osu/enums.py:465-467 | as written, Ranked raises too, because it calls Unranked |
| `Enums.IntRoundTrip` | osu/enums.py:50-51 | `int(Mods(n))` (`Enums.Mods.AsInt` of a new set) is n |
| `Objects.SoundsWithDigits` | osu/objects.py:43-81 | a sound setter sets or clears its own bit and keeps all others |
| `Objects.HasSoundBit` | osu/objects.py:43-81 | a sound getter tests exactly its bit |
| `Objects.SoundSetterGetter` | osu/objects.py:43-81 | after a sound setter its getter returns the value, and the other getters are unchanged |
| `Objects.ExtrasRoundTrip` | osu/objects.py:28-41 | the extras text reads back as all five fields when the file name has no ':' |
| `Objects.ExtrasText` | osu/objects.py:40-41 | the extras text splits at ':' into the four integer texts and the file name when the file name has no ':' |
| `Objects.ParseExtras` | osu/objects.py:32-38 | five parts load exactly when the first four are integers, which they become, with the fifth as the file name; ValueError otherwise |
| `Objects.HitSound.constructor` | osu/objects.py:17-26 | a new hit sound has the given sounds and default extras |
| `Objects.HitSound.Set` | osu/objects.py:43-81 | the setter updates only `sounds`, and only its own bit |
| `Objects.HitSound.LoadExtraSampleInfo` | osu/objects.py:28-38 | past the end, or without exactly five ':' parts, nothing changes; otherwise the five fields are assigned in order, failing on a non-integer |
| `Objects.HitSound.ExtrasString` | osu/objects.py:40-41 | the extras text reads back as the fields when the file name has no ':' |
| `Objects.CopyExtras` | osu/objects.py:28-41 | writing one hit sound's extras and loading them into another copies all five fields |
| `Objects.SkipMaskDigits` | osu/objects.py:88 | the colour-skip mask is exactly bits 4..6 |
| `Objects.TypeBit` | osu/objects.py:84-89 | each object kind has one of the type bits 0, 1, 3 or 7 |
| `Objects.ComboColorSkipOf` | osu/objects.py:110 | the decoded colour skip is always in 0..7 |
| `Objects.EncodeDigits` | osu/objects.py:132-147 | the encoded flags hold the type bit, bit 2 for a combo start and bits 4..6 from the skip, and nothing else |
| `Objects.DecodeComboStart` | osu/objects.py:104-147 | decoding encoded flags gives back comboStart |
| `Objects.DecodeComboColorSkip` | osu/objects.py:104-147 | decoding encoded flags gives back the skip mod 8 |
| `Objects.EncodeFlags` | osu/objects.py:132-147 | encoding the flags fails, with TypeError, exactly for the plain HitObject |
| `Objects.Dispatch` | osu/objects.py:113-130 | 3 or fewer fields raise ValueError, a non-integer flags field raises its error, and a dispatched kind is never the plain object |
| `Objects.KindOf` | osu/objects.py:119-127 | no kind is picked (UnboundLocalError) exactly when none of bits 0, 1, 3 and 7 is set; a picked kind is never the plain object |
| `Objects.DispatchKind` | osu/objects.py:119-127 | the first bit present among circle (1), slider (2), spinner (8) and hold (128) picks the kind; with none, UnboundLocalError |
| `Objects.KindOfEncode` | osu/objects.py:113-147 | encoded flags dispatch back to the kind that wrote them |
| `Objects.HitObject.constructor` | osu/objects.py:91-102 | a new object is at 0,0, time 0, with no combo start or skip and no sounds |
| `Objects.HitObject.LoadFromBeatmapFile` | osu/objects.py:104-111 | x, y, time, flags and sounds are read from the first five fields; success exactly when all five are integers |
| `Objects.SaveTextFields` | osu/objects.py:147 | the saved line splits into the five integer fields |
| `Objects.HitObject.SaveString` | osu/objects.py:132-147 | TypeError exactly for the plain HitObject; otherwise the saved line's five fields dispatch back to this object's kind and give back its x, y, time, combo start, combo skip mod 8 and sounds |
| `Objects.SaveLoadRoundTrip` | osu/objects.py:104-147 | a saved object dispatches to its kind and decodes to its combo start, skip and fields |
| `Objects.PyPrefix` | osu/objects.py:195 | `l[:n]` as Python slices it, including negative n |
| `Objects.Resize` | osu/objects.py:192-195 | for n ≥ 0 the resized list has length n, keeps the prefix and pads with the default; for n < 0 it drops the last -n entries |
| `Objects.SliderSounds.constructor` | osu/objects.py:180-182 | a new slider has repeat count 1 and two slider hit sounds, both the same new default HitSound object, with no sounds and default extras |
| `Objects.SliderSounds.SetRepeatCount` | osu/objects.py:188-197 | the loop leaves the list resized to val+1, padded with one shared default hit sound |
| `Objects.CurveTypesInverse` | osu/objects.py:169-170 | the two curve-type maps are mutual inverses over L, P, B and C |
| `Timing.KiaiFlagsValues` | osu/timing.py:19-21 | the kiai flags getter (`Timing.KiaiFlagsOf`) is (1 if kiai) + (8 if omit), so in {0, 1, 8, 9} |
| `Timing.KiaiSetterAsWrittenSetsBoth` | osu/timing.py:22-25 | as written, the setter's test `(v \| flag) != 0` is always true, so both flags are set |
| `Timing.KiaiAsWrittenDoesNotRoundTrip` | osu/timing.py:19-25 | as written, setting the flags to the value of a point without kiai does not give that point back |
| `Timing.KiaiFlagsFromBits` | osu/timing.py:22-25 | the corrected setter (`Timing.KiaiFlagsFrom`) reads kiai from bit 0 and omit from bit 3 |
| `Timing.KiaiRoundTrip` | osu/timing.py:19-25 | the corrected setter inverts the getter |
| `Timing.ParseTail` | osu/timing.py:48-56 | the tail of a timing line needs eight fields and fails only with IndexError or ValueError |
| `Timing.TimeOf` | osu/timing.py:44-47 | a text `float()` refuses loads as time 0, an infinite or overflowing float raises OverflowError, and every other float is truncated; OverflowError is the only error |
| `Timing.SmallTimeIsZero` | osu/timing.py:46 | the value `1E-06` loads as time 0 |
| `Timing.InfiniteTimeRaises` | osu/timing.py:44-47 | `inf` and `-Infinity` raise OverflowError |
| `Timing.TimeOfExamples` | osu/timing.py:44-47 | `1E-06` loads as 0, `inf` and `-Infinity` raise OverflowError, `abc` loads as 0 |
| `Timing.LoadTiming` | osu/timing.py:41-56 | for any kiai setter: IndexError without d[0] or d[1], OverflowError from the time, and success exactly when the time, msPerBeat and any tail parse; the kiai flags come from the setter |
| `Timing.ParseTiming` | osu/timing.py:41-56 | with the corrected kiai setter: the time is read as `int(float(d[0]))` and msPerBeat as a float; with more than two fields the tail sets the six fields, with kiai from bit 0 and omit from bit 3 of the flags; with two they keep the defaults; errors are IndexError, ValueError or OverflowError |
| `Timing.ParseTimingAsWritten` | osu/timing.py:22-56 | as written, a line loads exactly when the corrected loader accepts it; with more than two fields kiai and omit are both set, and all other fields agree |
| `Timing.LoadAsWrittenSetsKiai` | osu/timing.py:24-25 | as written, the line `0,500,4,1,0,100,1,0` loads with kiai and omit set, the corrected loader with neither |
| `Timing.LoadedInherited` | osu/timing.py:37-56 | a loaded point is inherited exactly when it has at most two fields or d[6] is 0, and the msPerBeat text is negative or zero |
| `Timing.ParseTailSaved` | osu/timing.py:48-72 | the saved tail reads back as the stored fields |
| `Timing.ParseSaveFields` | osu/timing.py:41-72 | the saved fields read back as the same timing point |
| `Timing.SaveFieldsFree` | osu/timing.py:71-72 | no saved field contains a ',' |
| `Timing.TimingText` | osu/timing.py:71-72 | the saved line splits back at ',' into the eight saved fields |
| `Timing.TimingRoundTrip` | osu/timing.py:41-72 | a saved timing line, split at ',', loads back as the same timing point |
| `Timing.TimingPoint.constructor` | osu/timing.py:8-17 | a new timing point has the default fields |
| `Timing.TimingPoint.KiaiFlags` | osu/timing.py:19-21 | the getter is in {0, 1, 8, 9} and decodes back to the two flags |
| `Timing.TimingPoint.SetKiaiFlagsAsWritten` | osu/timing.py:22-25 | as written, any assignment sets both flags and the getter then returns 9 |
| `Timing.TimingPoint.SetKiaiFlags` | osu/timing.py:22-25 | the corrected setter sets the two flags from bits 0 and 3 and nothing else |
| `Timing.TimingPoint.Inherited` | osu/timing.py:37-39 | inherited holds exactly when not inheritable and msPerBeat ≤ 0; for a float read from its text, when not inheritable and the text is negative or zero |
| `Timing.TimingPoint.SaveString` | osu/timing.py:71-72 | the saved line loads back as the same point when msPerBeat was read from its text and the time is below the float overflow |
| `Timing.FromFileData` | osu/timing.py:41-56 | the built timing point holds exactly the fields the corrected `ParseTiming` reads, or it reports the same error, OverflowError included |
| `Floats.FloatNonPositive` | osu/timing.py:39 | a parsed float is ≤ 0 exactly when its text has a leading '-' or only zero digits |
| `Utility.Take` | osu/utility.py:197-198 | a read of n bytes returns at most n bytes |
| `Utility.LEToLE` | osu/utility.py:213-286 | little-endian bytes of an unsigned value decode back to it |
| `Utility.UnpackPack` | osu/utility.py:213-286 | packing a value that fits the width and unpacking it gives it back, signed or not |
| `Utility.Unpack` | osu/utility.py:213-286 | an unpacked value always fits its width |
| `Utility.Pack` | osu/utility.py:210-286 | packing writes n modulo 256^w, little-endian, in exactly w bytes |
| `Utility.ReadPackedOf` | osu/utility.py:213-286 | w bytes are read exactly when w remain; otherwise struct.error |
| `Utility.ReadVarint` | osu/utility.py:296-304 | a varint read gives a non-negative value and consumes at least one byte; the only error is struct.error |
| `Utility.VarintShape` | osu/utility.py:306-311 | every byte but the last of an encoding has bit 0x80, the last is < 0x80, and n < 128 encodes as the byte n |
| `Utility.VarintRoundTrip` | osu/utility.py:296-311 | reading after writing n (`Utility.Varint`, the bytes `write7bitInt` emits) gives n and consumes exactly the bytes written |
| `Utility.VarintOf` | osu/utility.py:306-311 | a negative n writes one byte, which reads back as n mod 128 |
| `Utility.ReadVarintPrefix` | osu/utility.py:296-304 | the read stops at the first byte below 0x80 and combines the 7-bit groups |
| `Utility.ReadVarintUnterminated` | osu/utility.py:296-304 | input with no byte below 0x80 raises struct.error |
| `Utility.ReadByteOf` | osu/utility.py:270-280 | a byte read consumes one byte |
| `Utility.ReadBoolOf` | osu/utility.py:288-293 | struct.error at the end, ValueError for a byte above 1, otherwise `byte == 1` in one byte |
| `Utility.BoolRoundTrip` | osu/utility.py:288-294 | a written bool reads back |
| `Utility.ReadBytesOf` | osu/utility.py:313-318 | a bytes read consumes no more than the input and fails only with struct.error |
| `Utility.BytesText` | osu/utility.py:320-329 | fails exactly for a body too long with len32 (struct.error) or None without it (TypeError); the body ends the written bytes, and with len32 the first four bytes unpack to the length, or -1 for None |
| `Utility.BytesRoundTrip` | osu/utility.py:313-329 | written bytes read back with the same length width, None as a -1 length |
| `Utility.ReadStringOf` | osu/utility.py:331-340 | a string read consumes no more than the input and fails only with struct.error or AttributeError |
| `Utility.ReadTimestampOf` | osu/utility.py:356-357 | eight bytes of ticks, read as microseconds ticks // 10; struct.error when short, OverflowError outside the datetime range |
| `Utility.TimestampRoundTrip` | osu/utility.py:356-362 | a written timestamp reads back as the same microseconds |
| `Utility.TimestampRewrite` | osu/utility.py:356-362 | re-writing a read timestamp gives ticks - ticks mod 10 |
| `Utility.UnknownTag` | osu/utility.py:364-404 | an unknown tag raises NotImplementedError |
| `Utility.ReadTaggedOf` | osu/utility.py:364-404 | the NONE tag reads nothing; NotImplementedError exactly for the decimal, other and unknown tags; a read never passes the end of the input |
| `Utility.ReadOsuAnyOf` | osu/utility.py:364-404 | struct.error on empty input; a value read consumes the tag byte and the value's bytes, and loads exactly when the tagged read does |
| `Utility.OsuStringText` | osu/utility.py:347-354 | TypeError exactly for a value that is not a string or None; otherwise the NONE or STRING tag comes first |
| `Utility.OsuStringRoundTrip` | osu/utility.py:347-404 | a written osu string reads back: None as the NONE tag, a string with its body |
| `Utility.BinaryFile.constructor` | osu/utility.py:152-157 | a new buffer holds the contents with the cursor at 0 |
| `Utility.BinaryFile.ReadData` | osu/utility.py:197-198 | reads up to n remaining bytes and moves the cursor past them |
| `Utility.BinaryFile.WriteData` | osu/utility.py:200-201 | appends the bytes |
| `Utility.BinaryFile.ReadByte` | osu/utility.py:270-280 | agrees with `ReadByteOf` on the remaining bytes |
| `Utility.BinaryFile.WriteByte` | osu/utility.py:270-280 | appends the byte |
| `Utility.BinaryFile.ReadInteger` | osu/utility.py:213-286 | agrees with `ReadPackedOf` on the remaining bytes |
| `Utility.BinaryFile.WriteInteger` | osu/utility.py:210-286 | appends the packed value when it fits, and raises struct.error otherwise |
| `Utility.BinaryFile.ReadBool` | osu/utility.py:288-293 | agrees with `ReadBoolOf`: a byte above 1 raises ValueError, otherwise byte != 0 |
| `Utility.BinaryFile.WriteBool` | osu/utility.py:294 | appends 0 or 1 |
| `Utility.BinaryFile.Read7bitInt` | osu/utility.py:296-304 | the loop agrees with `ReadVarint` on the remaining bytes |
| `Utility.BinaryFile.Write7bitInt` | osu/utility.py:306-311 | the loop appends the LEB128 encoding |
| `Utility.BinaryFile.ReadBytes` | osu/utility.py:313-318 | agrees with `ReadBytesOf` |
| `Utility.BinaryFile.WriteBytes` | osu/utility.py:320-329 | appends the length and body, None as -1 with len32, failing where the source raises |
| `Utility.BinaryFile.ReadString` | osu/utility.py:331-340 | agrees with `ReadStringOf` |
| `Utility.BinaryFile.WriteString` | osu/utility.py:341-342 | appends the length-prefixed string |
| `Utility.BinaryFile.WriteOsuString` | osu/utility.py:347-354 | appends the NONE tag for None, the STRING tag and a varint-prefixed body for a string; TypeError otherwise |
| `Utility.BinaryFile.ReadOsuTimestamp` | osu/utility.py:356-357 | agrees with `ReadTimestampOf` |
| `Utility.BinaryFile.WriteOsuTimestamp` | osu/utility.py:359-362 | appends the ticks as a signed 8-byte value when they fit |
| `Utility.BinaryFile.ReadAnyInt` | osu/utility.py:364-404 | agrees with `AnyIntOf` |
| `Utility.BinaryFile.ReadTagged` | osu/utility.py:364-404 | the value after a tag agrees with `ReadTaggedOf` |
| `Utility.BinaryFile.ReadOsuAny` | osu/utility.py:364-404 | agrees with `ReadOsuAnyOf` |
| `Utility.SkipComments` | osu/utility.py:128-137 | skips exactly the consecutive lines starting with the comment prefix |
| `Utility.TextFile.constructor` | osu/utility.py:53-58 | a new file is at its first line and not at eof |
| `Utility.TextFile.Readline` | osu/utility.py:67-68 | returns the next raw line, or "" at the end |
| `Utility.TextFile.ReadLine` | osu/utility.py:128-139 | the loop skips comment lines, strips trailing '\r' and '\n', and sets eof only when the raw read is empty |
| `Utility.ColorRoundTrip` | osu/utility.py:23-40 | a colour's text (`Utility.Color.Text`, `str(color)`) splits into its three components |
| `Beatmap.UpdateTime` | osu/beatmap.py:323-331 | adds 24 when the version is below 5 and a time is given, and otherwise returns the time; `Beatmap.Beatmap.Time` applies it with the map's version |
| `Beatmap.UpdateTimeKeepsDurations` | osu/beatmap.py:323-331 | the offset keeps the distance between two times |
| `Beatmap.ParseVersion` | osu/beatmap.py:110-117 | a first line without 'v' raises ValueError, the only error; a success means decimal text after the last 'v', which becomes the version |
| `Beatmap.VersionOf` | osu/beatmap.py:110-117 | conversely, every line whose last 'v' is followed by decimal text loads with that number as its version (`osu file format v014` gives 14) |
| `Beatmap.VersionHeaderRoundTrip` | osu/beatmap.py:110-117 | any prefix followed by `v<n>` reads as version n |
| `Beatmap.KeyValue` | osu/beatmap.py:130-135 | General and Editor split at the first ': ', falling back to the first ':'; Metadata and Difficulty use the first ':'; no ':' raises ValueError |
| `Beatmap.KeyValueOfSaved` | osu/beatmap.py:130-135 | a key without ':' and its value, joined the way each section writes them, split back |
| `Beatmap.MetadataKeepsBlank` | osu/beatmap.py:130-135 | in Metadata `Title: X` keeps the blank in the value |
| `Beatmap.BookmarkTimes` | osu/beatmap.py:177-180 | the bookmark tokens give at most one time each and fail only with ValueError |
| `Beatmap.BookmarkTimesSnoc` | osu/beatmap.py:177-180 | one more token skips an empty token, raises on a non-integer and otherwise adds its time |
| `Beatmap.BookmarksRoundTrip` | osu/beatmap.py:177-180 | decimal texts of times read back as those times |
| `Beatmap.BookmarkLineRoundTrip` | osu/beatmap.py:177-180 | a ','-joined list of decimal times reads back as that list |
| `Beatmap.MapIdOf` | osu/beatmap.py:206-207 | BeatmapID 0 loads as None, any other integer as itself; a non-integer raises |
| `Beatmap.MapsetIdOf` | osu/beatmap.py:208-209 | a negative BeatmapSetID loads as None, any other integer as itself |
| `Beatmap.MapIdText` | osu/beatmap.py:402 | the saved BeatmapID loads back as the id, a map id 0 as no id |
| `Beatmap.MapsetIdText` | osu/beatmap.py:403 | the saved BeatmapSetID loads back as the id, a negative one as no id |
| `Beatmap.IdRoundTrip` | osu/beatmap.py:206-209 | writing None back as 0 and -1 gives the text read, for every BeatmapID and every BeatmapSetID ≥ -1 |
| `Beatmap.VariableOf` | osu/beatmap.py:228-229 | a variable line splits at the first '='; no '=' raises ValueError |
| `Beatmap.VariableRoundTrip` | osu/beatmap.py:228-229 | `k=v` with no '=' in k splits back to k and v |
| `Beatmap.ColourOf` | osu/beatmap.py:248-249 | a line that is not two parts around ' : ' raises ValueError; with two parts it fails with the int parser's error exactly when a component is not an int, loads exactly when there are one to three ints (missing components being 0), and raises TypeError for more than three |
| `Beatmap.ColourComponents` | osu/beatmap.py:248-249 | a colour's text reads back as its three ints |
| `Beatmap.ColourRoundTrip` | osu/beatmap.py:248-257 | `key : r,g,b` reads back as the key and colour |
| `Beatmap.SettingOutcome` | osu/beatmap.py:137-222 | integer keys fail exactly when `int` fails, float keys when `float` fails; SampleSet raises TypeError, Countdown and OverlayPosition NameError; other keys succeed |
| `Beatmap.Beatmap.constructor` | osu/beatmap.py:12-74 | a new beatmap is version 14 with no bookmarks, ids, variables or colours |
| `Beatmap.Beatmap.LoadHeader` | osu/beatmap.py:110-117 | the version is set exactly when the header parses; otherwise ValueError and no change |
| `Beatmap.Beatmap.AddBookmarks` | osu/beatmap.py:177-180 | the loop adds each non-empty token's time; the first non-integer stops it with ValueError |
| `Beatmap.Beatmap.LoadSetting` | osu/beatmap.py:125-222 | Bookmarks, BeatmapID and BeatmapSetID update their fields; every other key follows `SettingOutcome` and changes nothing stored |
| `Beatmap.Beatmap.LoadVariable` | osu/beatmap.py:228-229 | a variable line sets `variables[k] = v`, or raises ValueError and changes nothing |
| `Beatmap.Beatmap.LoadColour` | osu/beatmap.py:248-257 | the three slider colours and `Combo<n>` keys set their field; other keys change nothing |
| `BeatmapMeta.Slot4` | osu/beatmapmeta.py:198-199 | a list of four is indexed by -4..3 as in Python, otherwise IndexError |
| `BeatmapMeta.PathParts` | osu/beatmapmeta.py:204-212 | the path splits at '/', or at '\\' only when there is no '/', into exactly two parts; otherwise ValueError |
| `BeatmapMeta.PathPartsJoined` | osu/beatmapmeta.py:204-212 | a directory and a file joined by '/' split back, and by '\\' when neither holds a separator |
| `BeatmapMeta.Fallback` | osu/beatmapmeta.py:243-253 | the Unicode text when present and non-empty, the ASCII text otherwise |
| `BeatmapMeta.DisplayParts` | osu/beatmapmeta.py:255-256 | a text it reads into three parts is `artist - title [diffName]` of those parts |
| `BeatmapMeta.DisplayRoundTrip` | osu/beatmapmeta.py:255-256 | `artist - title [diffName]` reads back as its parts when the artist holds no '-' and the title no '[' |
| `BeatmapMeta.BeatmapMetadata.constructor` | osu/beatmapmeta.py:5-56 | empty names, four empty SR tables and four N ranks |
| `BeatmapMeta.BeatmapMetadata.HasSRData` | osu/beatmapmeta.py:198-199 | true exactly when SR[mode] is non-empty, with Python's negative indices, and IndexError outside -4..3 |
| `BeatmapMeta.BeatmapMetadata.SetPath` | osu/beatmapmeta.py:204-212 | stores the two path parts as directory and file, or raises ValueError and changes nothing |
| `BeatmapMeta.BeatmapMetadata.Text` | osu/beatmapmeta.py:243-256 | the text is `artist - title [diffName]` with the Unicode fallbacks of `Artist` and `Title`, and it reads back as the three parts when the artist holds no '-' and the title no '[' |
| `BeatmapMeta.BeatmapMetadata.OtherRankAsWritten` | osu/beatmapmeta.py:222-241 | as written, the taiko, ctb and mania getters all read the osu! slot (`OsuRank`) |
| `BeatmapMeta.BeatmapMetadata.SetOsuRank` | osu/beatmapmeta.py:214-220 | the osu! rank is slot 0; setting it changes only that slot, and both `OsuRank` and the per-mode getter `Rank` read the new value |
| `BeatmapMeta.BeatmapMetadata.SetTaikoRank` | osu/beatmapmeta.py:222-227 | writes only the taiko slot, which the as-written getter does not read |
| `BeatmapMeta.BeatmapMetadata.SetCtbRank` | osu/beatmapmeta.py:229-234 | writes only the ctb slot, which the as-written getter does not read |
| `BeatmapMeta.BeatmapMetadata.SetManiaRank` | osu/beatmapmeta.py:236-241 | writes only the mania slot, which the as-written getter does not read |
| `BeatmapMeta.RankAsWrittenLosesValue` | osu/beatmapmeta.py:222-227 | a taiko rank set to XH reads back as N |
| `OsuUrl.MultiplayerMatchFields` | osu/osuurl.py:10-16 | `osu://mp/<id>/<password>`, a None password rendered empty |
| `OsuUrl.MultiplayerMatch` | osu/osuurl.py:10-16 | the link starts with `osu://mp/`, ends with the password, and with no password ends in `<id>/` |
| `OsuUrl.EditTime` | osu/osuurl.py:24-28 | min·60000 + sec·1000 + ms is the time, with 0 ≤ sec < 60 and 0 ≤ ms < 1000 |
| `OsuUrl.TimeFieldsRead` | osu/osuurl.py:24-30 | the three zero-padded fields read back as min, sec and ms |
| `OsuUrl.MinutesPadded` | osu/osuurl.py:29 | zero-padding a number keeps its value |
| `OsuUrl.EditTimeText` | osu/osuurl.py:23-30 | the time text splits at ':' into its three padded fields |
| `OsuUrl.EditTimeRoundTrip` | osu/osuurl.py:24-30 | the time text splits at ':' into three fields that recombine to the time |
| `OsuUrl.ComboListRoundTrip` | osu/osuurl.py:29-30 | the combo list text splits back into the combo numbers |
| `OsuUrl.EditMapParts` | osu/osuurl.py:18-30 | `osu://edit/<time>`, followed by ` (n1,n2,…)` only when the combo list is non-empty |
| `OsuUrl.EditMap` | osu/osuurl.py:18-30 | the link starts with `osu://edit/` and the time text, and no list or an empty list adds nothing |
| `OsuUrl.WithComboSuffix` | osu/osuurl.py:29-30 | the combo suffix is separated by the only blank and present only for a non-empty list |
| `OsuUrl.ChatChannel` | osu/osuurl.py:32-38 | `osu://chan/<name>` |
| `OsuUrl.DirectDownload` | osu/osuurl.py:40-51 | ValueError when both ids or neither are given; `osu://dl/<set>` or `osu://b/<map>` otherwise |
| `OsuUrl.Spectate` | osu/osuurl.py:53-57 | `osu://spectate/<user>` for a name or an id |

## Left out

- File handles (`open`, `close`, `seek`, `tell`, `lineBack`): files are in-memory buffers and line sequences. The end of a child block is a returned line index, not a pushed-back line.
- `parseVariables` (storyboard variable substitution): child lines are read as given.
- Float parsing: `float()` is the decimal grammar of `Floats.ParseFloat`. It refuses `inf`, `nan`, `_` between digits and surrounding blanks; Python accepts all of these. A msPerBeat, a coordinate or a transform value written that way raises ValueError in the model where Python loads it. `Timing.TimeOf` is the exception: it still raises OverflowError for `inf` and loads `nan` as 0, as the source does.
- Binary rounding: a float token keeps its exact decimal value. Only the point where `float()` rounds to infinity (2^1024 - 2^970) is stated, in `Floats.Overflows`. `int(float(d[0]))` truncates the decimal value, and Python truncates its double; the two differ for times beyond 2^53.
- Float formatting: `f'{x}'` (the timing, event and transform savers) is Python's `repr(float)`, the shortest text that reads back as the same double, so Python saves `1.50` as `1.5`. The model writes a float back as the text it was read from. `bpm`, the float struct fields and the sprite coordinates are opaque tokens.
- `Strings.IsDecimal` stands for `str.isdecimal` (the version header) and for `str.isnumeric` (layer, origin and loop type), on ASCII digits only. The other Unicode digits and numerals those methods accept are not modelled.
- `Strings.ParseInt` accepts an optional sign and ASCII digits only; Python's `int()` also accepts surrounding blanks and `_` between digits.
- Text encoding: strings read from binary files stay UTF-8 bytes; decoding is not modelled.
- The binary record files (osu!.db, collection.db, scores.db, replays), `fromOsuDb`/`writeToDatabase`, the web API client, the collections script, `SortedList`/`SortedDict`, `add_slots` and `OsuUrl.open`: I/O, HTTP, reflection and library wrappers outside the parsing core.
- Beatmap saving (`save` prints every section) and the event-loading tail of `load` at osu/beatmap.py:268-321, which calls classes that do not exist. The save lines for the ids and colours are modelled only as the text the load lemmas read back. The bookmark save at osu/beatmap.py:386 is not modelled: it reads `self.bookmarks` and formats with `:g`.
- The stored fields of the setting keys other than Bookmarks and the ids: `Beatmap.Beatmap.LoadSetting` states, for every other key, only whether the line loads (`SettingOutcome`), not the field it sets.
- The `Countdown`, `OverlayPosition` and `OsuObjectType` names, which no module of the package defines: loading those settings is the NameError outcome, and the tags of `readOsuAny` use the osu! database's own codes 0..18. The class body of the beatmap also names `Countdown` and `OverlayPosition` (osu/beatmap.py:24, 54) and fails at import; that is not modelled.
- `HitSound(kwargs)` at osu/objects.py:102, osu/timing.py:15 and osu/events.py:550 passes a dict as the `hitSound` argument: the model starts `sounds` at 0.
- `Event.fromFile` dispatch over event kinds, and the break, background-colour, sample and video events: only the background, sprite and animation headers and the child-command block are modelled.
- The full line loaders of Circle, Slider, Spinner and ManiaHoldNote beyond the shared fields and the dispatch (curve points, edge sounds, end times).
- Grouping of same-tag commands, a mod display order and `difficultyChangingMods`: the code has none of them.
- `Timing.TimingRoundTrip` and `Timing.TimingPoint.SaveString` require the time to be below the float overflow. A larger integer time is saved as its digits, and Python's `int(float(...))` then raises OverflowError on reading it back.
- `Commands.WellFormed` leaves out `T` commands with no times. The source saves their times as `None`, and reading them back raises ValueError, so `Commands.ReadBack` and `Commands.TriggeredBack` cover only `T` commands with times.
- `Utility.TextFile.ReadLine` requires a comment prefix that is not empty. With `ignoreStart=""` every text starts with the prefix, the empty end-of-file read included, so the source loops forever. Non-termination is not modelled. Every call site uses the default `//`.
- `Objects.SliderSounds.SetRepeatCount`: the padding default is one fresh hit sound shared by every new slot, as in Python. The contract states this through the single `d`, and it states through `modifies this` that the kept objects are unchanged. No lemma follows the aliasing any further: a later change to one padded slot shows in all of them.

## Findings

| source | as written | input that shows it | evidently intended | confidence | as-written member | corrected member |
|---|---|---|---|---|---|---|
| osu/events.py:89 | `eventInfo.trim(' ')`: `str` has no `trim`, so AttributeError | any child line, e.g. ` F,0,0,1,1` | strip `' '` then `'_'` | not executed | `Events.LoadBlockAsWritten` | `Events.LoadBlock` |
| osu/events.py:110 | `' '+e.getSaveString()` indents only the first line of a child | a loop holding one fade | indent every line of the child | not executed | `Events.Event.GetSaveLinesAsWritten` | `Events.Event.GetSaveLines` |
| osu/events.py:127 | `len(eventInfo >= 5)` compares a list with an int: TypeError | `0,0,"bg.jpg"` | `len(eventInfo) >= 5` | not executed | `Events.LoadBackgroundAsWritten` | `Events.LoadBackground` |
| osu/events.py:129 | `self.x` assigned twice, `y` never set; latent, since line 127 raises first | `0,0,"bg.jpg",1,2` once line 127 reads `len(eventInfo) >= 5`: x becomes 2 and y keeps its old value | `self.y = int(eventInfo[4])` | not executed | `Events.LoadBackgroundLengthFixed`, `Events.BackgroundYLost` | `Events.LoadBackground`, `Events.BackgroundRoundTrip` |
| osu/events.py:196 | `o.isnumeric` is not called, so every origin goes through `int` | `TopLeft` | call `isnumeric()` and look names up | not executed | `Events.OriginNamesRefused` | `Events.OriginRoundTrip` |
| osu/events.py:307 | `len(eventInfo > 8)` compares a list with an int: TypeError | any animation line with more than 7 fields that reads | `len(eventInfo) > 8` | not executed | `Events.LoadAnimationAsWritten` | `Events.LoadAnimation` |
| osu/events.py:478-482 | `R` returns the index after the angle even when it read the end angle | `R,0,0,1,0,1` | return the index after the end angle | not executed | `Commands.RotateAsWrittenRereads` | `Commands.RotateBack` |
| osu/events.py:507 | `",".join(self.color)` joins ints: TypeError | any colour command read from a file | join the ints' texts and separate the end colour with ',' | not executed | `Commands.ColourNeverWritten` | `Commands.ColourBack` |
| osu/events.py:609 | the rendered trigger lacks the `HitSound` prefix | `HitSoundClap` renders as `Clap` | render `HitSound` + the parts | not executed | `Triggers.TriggerTextAsWrittenUnreadable` | `Triggers.TriggerRoundTrip` |
| osu/enums.py:448 | the ScoreV2 getter reads `self.MASK_ScoreV2`, which does not exist | `Mods(0).ScoreV2` | `MASK_V2` | not executed | `Enums.Mods.GetAsWritten` | `Enums.Mods.Set` |
| osu/enums.py:461 | Unranked reads `self.self.self.MASK_UNRANKED`, so Unranked and Ranked raise | `Mods(0).Unranked` | `mods & MASK_UNRANKED != 0` | not executed | `Enums.Mods.UnrankedAsWritten` | `Enums.Mods.Unranked` |
| osu/timing.py:24-25 | `(v \| flag) != 0` is true for every v | setting kiaiFlags to 0 | `(v & flag) != 0` | not executed | `Timing.KiaiAsWrittenDoesNotRoundTrip` | `Timing.KiaiRoundTrip` |
| osu/beatmapmeta.py:225 | the taiko setter is built with `@osuRank.setter`, so the taiko getter reads the osu! slot | set taikoRank to XH, read it | `@taikoRank.setter` | not executed | `BeatmapMeta.RankAsWrittenLosesValue` | `BeatmapMeta.BeatmapMetadata.SetTaikoRank` |
| osu/beatmapmeta.py:232 | the ctb setter is built with `@osuRank.setter` | set ctbRank, read it | `@ctbRank.setter` | not executed | `BeatmapMeta.BeatmapMetadata.OtherRankAsWritten` | `BeatmapMeta.BeatmapMetadata.SetCtbRank` |
| osu/beatmapmeta.py:239 | the mania setter is built with `@osuRank.setter` | set maniaRank, read it | `@maniaRank.setter` | not executed | `BeatmapMeta.BeatmapMetadata.OtherRankAsWritten` | `BeatmapMeta.BeatmapMetadata.SetManiaRank` |
