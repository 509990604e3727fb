/** Binary and text primitives (osu/utility.py).  A binary file is an
    in-memory byte buffer with a read position; a text file is the sequence of
    lines successive `readline()` calls return. */
module Utility {
  import opened Wrappers
  import opened Strings
  import opened Bits

  type byte = x: int | 0 <= x < 256

  /** A read that either fails or gives a value and the number of bytes it consumed. */
  type Reading<T> = Result<(T, nat)>

  /** The outcome of a read method agrees with its reading of the bytes that
      were left: the same error, or the same value and the position moved past
      the consumed bytes. */
  predicate Agrees<T(==)>(r: Result<T>, spec: Reading<T>, before: nat, after: nat)
  {
    match spec
    case Ok((v, n)) => r == Ok(v) && after == before + n
    case Err(e) => r == Err(e)
  }

  /** `s[:n]` */
  function Take<T>(s: seq<T>, n: nat): (r: seq<T>)
    ensures |r| == if n <= |s| then n else |s|
  {
    if n <= |s| then s[..n] else s
  }

  // ---------------------------------------------------------------- fixed-width integers

  function Pow256(w: nat): (r: nat)
    ensures r >= 1
  {
    if w == 0 then 1 else 256 * Pow256(w - 1)
  }

  /** 2^(8w - 1): the bound of a signed w-byte integer. */
  function Half(w: nat): nat
  {
    if w == 0 then 0 else 128 * Pow256(w - 1)
  }

  /** The integers the struct formats pack into w bytes: `b h i q` when
      signed, `B H I Q` when not. */
  predicate Fits(n: int, w: nat, signed: bool)
  {
    if signed then -(Half(w) as int) <= n < Half(w) else 0 <= n < Pow256(w)
  }

  /** The little-endian value of bs. */
  function LE(bs: seq<byte>): nat
  {
    if |bs| == 0 then 0 else bs[0] + 256 * LE(bs[1..])
  }

  /** The w low little-endian bytes of u. */
  function ToLE(u: nat, w: nat): (r: seq<byte>)
    ensures |r| == w
  {
    if w == 0 then [] else [u % 256] + ToLE(u / 256, w - 1)
  }

  lemma {:induction false} LEToLE(u: nat, w: nat)
    requires u < Pow256(w)
    ensures LE(ToLE(u, w)) == u
    decreases w
  {
    if w > 0 {
      LEToLE(u / 256, w - 1);
      assert ToLE(u, w)[1..] == ToLE(u / 256, w - 1);
    }
  }

  lemma {:induction false} LEBound(bs: seq<byte>)
    ensures LE(bs) < Pow256(|bs|)
    decreases |bs|
  {
    if |bs| > 0 {
      LEBound(bs[1..]);
    }
  }

  /** `struct.unpack('<' + fmt, bs)` for a w-byte integer format. */
  function Unpack(bs: seq<byte>, signed: bool): (r: int)
    ensures |bs| >= 1 ==> Fits(r, |bs|, signed)
  {
    LEBound(bs);
    assert |bs| >= 1 ==> Pow256(|bs|) == 2 * Half(|bs|);
    var u := LE(bs);
    if signed && u >= Half(|bs|) then u - Pow256(|bs|) else u
  }

  /** `struct.pack('<' + fmt, n)`: two's complement, little-endian. */
  function Pack(n: int, w: nat): (r: seq<byte>)
    ensures |r| == w
    ensures LE(r) == n % Pow256(w)
  {
    LEToLE(n % Pow256(w), w);
    ToLE(n % Pow256(w), w)
  }

  /** Unpacking what was packed gives the integer back. */
  lemma UnpackPack(n: int, w: nat, signed: bool)
    requires w >= 1 && Fits(n, w, signed)
    ensures Unpack(Pack(n, w), signed) == n
  {
    var p := Pow256(w);
    assert p == 2 * Half(w);
    if n >= 0 {
      DivModUnique(n, p, 0, n);
    } else {
      DivModUnique(n, p, -1, n + p);
    }
    LEToLE(n % p, w);
  }

  /** `unpackData(fmt, w)`: w bytes, or struct.error when fewer are left. */
  function ReadPackedOf(s: seq<byte>, w: nat, signed: bool): (r: Reading<int>)
    ensures r.Ok? ==> r.value.1 == w
    ensures r.Err? <==> |s| < w
    ensures r.Err? ==> r.error == StructError
  {
    if |s| < w then Err(StructError) else Ok((Unpack(s[..w], signed), w))
  }

  // ---------------------------------------------------------------- 7-bit integers

  /** The bytes `write7bitInt(n)` writes for n >= 0: unsigned LEB128, the low
      seven bits first, 0x80 on every byte but the last. */
  function Varint(n: nat): (r: seq<byte>)
    decreases n
  {
    if n < 128 then [n] else [n % 128 + 128] + Varint(n / 128)
  }

  /** `write7bitInt(n)` for any integer: a negative n writes the one byte `n & 0x7F`. */
  function VarintOf(n: int): (r: seq<byte>)
    ensures |r| >= 1
    ensures n < 0 ==> ReadVarint(r) == Ok((n % 128, 1))
  {
    if n < 0 then [n % 128] else Varint(n)
  }

  /** LEB128 decoding: the value and length of the varint at the start of s;
      struct.error when s ends inside it. */
  function ReadVarint(s: seq<byte>): (r: Reading<int>)
    ensures r.Ok? ==> 0 <= r.value.0 && 1 <= r.value.1 <= |s|
    ensures r.Err? ==> r.error == StructError
  {
    if |s| == 0 then Err(StructError)
    else if s[0] < 128 then Ok((s[0], 1))
    else match ReadVarint(s[1..])
      case Ok((v, c)) => Ok((s[0] - 128 + 128 * v, c + 1))
      case Err(e) => Err(e)
  }

  /** The varint of n: continuation bits on all bytes but the last; below 128 it is one byte. */
  lemma {:induction false} VarintShape(n: nat)
    ensures var v := Varint(n);
      |v| >= 1 && v[|v| - 1] < 128 && (forall i :: 0 <= i < |v| - 1 ==> v[i] >= 128)
    ensures n < 128 ==> Varint(n) == [n]
    ensures n >= 128 ==> |Varint(n)| >= 2
    decreases n
  {
    if n >= 128 {
      VarintShape(n / 128);
    }
  }

  /** Reading the varint of n back gives n and consumes exactly its bytes. */
  lemma {:induction false} VarintRoundTrip(n: nat, rest: seq<byte>)
    ensures ReadVarint(Varint(n) + rest) == Ok((n, |Varint(n)|))
    decreases n
  {
    var s := Varint(n) + rest;
    if n >= 128 {
      VarintRoundTrip(n / 128, rest);
      assert s[1..] == Varint(n / 128) + rest;
    }
  }

  /** One step of `write7bitInt`'s loop: the byte it writes for b, then the varint of `b >> 7` if that is positive. */
  lemma VarintStep(b: nat)
    ensures Varint(b) == [b % 128 + (if b > 0x7F then 128 else 0)] + (if b / 128 > 0 then Varint(b / 128) else [])
  {
    if b >= 128 {
      assert b / 128 > 0;
    }
  }

  /** What `write7bitInt` has still to write once b is left: nothing unless b is positive. */
  function Pending(b: int): seq<byte>
  {
    if b > 0 then Varint(b) else []
  }

  /** The first byte `write7bitInt(n)` writes, then what is left to write. */
  lemma FirstGroup(n: int)
    ensures VarintOf(n) == [GroupByte(n)] + Pending(n / 128)
  {
    if n >= 0 {
      VarintStep(n);
    }
  }

  /** Each turn of the loop writes one byte of what was left. */
  lemma NextGroup(b: int)
    requires b > 0
    ensures Pending(b) == [GroupByte(b)] + Pending(b / 128)
    ensures 0 <= b / 128 < b
  {
    VarintStep(b);
  }

  lemma Assoc(a: seq<byte>, b: seq<byte>, c: seq<byte>)
    ensures (a + b) + c == a + (b + c)
  {
  }

  /** The seven-bit groups of bs, least significant first: what `read7bitInt`
      accumulates with `ret |= (b & 0x7F) << sh`. */
  function Digits7(bs: seq<byte>): nat
  {
    if |bs| == 0 then 0 else bs[0] % 128 + 128 * Digits7(bs[1..])
  }

  lemma {:induction false} Digits7Bound(bs: seq<byte>)
    ensures Digits7(bs) < Pow2(7 * |bs|)
    decreases |bs|
  {
    if |bs| > 0 {
      Digits7Bound(bs[1..]);
      Pow2Add(7, 7 * (|bs| - 1));
      assert Pow2(7) == 128;
    }
  }

  lemma {:induction false} Digits7Snoc(bs: seq<byte>, b: byte)
    ensures Digits7(bs + [b]) == Digits7(bs) + (b % 128) * Pow2(7 * |bs|)
    decreases |bs|
  {
    if |bs| > 0 {
      var t := bs[1..];
      var m := b % 128;
      var p := Pow2(7 * |t|);
      assert (bs + [b])[1..] == t + [b];
      Digits7Snoc(t, b);
      Pow2Add(7, 7 * |t|);
      assert Pow2(7) == 128;
      assert Pow2(7 * |bs|) == 128 * p;
      assert Digits7(bs + [b]) == bs[0] % 128 + 128 * Digits7(t + [b]);
      assert Digits7(bs) == bs[0] % 128 + 128 * Digits7(t);
      ShiftGroup(bs[0] % 128, Digits7(t), m, p);
    } else {
      assert Pow2(0) == 1;
    }
  }

  lemma ShiftGroup(a: int, d: int, m: int, p: int)
    ensures a + 128 * (d + m * p) == (a + 128 * d) + m * (128 * p)
  {
  }

  /** One turn of `read7bitInt`'s loop: `ret |= (b & 0x7F) << sh` adds the next seven-bit group. */
  lemma Accumulate(before: seq<byte>, b: byte, ret: int, sh: nat)
    requires ret == Digits7(before) && sh == 7 * |before|
    ensures IOr(ret, Shl(IAnd(b, 0x7F), sh)) == Digits7(before + [b])
  {
    Digits7Bound(before);
    Digits7Snoc(before, b);
    LowSeven(b);
    OrDisjoint(ret, b % 128, sh);
  }

  /** A run of continuation bytes closed by a byte below 0x80 decodes to its digits. */
  lemma {:induction false} ReadVarintPrefix(s: seq<byte>, c: nat)
    requires 1 <= c <= |s| && s[c - 1] < 128
    requires forall i :: 0 <= i < c - 1 ==> s[i] >= 128
    ensures ReadVarint(s) == Ok((Digits7(s[..c]), c))
    decreases c
  {
    if c > 1 {
      ReadVarintPrefix(s[1..], c - 1);
      assert s[..c][1..] == s[1..][..c - 1];
    }
  }

  /** Input that is all continuation bytes makes the reader run off the end. */
  lemma {:induction false} ReadVarintUnterminated(s: seq<byte>)
    requires forall i :: 0 <= i < |s| ==> s[i] >= 128
    ensures ReadVarint(s) == Err(StructError)
    decreases |s|
  {
    if |s| > 0 {
      ReadVarintUnterminated(s[1..]);
    }
  }

  /** `b & 0x7F` is `b % 128`, and `(b & 0x7F) | 0x80` adds 0x80. */
  lemma LowSeven(b: int)
    ensures IAnd(b, 0x7F) == b % 128
    ensures IOr(IAnd(b, 0x7F), if b > 0x7F then 0x80 else 0) == b % 128 + (if b > 0x7F then 128 else 0)
  {
    assert Pow2(7) == 128;
    IAndLowMask(b, 7);
    if b > 0x7F {
      OrDisjoint(b % 128, 1, 7);
    } else {
      OrZero(b % 128);
    }
  }

  /** `(b & 0x7F) | (0x80 if b > 0x7F else 0)`: the byte `write7bitInt` writes for b. */
  function GroupByte(b: int): (r: byte)
    ensures r == b % 128 + (if b > 0x7F then 128 else 0)
  {
    LowSeven(b);
    IOr(IAnd(b, 0x7F), if b > 0x7F then 0x80 else 0)
  }

  /** `b & 0x80` tests the continuation bit of a byte. */
  lemma HighFlag(b: byte)
    ensures IAnd(b, 0x80) != 0 <==> b >= 128
  {
    assert Pow2(7) == 128;
    IAndPow2(b, 7);
    BitDiv(b, 7);
  }

  // ---------------------------------------------------------------- bools and byte strings

  /** `readByte` */
  function ReadByteOf(s: seq<byte>): (r: Reading<byte>)
    ensures r.Ok? ==> r.value.1 == 1
  {
    if |s| == 0 then Err(StructError) else Ok((s[0], 1))
  }

  /** `readBool`: ValueError for a byte above 1. */
  function ReadBoolOf(s: seq<byte>): (r: Reading<bool>)
    ensures |s| == 0 ==> r == Err(StructError)
    ensures |s| > 0 ==> r == if s[0] > 1 then Err(ValueError) else Ok((s[0] == 1, 1))
  {
    var (b, c) :- ReadByteOf(s);
    if b > 1 then Err(ValueError) else Ok((b != 0, c))
  }

  /** `writeBool`: the byte `int(bool(v))`. */
  function BoolByte(v: bool): byte
  {
    if v then 1 else 0
  }

  lemma BoolRoundTrip(v: bool, rest: seq<byte>)
    ensures ReadBoolOf([BoolByte(v)] + rest) == Ok((v, 1))
  {
  }

  /** `readBytes(n, len32)`: the length is n when given, otherwise an `int32`
      when len32 and a 7-bit integer when not; a negative length gives None,
      any other at most that many bytes. */
  function ReadBytesOf(s: seq<byte>, n: Option<int>, len32: bool): (r: Reading<Option<seq<byte>>>)
    ensures r.Ok? ==> r.value.1 <= |s|
    ensures r.Err? ==> r.error == StructError
  {
    var (m, c) :- if n.Some? then Ok((n.value, 0)) else if len32 then ReadPackedOf(s, 4, true) else ReadVarint(s);
    if m < 0 then Ok((None, c))
    else
      var d := Take(s[c..], m);
      Ok((Some(d), c + |d|))
  }

  /** `writeBytes(b, len32)`: with len32 an `int32` length (-1 for None) and
      then the bytes; without, a 7-bit length, and `len(None)` raises TypeError. */
  function BytesText(b: Option<seq<byte>>, len32: bool): (r: Result<seq<byte>>)
    ensures r.Err? <==> if len32 then b.Some? && |b.value| >= Half(4) else b.None?
    ensures r.Err? ==> r.error == (if len32 then StructError else TypeError)
    ensures r.Ok? && b.Some? ==> |r.value| > |b.value| && r.value[|r.value| - |b.value|..] == b.value
    ensures r.Ok? && len32 ==> |r.value| >= 4 && Unpack(r.value[..4], true) == (if b.None? then -1 else |b.value|)
  {
    assert Half(4) == 0x8000_0000;
    if len32 then
      var m := if b.None? then -1 else |b.value|;
      if b.Some? && |b.value| >= Half(4) then Err(StructError)
      else
        UnpackPack(m, 4, true);
        var t := Pack(m, 4) + (if b.None? then [] else b.value);
        assert t[..4] == Pack(m, 4);
        Ok(t)
    else if b.None? then Err(TypeError)
    else Ok(Varint(|b.value|) + b.value)
  }

  /** Reading back what `writeBytes` wrote, with the same len32, gives the
      bytes (or None) and consumes exactly what was written. */
  lemma BytesRoundTrip(b: Option<seq<byte>>, len32: bool, rest: seq<byte>)
    requires BytesText(b, len32).Ok?
    ensures ReadBytesOf(BytesText(b, len32).value + rest, None, len32) == Ok((b, |BytesText(b, len32).value|))
  {
    var t := BytesText(b, len32).value;
    var s := t + rest;
    if len32 {
      assert Half(4) == 0x8000_0000;
      var m := if b.None? then -1 else |b.value|;
      assert s[..4] == Pack(m, 4);
      UnpackPack(m, 4, true);
      if b.Some? {
        assert s[4..][..|b.value|] == b.value;
      }
    } else {
      var v := Varint(|b.value|);
      VarintRoundTrip(|b.value|, b.value + rest);
      assert s == v + (b.value + rest);
      assert s[|v|..][..|b.value|] == b.value;
    }
  }

  /** `readString(n, len32)`: the bytes of `readBytes`, kept undecoded; a
      None from `readBytes` has no `decode` and raises AttributeError. */
  function ReadStringOf(s: seq<byte>, n: Option<int>, len32: bool): (r: Reading<seq<byte>>)
    ensures r.Ok? ==> r.value.1 <= |s|
    ensures r.Err? ==> r.error in {StructError, AttributeError}
  {
    var (b, c) :- ReadBytesOf(s, n, len32);
    if b.None? then Err(AttributeError) else Ok((b.value, c))
  }

  // ---------------------------------------------------------------- timestamps

  /** `datetime.max - datetime(1, 1, 1)` in microseconds. */
  const MAX_MICROS: nat := 315537897599999999

  /** A `datetime`, as microseconds since 0001-01-01 00:00. */
  type Micros = x: int | 0 <= x <= MAX_MICROS

  /** `readOsuTimestamp`: `datetime(1, 1, 1) + timedelta(microseconds=ticks // 10)`
      for an `int64` tick count; OverflowError outside the datetime range. */
  function ReadTimestampOf(s: seq<byte>): (r: Reading<Micros>)
    ensures |s| < 8 ==> r == Err(StructError)
    ensures |s| >= 8 ==> (r.Ok? <==> 0 <= Unpack(s[..8], true) / 10 <= MAX_MICROS)
    ensures r.Ok? ==> r.value == (Unpack(s[..8], true) / 10, 8)
    ensures r.Err? ==> r.error in {StructError, OverflowError}
  {
    var (ticks, c) :- ReadPackedOf(s, 8, true);
    var us := ticks / 10;
    if 0 <= us <= MAX_MICROS then Ok((us, c)) else Err(OverflowError)
  }

  /** The argument of `writeOsuTimestamp`: a datetime, or anything else, which is written as it is. */
  datatype Stamp = DateTime(us: Micros) | Ticks(n: int)

  /** The tick count `writeOsuTimestamp` writes: ten per microsecond. */
  function StampTicks(v: Stamp): int
  {
    match v
    case DateTime(us) => us * 10
    case Ticks(n) => n
  }

  /** Writing a datetime and reading it back gives the datetime. */
  lemma TimestampRoundTrip(us: Micros, rest: seq<byte>)
    ensures ReadTimestampOf(Pack(StampTicks(DateTime(us)), 8) + rest) == Ok((us, 8))
  {
    var s := Pack(us * 10, 8) + rest;
    assert Half(8) == 0x8000_0000_0000_0000;
    assert s[..8] == Pack(us * 10, 8);
    UnpackPack(us * 10, 8, true);
    DivModUnique(us * 10, 10, us, 0);
  }

  /** Re-writing a timestamp that was read stores the ticks rounded down to a
      multiple of ten: `ticks - ticks % 10`. */
  lemma TimestampRewrite(ticks: int, rest: seq<byte>)
    requires Fits(ticks, 8, true)
    requires ReadTimestampOf(Pack(ticks, 8) + rest).Ok?
    ensures StampTicks(DateTime(ReadTimestampOf(Pack(ticks, 8) + rest).value.0)) == ticks - ticks % 10
  {
    var s := Pack(ticks, 8) + rest;
    assert s[..8] == Pack(ticks, 8);
    UnpackPack(ticks, 8, true);
  }

  // ---------------------------------------------------------------- tagged values

  /** The type tags of the osu! serialisation format.  The `OsuObjectType`
      enumeration itself is not part of this model; these are the format's
      own codes (0x00 for no value and 0x0b for a string). */
  const TAG_NONE: byte := 0
  const TAG_BOOL: byte := 1
  const TAG_BYTE: byte := 2
  const TAG_UINT16: byte := 3
  const TAG_UINT32: byte := 4
  const TAG_UINT64: byte := 5
  const TAG_SBYTE: byte := 6
  const TAG_INT16: byte := 7
  const TAG_INT32: byte := 8
  const TAG_INT64: byte := 9
  const TAG_CHAR: byte := 10
  const TAG_STRING: byte := 11
  const TAG_FLOAT: byte := 12
  const TAG_DOUBLE: byte := 13
  const TAG_DECIMAL: byte := 14
  const TAG_DATETIME: byte := 15
  const TAG_BYTEARR: byte := 16
  const TAG_CHARARR: byte := 17
  const TAG_OTHER: byte := 18

  /** What `readOsuAny` returns.  Floats are kept as their raw bytes and
      strings as their UTF-8 bytes. */
  datatype OsuAny =
    | AnyNone
    | AnyInt(i: int)
    | AnyFloat(raw: seq<byte>)
    | AnyString(utf8: seq<byte>)
    | AnyBytes(bytes: Option<seq<byte>>)
    | AnyTime(us: Micros)

  /** A reading of an integer of w bytes, as an OsuAny. */
  function AnyIntOf(s: seq<byte>, w: nat, signed: bool): Reading<OsuAny>
  {
    var (i, c) :- ReadPackedOf(s, w, signed);
    Ok((AnyInt(i), c))
  }

  /** The value after tag t, read from s. `readFloat` and `readDouble` accept any 4 or 8 bytes. */
  function ReadTaggedOf(t: byte, s: seq<byte>): (r: Reading<OsuAny>)
    ensures r.Ok? ==> r.value.1 <= |s|
    ensures t == TAG_NONE ==> r == Ok((AnyNone, 0))
    ensures r == Err(NotImplementedError) <==> t == TAG_DECIMAL || t == TAG_OTHER || t > TAG_OTHER
  {
    if t == TAG_NONE then Ok((AnyNone, 0))
    else if t == TAG_STRING then
      var (u, c) :- ReadStringOf(s, None, false);
      Ok((AnyString(u), c))
    else if t == TAG_INT32 then AnyIntOf(s, 4, true)
    else if t == TAG_FLOAT || t == TAG_DOUBLE then
      var w := if t == TAG_FLOAT then 4 else 8;
      if |s| < w then Err(StructError) else Ok((AnyFloat(s[..w]), w))
    else if t == TAG_BOOL || t == TAG_BYTE then AnyIntOf(s, 1, false)
    else if t == TAG_UINT16 then AnyIntOf(s, 2, false)
    else if t == TAG_UINT32 then AnyIntOf(s, 4, false)
    else if t == TAG_UINT64 then AnyIntOf(s, 8, false)
    else if t == TAG_SBYTE || t == TAG_CHAR then AnyIntOf(s, 1, true)
    else if t == TAG_INT16 then AnyIntOf(s, 2, true)
    else if t == TAG_INT64 then AnyIntOf(s, 8, true)
    else if t == TAG_DATETIME then
      var (us, c) :- ReadTimestampOf(s);
      Ok((AnyTime(us), c))
    else if t == TAG_BYTEARR then
      var (b, c) :- ReadBytesOf(s, None, true);
      Ok((AnyBytes(b), c))
    else if t == TAG_CHARARR then
      var (u, c) :- ReadStringOf(s, None, true);
      Ok((AnyString(u), c))
    else Err(NotImplementedError)
  }

  /** `readOsuAny`: a tag byte, then the value it announces. */
  function ReadOsuAnyOf(s: seq<byte>): (r: Reading<OsuAny>)
    ensures |s| == 0 ==> r == Err(StructError)
    ensures r.Ok? ==> 1 <= r.value.1 <= |s|
    ensures |s| > 0 ==> (r.Ok? <==> ReadTaggedOf(s[0], s[1..]).Ok?)
  {
    var (t, c) :- ReadByteOf(s);
    var (v, k) :- ReadTaggedOf(t, s[1..]);
    Ok((v, c + k))
  }

  /** Decimal, `other` and unknown tags raise NotImplementedError. */
  lemma UnknownTag(t: byte, rest: seq<byte>)
    requires t == TAG_DECIMAL || t == TAG_OTHER || t > TAG_OTHER
    ensures ReadOsuAnyOf([t] + rest) == Err(NotImplementedError)
  {
    assert ([t] + rest)[1..] == rest;
  }

  /** The argument of `writeOsuString`: None, a string, or something else. */
  datatype OsuValue = NoValue | Str(utf8: seq<byte>) | NotAString

  /** `writeOsuString(v)`: the NONE tag alone, or the STRING tag and a 7-bit
      length-prefixed body; TypeError for anything else. */
  function OsuStringText(v: OsuValue): (r: Result<seq<byte>>)
    ensures r.Err? <==> v == NotAString
    ensures r.Err? ==> r.error == TypeError
    ensures r.Ok? ==> |r.value| >= 1 && r.value[0] == if v.NoValue? then TAG_NONE else TAG_STRING
  {
    match v
    case NoValue => Ok([TAG_NONE])
    case Str(u) => Ok([TAG_STRING] + Varint(|u|) + u)
    case NotAString => Err(TypeError)
  }

  /** `readOsuAny` reads back what `writeOsuString` wrote. */
  lemma OsuStringRoundTrip(v: OsuValue, rest: seq<byte>)
    requires v != NotAString
    ensures ReadOsuAnyOf(OsuStringText(v).value + rest)
      == Ok((if v.NoValue? then AnyNone else AnyString(v.utf8), |OsuStringText(v).value|))
  {
    var t := OsuStringText(v).value;
    var s := t + rest;
    if v.Str? {
      assert s[1..] == Varint(|v.utf8|) + v.utf8 + rest;
      BytesRoundTrip(Some(v.utf8), false, rest);
    }
  }

  // ---------------------------------------------------------------- binary files

  /** A binary file: its bytes and the read position.  Reads consume bytes at
      the position; writes append to the bytes. */
  class BinaryFile {
    var data: seq<byte>
    var pos: nat

    predicate Valid()
      reads this
    {
      pos <= |data|
    }

    /** The bytes not yet read. */
    function Rest(): seq<byte>
      reads this
      requires Valid()
    {
      data[pos..]
    }

    constructor (contents: seq<byte>)
      ensures Valid() && data == contents && pos == 0
    {
      data := contents;
      pos := 0;
    }

    /** `readData(n)`: at most n bytes; fewer at the end of the file. */
    method ReadData(n: nat) returns (r: seq<byte>)
      requires Valid()
      modifies this
      ensures Valid() && data == old(data)
      ensures r == Take(old(Rest()), n) && pos == old(pos) + |r|
    {
      var e := if pos + n <= |data| then pos + n else |data|;
      r := data[pos..e];
      pos := e;
    }

    /** `writeData(b)` */
    method WriteData(b: seq<byte>)
      modifies this
      ensures data == old(data) + b && pos == old(pos)
    {
      data := data + b;
    }

    /** `readByte` */
    method ReadByte() returns (r: Result<byte>)
      requires Valid()
      modifies this
      ensures Valid() && data == old(data)
      ensures Agrees(r, ReadByteOf(old(Rest())), old(pos), pos)
    {
      var b := ReadData(1);
      if |b| < 1 {
        return Err(StructError);
      }
      return Ok(b[0]);
    }

    /** `writeByte(b)` */
    method WriteByte(b: byte)
      modifies this
      ensures data == old(data) + [b] && pos == old(pos)
    {
      WriteData([b]);
    }

    /** `unpackData` of a w-byte integer format. */
    method ReadInteger(w: nat, signed: bool) returns (r: Result<int>)
      requires Valid()
      modifies this
      ensures Valid() && data == old(data)
      ensures Agrees(r, ReadPackedOf(old(Rest()), w, signed), old(pos), pos)
    {
      var b := ReadData(w);
      if |b| < w {
        return Err(StructError);
      }
      return Ok(Unpack(b, signed));
    }

    /** `packData` of a w-byte integer format: struct.error when n does not fit. */
    method WriteInteger(n: int, w: nat, signed: bool) returns (r: Result<()>)
      modifies this
      ensures r.Ok? <==> Fits(n, w, signed)
      ensures data == old(data) + (if r.Ok? then Pack(n, w) else []) && pos == old(pos)
    {
      if !Fits(n, w, signed) {
        return Err(StructError);
      }
      WriteData(Pack(n, w));
      return Ok(());
    }

    /** `readBool` */
    method ReadBool() returns (r: Result<bool>)
      requires Valid()
      modifies this
      ensures Valid() && data == old(data)
      ensures Agrees(r, ReadBoolOf(old(Rest())), old(pos), pos)
    {
      var b := ReadByte();
      if b.Err? {
        return Err(b.error);
      }
      if b.value > 1 {
        return Err(ValueError);
      }
      return Ok(b.value != 0);
    }

    /** `writeBool` */
    method WriteBool(v: bool)
      modifies this
      ensures data == old(data) + [BoolByte(v)] && pos == old(pos)
    {
      WriteByte(if v then 1 else 0);
    }

    /** `read7bitInt` */
    method Read7bitInt() returns (r: Result<int>)
      requires Valid()
      modifies this
      ensures Valid() && data == old(data)
      ensures Agrees(r, ReadVarint(old(Rest())), old(pos), pos)
    {
      ghost var p0 := pos;
      var first := ReadByte();
      if first.Err? {
        return Err(first.error);
      }
      var b: byte := first.value;
      var ret: int := IAnd(b, 0x7F);
      var sh: nat := 0;
      Accumulate([], b, 0, 0);
      assert data[p0..pos] == [] + [b];
      while IAnd(b, 0x80) != 0
        invariant Valid() && data == old(data) && p0 < pos
        invariant b == data[pos - 1] && sh == 7 * (pos - p0 - 1)
        invariant forall j :: p0 <= j < pos - 1 ==> data[j] >= 128
        invariant ret == Digits7(data[p0..pos])
        decreases |data| - pos
      {
        HighFlag(b);
        sh := sh + 7;
        ghost var before := data[p0..pos];
        var next := ReadByte();
        if next.Err? {
          ReadVarintUnterminated(data[p0..]);
          return Err(next.error);
        }
        b := next.value;
        assert data[p0..pos] == before + [b];
        Accumulate(before, b, ret, sh);
        ret := IOr(ret, Shl(IAnd(b, 0x7F), sh));
      }
      HighFlag(b);
      ReadVarintPrefix(data[p0..], pos - p0);
      assert data[p0..][..pos - p0] == data[p0..pos];
      return Ok(ret);
    }

    /** `write7bitInt(n)` */
    method Write7bitInt(n: int)
      modifies this
      ensures data == old(data) + VarintOf(n) && pos == old(pos)
    {
      var b := n;
      FirstGroup(b);
      Assoc(data, [GroupByte(b)], Pending(b / 128));
      WriteByte(GroupByte(b));
      b := b / 128;  // `b >>= 7`, a floor division by 2^7
      while b > 0
        invariant data + Pending(b) == old(data) + VarintOf(n)
        invariant pos == old(pos)
        decreases b
      {
        var g := GroupByte(b);
        NextGroup(b);
        Assoc(data, [g], Pending(b / 128));
        WriteByte(g);
        b := b / 128;
      }
    }

    /** `readBytes(n, len32)` */
    method ReadBytes(n: Option<int>, len32: bool) returns (r: Result<Option<seq<byte>>>)
      requires Valid()
      modifies this
      ensures Valid() && data == old(data)
      ensures Agrees(r, ReadBytesOf(old(Rest()), n, len32), old(pos), pos)
    {
      var m: int;
      if n.Some? {
        m := n.value;
      } else if len32 {
        var l := ReadInteger(4, true);
        if l.Err? {
          return Err(l.error);
        }
        m := l.value;
      } else {
        var l := Read7bitInt();
        if l.Err? {
          return Err(l.error);
        }
        m := l.value;
      }
      if m < 0 {
        return Ok(None);
      }
      var d := ReadData(m);
      return Ok(Some(d));
    }

    /** `writeBytes(b, len32)` */
    method WriteBytes(b: Option<seq<byte>>, len32: bool) returns (r: Result<()>)
      modifies this
      ensures r.Ok? <==> BytesText(b, len32).Ok?
      ensures data == old(data) + (if r.Ok? then BytesText(b, len32).value else []) && pos == old(pos)
    {
      if len32 {
        if b.None? {
          r := WriteInteger(-1, 4, true);
          return;
        } else {
          r := WriteInteger(|b.value|, 4, true);
          if r.Err? {
            return;
          }
          Assoc(old(data), Pack(|b.value|, 4), b.value);
        }
      } else {
        if b.None? {
          return Err(TypeError);
        }
        Write7bitInt(|b.value|);
        Assoc(old(data), Varint(|b.value|), b.value);
      }
      WriteData(b.value);
      return Ok(());
    }

    /** `readString(n, len32)` */
    method ReadString(n: Option<int>, len32: bool) returns (r: Result<seq<byte>>)
      requires Valid()
      modifies this
      ensures Valid() && data == old(data)
      ensures Agrees(r, ReadStringOf(old(Rest()), n, len32), old(pos), pos)
    {
      var b := ReadBytes(n, len32);
      if b.Err? {
        return Err(b.error);
      }
      if b.value.None? {
        return Err(AttributeError);
      }
      return Ok(b.value.value);
    }

    /** `writeString(s, len32)` */
    method WriteString(s: seq<byte>, len32: bool) returns (r: Result<()>)
      modifies this
      ensures r.Ok? <==> BytesText(Some(s), len32).Ok?
      ensures data == old(data) + (if r.Ok? then BytesText(Some(s), len32).value else []) && pos == old(pos)
    {
      r := WriteBytes(Some(s), len32);
    }

    /** `writeOsuString(v)` */
    method WriteOsuString(v: OsuValue) returns (r: Result<()>)
      modifies this
      ensures r.Ok? <==> OsuStringText(v).Ok?
      ensures data == old(data) + (if r.Ok? then OsuStringText(v).value else []) && pos == old(pos)
    {
      match v {
        case NoValue =>
          WriteByte(TAG_NONE);
        case Str(u) =>
          WriteByte(TAG_STRING);
          r := WriteString(u, false);
          Assoc(old(data), [TAG_STRING], Varint(|u|) + u);
          assert [TAG_STRING] + (Varint(|u|) + u) == OsuStringText(v).value;
        case NotAString =>
          return Err(TypeError);
      }
      return Ok(());
    }

    /** `readOsuTimestamp` */
    method ReadOsuTimestamp() returns (r: Result<Micros>)
      requires Valid()
      modifies this
      ensures Valid() && data == old(data)
      ensures Agrees(r, ReadTimestampOf(old(Rest())), old(pos), pos)
    {
      var ticks := ReadInteger(8, true);
      if ticks.Err? {
        return Err(ticks.error);
      }
      var us := ticks.value / 10;
      if us < 0 || us > MAX_MICROS {
        return Err(OverflowError);
      }
      return Ok(us);
    }

    /** `writeOsuTimestamp(v)` */
    method WriteOsuTimestamp(v: Stamp) returns (r: Result<()>)
      modifies this
      ensures r.Ok? <==> Fits(StampTicks(v), 8, true)
      ensures data == old(data) + (if r.Ok? then Pack(StampTicks(v), 8) else []) && pos == old(pos)
    {
      var n := match v case DateTime(us) => us * 10 case Ticks(t) => t;
      r := WriteInteger(n, 8, true);
    }

    /** An integer value of a tagged field. */
    method ReadAnyInt(w: nat, signed: bool) returns (r: Result<OsuAny>)
      requires Valid()
      modifies this
      ensures Valid() && data == old(data)
      ensures Agrees(r, AnyIntOf(old(Rest()), w, signed), old(pos), pos)
    {
      var i := ReadInteger(w, signed);
      if i.Err? {
        return Err(i.error);
      }
      return Ok(AnyInt(i.value));
    }

    /** The value after the tag t. */
    method ReadTagged(t: byte) returns (r: Result<OsuAny>)
      requires Valid()
      modifies this
      ensures Valid() && data == old(data)
      ensures Agrees(r, ReadTaggedOf(t, old(Rest())), old(pos), pos)
    {
      if t == TAG_NONE {
        return Ok(AnyNone);
      } else if t == TAG_STRING || t == TAG_CHARARR {
        var u := ReadString(None, t == TAG_CHARARR);
        if u.Err? {
          return Err(u.error);
        }
        return Ok(AnyString(u.value));
      } else if t == TAG_FLOAT || t == TAG_DOUBLE {
        var w := if t == TAG_FLOAT then 4 else 8;
        var b := ReadData(w);
        if |b| < w {
          return Err(StructError);
        }
        return Ok(AnyFloat(b));
      } else if t == TAG_DATETIME {
        var us := ReadOsuTimestamp();
        if us.Err? {
          return Err(us.error);
        }
        return Ok(AnyTime(us.value));
      } else if t == TAG_BYTEARR {
        var b := ReadBytes(None, true);
        if b.Err? {
          return Err(b.error);
        }
        return Ok(AnyBytes(b.value));
      } else if t == TAG_INT32 || t == TAG_UINT32 {
        r := ReadAnyInt(4, t == TAG_INT32);
      } else if t == TAG_BOOL || t == TAG_BYTE || t == TAG_SBYTE || t == TAG_CHAR {
        r := ReadAnyInt(1, t == TAG_SBYTE || t == TAG_CHAR);
      } else if t == TAG_UINT16 || t == TAG_INT16 {
        r := ReadAnyInt(2, t == TAG_INT16);
      } else if t == TAG_UINT64 || t == TAG_INT64 {
        r := ReadAnyInt(8, t == TAG_INT64);
      } else {
        return Err(NotImplementedError);
      }
    }

    /** `readOsuAny` (and `readOsuString`, which calls it) */
    method ReadOsuAny() returns (r: Result<OsuAny>)
      requires Valid()
      modifies this
      ensures Valid() && data == old(data)
      ensures Agrees(r, ReadOsuAnyOf(old(Rest())), old(pos), pos)
    {
      ghost var s := Rest();
      var t := ReadByte();
      if t.Err? {
        return Err(t.error);
      }
      assert Rest() == s[1..];
      r := ReadTagged(t.value);
    }
  }

  // ---------------------------------------------------------------- text files

  /** What `readline()` returns for line j: the line, or "" past the end. */
  function RawLine(lines: seq<string>, j: nat): string
  {
    if j < |lines| then lines[j] else ""
  }

  /** The first line at or after i that is not a comment: with a comment
      start, every line skipped starts with it and the line found does not. */
  function SkipComments(lines: seq<string>, i: nat, ignoreStart: Option<string>): (j: nat)
    requires i <= |lines|
    ensures i <= j <= |lines|
    ensures ignoreStart.None? ==> j == i
    ensures ignoreStart.Some? ==> forall k :: i <= k < j ==> StartsWith(lines[k], ignoreStart.value)
    ensures ignoreStart.Some? && j < |lines| ==> !StartsWith(lines[j], ignoreStart.value)
    decreases |lines| - i
  {
    if i < |lines| && ignoreStart.Some? && StartsWith(lines[i], ignoreStart.value)
    then SkipComments(lines, i + 1, ignoreStart)
    else i
  }

  const LINE_END: set<char> := {'\r', '\n'}

  /** A text file: the lines successive `readline()` calls return, each with
      its line end (the last may lack one); once they are used up
      `readline()` returns "". */
  class TextFile {
    var lines: seq<string>
    var next: nat
    var eof: bool

    predicate Valid()
      reads this
    {
      next <= |lines| && forall i :: 0 <= i < |lines| ==> lines[i] != ""
    }

    /** A file just opened by `load`. */
    constructor (ls: seq<string>)
      requires forall i :: 0 <= i < |ls| ==> ls[i] != ""
      ensures Valid() && lines == ls && next == 0 && !eof
    {
      lines := ls;
      next := 0;
      eof := false;
    }

    /** `readline()` */
    method Readline() returns (s: string)
      requires Valid()
      modifies this
      ensures Valid() && lines == old(lines) && eof == old(eof)
      ensures s == RawLine(lines, old(next))
      ensures next == if old(next) < |lines| then old(next) + 1 else old(next)
    {
      if next < |lines| {
        s := lines[next];
        next := next + 1;
      } else {
        s := "";
      }
    }

    /** `readLine(ignoreStart)`: skips the lines that start with ignoreStart,
        strips the line end of the next one, and sets eof when the file is used up. */
    method ReadLine(ignoreStart: Option<string>) returns (s: string)
      requires Valid() && ignoreStart != Some("")
      modifies this
      ensures Valid() && lines == old(lines)
      ensures var j := SkipComments(lines, old(next), ignoreStart);
        s == RStripAny(RawLine(lines, j), LINE_END)
        && next == (if j < |lines| then j + 1 else j)
        && eof == (old(eof) || j == |lines|)
    {
      ghost var j := next;
      s := Readline();
      if ignoreStart.Some? {
        while StartsWith(s, ignoreStart.value)
          invariant Valid() && lines == old(lines) && eof == old(eof)
          invariant old(next) <= j <= |lines| && s == RawLine(lines, j)
          invariant next == if j < |lines| then j + 1 else j
          invariant SkipComments(lines, j, ignoreStart) == SkipComments(lines, old(next), ignoreStart)
          decreases |lines| - j
        {
          j := j + 1;
          s := Readline();
        }
      }
      if |s| == 0 {
        eof := true;
      }
      s := RStripAny(s, LINE_END);
    }
  }

  // ---------------------------------------------------------------- colours

  /** A colour. */
  datatype Color = Color(r: int, g: int, b: int)
  {
    /** `str(color)`: "r,g,b". */
    function Text(): string
    {
      Join([IntToString(r), IntToString(g), IntToString(b)], ',')
    }
  }

  /** The text of a colour splits into its three components again. */
  lemma ColorRoundTrip(c: Color)
    ensures var p := Split(c.Text(), ',');
      |p| == 3 && ParseInt(p[0]) == Ok(c.r) && ParseInt(p[1]) == Ok(c.g) && ParseInt(p[2]) == Ok(c.b)
  {
    var p := [IntToString(c.r), IntToString(c.g), IntToString(c.b)];
    IntToStringChars(c.r);
    IntToStringChars(c.g);
    IntToStringChars(c.b);
    assert forall k :: 0 <= k < 3 ==> Free(p[k], ',');
    SplitJoin(p, ',');
    ParseIntToString(c.r);
    ParseIntToString(c.g);
    ParseIntToString(c.b);
  }
}
