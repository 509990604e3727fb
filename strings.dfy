/** The pieces of Python's `str` and `int` behaviour the modelled code relies
    on: `int(s)`, `str(n)`, `split`, `join`, `strip`, `startswith` and the
    zero-padding of format specifications.  Strings are sequences of
    characters; only ASCII digits count as digits. */
module Strings {
  import opened Wrappers

  predicate IsDigit(c: char) { '0' <= c <= '9' }

  predicate AllDigits(s: string) { forall i :: 0 <= i < |s| ==> IsDigit(s[i]) }

  /** `s.isdecimal()` (and `s.isnumeric()`) for ASCII text. */
  predicate IsDecimal(s: string) { |s| > 0 && AllDigits(s) }

  function DigitValue(c: char): (d: nat)
    requires IsDigit(c)
    ensures d < 10
  {
    c as int - '0' as int
  }

  function DigitChar(d: nat): (c: char)
    requires d < 10
    ensures IsDigit(c) && DigitValue(c) == d
  {
    ('0' as int + d) as char
  }

  /** The number a string of decimal digits denotes, most significant first. */
  function DigitsValue(s: string): nat
    requires AllDigits(s)
  {
    if |s| == 0 then 0 else DigitsValue(s[..|s| - 1]) * 10 + DigitValue(s[|s| - 1])
  }

  /** `str(n)` for a non-negative integer. */
  function NatToString(n: nat): (r: string)
    ensures IsDecimal(r)
    ensures DigitsValue(r) == n
  {
    if n < 10 then [DigitChar(n)]
    else
      var r := NatToString(n / 10) + [DigitChar(n % 10)];
      assert r[..|r| - 1] == NatToString(n / 10);
      r
  }

  /** `str(n)` for any integer. */
  function IntToString(n: int): string
  {
    if n < 0 then "-" + NatToString(-n) else NatToString(n)
  }

  /** `int(s)`: an optional sign followed by at least one decimal digit.
      Python also skips surrounding white space and accepts `_` between
      digits; neither is modelled, such text is refused. */
  function ParseInt(s: string): Result<int>
  {
    if |s| > 0 && s[0] == '-' && IsDecimal(s[1..]) then Ok(0 - DigitsValue(s[1..]) as int)
    else if |s| > 0 && s[0] == '+' && IsDecimal(s[1..]) then Ok(DigitsValue(s[1..]))
    else if IsDecimal(s) then Ok(DigitsValue(s))
    else Err(ValueError)
  }

  /** Reading back what `str` wrote gives the same integer. */
  lemma ParseIntToString(n: int)
    ensures ParseInt(IntToString(n)) == Ok(n)
  {
    if n < 0 {
      assert IntToString(n)[1..] == NatToString(-n);
    }
  }

  /** The characters `str(n)` can produce: digits and a minus sign. */
  predicate IntChars(s: string) { forall i :: 0 <= i < |s| ==> IsDigit(s[i]) || s[i] == '-' }

  lemma IntToStringChars(n: int)
    ensures |IntToString(n)| > 0 && IntChars(IntToString(n))
  {
  }

  /** A decimal text: `int` accepts it and gives back its value. */
  lemma ParseDecimal(s: string)
    requires IsDecimal(s)
    ensures ParseInt(s) == Ok(DigitsValue(s))
  {
  }

  predicate StartsWith(s: string, prefix: string)
  {
    |prefix| <= |s| && s[..|prefix|] == prefix
  }

  // ---------------------------------------------------------------- split

  /** Position of the first `c` in `s`, or `|s|` when there is none. */
  function IndexOf(s: string, c: char): (r: nat)
    ensures r <= |s|
    ensures r < |s| ==> s[r] == c
    ensures forall j :: 0 <= j < r ==> s[j] != c
  {
    if |s| == 0 then 0 else if s[0] == c then 0 else 1 + IndexOf(s[1..], c)
  }

  /** `s.split(c)` for a one-character separator. */
  function Split(s: string, c: char): (r: seq<string>)
    ensures |r| >= 1
    decreases |s|
  {
    var i := IndexOf(s, c);
    if i == |s| then [s] else [s[..i]] + Split(s[i + 1..], c)
  }

  /** `c.join(parts)` for a one-character separator. */
  function Join(parts: seq<string>, c: char): string
  {
    if |parts| == 0 then ""
    else if |parts| == 1 then parts[0]
    else parts[0] + [c] + Join(parts[1..], c)
  }

  predicate Free(s: string, c: char) { forall i :: 0 <= i < |s| ==> s[i] != c }

  lemma IndexOfAbsent(s: string, c: char)
    requires Free(s, c)
    ensures IndexOf(s, c) == |s|
  {
  }

  lemma IndexOfAfter(a: string, c: char, b: string)
    requires Free(a, c)
    ensures IndexOf(a + [c] + b, c) == |a|
  {
    var s := a + [c] + b;
    assert s[|a|] == c;
    assert forall j :: 0 <= j < |a| ==> s[j] == a[j];
  }

  /** Splitting at a first separator cuts off the text before it. */
  lemma SplitCons(a: string, c: char, rest: string)
    requires Free(a, c)
    ensures Split(a + [c] + rest, c) == [a] + Split(rest, c)
  {
    var s := a + [c] + rest;
    IndexOfAfter(a, c, rest);
    assert s[..|a|] == a;
    assert s[|a| + 1..] == rest;
  }

  /** Splitting what `join` built gives back the parts, when none of them
      contains the separator. */
  lemma {:induction false} SplitJoin(parts: seq<string>, c: char)
    requires |parts| >= 1
    requires forall k :: 0 <= k < |parts| ==> Free(parts[k], c)
    ensures Split(Join(parts, c), c) == parts
  {
    if |parts| == 1 {
      IndexOfAbsent(parts[0], c);
    } else {
      SplitCons(parts[0], c, Join(parts[1..], c));
      SplitJoin(parts[1..], c);
      assert parts == [parts[0]] + parts[1..];
    }
  }

  /** Joining the pieces of a split gives the text back, and no piece holds the separator. */
  lemma {:induction false} JoinSplit(s: string, c: char)
    ensures Join(Split(s, c), c) == s
    ensures forall k :: 0 <= k < |Split(s, c)| ==> Free(Split(s, c)[k], c)
    decreases |s|
  {
    var i := IndexOf(s, c);
    if i < |s| {
      JoinSplit(s[i + 1..], c);
      var rest := Split(s[i + 1..], c);
      assert Split(s, c) == [s[..i]] + rest;
      assert s == s[..i] + [c] + s[i + 1..];
    }
  }

  /** `s.split(c)` has one piece exactly when c does not occur. */
  lemma SplitSingle(s: string, c: char)
    ensures |Split(s, c)| == 1 <==> Free(s, c)
  {
    var i := IndexOf(s, c);
    if i < |s| {
      assert |Split(s, c)| == 1 + |Split(s[i + 1..], c)|;
    }
  }

  /** The pieces of a two-piece split, and back. */
  lemma SplitPair(a: string, c: char, b: string)
    requires Free(a, c) && Free(b, c)
    ensures Split(a + [c] + b, c) == [a, b]
  {
    SplitCons(a, c, b);
    IndexOfAbsent(b, c);
  }

  lemma JoinFive(a: string, b: string, d: string, e: string, f: string, c: char)
    ensures Join([a, b, d, e, f], c) == a + [c] + b + [c] + d + [c] + e + [c] + f
  {
    var p := [a, b, d, e, f];
    assert p[1..] == [b, d, e, f] && p[2..] == [d, e, f] && p[3..] == [e, f] && p[4..] == [f];
    assert Join(p[3..], c) == e + [c] + f;
    assert Join(p[2..], c) == d + [c] + (e + [c] + f);
    assert Join(p[1..], c) == b + [c] + (d + [c] + (e + [c] + f));
  }

  /** Splitting five separator-free parts joined by the separator gives them back. */
  lemma SplitFive(a: string, b: string, d: string, e: string, f: string, c: char)
    requires Free(a, c) && Free(b, c) && Free(d, c) && Free(e, c) && Free(f, c)
    ensures Split(a + [c] + b + [c] + d + [c] + e + [c] + f, c) == [a, b, d, e, f]
  {
    JoinFive(a, b, d, e, f, c);
    SplitJoin([a, b, d, e, f], c);
  }

  /** `s.split(c, 1)`: at most two pieces, cut at the first separator. */
  function SplitOnce(s: string, c: char): (r: seq<string>)
    ensures 1 <= |r| <= 2
    ensures |r| == 1 <==> Free(s, c)
    ensures |r| == 1 ==> r[0] == s
    ensures |r| == 2 ==> s == r[0] + [c] + r[1] && Free(r[0], c)
  {
    var i := IndexOf(s, c);
    if i == |s| then [s] else [s[..i], s[i + 1..]]
  }

  /** `sep` occurs in `s` starting at position j. */
  predicate OccursAt(s: string, sep: string, j: nat)
  {
    j + |sep| <= |s| && s[j..j + |sep|] == sep
  }

  lemma OccursShift(s: string, sep: string, j: nat)
    requires |s| > 0 && j >= 1
    ensures OccursAt(s, sep, j) == OccursAt(s[1..], sep, j - 1)
  {
    if j + |sep| <= |s| {
      var a := s[j..j + |sep|];
      var b := s[1..][j - 1..j - 1 + |sep|];
      assert |a| == |b| && forall i :: 0 <= i < |a| ==> a[i] == s[j + i] == b[i];
      assert a == b;
    }
  }

  /** Position of the first occurrence of `sep` in `s`, or `|s|` when there is none. */
  function Find(s: string, sep: string): (r: nat)
    requires |sep| > 0
    ensures r <= |s|
    ensures r < |s| ==> OccursAt(s, sep, r)
    ensures forall j :: 0 <= j < r ==> !OccursAt(s, sep, j)
  {
    if |s| < |sep| then |s|
    else if s[..|sep|] == sep then 0
    else
      var k := Find(s[1..], sep);
      assert s[0..|sep|] == s[..|sep|];
      assert forall j :: 1 <= j <= k ==> OccursAt(s, sep, j) == OccursAt(s[1..], sep, j - 1) by {
        forall j | 1 <= j <= k { OccursShift(s, sep, j); }
      }
      1 + k
  }

  /** `s.split(sep)` for a separator of several characters. */
  function SplitStr(s: string, sep: string): (r: seq<string>)
    requires |sep| > 0
    ensures |r| >= 1
    decreases |s|
  {
    var i := Find(s, sep);
    if i == |s| then [s] else [s[..i]] + SplitStr(s[i + |sep|..], sep)
  }

  /** `s.split(sep, 1)` for a separator of several characters. */
  function SplitStrOnce(s: string, sep: string): (r: seq<string>)
    requires |sep| > 0
    ensures 1 <= |r| <= 2
    ensures |r| == 1 ==> r[0] == s && Find(s, sep) == |s|
    ensures |r| == 2 ==> s == r[0] + sep + r[1] && Find(s, sep) == |r[0]|
  {
    var i := Find(s, sep);
    if i == |s| then [s] else [s[..i], s[i + |sep|..]]
  }

  // ---------------------------------------------------------------- strip

  function LStrip(s: string, c: char): (r: string)
    ensures |r| <= |s| && r == s[|s| - |r|..]
    ensures |r| > 0 ==> r[0] != c
    ensures forall i :: 0 <= i < |s| - |r| ==> s[i] == c
  {
    if |s| > 0 && s[0] == c then LStrip(s[1..], c) else s
  }

  function RStrip(s: string, c: char): (r: string)
    ensures |r| <= |s| && r == s[..|r|]
    ensures |r| > 0 ==> r[|r| - 1] != c
    ensures forall i :: |r| <= i < |s| ==> s[i] == c
  {
    if |s| > 0 && s[|s| - 1] == c then RStrip(s[..|s| - 1], c) else s
  }

  /** `s.rstrip(cs)`: drops every trailing character that is in `cs`. */
  function RStripAny(s: string, cs: set<char>): (r: string)
    ensures |r| <= |s| && r == s[..|r|]
    ensures |r| > 0 ==> r[|r| - 1] !in cs
    ensures forall i :: |r| <= i < |s| ==> s[i] in cs
  {
    if |s| > 0 && s[|s| - 1] in cs then RStripAny(s[..|s| - 1], cs) else s
  }

  /** `s.strip(c)`: drops every leading and every trailing `c`. */
  function Strip(s: string, c: char): string
  {
    RStrip(LStrip(s, c), c)
  }

  /** Stripping leaves a text alone whose ends are not `c`. */
  lemma StripNoop(s: string, c: char)
    requires |s| > 0 ==> s[0] != c && s[|s| - 1] != c
    ensures Strip(s, c) == s
  {
  }

  /** Stripping a run of `c` from the front of such a text gives the text. */
  lemma StripPrefixRun(pad: string, s: string, c: char)
    requires forall i :: 0 <= i < |pad| ==> pad[i] == c
    requires |s| > 0 && s[0] != c && s[|s| - 1] != c
    ensures Strip(pad + s, c) == s
  {
    var t := pad + s;
    assert t[|pad|] == s[0];
    assert t[|pad|..] == s;
    assert LStrip(t, c) == s;
  }

  // ---------------------------------------------------------------- format

  function Repeat(c: char, n: nat): (r: string)
    ensures |r| == n && forall i :: 0 <= i < n ==> r[i] == c
  {
    if n == 0 then "" else [c] + Repeat(c, n - 1)
  }

  /** The format specification `{x:0>w}`: pads on the left with `0` to width w. */
  function PadLeft(s: string, fill: char, w: nat): (r: string)
    ensures |r| == if |s| >= w then |s| else w
    ensures r[|r| - |s|..] == s
    ensures forall i :: 0 <= i < |r| - |s| ==> r[i] == fill
  {
    if |s| >= w then s else Repeat(fill, w - |s|) + s
  }

  /** A run of '0' denotes 0. */
  lemma {:induction false} DigitsZeros(z: string)
    requires forall i :: 0 <= i < |z| ==> z[i] == '0'
    ensures AllDigits(z) && DigitsValue(z) == 0
  {
    if |z| > 0 {
      DigitsZeros(z[..|z| - 1]);
    }
  }

  /** Leading zeros do not change the number digits denote. */
  lemma {:induction false} DigitsLeadingZeros(z: string, s: string)
    requires forall i :: 0 <= i < |z| ==> z[i] == '0'
    requires AllDigits(s)
    ensures AllDigits(z + s) && DigitsValue(z + s) == DigitsValue(s)
  {
    if |s| == 0 {
      assert z + s == z;
      DigitsZeros(z);
    } else {
      var t := z + s;
      DigitsLeadingZeros(z, s[..|s| - 1]);
      assert t[..|t| - 1] == z + s[..|s| - 1];
      assert t[|t| - 1] == s[|s| - 1];
    }
  }

  /** `int` reads back a zero-padded `{n:0>w}`; a negative number is never
      padded when its text is already w wide. */
  lemma PaddedInt(n: int, w: nat)
    requires n >= 0 || |IntToString(n)| >= w
    ensures IntChars(PadLeft(IntToString(n), '0', w))
    ensures ParseInt(PadLeft(IntToString(n), '0', w)) == Ok(n)
  {
    var s := IntToString(n);
    ParseIntToString(n);
    if |s| < w {
      var z := Repeat('0', w - |s|);
      DigitsLeadingZeros(z, s);
      assert PadLeft(s, '0', w) == z + s;
    }
  }

  /** A character in none of the parts and other than the separator is not in their join. */
  lemma {:induction false} JoinFree(parts: seq<string>, sep: char, c: char)
    requires sep != c && forall k :: 0 <= k < |parts| ==> Free(parts[k], c)
    ensures Free(Join(parts, sep), c)
  {
    if |parts| > 1 {
      JoinFree(parts[1..], sep, c);
      var t := Join(parts[1..], sep);
      var s := parts[0] + [sep] + t;
      forall i | 0 <= i < |s| ensures s[i] != c {
        if i < |parts[0]| { assert s[i] == parts[0][i]; }
        else if i > |parts[0]| { assert s[i] == t[i - |parts[0]| - 1]; }
      }
    }
  }

  /** Joining two joined lists after a list is joining the three lists. */
  lemma JoinNested(a: seq<string>, xs: seq<string>, ys: seq<string>, c: char)
    requires |a| > 0 && |xs| > 0 && |ys| > 0
    ensures Join(a + [Join(xs, c), Join(ys, c)], c) == Join(a + xs + ys, c)
  {
    JoinAppend(a, [Join(xs, c), Join(ys, c)], c);
    JoinAppend([Join(xs, c)], [Join(ys, c)], c);
    assert [Join(xs, c)] + [Join(ys, c)] == [Join(xs, c), Join(ys, c)];
    assert a + xs + ys == a + (xs + ys);
    JoinAppend(a, xs + ys, c);
    JoinAppend(xs, ys, c);
  }

  /** A join starts with its first part. */
  lemma JoinHead(parts: seq<string>, c: char)
    requires |parts| > 0
    ensures |Join(parts, c)| >= |parts[0]| && Join(parts, c)[..|parts[0]|] == parts[0]
  {
  }

  /** `s.split(c, 1)` of a text with one c after a c-free head. */
  lemma SplitOnceAt(a: string, c: char, rest: string)
    requires Free(a, c)
    ensures SplitOnce(a + [c] + rest, c) == [a, rest]
  {
    IndexOfAfter(a, c, rest);
    var s := a + [c] + rest;
    assert s[..|a|] == a && s[|a| + 1..] == rest;
  }

  /** `[str(n) for n in ns]` */
  function IntTexts(ns: seq<int>): (r: seq<string>)
    ensures |r| == |ns| && forall k :: 0 <= k < |ns| ==> r[k] == IntToString(ns[k])
  {
    if |ns| == 0 then [] else [IntToString(ns[0])] + IntTexts(ns[1..])
  }

  /** An integer text holds no character other than digits and '-'. */
  lemma FreeInt(s: string, c: char)
    requires IntChars(s) && !IsDigit(c) && c != '-'
    ensures Free(s, c)
  {
  }

  /** The last piece of a split holds no separator; when there are several
      pieces it is what follows the last separator. */
  lemma {:induction false} SplitLast(s: string, c: char)
    ensures Free(Split(s, c)[|Split(s, c)| - 1], c)
    ensures |Split(s, c)| == 1 ==> Split(s, c)[0] == s
    ensures var l := Split(s, c)[|Split(s, c)| - 1];
      |Split(s, c)| > 1 ==> |l| < |s| && s[|s| - |l| - 1] == c && s[|s| - |l|..] == l
    decreases |s|
  {
    var i := IndexOf(s, c);
    if i < |s| {
      var t := s[i + 1..];
      SplitLast(t, c);
      var q := Split(t, c);
      assert Split(s, c) == [s[..i]] + q;
      var l := q[|q| - 1];
      if |q| == 1 {
        assert s[|s| - |l|..] == t;
      } else {
        assert s[|s| - |l|..] == t[|t| - |l|..];
        assert s[|s| - |l| - 1] == t[|t| - |l| - 1];
      }
    }
  }

  /** A separator whose first character does not occur in a is first found just after a. */
  lemma FindAfter(a: string, sep: string, b: string)
    requires |sep| > 0 && Free(a, sep[0])
    ensures Find(a + sep + b, sep) == |a|
  {
    var s := a + sep + b;
    assert s[|a|..|a| + |sep|] == sep;
    assert OccursAt(s, sep, |a|);
  }

  /** A separator whose first character does not occur in s is not found. */
  lemma FindAbsent(s: string, sep: string)
    requires |sep| > 0 && Free(s, sep[0])
    ensures Find(s, sep) == |s|
  {
  }

  // ---------------------------------------------------------------- integer lists

  /** `[int(t) for t in tokens]`: ValueError at the first text that is not an integer. */
  function Ints(tokens: seq<string>): (r: Result<seq<int>>)
    ensures r.Ok? ==> |r.value| == |tokens| && forall k :: 0 <= k < |tokens| ==> ParseInt(tokens[k]) == Ok(r.value[k])
    ensures r.Err? ==> r.error == ValueError && exists k :: 0 <= k < |tokens| && ParseInt(tokens[k]).Err?
  {
    if |tokens| == 0 then Ok([])
    else
      var n :- ParseInt(tokens[0]);
      var rest :- Ints(tokens[1..]);
      assert forall k :: 1 <= k < |tokens| ==> tokens[k] == tokens[1..][k - 1];
      Ok([n] + rest)
  }

  /** `int` reads back a list of integer texts. */
  lemma {:induction false} IntsOfTexts(ns: seq<int>)
    ensures Ints(IntTexts(ns)) == Ok(ns)
  {
    if |ns| > 0 {
      IntsOfTexts(ns[1..]);
      ParseIntToString(ns[0]);
      assert IntTexts(ns)[1..] == IntTexts(ns[1..]);
      assert [ns[0]] + ns[1..] == ns;
    }
  }

  /** Joining two non-empty lists is joining each and putting the separator between. */
  lemma {:induction false} JoinAppend(xs: seq<string>, ys: seq<string>, c: char)
    requires |xs| > 0 && |ys| > 0
    ensures Join(xs + ys, c) == Join(xs, c) + [c] + Join(ys, c)
  {
    if |xs| == 1 {
      assert (xs + ys)[1..] == ys;
    } else {
      JoinAppend(xs[1..], ys, c);
      assert (xs + ys)[1..] == xs[1..] + ys;
    }
  }

  // ---------------------------------------------------------------- names

  predicate IsLetter(c: char) { 'A' <= c <= 'Z' || 'a' <= c <= 'z' }

  /** Letters, digits and '-'. */
  predicate NameChars(s: string) { forall i :: 0 <= i < |s| ==> IsLetter(s[i]) || IsDigit(s[i]) || s[i] == '-' }

  lemma NameCharsConcat(s: string, t: string)
    requires NameChars(s) && NameChars(t)
    ensures NameChars(s + t)
  {
    assert forall i :: |s| <= i < |s + t| ==> (s + t)[i] == t[i - |s|];
  }
}
