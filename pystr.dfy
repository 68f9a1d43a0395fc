/**
  The few pieces of Python's `str` behaviour the bot relies on: `str(int)`,
  `split`/`join` on one separator character, `strip()`, slicing `s[a:b]`
  with Python's index rules, and substring `in`.
 */
module PyStr {

  // ---------------------------------------------------------------------
  // str(int): decimal rendering, '-' for negative numbers
  // ---------------------------------------------------------------------

  predicate IsDigit(c: char) {
    '0' <= c <= '9'
  }

  /** The decimal digit character of `d`. */
  function Digit(d: nat): (c: char)
    requires d < 10
    ensures IsDigit(c)
    ensures c as int - '0' as int == d
  {
    ('0' as int + d) as char
  }

  /** `str(n)` for a non-negative integer: no leading zeros, digits only. */
  function NatToString(n: nat): (s: string)
    ensures |s| >= 1
    ensures forall i :: 0 <= i < |s| ==> IsDigit(s[i])
    ensures n >= 10 <==> |s| >= 2
    ensures s[|s| - 1] == Digit(n % 10)
  {
    if n < 10 then [Digit(n)] else NatToString(n / 10) + [Digit(n % 10)]
  }

  /** `str(i)` for any integer (Telegram chat ids are negative). */
  function IntToString(i: int): (s: string)
    ensures |s| >= 1
    ensures s[0] == '-' <==> i < 0
  {
    if i < 0 then "-" + NatToString(-i) else NatToString(i)
  }

  /** Distinct naturals render differently. */
  lemma {:induction false} NatToStringInjective(a: nat, b: nat)
    requires NatToString(a) == NatToString(b)
    ensures a == b
  {
    var s := NatToString(a);
    if a >= 10 && b >= 10 {
      assert Digit(a % 10) == s[|s| - 1] == Digit(b % 10);
      assert NatToString(a / 10) == s[..|s| - 1] == NatToString(b / 10);
      NatToStringInjective(a / 10, b / 10);
    } else if a < 10 && b < 10 {
      assert Digit(a) == s[0] == Digit(b);
    }
  }

  /** Distinct integers render differently, so `'user_{}'.format(id)` never
      maps two users to the same key. */
  lemma {:induction false} IntToStringInjective(a: int, b: int)
    requires IntToString(a) == IntToString(b)
    ensures a == b
  {
    var s := IntToString(a);
    if a < 0 && b < 0 {
      assert NatToString(-a) == s[1..] == NatToString(-b);
      NatToStringInjective(-a, -b);
    } else if a >= 0 && b >= 0 {
      NatToStringInjective(a, b);
    }
  }

  // ---------------------------------------------------------------------
  // str.split(sep) and sep.join(parts) for a one-character separator
  // ---------------------------------------------------------------------

  /** `s.split(sep)`: the pieces between separators, empty pieces kept. */
  function Split(s: string, sep: char): (parts: seq<string>)
    ensures |parts| >= 1
    ensures forall i :: 0 <= i < |parts| ==> sep !in parts[i]
  {
    if |s| == 0 then [""]
    else
      var rest := Split(s[1..], sep);
      if s[0] == sep then [""] + rest
      else [[s[0]] + rest[0]] + rest[1..]
  }

  /** `sep.join(parts)`. */
  function Join(parts: seq<string>, sep: char): string {
    if |parts| == 0 then ""
    else if |parts| == 1 then parts[0]
    else parts[0] + [sep] + Join(parts[1..], sep)
  }

  /** Joining what `split` returned gives the original text back. */
  lemma {:induction false} JoinSplit(s: string, sep: char)
    ensures Join(Split(s, sep), sep) == s
  {
    if |s| > 0 {
      var rest := Split(s[1..], sep);
      JoinSplit(s[1..], sep);
      if s[0] == sep {
        assert Join([""] + rest, sep) == "" + [sep] + Join(rest, sep);
      } else if |rest| == 1 {
        assert Split(s, sep) == [[s[0]] + rest[0]];
      } else {
        var parts := Split(s, sep);
        assert parts[1..] == rest[1..];
        assert Join(rest, sep) == rest[0] + [sep] + Join(rest[1..], sep);
      }
    }
  }

  lemma {:induction false} SplitWithoutSep(a: string, sep: char)
    requires sep !in a
    ensures Split(a, sep) == [a]
  {
    if |a| > 0 {
      SplitWithoutSep(a[1..], sep);
      assert [a[0]] + a[1..] == a;
    }
  }

  lemma {:induction false} SplitAtSep(a: string, sep: char, b: string)
    requires sep !in a
    ensures Split(a + [sep] + b, sep) == [a] + Split(b, sep)
  {
    var s := a + [sep] + b;
    if |a| == 0 {
      assert s[1..] == b;
    } else {
      assert s[1..] == a[1..] + [sep] + b;
      SplitAtSep(a[1..], sep, b);
      assert [a[0]] + a[1..] == a;
    }
  }

  /** Splitting a join of separator-free pieces gives the pieces back. */
  lemma {:induction false} SplitJoin(parts: seq<string>, sep: char)
    requires |parts| >= 1
    requires forall i :: 0 <= i < |parts| ==> sep !in parts[i]
    ensures Split(Join(parts, sep), sep) == parts
  {
    if |parts| == 1 {
      SplitWithoutSep(parts[0], sep);
    } else {
      SplitJoin(parts[1..], sep);
      SplitAtSep(parts[0], sep, Join(parts[1..], sep));
      assert [parts[0]] + parts[1..] == parts;
    }
  }

  /** The first piece of a join is a prefix of it, followed by a separator
      unless it is the whole text. */
  lemma JoinFirst(parts: seq<string>, sep: char)
    requires |parts| >= 1
    ensures var j := Join(parts, sep);
      |parts[0]| <= |j| && j[..|parts[0]|] == parts[0]
      && (|parts| >= 2 ==> |parts[0]| < |j| && j[|parts[0]|] == sep)
  {
  }

  /** The last piece of a join is a suffix of it, preceded by a separator
      unless it is the whole text. */
  lemma {:induction false} JoinLast(parts: seq<string>, sep: char)
    requires |parts| >= 1
    ensures var j, l := Join(parts, sep), parts[|parts| - 1];
      |l| <= |j| && j[|j| - |l|..] == l
      && (|parts| >= 2 ==> |l| < |j| && j[|j| - |l| - 1] == sep)
  {
    if |parts| >= 2 {
      JoinLast(parts[1..], sep);
      var j, l := Join(parts, sep), parts[|parts| - 1];
      var t := Join(parts[1..], sep);
      assert j == (parts[0] + [sep]) + t;
      assert j[|j| - |t|..] == t;
      if |parts| == 2 {
        assert t == l;
      }
    }
  }

  /** `s.split(sep)[0]`: the text before the first separator. */
  function FirstSegment(s: string, sep: char): (r: string)
    ensures sep !in r
    ensures |r| <= |s| && s[..|r|] == r
    ensures |r| < |s| ==> s[|r|] == sep
  {
    var parts := Split(s, sep);
    JoinSplit(s, sep);
    JoinFirst(parts, sep);
    assert |parts| == 1 ==> Join(parts, sep) == parts[0];
    parts[0]
  }

  /** `s.split(sep)[-1]`: the text after the last separator. */
  function LastSegment(s: string, sep: char): (r: string)
    ensures sep !in r
    ensures |r| <= |s| && s[|s| - |r|..] == r
    ensures |r| < |s| ==> s[|s| - |r| - 1] == sep
  {
    var parts := Split(s, sep);
    JoinSplit(s, sep);
    JoinLast(parts, sep);
    assert |parts| == 1 ==> Join(parts, sep) == parts[0];
    parts[|parts| - 1]
  }

  /** The last segment of `prefix`, a separator and a separator-free `last`
      is `last`: `'/autoblock_bot/bot_key'.split('/')[-1] == 'bot_key'`. */
  lemma LastSegmentAfterSep(prefix: string, sep: char, last: string)
    requires sep !in last
    ensures LastSegment(prefix + [sep] + last, sep) == last
  {
    var s := prefix + [sep] + last;
    assert s[|prefix|] == sep && s[|prefix| + 1..] == last;
    var r := LastSegment(s, sep);
    if |r| < |last| {
      assert false;
    } else if |r| > |last| {
      assert false;
    }
  }

  // ---------------------------------------------------------------------
  // str.strip() with no argument
  // ---------------------------------------------------------------------

  /** `c.isspace()`: the code points Python treats as whitespace (the
      C0 separators U+0009..U+000D and U+001C..U+0020, U+0085, U+00A0,
      U+1680, U+2000..U+200A, U+2028, U+2029, U+202F, U+205F, U+3000). */
  predicate IsSpace(c: char) {
    var n := c as int;
    if n <= 0x20 then (0x09 <= n <= 0x0D || 0x1C <= n)
    else if n < 0x1680 then (n == 0x85 || n == 0xA0)
    else (n == 0x1680 || 0x2000 <= n <= 0x200A || n == 0x2028 || n == 0x2029
          || n == 0x202F || n == 0x205F || n == 0x3000)
  }

  /** Every character of `s` is whitespace. */
  predicate AllSpace(s: string) {
    forall k :: 0 <= k < |s| ==> IsSpace(s[k])
  }

  /** `s.lstrip()`: drops the whitespace prefix and nothing more. */
  function TrimStart(s: string): (r: string)
    ensures |r| <= |s| && r == s[|s| - |r|..]
    ensures AllSpace(s[..|s| - |r|])
    ensures r == [] || !IsSpace(r[0])
  {
    if |s| > 0 && IsSpace(s[0]) then
      var r := TrimStart(s[1..]);
      assert s[..|s| - |r|] == [s[0]] + s[1..][..|s| - 1 - |r|];
      r
    else s
  }

  /** `s.rstrip()`: drops the whitespace suffix and nothing more. */
  function TrimEnd(s: string): (r: string)
    ensures |r| <= |s| && r == s[..|r|]
    ensures AllSpace(s[|r|..])
    ensures r == [] || !IsSpace(r[|r| - 1])
  {
    if |s| > 0 && IsSpace(s[|s| - 1]) then
      var r := TrimEnd(s[..|s| - 1]);
      assert s[|r|..] == s[..|s| - 1][|r|..] + [s[|s| - 1]];
      r
    else s
  }

  /** `s.strip()`: what is left of `s` between its whitespace prefix and its
      whitespace suffix; it neither starts nor ends with whitespace. */
  function Strip(s: string): (r: string)
    ensures r == [] || (!IsSpace(r[0]) && !IsSpace(r[|r| - 1]))
    ensures var i := |s| - |TrimStart(s)|;
      && i + |r| <= |s| && r == s[i..i + |r|]
      && AllSpace(s[..i]) && AllSpace(s[i + |r|..])
  {
    var t := TrimStart(s);
    var r := TrimEnd(t);
    StripBounds(s, t, r);
    r
  }

  /** `r` is `s` with its whitespace prefix and suffix removed: the piece of
      `s` after its whitespace prefix, followed only by whitespace, neither
      starting nor ending with whitespace. */
  predicate StripsTo(s: string, r: string) {
    var i := |s| - |TrimStart(s)|;
    && i + |r| <= |s| && r == s[i..i + |r|]
    && AllSpace(s[..i]) && AllSpace(s[i + |r|..])
    && (r == [] || (!IsSpace(r[0]) && !IsSpace(r[|r| - 1])))
  }

  /** `Strip` meets `StripsTo`. */
  lemma StripMeetsStripsTo(s: string)
    ensures StripsTo(s, Strip(s))
  {
  }

  /** A prefix `r` of a suffix `t` of `s` is the slice of `s` at the
      suffix's start, and whatever follows `r` in `t` ends `s`; when `t`
      starts and `r` ends with a non-space, so does `r`. */
  lemma StripBounds(s: string, t: string, r: string)
    requires |t| <= |s| && t == s[|s| - |t|..]
    requires |r| <= |t| && r == t[..|r|] && AllSpace(t[|r|..])
    requires t == [] || !IsSpace(t[0])
    requires r == [] || !IsSpace(r[|r| - 1])
    ensures r == [] || (!IsSpace(r[0]) && !IsSpace(r[|r| - 1]))
    ensures var i := |s| - |t|; i + |r| <= |s| && r == s[i..i + |r|] && AllSpace(s[i + |r|..])
  {
    SliceOfSuffix(s, |s| - |t|, |r|);
    if r != [] {
      assert r[0] == t[0];
    }
  }

  lemma SliceOfSuffix(s: string, i: nat, n: nat)
    requires i + n <= |s|
    ensures s[i..][..n] == s[i..i + n] && s[i..][n..] == s[i + n..]
  {
  }

  // ---------------------------------------------------------------------
  // s[start:stop]
  // ---------------------------------------------------------------------

  /** How Python turns a slice bound into a position in a text of length
      `n`: negative bounds count from the end, and the result is clamped. */
  function ClampIndex(i: int, n: nat): (k: nat)
    ensures k <= n
    ensures 0 <= i <= n ==> k == i
    ensures i < 0 <= i + n ==> k == i + n
    ensures i + n < 0 ==> k == 0
    ensures i > n ==> k == n
  {
    if i < 0 then (if i + n < 0 then 0 else i + n) else if i > n then n else i
  }

  /** `s[start:stop]`: never fails, and is empty when the clamped bounds
      cross. */
  function Slice(s: string, start: int, stop: int): (r: string)
    ensures |r| <= |s|
    ensures 0 <= start <= stop <= |s| ==> r == s[start..stop]
    ensures ClampIndex(start, |s|) >= ClampIndex(stop, |s|) ==> r == []
    ensures ClampIndex(start, |s|) < ClampIndex(stop, |s|) ==>
      r == s[ClampIndex(start, |s|)..ClampIndex(stop, |s|)]
  {
    var a, b := ClampIndex(start, |s|), ClampIndex(stop, |s|);
    if a < b then s[a..b] else []
  }

  /** `s[start:]`. */
  function SliceFrom(s: string, start: int): (r: string)
    ensures 0 <= start <= |s| ==> r == s[start..]
    ensures start > |s| ==> r == []
  {
    Slice(s, start, |s|)
  }

  // ---------------------------------------------------------------------
  // needle in hay (substring test)
  // ---------------------------------------------------------------------

  predicate IsPrefix(p: string, s: string) {
    |p| <= |s| && s[..|p|] == p
  }

  /** `needle in hay` for two strings. */
  predicate Contains(hay: string, needle: string)
    decreases |hay|
  {
    IsPrefix(needle, hay) || (|hay| > 0 && Contains(hay[1..], needle))
  }

  /** An occurrence of `needle` at any position makes `Contains` hold; with
      `ContainsWitness` this makes `Contains` exactly "occurs somewhere". */
  lemma {:induction false} ContainsOfOccurrence(hay: string, needle: string, i: nat)
    requires i + |needle| <= |hay|
    ensures hay[i..i + |needle|] == needle ==> Contains(hay, needle)
  {
    if i > 0 && hay[i..i + |needle|] == needle {
      assert hay[1..][i - 1..i - 1 + |needle|] == hay[i..i + |needle|];
      ContainsOfOccurrence(hay[1..], needle, i - 1);
    }
  }

  /** When `needle` occurs in `hay`, it occurs at an explicit position. */
  lemma {:induction false} ContainsWitness(hay: string, needle: string) returns (i: nat)
    requires Contains(hay, needle)
    ensures i + |needle| <= |hay| && hay[i..i + |needle|] == needle
  {
    if IsPrefix(needle, hay) {
      i := 0;
    } else {
      var j := ContainsWitness(hay[1..], needle);
      i := j + 1;
      assert hay[1..][j..j + |needle|] == hay[i..i + |needle|];
    }
  }
}
