/** Python `str` operations the pipeline relies on, stated over `seq<char>`:
    `strip`, `splitlines`, `split()`, `"sep".join`, `startswith`, `in`,
    `lower` (ASCII letters only) and slices with Python's index normalisation. */
module Text {

  /** `str.isspace` for a single character (Unicode White_Space as CPython uses it). */
  predicate IsSpace(c: char) {
    var n := c as int;
    (9 <= n <= 13) || (28 <= n <= 32) || n == 0x85 || n == 0xA0 || n == 0x1680
    || (0x2000 <= n <= 0x200A) || n == 0x2028 || n == 0x2029 || n == 0x202F
    || n == 0x205F || n == 0x3000
  }

  /** The line boundaries of `str.splitlines` ("\r\n" is handled as one boundary). */
  predicate IsLineBreak(c: char) {
    var n := c as int;
    n == 10 || n == 11 || n == 12 || n == 13 || n == 28 || n == 29 || n == 30
    || n == 0x85 || n == 0x2028 || n == 0x2029
  }

  /** True when `s.strip()` is empty. */
  predicate IsBlank(s: string) {
    forall i :: 0 <= i < |s| ==> IsSpace(s[i])
  }

  /** `s.lstrip()`. */
  function LStrip(s: string): (r: string)
    ensures |r| <= |s| && r == s[|s| - |r|..]
    ensures r == [] || !IsSpace(r[0])
    ensures IsBlank(s[..|s| - |r|])
  {
    if s != [] && IsSpace(s[0]) then
      var r := LStrip(s[1..]);
      assert s[..|s| - |r|] == [s[0]] + s[1..][..|s| - 1 - |r|];
      r
    else s
  }

  /** `s.rstrip()`. */
  function RStrip(s: string): (r: string)
    ensures |r| <= |s| && r == s[..|r|]
    ensures r == [] || !IsSpace(r[|r| - 1])
    ensures IsBlank(s[|r|..])
  {
    if s != [] && IsSpace(s[|s| - 1]) then
      var r := RStrip(s[..|s| - 1]);
      assert s[|r|..] == s[..|s| - 1][|r|..] + [s[|s| - 1]];
      r
    else s
  }

  /** `s.strip()`: the text between the leading and the trailing whitespace. */
  function Strip(s: string): (r: string)
    ensures r == [] <==> IsBlank(s)
    ensures r != [] ==> !IsSpace(r[0]) && !IsSpace(r[|r| - 1])
    ensures |r| <= |s|
    decreases |s|
  {
    if s != [] && IsSpace(s[0]) then
      var r := Strip(s[1..]);
      assert IsBlank(s) <==> IsBlank(s[1..]) by {
        assert forall i :: 0 <= i < |s[1..]| ==> s[1..][i] == s[i + 1];
      }
      r
    else
      var r := RStrip(s);
      assert r != [] ==> r[0] == s[0];
      assert r == [] ==> s == s[|r|..];
      r
  }

  /** Text that `strip` leaves as it is: empty, or no whitespace at either end. */
  predicate IsStripped(t: string) {
    t == [] || (!IsSpace(t[0]) && !IsSpace(t[|t| - 1]))
  }

  lemma {:induction false} RStripPadded(t: string, b: string)
    requires IsBlank(b) && (t == [] || !IsSpace(t[|t| - 1]))
    ensures RStrip(t + b) == t
    decreases |b|
  {
    if b == [] {
      assert t + b == t;
    } else {
      assert IsSpace((t + b)[|t + b| - 1]);
      assert (t + b)[..|t + b| - 1] == t + b[..|b| - 1];
      RStripPadded(t, b[..|b| - 1]);
    }
  }

  /** Whitespace around stripped text is exactly what `strip` removes. */
  lemma {:induction false} StripPadded(a: string, t: string, b: string)
    requires IsBlank(a) && IsBlank(b) && IsStripped(t)
    ensures Strip(a + t + b) == t
    decreases |a|
  {
    if t == [] {
      assert a + t + b == a + b;
      assert IsBlank(a + b) by {
        forall i | 0 <= i < |a + b| ensures IsSpace((a + b)[i]) {
          if i < |a| { assert (a + b)[i] == a[i]; } else { assert (a + b)[i] == b[i - |a|]; }
        }
      }
    } else if a == [] {
      assert a + t + b == t + b;
      assert (t + b)[0] == t[0];
      RStripPadded(t, b);
    } else {
      assert IsSpace((a + t + b)[0]);
      assert (a + t + b)[1..] == a[1..] + t + b;
      StripPadded(a[1..], t, b);
    }
  }

  lemma StripIsStripped(s: string)
    ensures IsStripped(Strip(s))
  {
    var t := Strip(s);
    if t != [] {
      assert !IsSpace(t[0]) && !IsSpace(t[|t| - 1]);
    }
  }

  lemma StripIdempotent(s: string)
    ensures Strip(Strip(s)) == Strip(s)
  {
    var t := Strip(s);
    var e: string := [];
    assert IsBlank(e);
    StripIsStripped(s);
    assert e + t + e == t;
    StripPadded(e, t, e);
  }

  /** Index of the first line boundary in `s`, or `|s|` when there is none. */
  function FirstBreak(s: string): (i: nat)
    ensures i <= |s|
    ensures i < |s| ==> IsLineBreak(s[i])
    ensures forall k :: 0 <= k < i ==> !IsLineBreak(s[k])
  {
    if s == [] then 0
    else if IsLineBreak(s[0]) then 0
    else 1 + FirstBreak(s[1..])
  }

  /** `s.splitlines()`: lines without their terminators; no trailing empty line. */
  function SplitLines(s: string): (r: seq<string>)
    ensures r == [] <==> s == []
    ensures forall k :: 0 <= k < |r| ==> forall j :: 0 <= j < |r[k]| ==> !IsLineBreak(r[k][j])
    decreases |s|
  {
    if s == [] then []
    else
      var i := FirstBreak(s);
      if i == |s| then [s]
      else
        var skip := if s[i] == '\r' && i + 1 < |s| && s[i + 1] == '\n' then 2 else 1;
        [s[..i]] + SplitLines(s[i + skip..])
  }

  /** `sep.join(parts)`. */
  function Join(sep: string, parts: seq<string>): (r: string)
    ensures parts == [] ==> r == []
    ensures |parts| == 1 ==> r == parts[0]
    ensures parts != [] && parts[0] != [] ==> r != [] && r[0] == parts[0][0]
  {
    if parts == [] then ""
    else if |parts| == 1 then parts[0]
    else parts[0] + sep + Join(sep, parts[1..])
  }

  lemma {:induction false} JoinNonEmpty(sep: string, parts: seq<string>)
    requires exists k :: 0 <= k < |parts| && parts[k] != []
    ensures Join(sep, parts) != []
  {
    var k :| 0 <= k < |parts| && parts[k] != [];
    if k > 0 && |parts| > 1 {
      assert parts[1..][k - 1] == parts[k];
      JoinNonEmpty(sep, parts[1..]);
    }
  }

  /** A join starts with its first part. */
  lemma JoinStartsWithFirst(sep: string, parts: seq<string>)
    requires parts != []
    ensures StartsWith(Join(sep, parts), parts[0])
  {
    if |parts| > 1 {
      var rest := sep + Join(sep, parts[1..]);
      assert Join(sep, parts) == parts[0] + rest;
      assert (parts[0] + rest)[..|parts[0]|] == parts[0];
    }
  }

  /** A join ends with its last part. */
  lemma {:induction false} JoinEndsWithLast(sep: string, parts: seq<string>)
    requires parts != []
    ensures EndsWith(Join(sep, parts), parts[|parts| - 1])
    decreases |parts|
  {
    if |parts| > 1 {
      JoinEndsWithLast(sep, parts[1..]);
      var rest := Join(sep, parts[1..]);
      var head := parts[0] + sep;
      assert Join(sep, parts) == head + rest;
      assert (head + rest)[|head + rest| - |parts[|parts| - 1]|..] == rest[|rest| - |parts[|parts| - 1]|..];
    }
  }

  /** Text is blank exactly when both of its parts are. */
  lemma BlankAppend(a: string, b: string)
    ensures IsBlank(a + b) <==> IsBlank(a) && IsBlank(b)
  {
    if IsBlank(a + b) {
      forall i | 0 <= i < |a| ensures IsSpace(a[i]) { assert a[i] == (a + b)[i]; }
      forall i | 0 <= i < |b| ensures IsSpace(b[i]) { assert b[i] == (a + b)[|a| + i]; }
    }
  }

  predicate StartsWith(s: string, p: string) {
    |p| <= |s| && s[..|p|] == p
  }

  /** `s.endswith(p)`. */
  predicate EndsWith(s: string, p: string) {
    |p| <= |s| && s[|s| - |p|..] == p
  }

  /** `p` occurs in `s` at index `k`. */
  predicate MatchAt(s: string, p: string, k: int) {
    0 <= k && k + |p| <= |s| && s[k..k + |p|] == p
  }

  /** Index of the first occurrence of `p` in `s`, or -1 (`s.find(p)`); `FindIsFirst`
      says no earlier index matches. */
  function Find(s: string, p: string): (r: int)
    ensures r == -1 || MatchAt(s, p, r)
  {
    FindFrom(s, p, 0)
  }

  function FindFrom(s: string, p: string, i: nat): (r: int)
    ensures r == -1 || (i <= r && MatchAt(s, p, r))
    decreases |s| - i
  {
    if i + |p| > |s| then -1
    else if s[i..i + |p|] == p then i
    else FindFrom(s, p, i + 1)
  }

  lemma {:induction false} FindFromIsFirst(s: string, p: string, i: nat, k: int)
    requires i <= k && (FindFrom(s, p, i) < 0 || k < FindFrom(s, p, i))
    ensures !MatchAt(s, p, k)
    decreases |s| - i
  {
    if i + |p| <= |s| && s[i..i + |p|] != p && k > i {
      FindFromIsFirst(s, p, i + 1, k);
    }
  }

  /** No index before the one `Find` reports (none at all when it reports -1) is a match. */
  lemma FindIsFirst(s: string, p: string, k: int)
    requires 0 <= k && (Find(s, p) < 0 || k < Find(s, p))
    ensures !MatchAt(s, p, k)
  {
    FindFromIsFirst(s, p, 0, k);
  }

  /** Python's `p in s` for strings. */
  predicate Contains(s: string, p: string) {
    Find(s, p) >= 0
  }

  /** `c.lower()` on ASCII letters; other characters are left as they are. */
  function LowerChar(c: char): char {
    if 'A' <= c <= 'Z' then (c as int + 32) as char else c
  }

  function Lower(s: string): (r: string)
    ensures |r| == |s| && forall i :: 0 <= i < |s| ==> r[i] == LowerChar(s[i])
  {
    if s == [] then "" else [LowerChar(s[0])] + Lower(s[1..])
  }

  /** `s.split()` with no separator: maximal runs of non-whitespace characters. */
  function Words(s: string): (r: seq<string>)
    decreases |s|
  {
    var t := LStrip(s);
    if t == [] then []
    else
      var w := FirstWordLength(t);
      [t[..w]] + Words(t[w..])
  }

  function FirstWordLength(t: string): (w: nat)
    requires t != [] && !IsSpace(t[0])
    ensures 1 <= w <= |t|
    ensures w < |t| ==> IsSpace(t[w])
    ensures forall k :: 0 <= k < w ==> !IsSpace(t[k])
  {
    if |t| == 1 || IsSpace(t[1]) then 1 else 1 + FirstWordLength(t[1..])
  }

  /** Python's normalisation of a slice bound `i` against a length `n`. */
  function PyIndex(n: nat, i: int): (r: nat)
    ensures r <= n
  {
    if i < 0 then (if n + i < 0 then 0 else n + i) else if i > n then n else i
  }

  /** `s[:i]`. */
  function PyTake<T>(s: seq<T>, i: int): (r: seq<T>)
    ensures r == s[..PyIndex(|s|, i)]
    ensures i >= 0 ==> |r| == if i < |s| then i else |s|
  {
    s[..PyIndex(|s|, i)]
  }

  /** `s[i:]`. */
  function PyDrop<T>(s: seq<T>, i: int): (r: seq<T>)
    ensures r == s[PyIndex(|s|, i)..]
    ensures i < 0 ==> |r| == if -i < |s| then -i else |s|
  {
    s[PyIndex(|s|, i)..]
  }

  /** Decimal digits of `n` (`str(n)` for a non-negative int). */
  function NatToString(n: nat): (r: string)
    ensures r != []
  {
    if n < 10 then [Digit(n)] else NatToString(n / 10) + [Digit(n % 10)]
  }

  function Digit(d: nat): (c: char)
    requires d < 10
    ensures '0' <= c <= '9'
  {
    ['0', '1', '2', '3', '4', '5', '6', '7', '8', '9'][d]
  }

  /** `str(n)` for any int. */
  function IntToString(n: int): (r: string)
    ensures r != []
  {
    if n < 0 then "-" + NatToString(-n) else NatToString(n)
  }
}
