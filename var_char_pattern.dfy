/** The Column strategy's recogniser: the regular expression
    `(?:var)?char\s*\((\d+)\)` with `RegexOptions.IgnoreCase`, searched for
    anywhere in the text (leftmost match), and `int.TryParse` of its group.
    The language of the pattern is defined declaratively (`IsMatch`); the scanner
    (`MatchAt`, `Search`) is proved to find exactly the leftmost match. */
module VarCharPattern {
  import opened Common

  /** `\d`, restricted to the ASCII digits. */
  predicate IsAsciiDigit(c: char)
  {
    '0' <= c <= '9'
  }

  /** .NET's `\s`: `[\f\n\r\t\v\x85\p{Z}]`. */
  predicate IsRegexWhitespace(c: char)
  {
    var n := c as int;
    n == 0x20 || 0x09 <= n <= 0x0D || n == 0x85 || n == 0xA0 || n == 0x1680 ||
    0x2000 <= n <= 0x200A || n == 0x2028 || n == 0x2029 || n == 0x202F ||
    n == 0x205F || n == 0x3000
  }

  predicate AllDigits(d: seq<char>)
  {
    forall k :: 0 <= k < |d| ==> IsAsciiDigit(d[k])
  }

  /** A successful match: where it starts, how long it is, and the text of group 1. */
  datatype RegexMatch = RegexMatch(index: nat, length: nat, group: seq<char>)

  /** `t` spells `(var)?char\s*\(d\)` with a `var` prefix of length `v` (0 or 3)
      and `w` whitespace characters; `d` is one or more digits. */
  ghost predicate MatchSplit(t: seq<char>, v: nat, w: nat, d: seq<char>)
  {
    && (v == 0 || v == 3)
    && |t| == v + 4 + w + 1 + |d| + 1
    && |d| > 0 && AllDigits(d)
    && (v == 3 ==> EqualsIgnoreCase(t[..3], "var"))
    && EqualsIgnoreCase(t[v..v + 4], "char")
    && (forall k :: v + 4 <= k < v + 4 + w ==> IsRegexWhitespace(t[k]))
    && t[v + 4 + w] == '('
    && t[v + 5 + w..|t| - 1] == d
    && t[|t| - 1] == ')'
  }

  /** `t` is a word of the pattern's language and `d` is what group 1 captures. */
  ghost predicate IsMatch(t: seq<char>, d: seq<char>)
  {
    exists v: nat, w: nat :: MatchSplit(t, v, w, d)
  }

  /** The end of the run of `\s` characters starting at `i`. */
  function SkipWhitespace(s: seq<char>, i: nat): (j: nat)
    requires i <= |s|
    ensures i <= j <= |s|
    ensures forall k :: i <= k < j ==> IsRegexWhitespace(s[k])
    ensures j == |s| || !IsRegexWhitespace(s[j])
    decreases |s| - i
  {
    if i < |s| && IsRegexWhitespace(s[i]) then SkipWhitespace(s, i + 1) else i
  }

  /** The end of the run of digits starting at `i`. */
  function SkipDigits(s: seq<char>, i: nat): (j: nat)
    requires i <= |s|
    ensures i <= j <= |s|
    ensures forall k :: i <= k < j ==> IsAsciiDigit(s[k])
    ensures j == |s| || !IsAsciiDigit(s[j])
    decreases |s| - i
  {
    if i < |s| && IsAsciiDigit(s[i]) then SkipDigits(s, i + 1) else i
  }

  /** Matches `char\s*\((\d+)\)` at position `i`; the greedy `\s*` and `\d+` need no
      backtracking, since `(` is not whitespace and `)` is not a digit. */
  function MatchCharAt(s: seq<char>, i: nat): (r: Option<RegexMatch>)
    requires i <= |s|
    ensures r.Some? ==> r.value.index == i && i + r.value.length <= |s|
    ensures r.Some? ==> |r.value.group| > 0 && AllDigits(r.value.group)
  {
    if i + 4 <= |s| && EqualsIgnoreCase(s[i..i + 4], "char") then
      var j := SkipWhitespace(s, i + 4);
      if j < |s| && s[j] == '(' then
        var e := SkipDigits(s, j + 1);
        if j + 1 < e < |s| && s[e] == ')' then
          Some(RegexMatch(i, e + 1 - i, s[j + 1..e]))
        else None
      else None
    else None
  }

  /** Matches the whole pattern at position `i`: first with the optional `var`,
      then, backtracking, without it. */
  function MatchAt(s: seq<char>, i: nat): (r: Option<RegexMatch>)
    requires i <= |s|
    ensures r.Some? ==> r.value.index == i && i + r.value.length <= |s|
    ensures r.Some? ==> |r.value.group| > 0 && AllDigits(r.value.group)
  {
    if i + 3 <= |s| && EqualsIgnoreCase(s[i..i + 3], "var") && MatchCharAt(s, i + 3).Some? then
      var m := MatchCharAt(s, i + 3).value;
      Some(RegexMatch(i, m.length + 3, m.group))
    else
      MatchCharAt(s, i)
  }

  /** What `MatchCharAt` finds spells `char\s*\(d\)`, preceded in `s` by the `v`
      characters from `i - v`. */
  lemma MatchCharAtSound(s: seq<char>, i: nat, v: nat)
    requires v <= i <= |s|
    requires v == 0 || v == 3
    requires v == 3 ==> EqualsIgnoreCase(s[i - 3..i], "var")
    requires MatchCharAt(s, i).Some?
    ensures var m := MatchCharAt(s, i).value;
      MatchSplit(s[i - v..i + m.length], v, SkipWhitespace(s, i + 4) - (i + 4), m.group)
  {
    var j := SkipWhitespace(s, i + 4);
    var e := SkipDigits(s, j + 1);
    assert i + 4 <= j && j + 1 < e < |s|;
    SplitFromText(s, i - v, e + 1, v, j - (i + 4), s[j + 1..e]);
  }

  /** Facts about `s` that make `s[a..e]` a word of the language. */
  lemma SplitFromText(s: seq<char>, a: nat, e: nat, v: nat, w: nat, d: seq<char>)
    requires a <= e <= |s|
    requires v == 0 || v == 3
    requires e - (a + v) == 4 + w + 1 + |d| + 1
    requires |d| > 0 && AllDigits(d)
    requires v == 3 ==> EqualsIgnoreCase(s[a..a + 3], "var")
    requires EqualsIgnoreCase(s[a + v..a + v + 4], "char")
    requires forall k :: a + v + 4 <= k < a + v + 4 + w ==> IsRegexWhitespace(s[k])
    requires s[a + v + 4 + w] == '('
    requires s[a + v + 5 + w..e - 1] == d
    requires s[e - 1] == ')'
    ensures MatchSplit(s[a..e], v, w, d)
  {
    var t := s[a..e];
    SliceOfSlice(s, a, e, 0, v);
    SliceOfSlice(s, a, e, v, v + 4);
    SliceOfSlice(s, a, e, v + 5 + w, |t| - 1);
    forall k | v + 4 <= k < v + 4 + w
      ensures IsRegexWhitespace(t[k])
    {
      assert t[k] == s[a + k];
    }
  }

  lemma SliceOfSlice(s: seq<char>, a: nat, b: nat, c: nat, d: nat)
    requires a <= b <= |s| && c <= d <= b - a
    ensures s[a..b][c..d] == s[a + c..a + d]
  {
    assert |s[a..b][c..d]| == d - c == |s[a + c..a + d]|;
    forall k | 0 <= k < d - c
      ensures s[a..b][c..d][k] == s[a + c..a + d][k]
    {
    }
  }

  /** What `MatchAt` finds is a word of the pattern's language, with its group. */
  lemma MatchAtSound(s: seq<char>, i: nat)
    requires i <= |s|
    requires MatchAt(s, i).Some?
    ensures var m := MatchAt(s, i).value; IsMatch(s[i..i + m.length], m.group)
  {
    if i + 3 <= |s| && EqualsIgnoreCase(s[i..i + 3], "var") && MatchCharAt(s, i + 3).Some? {
      MatchCharAtSound(s, i + 3, 3);
    } else {
      MatchCharAtSound(s, i, 0);
    }
  }

  /** Every word of the language at `i` is the one `MatchAt` finds: the pattern
      has at most one match starting at any position, so the regex engine's
      backtracking order cannot pick another. */
  lemma MatchAtComplete(s: seq<char>, i: nat, e: nat, d: seq<char>)
    requires i <= e <= |s|
    requires IsMatch(s[i..e], d)
    ensures MatchAt(s, i) == Some(RegexMatch(i, e - i, d))
  {
    var v: nat, w: nat :| MatchSplit(s[i..e], v, w, d);
    SplitInText(s, i, e, v, w, d);
    MatchCharAtComplete(s, i + v, e, w, d);
  }

  /** A word of the language found at `i..e`, read back as facts about `s`. */
  lemma SplitInText(s: seq<char>, i: nat, e: nat, v: nat, w: nat, d: seq<char>)
    requires i <= e <= |s|
    requires MatchSplit(s[i..e], v, w, d)
    ensures e - (i + v) == 4 + w + 1 + |d| + 1
    ensures EqualsIgnoreCase(s[i + v..i + v + 4], "char")
    ensures forall k :: i + v + 4 <= k < i + v + 4 + w ==> IsRegexWhitespace(s[k])
    ensures s[i + v + 4 + w] == '('
    ensures s[i + v + 5 + w..e - 1] == d
    ensures s[e - 1] == ')'
    ensures v == 3 ==> i + 3 <= |s| && EqualsIgnoreCase(s[i..i + 3], "var")
    ensures v == 0 ==> ToUpperAscii(s[i]) == 'C'
  {
    var t := s[i..e];
    assert |t| == e - i;
    SliceOfSlice(s, i, e, v, v + 4);
    SliceOfSlice(s, i, e, v + 5 + w, |t| - 1);
    forall k | i + v + 4 <= k < i + v + 4 + w
      ensures IsRegexWhitespace(s[k])
    {
      assert s[k] == t[k - i];
    }
    assert s[i + v + 4 + w] == t[v + 4 + w];
    assert s[e - 1] == t[|t| - 1];
    if v == 3 {
      SliceOfSlice(s, i, e, 0, 3);
    } else {
      assert s[i] == t[v..v + 4][0];
    }
  }

  /** The `char\s*\(\d+\)` part has a unique match at `i`, found by `MatchCharAt`. */
  lemma MatchCharAtComplete(s: seq<char>, i: nat, e: nat, w: nat, d: seq<char>)
    requires i <= e <= |s|
    requires e - i == 4 + w + 1 + |d| + 1
    requires |d| > 0 && AllDigits(d)
    requires EqualsIgnoreCase(s[i..i + 4], "char")
    requires forall k :: i + 4 <= k < i + 4 + w ==> IsRegexWhitespace(s[k])
    requires s[i + 4 + w] == '('
    requires s[i + 5 + w..e - 1] == d
    requires s[e - 1] == ')'
    ensures MatchCharAt(s, i) == Some(RegexMatch(i, e - i, d))
  {
    var j := SkipWhitespace(s, i + 4);
    assert !IsRegexWhitespace(s[i + 4 + w]);
    assert j == |s| || !IsRegexWhitespace(s[j]);
    assert j == i + 4 + w;
    forall k | j + 1 <= k < e - 1
      ensures IsAsciiDigit(s[k])
    {
      assert s[k] == d[k - (j + 1)];
    }
    var f := SkipDigits(s, j + 1);
    assert !IsAsciiDigit(s[e - 1]);
    assert f == |s| || !IsAsciiDigit(s[f]);
    assert f == e - 1;
  }

  /** Leftmost search from position `i` (`Regex.Match`). */
  function Search(s: seq<char>, i: nat): (r: Option<RegexMatch>)
    requires i <= |s|
    ensures r.Some? ==> i <= r.value.index <= |s| && MatchAt(s, r.value.index) == r
    ensures r.Some? ==> forall q :: i <= q < r.value.index ==> MatchAt(s, q).None?
    ensures r.None? ==> forall q :: i <= q <= |s| ==> MatchAt(s, q).None?
    decreases |s| - i
  {
    var here := MatchAt(s, i);
    if here.Some? then here
    else if i == |s| then None
    else Search(s, i + 1)
  }

  /** `VarCharPattern.Match(text)`. */
  function Match(s: seq<char>): Option<RegexMatch>
  {
    Search(s, 0)
  }

  /** The search returns the leftmost word of the language occurring in the text,
      with its group; it fails exactly when no substring is such a word. */
  lemma MatchIsLeftmost(s: seq<char>)
    ensures Match(s).Some? ==>
      var m := Match(s).value;
      m.index + m.length <= |s| && IsMatch(s[m.index..m.index + m.length], m.group) &&
      forall q, e, d :: 0 <= q < m.index && q <= e <= |s| ==> !IsMatch(s[q..e], d)
    ensures Match(s).None? <==> forall q, e, d :: 0 <= q <= e <= |s| ==> !IsMatch(s[q..e], d)
  {
    if Match(s).Some? {
      var m := Match(s).value;
      MatchAtSound(s, m.index);
      forall q, e, d | 0 <= q < m.index && q <= e <= |s|
        ensures !IsMatch(s[q..e], d)
      {
        if IsMatch(s[q..e], d) {
          MatchAtComplete(s, q, e, d);
        }
      }
    } else {
      forall q, e, d | 0 <= q <= e <= |s|
        ensures !IsMatch(s[q..e], d)
      {
        if IsMatch(s[q..e], d) {
          MatchAtComplete(s, q, e, d);
        }
      }
    }
  }

  /** The numeric value of a digit string. */
  function DecimalValue(d: seq<char>): nat
    requires AllDigits(d)
  {
    if d == [] then 0 else DecimalValue(d[..|d| - 1]) * 10 + (d[|d| - 1] as int - '0' as int)
  }

  /** The decimal spelling of `n`, without leading zeros. */
  function DecimalText(n: nat): (d: seq<char>)
    ensures |d| > 0 && AllDigits(d)
  {
    var last := ('0' as int + n % 10) as char;
    if n < 10 then [last] else DecimalText(n / 10) + [last]
  }

  /** Reading a spelled-out number gives the number back. */
  lemma {:induction false} DecimalRoundTrip(n: nat)
    ensures DecimalValue(DecimalText(n)) == n
  {
    var d := DecimalText(n);
    assert d[..|d| - 1] == if n < 10 then [] else DecimalText(n / 10);
    if n >= 10 {
      DecimalRoundTrip(n / 10);
    }
  }

  /** `int.TryParse` on a string of ASCII digits: its value, unless it overflows `int`. */
  function TryParseInt32(d: seq<char>): (r: Option<Int32>)
    requires AllDigits(d)
    ensures r.Some? <==> DecimalValue(d) <= Int32Max
    ensures r.Some? ==> r.value >= 0 && r.value as int == DecimalValue(d)
  {
    if DecimalValue(d) <= Int32Max then Some(DecimalValue(d) as Int32) else None
  }
}
