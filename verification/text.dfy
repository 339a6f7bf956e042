/** The JavaScript string operations the application relies on:
    `Array.prototype.join`, `String.prototype.trim` and `String.prototype.substr`. */
module Text {

  /** `parts.join(sep)`: the parts in order with `sep` between neighbours. */
  function Join(parts: seq<string>, sep: string): string
  {
    if |parts| == 0 then ""
    else if |parts| == 1 then parts[0]
    else Join(parts[..|parts| - 1], sep) + sep + parts[|parts| - 1]
  }

  /** Independent reference for the layout of a join: the length taken by
      `parts` when every part is followed by one separator. Where part `i`
      starts in `Join(parts, sep)` is `Span(parts[..i], sep)`. */
  function Span(parts: seq<string>, sep: string): nat
  {
    if |parts| == 0 then 0
    else Span(parts[..|parts| - 1], sep) + |parts[|parts| - 1]| + |sep|
  }

  /** A join of n >= 1 parts is one separator shorter than their span:
      there is no separator after the last part. */
  lemma {:induction false} JoinLength(parts: seq<string>, sep: string)
    requires |parts| > 0
    ensures |Join(parts, sep)| + |sep| == Span(parts, sep)
  {
    if |parts| > 1 {
      JoinLength(parts[..|parts| - 1], sep);
    }
  }

  /** Part `i` sits verbatim in the join, starting at `Span(parts[..i], sep)`;
      in particular the first part starts at 0 (no leading separator). */
  lemma {:induction false} JoinPartAt(parts: seq<string>, sep: string, i: nat)
    requires i < |parts|
    ensures Span(parts[..i], sep) + |parts[i]| <= |Join(parts, sep)|
    ensures Join(parts, sep)[Span(parts[..i], sep)..Span(parts[..i], sep) + |parts[i]|] == parts[i]
  {
    var n := |parts|;
    var init := parts[..n - 1];
    if n == 1 {
      assert parts[..0] == [];
    } else if i == n - 1 {
      JoinLength(init, sep);
      assert parts[..i] == init;
    } else {
      JoinPartAt(init, sep, i);
      JoinLength(init, sep);
      assert init[..i] == parts[..i];
      assert init[i] == parts[i];
      var j := Join(init, sep);
      var o := Span(parts[..i], sep);
      assert Join(parts, sep) == j + sep + parts[n - 1];
      assert (j + sep + parts[n - 1])[o..o + |parts[i]|] == j[o..o + |parts[i]|];
    }
  }

  /** Between part `i` and part `i + 1` stands exactly one separator. */
  lemma {:induction false} JoinSeparatorAt(parts: seq<string>, sep: string, i: nat)
    requires i + 1 < |parts|
    ensures Span(parts[..i + 1], sep) == Span(parts[..i], sep) + |parts[i]| + |sep|
    ensures Span(parts[..i + 1], sep) <= |Join(parts, sep)|
    ensures Join(parts, sep)[Span(parts[..i], sep) + |parts[i]|..Span(parts[..i + 1], sep)] == sep
  {
    var n := |parts|;
    var init := parts[..n - 1];
    var j := Join(init, sep);
    JoinLength(init, sep);
    assert Join(parts, sep) == j + sep + parts[n - 1];
    assert parts[..i + 1][..i] == parts[..i];
    if i + 1 == n - 1 {
      assert parts[..i + 1] == init;
    } else {
      JoinSeparatorAt(init, sep, i);
      assert init[..i] == parts[..i];
      assert init[..i + 1] == parts[..i + 1];
      var a := Span(parts[..i], sep) + |parts[i]|;
      var b := Span(parts[..i + 1], sep);
      assert (j + sep + parts[n - 1])[a..b] == j[a..b];
    }
  }

  /** The characters `String.prototype.trim` removes: ECMAScript WhiteSpace
      (tab, vertical tab, form feed, space, no-break space, byte order mark
      and the Unicode space separators) and LineTerminator. */
  predicate IsJsWhitespace(c: char)
  {
    c == '\t' || c == '\n' || c == '\U{000B}' || c == '\U{000C}' || c == '\r'
    || c == ' ' || c == '\U{00A0}' || c == '\U{1680}'
    || ('\U{2000}' <= c <= '\U{200A}')
    || c == '\U{2028}' || c == '\U{2029}' || c == '\U{202F}' || c == '\U{205F}'
    || c == '\U{3000}' || c == '\U{FEFF}'
  }

  /** Every character of `s` is whitespace (the empty string included). */
  predicate IsBlank(s: string)
  {
    forall i :: 0 <= i < |s| ==> IsJsWhitespace(s[i])
  }

  /** `s` with its leading whitespace removed. */
  function TrimStart(s: string): (r: string)
    ensures |r| <= |s| && r == s[|s| - |r|..]
    ensures IsBlank(s[..|s| - |r|])
    ensures r == "" || !IsJsWhitespace(r[0])
  {
    if |s| > 0 && IsJsWhitespace(s[0]) then
      var r := TrimStart(s[1..]);
      assert s[..|s| - |r|] == [s[0]] + s[1..][..|s[1..]| - |r|];
      r
    else s
  }

  /** `s` with its trailing whitespace removed. */
  function TrimEnd(s: string): (r: string)
    ensures |r| <= |s| && r == s[..|r|]
    ensures IsBlank(s[|r|..])
    ensures r == "" || !IsJsWhitespace(r[|r| - 1])
  {
    if |s| > 0 && IsJsWhitespace(s[|s| - 1]) then
      var r := TrimEnd(s[..|s| - 1]);
      assert s[|r|..] == s[..|s| - 1][|r|..] + [s[|s| - 1]];
      r
    else s
  }

  /** `s.trim()`. */
  function Trim(s: string): string
  {
    TrimEnd(TrimStart(s))
  }

  /** `!s.trim()` holds exactly for the blank strings. */
  lemma TrimEmptyIffBlank(s: string)
    ensures Trim(s) == "" <==> IsBlank(s)
  {
  }

  /** `s.substr(start, length)` for non-negative arguments: at most `length`
      characters of `s`, beginning at `start`, fewer where `s` ends first. */
  function Substr(s: string, start: nat, length: nat): (r: string)
    ensures |r| <= length
    ensures |r| == if start >= |s| then 0 else if start + length <= |s| then length else |s| - start
    ensures forall i :: 0 <= i < |r| ==> start + i < |s| && r[i] == s[start + i]
  {
    if start >= |s| then ""
    else if start + length <= |s| then s[start..start + length]
    else s[start..]
  }

  /** Where each of six concatenated strings lies in the result. */
  lemma Concat6Sections(s1: string, s2: string, s3: string, s4: string, s5: string, s6: string)
    ensures var p := s1 + s2 + s3 + s4 + s5 + s6;
            var a := |s1|;
            var b := a + |s2|;
            var c := b + |s3|;
            var d := c + |s4|;
            var e := d + |s5|;
            |p| == e + |s6|
            && p[..a] == s1 && p[a..b] == s2 && p[b..c] == s3
            && p[c..d] == s4 && p[d..e] == s5 && p[e..] == s6
  {
  }
}
