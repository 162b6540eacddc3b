/** The pieces of the JavaScript string runtime that the contact handler relies on:
    the whitespace class shared by `String.prototype.trim` and the regular-expression
    class `\s`, `trim`, `toUpperCase` (on ASCII letters) and `Array.prototype.join`. */
module Strings {

  /** ECMAScript WhiteSpace and LineTerminator code points: exactly what `\s` matches
      and what `trim` strips from either end. */
  predicate IsSpace(c: char) {
    || c == '\t' || c == '\n' || c == '\U{000B}' || c == '\U{000C}' || c == '\r' || c == ' '
    || c == '\U{00A0}' || c == '\U{1680}' || ('\U{2000}' <= c <= '\U{200A}')
    || c == '\U{2028}' || c == '\U{2029}' || c == '\U{202F}' || c == '\U{205F}'
    || c == '\U{3000}' || c == '\U{FEFF}'
  }

  predicate AllSpace(s: string) {
    forall i :: 0 <= i < |s| ==> IsSpace(s[i])
  }

  /** A string that `trim` leaves alone: empty, or with a non-space character at each end. */
  predicate Unpadded(s: string) {
    s != [] ==> !IsSpace(s[0]) && !IsSpace(s[|s| - 1])
  }

  /** Drops the leading whitespace: the result is the longest suffix that does not start with a space. */
  function TrimStart(s: string): (r: string)
    ensures |r| <= |s| && r == s[|s| - |r|..]
    ensures AllSpace(s[..|s| - |r|])
    ensures r != [] ==> !IsSpace(r[0])
  {
    if s != [] && IsSpace(s[0]) then
      var r := TrimStart(s[1..]);
      assert s[..|s| - |r|] == [s[0]] + s[1..][..|s| - 1 - |r|];
      r
    else s
  }

  /** Drops the trailing whitespace: the result is the longest prefix that does not end with a space. */
  function TrimEnd(s: string): (r: string)
    ensures |r| <= |s| && r == s[..|r|]
    ensures AllSpace(s[|r|..])
    ensures r != [] ==> !IsSpace(r[|r| - 1])
  {
    if s != [] && IsSpace(s[|s| - 1]) then TrimEnd(s[..|s| - 1]) else s
  }

  /** `String.prototype.trim`. */
  function Trim(s: string): (r: string)
    ensures Unpadded(r)
    ensures r == [] <==> AllSpace(s)
  {
    var t := TrimStart(s);
    assert t == [] ==> AllSpace(s) by {
      if t == [] { assert s[..|s|] == s; }
    }
    assert AllSpace(s) ==> t == [] by {
      if t != [] { assert t[0] == s[|s| - |t|]; }
    }
    TrimEnd(t)
  }

  /** Whitespace before and after an unpadded string is exactly what `trim` removes. */
  lemma TrimPadded(before: string, x: string, after: string)
    requires AllSpace(before) && AllSpace(after) && x != [] && Unpadded(x)
    ensures Trim(before + x + after) == x
  {
    assert before + x + after == before + (x + after);
    TrimStartPadded(before, x + after);
    TrimEndPadded(x, after);
  }

  lemma {:induction false} TrimStartPadded(before: string, y: string)
    requires AllSpace(before) && y != [] && !IsSpace(y[0])
    ensures TrimStart(before + y) == y
  {
    if before != [] {
      assert (before + y)[0] == before[0];
      assert (before + y)[1..] == before[1..] + y;
      TrimStartPadded(before[1..], y);
    }
  }

  lemma {:induction false} TrimEndPadded(y: string, after: string)
    requires AllSpace(after) && y != [] && !IsSpace(y[|y| - 1])
    ensures TrimEnd(y + after) == y
  {
    if after != [] {
      var n := |y + after|;
      assert (y + after)[n - 1] == after[|after| - 1];
      assert (y + after)[..n - 1] == y + after[..|after| - 1];
      TrimEndPadded(y, after[..|after| - 1]);
    } else {
      assert y + after == y;
    }
  }

  /** `trim` does not change an unpadded string. */
  lemma TrimUnpadded(x: string)
    requires Unpadded(x)
    ensures Trim(x) == x
  {
    assert TrimStart(x) == x;
    assert TrimEnd(x) == x;
  }

  /** `toUpperCase` on one character, for the ASCII letters. */
  function UpperChar(c: char): (u: char)
    ensures 'a' <= c <= 'z' ==> 'A' <= u <= 'Z' && u as int == c as int - 32
    ensures !('a' <= c <= 'z') ==> u == c
  {
    if 'a' <= c <= 'z' then (c as int - 32) as char else c
  }

  /** `String.prototype.toUpperCase`, restricted to ASCII case mapping. */
  function Upper(s: string): (r: string)
    ensures |r| == |s|
    ensures forall i :: 0 <= i < |s| ==> r[i] == UpperChar(s[i])
  {
    seq(|s|, i requires 0 <= i < |s| => UpperChar(s[i]))
  }

  /** `Array.prototype.join`. */
  function Join(parts: seq<string>, sep: string): string
  {
    if |parts| == 0 then ""
    else if |parts| == 1 then parts[0]
    else parts[0] + sep + Join(parts[1..], sep)
  }

  /** `m` occurs in `s` as a contiguous piece. */
  ghost predicate Occurs(m: string, s: string) {
    exists a, b :: s == a + m + b
  }

  /** Each part occurs in the joined string. */
  lemma {:induction false} JoinContains(parts: seq<string>, sep: string, i: int)
    requires 0 <= i < |parts|
    ensures Occurs(parts[i], Join(parts, sep))
  {
    if |parts| == 1 {
      assert Join(parts, sep) == "" + parts[0] + "";
    } else if i == 0 {
      assert Join(parts, sep) == "" + parts[0] + (sep + Join(parts[1..], sep));
    } else {
      JoinContains(parts[1..], sep, i - 1);
      var a, b :| Join(parts[1..], sep) == a + parts[1..][i - 1] + b;
      assert Join(parts, sep) == (parts[0] + sep + a) + parts[i] + b;
    }
  }

  /** A member of the parts occurs in the joined string. */
  lemma InJoin(parts: seq<string>, sep: string, m: string)
    requires m in parts
    ensures Occurs(m, Join(parts, sep))
  {
    var i :| 0 <= i < |parts| && parts[i] == m;
    JoinContains(parts, sep, i);
  }

  /** What occurs in a string still occurs once text is put around it. */
  lemma Within(pre: string, s: string, post: string, m: string)
    requires Occurs(m, s)
    ensures Occurs(m, pre + s + post)
  {
    var a, b :| s == a + m + b;
    assert pre + s + post == (pre + a) + m + (b + post);
  }
}
