/** `escapeHtml` (functions/contact.ts) and the `\n` to `<br>` rewrite that the HTML body
    applies to the message after escaping, each with the inverse that proves it loses nothing. */
module Escaping {

  /** The five characters `escapeHtml` replaces. */
  predicate Reserved(c: char) {
    c == '&' || c == '<' || c == '>' || c == '"' || c == '\''
  }

  /** Characters that would open a tag or close an attribute value. */
  predicate Markup(c: char) {
    c == '<' || c == '>' || c == '"' || c == '\''
  }

  predicate StartsWith(s: string, p: string) {
    |p| <= |s| && s[..|p|] == p
  }

  /** One of the five entities `escapeHtml` writes begins at position i of s. */
  predicate EntityAt(s: string, i: nat)
    requires i <= |s|
  {
    var t := s[i..];
    StartsWith(t, "&amp;") || StartsWith(t, "&lt;") || StartsWith(t, "&gt;")
    || StartsWith(t, "&quot;") || StartsWith(t, "&#039;")
  }

  /** The replacement the source's lookup table gives one character. */
  function EscapeChar(c: char): string
  {
    match c
    case '&' => "&amp;"
    case '<' => "&lt;"
    case '>' => "&gt;"
    case '"' => "&quot;"
    case '\'' => "&#039;"
    case _ => [c]
  }

  /** `escapeHtml`: every reserved character replaced by its entity, all others kept. */
  function EscapeHtml(s: string): (r: string)
    ensures forall i :: 0 <= i < |r| ==> !Markup(r[i])
    ensures forall i :: 0 <= i < |r| && r[i] == '&' ==> EntityAt(r, i)
    ensures |r| >= |s|
  {
    if s == [] then []
    else
      var h, t := EscapeChar(s[0]), EscapeHtml(s[1..]);
      EntitiesJoin(s[0], t);
      h + t
  }

  /** An escaped character followed by escaped text keeps every `&` at the start of an entity. */
  lemma EntitiesJoin(c: char, t: string)
    requires forall i :: 0 <= i < |t| ==> !Markup(t[i])
    requires forall i :: 0 <= i < |t| && t[i] == '&' ==> EntityAt(t, i)
    ensures forall i :: 0 <= i < |EscapeChar(c) + t| ==> !Markup((EscapeChar(c) + t)[i])
    ensures forall i :: 0 <= i < |EscapeChar(c) + t| && (EscapeChar(c) + t)[i] == '&' ==> EntityAt(EscapeChar(c) + t, i)
  {
    var h := EscapeChar(c);
    forall i | 0 <= i < |h + t| && (h + t)[i] == '&'
      ensures EntityAt(h + t, i)
    {
      if i < |h| {
        assert (h + t)[..|h|] == h;
      } else {
        assert (h + t)[i..] == t[i - |h|..];
      }
    }
  }

  /** Decodes the five entities `escapeHtml` writes, scanning left to right. */
  function UnescapeHtml(s: string): string
    decreases |s|
  {
    if s == [] then []
    else if StartsWith(s, "&amp;") then "&" + UnescapeHtml(s[5..])
    else if StartsWith(s, "&lt;") then "<" + UnescapeHtml(s[4..])
    else if StartsWith(s, "&gt;") then ">" + UnescapeHtml(s[4..])
    else if StartsWith(s, "&quot;") then "\"" + UnescapeHtml(s[6..])
    else if StartsWith(s, "&#039;") then "'" + UnescapeHtml(s[6..])
    else [s[0]] + UnescapeHtml(s[1..])
  }

  /** Escaping loses nothing: decoding the entities gives back the input exactly. */
  lemma {:induction false} UnescapeEscape(s: string)
    ensures UnescapeHtml(EscapeHtml(s)) == s
  {
    if s != [] {
      UnescapeEscapeChar(s[0], EscapeHtml(s[1..]));
      UnescapeEscape(s[1..]);
    }
  }

  /** Decoding consumes exactly the replacement of one character. */
  lemma UnescapeEscapeChar(c: char, t: string)
    ensures UnescapeHtml(EscapeChar(c) + t) == [c] + UnescapeHtml(t)
  {
    match c
    case '&' => UnescapeAmp(t);
    case '<' => UnescapeLt(t);
    case '>' => UnescapeGt(t);
    case '"' => UnescapeQuot(t);
    case '\'' => UnescapeApos(t);
    case _ => UnescapeOther(c, t);
  }

  lemma UnescapeAmp(t: string)
    ensures UnescapeHtml("&amp;" + t) == "&" + UnescapeHtml(t)
  {
    var u := "&amp;" + t;
    assert u[..5] == "&amp;" && u[5..] == t;
  }

  lemma UnescapeLt(t: string)
    ensures UnescapeHtml("&lt;" + t) == "<" + UnescapeHtml(t)
  {
    var u := "&lt;" + t;
    assert u[1] == 'l' && !StartsWith(u, "&amp;");
    assert u[..4] == "&lt;" && u[4..] == t;
  }

  lemma UnescapeGt(t: string)
    ensures UnescapeHtml("&gt;" + t) == ">" + UnescapeHtml(t)
  {
    var u := "&gt;" + t;
    assert u[1] == 'g' && !StartsWith(u, "&amp;") && !StartsWith(u, "&lt;");
    assert u[..4] == "&gt;" && u[4..] == t;
  }

  lemma UnescapeQuot(t: string)
    ensures UnescapeHtml("&quot;" + t) == "\"" + UnescapeHtml(t)
  {
    var u := "&quot;" + t;
    assert u[1] == 'q' && !StartsWith(u, "&amp;") && !StartsWith(u, "&lt;") && !StartsWith(u, "&gt;");
    assert u[..6] == "&quot;" && u[6..] == t;
  }

  lemma UnescapeApos(t: string)
    ensures UnescapeHtml("&#039;" + t) == "'" + UnescapeHtml(t)
  {
    var u := "&#039;" + t;
    assert u[1] == '#' && !StartsWith(u, "&amp;") && !StartsWith(u, "&lt;") && !StartsWith(u, "&gt;");
    assert !StartsWith(u, "&quot;");
    assert u[..6] == "&#039;" && u[6..] == t;
  }

  lemma UnescapeOther(c: char, t: string)
    requires c != '&'
    ensures UnescapeHtml([c] + t) == [c] + UnescapeHtml(t)
  {
    var u := [c] + t;
    assert u[0] == c && u[1..] == t;
  }

  /** Hence two different inputs never escape to the same text. */
  lemma EscapeInjective(a: string, b: string)
    requires EscapeHtml(a) == EscapeHtml(b)
    ensures a == b
  {
    UnescapeEscape(a);
    UnescapeEscape(b);
  }

  /** Text without reserved characters passes through unchanged. */
  lemma {:induction false} EscapePlain(s: string)
    requires forall i :: 0 <= i < |s| ==> !Reserved(s[i])
    ensures EscapeHtml(s) == s
  {
    if s != [] {
      EscapePlain(s[1..]);
    }
  }

  /** `.replace(/\n/g, '<br>')`. */
  function BreakLines(s: string): (r: string)
    ensures forall i :: 0 <= i < |r| ==> r[i] != '\n'
    ensures (forall i :: 0 <= i < |s| ==> s[i] != '"' && s[i] != '\'') ==>
              forall i :: 0 <= i < |r| ==> r[i] != '"' && r[i] != '\''
  {
    if s == [] then []
    else (if s[0] == '\n' then "<br>" else [s[0]]) + BreakLines(s[1..])
  }

  /** Turns each `<br>` back into a newline. */
  function UnbreakLines(s: string): string
    decreases |s|
  {
    if s == [] then []
    else if StartsWith(s, "<br>") then "\n" + UnbreakLines(s[4..])
    else [s[0]] + UnbreakLines(s[1..])
  }

  /** On text with no `<` of its own, every `<` after the rewrite opens a `<br>`
      and the rewrite is undone exactly. */
  lemma {:induction false} BreakLinesOfTagFree(s: string)
    requires forall i :: 0 <= i < |s| ==> s[i] != '<'
    ensures UnbreakLines(BreakLines(s)) == s
    ensures forall i :: 0 <= i < |BreakLines(s)| && BreakLines(s)[i] == '<' ==> StartsWith(BreakLines(s)[i..], "<br>")
  {
    if s != [] {
      var h, t := if s[0] == '\n' then "<br>" else [s[0]], BreakLines(s[1..]);
      BreakLinesOfTagFree(s[1..]);
      assert BreakLines(s) == h + t;
      assert (h + t)[..|h|] == h;
      assert (h + t)[|h|..] == t;
      forall i | 0 <= i < |h + t| && (h + t)[i] == '<'
        ensures StartsWith((h + t)[i..], "<br>")
      {
        if i >= |h| {
          assert (h + t)[i..] == t[i - |h|..];
        }
      }
    }
  }

  /** The message cell of the HTML body: escaped first, then line breaks. */
  function MessageMarkup(m: string): (r: string)
    ensures forall i :: 0 <= i < |r| ==> r[i] != '"' && r[i] != '\'' && r[i] != '\n'
    ensures forall i :: 0 <= i < |r| && r[i] == '<' ==> StartsWith(r[i..], "<br>")
    ensures UnescapeHtml(UnbreakLines(r)) == m
  {
    var e := EscapeHtml(m);
    BreakLinesOfTagFree(e);
    UnescapeEscape(m);
    BreakLines(e)
  }

  /** The order matters: breaking first and escaping second would show the tag as text. */
  lemma EscapingAfterBreakingShowsTheTag()
    ensures EscapeHtml(BreakLines("\n")) == "&lt;br&gt;"
    ensures MessageMarkup("\n") == "<br>"
  {
    assert BreakLines("\n") == "<br>";
    assert EscapeHtml("\n") == "\n";
    assert ">"[1..] == [] && EscapeHtml(">") == "&gt;";
    assert "r>"[1..] == ">" && EscapeHtml("r>") == "r&gt;";
    assert "br>"[1..] == "r>" && EscapeHtml("br>") == "br&gt;";
    assert "<br>"[1..] == "br>";
  }
}
