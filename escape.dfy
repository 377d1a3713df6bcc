/** HTML escaping (`escapeHtml`, identical in both variants): five
    `replaceAll` calls in sequence, `&` first. */
module Escape {

  /** `s.replaceAll(c, rep)` for a one-character pattern: every occurrence
      of `c`, scanning left to right, is replaced by `rep`. */
  function ReplaceAll(s: string, c: char, rep: string): string {
    if s == [] then []
    else (if s[0] == c then rep else [s[0]]) + ReplaceAll(s[1..], c, rep)
  }

  /** escapeHtml as written: the replacement chain in source order. */
  function EscapeHtml(s: string): string {
    ReplaceAll(
      ReplaceAll(
        ReplaceAll(
          ReplaceAll(
            ReplaceAll(s, '&', "&amp;"),
            '<', "&lt;"),
          '>', "&gt;"),
        '"', "&quot;"),
      '\'', "&#039;")
  }

  // ---------------------------------------------------------------------
  // Reference definition: one character at a time.

  predicate IsSpecial(c: char) {
    c == '&' || c == '<' || c == '>' || c == '"' || c == '\''
  }

  /** The entity each of the five characters becomes. */
  function EscapeChar(c: char): string {
    match c
    case '&' => "&amp;"
    case '<' => "&lt;"
    case '>' => "&gt;"
    case '"' => "&quot;"
    case '\'' => "&#039;"
    case _ => [c]
  }

  function Escaped(s: string): string {
    if s == [] then [] else EscapeChar(s[0]) + Escaped(s[1..])
  }

  /** Decoding the five entities, left to right; any other text is kept. */
  function Unescape(t: string): string
    decreases |t|
  {
    if t == [] then []
    else if t[0] != '&' then [t[0]] + Unescape(t[1..])
    else if "&amp;" <= t then "&" + Unescape(t[5..])
    else if "&lt;" <= t then "<" + Unescape(t[4..])
    else if "&gt;" <= t then ">" + Unescape(t[4..])
    else if "&quot;" <= t then "\"" + Unescape(t[6..])
    else if "&#039;" <= t then "'" + Unescape(t[6..])
    else "&" + Unescape(t[1..])
  }

  /** `t` begins with one of the five entities. */
  predicate StartsWithEntity(t: string) {
    "&amp;" <= t || "&lt;" <= t || "&gt;" <= t || "&quot;" <= t || "&#039;" <= t
  }

  // ---------------------------------------------------------------------
  // Lemmas

  lemma {:induction false} ReplaceAllAppend(a: string, b: string, c: char, rep: string)
    ensures ReplaceAll(a + b, c, rep) == ReplaceAll(a, c, rep) + ReplaceAll(b, c, rep)
  {
    if a != [] {
      assert (a + b)[1..] == a[1..] + b;
      ReplaceAllAppend(a[1..], b, c, rep);
    } else {
      assert a + b == b;
    }
  }

  lemma {:induction false} ReplaceAllAbsent(s: string, c: char, rep: string)
    requires c !in s
    ensures ReplaceAll(s, c, rep) == s
  {
    if s != [] {
      ReplaceAllAbsent(s[1..], c, rep);
    }
  }

  /** The chain distributes over concatenation. */
  lemma EscapeHtmlAppend(a: string, b: string)
    ensures EscapeHtml(a + b) == EscapeHtml(a) + EscapeHtml(b)
  {
    var a1, b1 := ReplaceAll(a, '&', "&amp;"), ReplaceAll(b, '&', "&amp;");
    ReplaceAllAppend(a, b, '&', "&amp;");
    var a2, b2 := ReplaceAll(a1, '<', "&lt;"), ReplaceAll(b1, '<', "&lt;");
    ReplaceAllAppend(a1, b1, '<', "&lt;");
    var a3, b3 := ReplaceAll(a2, '>', "&gt;"), ReplaceAll(b2, '>', "&gt;");
    ReplaceAllAppend(a2, b2, '>', "&gt;");
    var a4, b4 := ReplaceAll(a3, '"', "&quot;"), ReplaceAll(b3, '"', "&quot;");
    ReplaceAllAppend(a3, b3, '"', "&quot;");
    ReplaceAllAppend(a4, b4, '\'', "&#039;");
  }

  lemma ReplaceAllSingle(x: char, c: char, rep: string)
    ensures ReplaceAll([x], c, rep) == if x == c then rep else [x]
  {
    assert [x][1..] == [];
  }

  /** On a single character the chain gives that character's entity: the
      entities inserted by earlier steps contain none of the characters
      replaced by later ones, which is why `&` must go first. */
  lemma EscapeHtmlOneChar(c: char)
    ensures EscapeHtml([c]) == EscapeChar(c)
  {
    ReplaceAllSingle(c, '&', "&amp;");
    if c == '&' {
      EntityStaysPut("&amp;", '<', '>', '"', '\'');
    } else {
      ReplaceAllSingle(c, '<', "&lt;");
      if c == '<' {
        EntityStaysPut("&lt;", '<', '>', '"', '\'');
      } else {
        ReplaceAllSingle(c, '>', "&gt;");
        if c == '>' {
          EntityStaysPut("&gt;", '<', '>', '"', '\'');
        } else {
          ReplaceAllSingle(c, '"', "&quot;");
          if c == '"' {
            EntityStaysPut("&quot;", '<', '>', '"', '\'');
          } else {
            ReplaceAllSingle(c, '\'', "&#039;");
          }
        }
      }
    }
  }

  /** An inserted entity contains none of the characters replaced after it. */
  lemma EntityStaysPut(e: string, c2: char, c3: char, c4: char, c5: char)
    requires c2 !in e && c3 !in e && c4 !in e && c5 !in e
    ensures ReplaceAll(e, c2, "&lt;") == e
    ensures ReplaceAll(e, c3, "&gt;") == e
    ensures ReplaceAll(e, c4, "&quot;") == e
    ensures ReplaceAll(e, c5, "&#039;") == e
  {
    ReplaceAllAbsent(e, c2, "&lt;");
    ReplaceAllAbsent(e, c3, "&gt;");
    ReplaceAllAbsent(e, c4, "&quot;");
    ReplaceAllAbsent(e, c5, "&#039;");
  }

  /** escapeHtml as written is the per-character escaping. */
  lemma {:induction false} EscapeHtmlIsPerChar(s: string)
    ensures EscapeHtml(s) == Escaped(s)
  {
    if s != [] {
      assert s == [s[0]] + s[1..];
      EscapeHtmlAppend([s[0]], s[1..]);
      EscapeHtmlOneChar(s[0]);
      EscapeHtmlIsPerChar(s[1..]);
    }
  }

  /** No markup character survives escaping. */
  lemma {:induction false} EscapeHtmlNoMarkup(s: string)
    ensures var r := EscapeHtml(s);
      '<' !in r && '>' !in r && '"' !in r && '\'' !in r
  {
    EscapeHtmlIsPerChar(s);
    EscapedNoMarkup(s);
  }

  lemma {:induction false} EscapedNoMarkup(s: string)
    ensures var r := Escaped(s);
      '<' !in r && '>' !in r && '"' !in r && '\'' !in r
  {
    if s != [] {
      var head, tail := EscapeChar(s[0]), Escaped(s[1..]);
      EscapeCharNoMarkup(s[0]);
      EscapedNoMarkup(s[1..]);
      assert Escaped(s) == head + tail;
    }
  }

  /** No entity, and no kept character, is a markup character. */
  lemma EscapeCharNoMarkup(c: char)
    ensures var e := EscapeChar(c);
      '<' !in e && '>' !in e && '"' !in e && '\'' !in e
  {
  }

  /** Every `&` of the output starts one of the five entities. */
  lemma {:induction false} EscapeHtmlAmpersands(s: string, i: nat)
    requires i < |EscapeHtml(s)| && EscapeHtml(s)[i] == '&'
    ensures StartsWithEntity(EscapeHtml(s)[i..])
  {
    EscapeHtmlIsPerChar(s);
    EscapedAmpersands(s, i);
  }

  lemma {:induction false} EscapedAmpersands(s: string, i: nat)
    requires i < |Escaped(s)| && Escaped(s)[i] == '&'
    ensures StartsWithEntity(Escaped(s)[i..])
  {
    var head, tail := EscapeChar(s[0]), Escaped(s[1..]);
    assert Escaped(s) == head + tail;
    if i < |head| {
      assert IsSpecial(s[0]) && i == 0;
      assert Escaped(s)[i..] == head + tail;
    } else {
      EscapedAmpersands(s[1..], i - |head|);
      assert Escaped(s)[i..] == tail[i - |head|..];
    }
  }

  /** Decoding undoes escaping: the round trip works because `&` is escaped
      before any entity is inserted. */
  lemma {:induction false} UnescapeEscapeHtml(s: string)
    ensures Unescape(EscapeHtml(s)) == s
  {
    EscapeHtmlIsPerChar(s);
    UnescapeEscaped(s);
  }

  lemma {:induction false} UnescapeEscaped(s: string)
    ensures Unescape(Escaped(s)) == s
  {
    if s != [] {
      var c, tail := s[0], Escaped(s[1..]);
      assert Escaped(s) == EscapeChar(c) + tail;
      UnescapeEscaped(s[1..]);
      UnescapeChar(c, tail);
      assert s == [c] + s[1..];
    }
  }

  /** Decoding one escaped character in front of any text. */
  lemma UnescapeChar(c: char, tail: string)
    ensures Unescape(EscapeChar(c) + tail) == [c] + Unescape(tail)
  {
    var t := EscapeChar(c) + tail;
    if IsSpecial(c) {
      assert t[|EscapeChar(c)|..] == tail;
      assert t[0] == '&';
      assert EscapeChar(c) <= t;
      if c != '&' {
        assert t[1] != 'a';
      }
      if c == '"' || c == '\'' {
        assert t[1] != 'l' && t[1] != 'g';
      }
    } else {
      assert t[1..] == tail;
      assert t[0] == c;
    }
  }

  /** Text with none of the five characters is left as it is. */
  lemma {:induction false} EscapeHtmlPlainText(s: string)
    requires forall i :: 0 <= i < |s| ==> !IsSpecial(s[i])
    ensures EscapeHtml(s) == s
  {
    EscapeHtmlIsPerChar(s);
    if s != [] {
      EscapeHtmlPlainText(s[1..]);
      EscapeHtmlIsPerChar(s[1..]);
    }
  }
}
