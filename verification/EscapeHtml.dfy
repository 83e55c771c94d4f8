/** HTML escaping of the email templates: five replace passes, one after the other. */
module EscapeHtml {

  /** `s.replace(/c/g, text)` for a single character. */
  function Replace(s: string, c: char, text: string): string {
    if s == "" then ""
    else (if s[0] == c then text else [s[0]]) + Replace(s[1..], c, text)
  }

  function Passes(s: string): string {
    Replace(Replace(Replace(Replace(Replace(s, '&', "&amp;"), '<', "&lt;"), '>', "&gt;"), '"', "&quot;"), '\'', "&#39;")
  }

  /** `escapeHtml`. */
  function Escape(input: string): string {
    if input == "" then "" else Passes(input)
  }

  /** What one character becomes. */
  function Entity(c: char): string {
    if c == '&' then "&amp;"
    else if c == '<' then "&lt;"
    else if c == '>' then "&gt;"
    else if c == '"' then "&quot;"
    else if c == '\'' then "&#39;"
    else [c]
  }

  function Encoded(s: string): string {
    if s == "" then "" else Entity(s[0]) + Encoded(s[1..])
  }

  /** Reading the five entities back; anything else stands for itself. */
  function Decode(s: string): string {
    if s == "" then ""
    else if "&amp;" <= s then "&" + Decode(s[5..])
    else if "&lt;" <= s then "<" + Decode(s[4..])
    else if "&gt;" <= s then ">" + Decode(s[4..])
    else if "&quot;" <= s then "\"" + Decode(s[6..])
    else if "&#39;" <= s then "'" + Decode(s[5..])
    else [s[0]] + Decode(s[1..])
  }

  lemma {:induction false} ReplaceConcat(s: string, t: string, c: char, text: string)
    ensures Replace(s + t, c, text) == Replace(s, c, text) + Replace(t, c, text)
  {
    if s == "" {
      assert s + t == t;
    } else {
      assert (s + t)[1..] == s[1..] + t;
      ReplaceConcat(s[1..], t, c, text);
    }
  }

  lemma {:induction false} ReplaceAbsent(s: string, c: char, text: string)
    requires c !in s
    ensures Replace(s, c, text) == s
  {
    if s != "" {
      ReplaceAbsent(s[1..], c, text);
    }
  }

  lemma PassesConcat(s: string, t: string)
    ensures Passes(s + t) == Passes(s) + Passes(t)
  {
    ReplaceConcat(s, t, '&', "&amp;");
    var s1, t1 := Replace(s, '&', "&amp;"), Replace(t, '&', "&amp;");
    ReplaceConcat(s1, t1, '<', "&lt;");
    var s2, t2 := Replace(s1, '<', "&lt;"), Replace(t1, '<', "&lt;");
    ReplaceConcat(s2, t2, '>', "&gt;");
    var s3, t3 := Replace(s2, '>', "&gt;"), Replace(t2, '>', "&gt;");
    ReplaceConcat(s3, t3, '"', "&quot;");
    ReplaceConcat(Replace(s3, '"', "&quot;"), Replace(t3, '"', "&quot;"), '\'', "&#39;");
  }

  lemma ReplaceWhole(s: string, c: char, text: string)
    requires s == [c] || c !in s
    ensures Replace(s, c, text) == if s == [c] then text else s
  {
    if s != [c] {
      ReplaceAbsent(s, c, text);
    }
  }

  /** Number of the pass that replaces `c`, 6 if none does. */
  function Rank(c: char): nat {
    if c == '&' then 1
    else if c == '<' then 2
    else if c == '>' then 3
    else if c == '"' then 4
    else if c == '\'' then 5
    else 6
  }

  /** What a single character has become after `n` passes. */
  function After(n: nat, c: char): string {
    if Rank(c) <= n then Entity(c) else [c]
  }

  lemma EntityAvoids(c: char, k: char)
    requires Rank(c) < Rank(k) < 6
    ensures k !in Entity(c)
  {
  }

  lemma Pass(n: nat, c: char, k: char, text: string)
    requires Rank(k) == n + 1 < 6 && text == Entity(k)
    ensures Replace(After(n, c), k, text) == After(n + 1, c)
  {
    if Rank(c) <= n {
      EntityAvoids(c, k);
    } else if c != k {
      assert k !in [c];
    }
    ReplaceWhole(After(n, c), k, text);
  }

  lemma Chain(s0: string, s1: string, s2: string, s3: string, s4: string, s5: string)
    requires Replace(s0, '&', "&amp;") == s1 && Replace(s1, '<', "&lt;") == s2 && Replace(s2, '>', "&gt;") == s3
    requires Replace(s3, '"', "&quot;") == s4 && Replace(s4, '\'', "&#39;") == s5
    ensures Passes(s0) == s5
  {
  }

  /** On one character the later passes leave the entity of an earlier one alone. */
  lemma PassesChar(c: char)
    ensures Passes([c]) == Entity(c)
  {
    Pass(0, c, '&', "&amp;");
    Pass(1, c, '<', "&lt;");
    Pass(2, c, '>', "&gt;");
    Pass(3, c, '"', "&quot;");
    Pass(4, c, '\'', "&#39;");
    Chain(After(0, c), After(1, c), After(2, c), After(3, c), After(4, c), After(5, c));
  }

  lemma {:induction false} PassesAreEncoded(s: string)
    ensures Passes(s) == Encoded(s)
  {
    if s != "" {
      assert s == [s[0]] + s[1..];
      PassesConcat([s[0]], s[1..]);
      PassesChar(s[0]);
      PassesAreEncoded(s[1..]);
    }
  }

  /** The five passes are one map over the characters: no pass escapes another's output again. */
  lemma EscapeIsOneMap(s: string)
    ensures Escape(s) == Encoded(s)
  {
    PassesAreEncoded(s);
  }

  predicate Markup(c: char) {
    c in "<>\"'"
  }

  lemma {:induction false} EncodedClean(s: string)
    ensures forall i | 0 <= i < |Encoded(s)| :: !Markup(Encoded(s)[i])
  {
    if s != "" {
      EncodedClean(s[1..]);
      assert forall i | 0 <= i < |Entity(s[0])| :: !Markup(Entity(s[0])[i]);
    }
  }

  /** No raw angle bracket or quote survives. */
  lemma EscapeLeavesNoMarkup(s: string)
    ensures forall i | 0 <= i < |Escape(s)| :: !Markup(Escape(s)[i])
  {
    EscapeIsOneMap(s);
    EncodedClean(s);
  }

  lemma DecodeEntity(c: char, rest: string)
    ensures Decode(Entity(c) + rest) == [c] + Decode(rest)
  {
    var s := Entity(c) + rest;
    assert s[|Entity(c)|..] == rest;
    assert Entity(c) <= s;
    if c == '&' {
      assert s[1] == 'a';
    } else if c == '<' {
      assert s[1] == 'l';
    } else if c == '>' {
      assert s[1] == 'g';
    } else if c == '"' {
      assert s[1] == 'q';
    } else if c == '\'' {
      assert s[1] == '#';
    } else {
      assert s[0] == c;
    }
  }

  lemma {:induction false} DecodeEncoded(s: string)
    ensures Decode(Encoded(s)) == s
  {
    if s != "" {
      DecodeEntity(s[0], Encoded(s[1..]));
      DecodeEncoded(s[1..]);
    }
  }

  /** Decoding the entities gives back every input, so different inputs never escape alike. */
  lemma DecodeEscape(s: string)
    ensures Decode(Escape(s)) == s
  {
    EscapeIsOneMap(s);
    DecodeEncoded(s);
  }
}
