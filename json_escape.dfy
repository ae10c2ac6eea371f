/**
 * `EscapeJsonString` of the event-mode recorder: the five chained `Replace`
 * calls, a per-character reference escaping they amount to, and the
 * un-escaping that inverts it. The escapes are those of RFC 8259, section 7,
 * for backslash, quotation mark, line feed, carriage return and tab; the
 * other control characters U+0000 to U+001F, which that section also
 * requires to be escaped, pass through unchanged.
 */
module JsonEscape {
  import opened Optional

  /** `String.Replace` with a one-character pattern: every `c` becomes `r`. */
  function ReplaceAll(s: string, c: char, r: string): string
  {
    if s == [] then [] else (if s[0] == c then r else [s[0]]) + ReplaceAll(s[1..], c, r)
  }

  /** The chain as written: backslash first, then quote, newline, return, tab. */
  function ReplaceChain(s: string): string
  {
    ReplaceAll(ReplaceAll(ReplaceAll(ReplaceAll(ReplaceAll(s, '\\', "\\\\"), '"', "\\\""), '\n', "\\n"), '\r', "\\r"), '\t', "\\t")
  }

  /** `EscapeJsonString`: null or empty gives "", anything else goes through the chain. */
  function EscapeJsonString(input: Option<string>): string
  {
    match input
    case None => ""
    case Some(s) => if s == "" then "" else ReplaceChain(s)
  }

  /** What `EscapeJsonString` returns is escaped for the five characters the
    * chain handles (it holds no raw line feed, return or tab, and no quote
    * outside an escape) and un-escapes to the input, null counting as the
    * empty string. */
  lemma EscapeJsonStringIsFaithful(input: Option<string>)
    ensures WellEscaped(EscapeJsonString(input))
    ensures Unescape(EscapeJsonString(input)) == if input.Some? then input.value else ""
  {
    if input.Some? && input.value != "" {
      ReplaceChainIsEscapeChars(input.value);
      EscapedIsWellFormed(input.value);
      UnescapeEscapeChars(input.value);
    }
  }

  /** A control character other than line feed, return and tab is written
    * raw, and the result still counts as escaped for the chain's five
    * characters: section 7 of RFC 8259 requires it to be escaped, so a name
    * holding one makes the saved document invalid JSON. */
  lemma UnescapedControlCharacter(c: char)
    requires c < ' ' && IsPlain(c)
    ensures EscapeJsonString(Some([c])) == [c]
    ensures WellEscaped([c])
  {
    ReplaceChainChar(c);
    assert [c][1..] == [];
  }

  // ----- The reference escaping, one character at a time -----

  function EscapeChar(c: char): string
  {
    if c == '\\' then "\\\\"
    else if c == '"' then "\\\""
    else if c == '\n' then "\\n"
    else if c == '\r' then "\\r"
    else if c == '\t' then "\\t"
    else [c]
  }

  function EscapeChars(s: string): string
  {
    if s == [] then "" else EscapeChar(s[0]) + EscapeChars(s[1..])
  }

  /** A character that may stand unescaped. */
  predicate IsPlain(c: char)
  {
    c != '\\' && c != '"' && c != '\n' && c != '\r' && c != '\t'
  }

  /** A character that may follow a backslash. */
  predicate IsEscapeLetter(c: char)
  {
    c == '\\' || c == '"' || c == 'n' || c == 'r' || c == 't'
  }

  /** A text made only of plain characters and two-character escapes of the
    * five characters the chain handles. */
  predicate WellEscaped(t: string)
    decreases |t|
  {
    || t == []
    || (IsPlain(t[0]) && WellEscaped(t[1..]))
    || (|t| >= 2 && t[0] == '\\' && IsEscapeLetter(t[1]) && WellEscaped(t[2..]))
  }

  function UnescapeLetter(c: char): char
  {
    if c == 'n' then '\n' else if c == 'r' then '\r' else if c == 't' then '\t' else c
  }

  /** Reads a backslash and the character after it as one escape. */
  function Unescape(t: string): string
    decreases |t|
  {
    if t == [] then ""
    else if t[0] == '\\' && |t| >= 2 then [UnescapeLetter(t[1])] + Unescape(t[2..])
    else [t[0]] + Unescape(t[1..])
  }

  // ----- The chain equals the reference escaping -----

  lemma {:induction false} ReplaceAllConcat(a: string, b: string, c: char, r: string)
    ensures ReplaceAll(a + b, c, r) == ReplaceAll(a, c, r) + ReplaceAll(b, c, r)
  {
    if a == [] {
      assert a + b == b;
    } else {
      assert (a + b)[1..] == a[1..] + b;
      ReplaceAllConcat(a[1..], b, c, r);
    }
  }

  lemma {:induction false} ReplaceAllAbsent(s: string, c: char, r: string)
    requires c !in s
    ensures ReplaceAll(s, c, r) == s
  {
    if s != [] {
      ReplaceAllAbsent(s[1..], c, r);
      assert [s[0]] + s[1..] == s;
    }
  }

  lemma ReplaceAllOne(d: char, c: char, r: string)
    ensures ReplaceAll([d], c, r) == if d == c then r else [d]
  {
    assert [d][1..] == [];
  }

  lemma ReplaceChainConcat(a: string, b: string)
    ensures ReplaceChain(a + b) == ReplaceChain(a) + ReplaceChain(b)
  {
    var a1, b1 := ReplaceAll(a, '\\', "\\\\"), ReplaceAll(b, '\\', "\\\\");
    ReplaceAllConcat(a, b, '\\', "\\\\");
    var a2, b2 := ReplaceAll(a1, '"', "\\\""), ReplaceAll(b1, '"', "\\\"");
    ReplaceAllConcat(a1, b1, '"', "\\\"");
    var a3, b3 := ReplaceAll(a2, '\n', "\\n"), ReplaceAll(b2, '\n', "\\n");
    ReplaceAllConcat(a2, b2, '\n', "\\n");
    var a4, b4 := ReplaceAll(a3, '\r', "\\r"), ReplaceAll(b3, '\r', "\\r");
    ReplaceAllConcat(a3, b3, '\r', "\\r");
    ReplaceAllConcat(a4, b4, '\t', "\\t");
  }

  /** On one character the chain fires at most once: no replacement text
    * contains a character that a later `Replace` looks for. */
  lemma ReplaceChainChar(c: char)
    ensures ReplaceChain([c]) == EscapeChar(c)
  {
    var s1 := ReplaceAll([c], '\\', "\\\\");
    ReplaceAllOne(c, '\\', "\\\\");
    ReplaceAllAbsentOrOne(s1, '"', "\\\"");
    var s2 := if c == '"' then "\\\"" else s1;
    assert ReplaceAll(s1, '"', "\\\"") == s2;
    ReplaceAllAbsentOrOne(s2, '\n', "\\n");
    var s3 := if c == '\n' then "\\n" else s2;
    assert ReplaceAll(s2, '\n', "\\n") == s3;
    ReplaceAllAbsentOrOne(s3, '\r', "\\r");
    var s4 := if c == '\r' then "\\r" else s3;
    assert ReplaceAll(s3, '\r', "\\r") == s4;
    ReplaceAllAbsentOrOne(s4, '\t', "\\t");
  }

  lemma ReplaceAllAbsentOrOne(s: string, c: char, r: string)
    ensures c !in s ==> ReplaceAll(s, c, r) == s
    ensures s == [c] ==> ReplaceAll(s, c, r) == r
  {
    if c !in s { ReplaceAllAbsent(s, c, r); }
    if s == [c] { ReplaceAllOne(c, c, r); }
  }

  lemma {:induction false} ReplaceChainIsEscapeChars(s: string)
    ensures ReplaceChain(s) == EscapeChars(s)
  {
    if s == [] {
    } else {
      assert s == [s[0]] + s[1..];
      ReplaceChainConcat([s[0]], s[1..]);
      ReplaceChainChar(s[0]);
      ReplaceChainIsEscapeChars(s[1..]);
    }
  }

  // ----- Properties of the reference escaping -----

  lemma {:induction false} EscapedIsWellFormed(s: string)
    ensures WellEscaped(EscapeChars(s))
  {
    if s != [] {
      EscapedIsWellFormed(s[1..]);
      var e, t := EscapeChar(s[0]), EscapeChars(s[1..]);
      if IsPlain(s[0]) {
        assert (e + t)[1..] == t;
      } else {
        assert (e + t)[2..] == t;
      }
    }
  }

  /** Un-escaping the escaped text recovers the original. */
  lemma {:induction false} UnescapeEscapeChars(s: string)
    ensures Unescape(EscapeChars(s)) == s
  {
    if s != [] {
      UnescapeEscapeChars(s[1..]);
      var e, t := EscapeChar(s[0]), EscapeChars(s[1..]);
      if IsPlain(s[0]) {
        assert (e + t)[1..] == t;
      } else {
        assert (e + t)[2..] == t;
      }
      assert s == [s[0]] + s[1..];
    }
  }

  /** Every well-formed escaped text is the escaping of its un-escaping, so
    * escaping is a bijection between texts and well-formed escaped texts. */
  lemma {:induction false} EscapeUnescape(t: string)
    requires WellEscaped(t)
    ensures EscapeChars(Unescape(t)) == t
    decreases |t|
  {
    if t == [] {
    } else if IsPlain(t[0]) {
      EscapeUnescape(t[1..]);
      assert [t[0]] + Unescape(t[1..]) == Unescape(t);
      assert ([t[0]] + Unescape(t[1..]))[1..] == Unescape(t[1..]);
      assert t == [t[0]] + t[1..];
    } else {
      EscapeUnescape(t[2..]);
      var u := [UnescapeLetter(t[1])] + Unescape(t[2..]);
      assert u[1..] == Unescape(t[2..]);
      assert t == [t[0], t[1]] + t[2..];
    }
  }

  /** A well-formed escaped text holds no raw line feed, carriage return or
    * tab, and every quotation mark in it follows a backslash. That the
    * escaped text does not end the JSON string early is
    * `EscapeJsonStringReadsBack`. */
  lemma {:induction false} WellEscapedIsSafe(t: string)
    requires WellEscaped(t)
    ensures forall i | 0 <= i < |t| :: t[i] != '\n' && t[i] != '\r' && t[i] != '\t'
    ensures forall i | 0 <= i < |t| && t[i] == '"' :: i > 0 && t[i - 1] == '\\'
    decreases |t|
  {
    if t == [] {
    } else if IsPlain(t[0]) {
      WellEscapedIsSafe(t[1..]);
      forall i | 1 <= i < |t| ensures t[i] == t[1..][i - 1] { }
    } else {
      WellEscapedIsSafe(t[2..]);
      forall i | 2 <= i < |t| ensures t[i] == t[2..][i - 2] { }
    }
  }

  // ----- Reading an escaped text back out of a JSON string literal -----

  /** Scans the body of a JSON string literal up to its closing quotation
    * mark: the decoded characters and the text after the quote, or `None`
    * when the text ends before an unescaped quote. */
  function ReadStringBody(t: string): Option<(string, string)>
    decreases |t|
  {
    if t == [] then None
    else if t[0] == '"' then Some(("", t[1..]))
    else if t[0] == '\\' && |t| >= 2 then
      match ReadStringBody(t[2..])
      case None => None
      case Some(r) => Some(([UnescapeLetter(t[1])] + r.0, r.1))
    else
      match ReadStringBody(t[1..])
      case None => None
      case Some(r) => Some(([t[0]] + r.0, r.1))
  }

  /** An escaped text followed by a quote reads back as the original text,
    * and the literal ends exactly at that quote. */
  lemma {:induction false} ReadEscapedString(s: string, rest: string)
    ensures ReadStringBody(EscapeChars(s) + "\"" + rest) == Some((s, rest))
  {
    var t := EscapeChars(s) + "\"" + rest;
    if s == [] {
      assert t == "\"" + rest;
      assert t[1..] == rest;
    } else {
      ReadEscapedString(s[1..], rest);
      var e, u := EscapeChar(s[0]), EscapeChars(s[1..]) + "\"" + rest;
      assert t == e + u;
      if IsPlain(s[0]) {
        assert t[1..] == u;
      } else {
        assert t[2..] == u;
      }
      assert s == [s[0]] + s[1..];
    }
  }

  /** What `EscapeJsonString` writes inside quotes reads back as the input
    * (null reads back as the empty string). */
  lemma EscapeJsonStringReadsBack(input: Option<string>, rest: string)
    ensures ReadStringBody(EscapeJsonString(input) + "\"" + rest)
         == Some((if input.Some? then input.value else "", rest))
  {
    match input
    case None =>
      ReadEscapedString("", rest);
    case Some(s) =>
      if s == "" {
        ReadEscapedString("", rest);
      } else {
        ReplaceChainIsEscapeChars(s);
        ReadEscapedString(s, rest);
      }
  }
}
