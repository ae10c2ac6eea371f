/**
 * The pieces of .NET string handling the recorders rely on: line output with
 * the Windows line terminator, decimal formatting of integers, ASCII case
 * folding and whitespace trimming. `Split` is not used by the recorders: it
 * is the reader with which the model states how a written line reads back.
 */
module Strings {

  /** `Environment.NewLine` on the Windows host that loads these plugins. */
  const NewLine: string := "\r\n"

  /** The text written by emitting every line followed by `NewLine`
    * (`StringBuilder.AppendLine`, `StreamWriter.WriteLine`). */
  function Unlines(lines: seq<string>): string
  {
    if lines == [] then "" else Unlines(lines[..|lines| - 1]) + lines[|lines| - 1] + NewLine
  }

  lemma {:induction false} UnlinesConcat(a: seq<string>, b: seq<string>)
    ensures Unlines(a + b) == Unlines(a) + Unlines(b)
    decreases |b|
  {
    if b == [] {
      assert a + b == a;
    } else {
      var b' := b[..|b| - 1];
      assert (a + b)[..|a + b| - 1] == a + b';
      assert (a + b)[|a + b| - 1] == b[|b| - 1];
      UnlinesConcat(a, b');
    }
  }

  // ----- Decimal formatting of integers (`int.ToString()`) -----

  predicate IsDigit(c: char) { '0' <= c <= '9' }

  predicate AllDigits(s: string) { forall i | 0 <= i < |s| :: IsDigit(s[i]) }

  function DigitChar(d: nat): (c: char)
    requires d < 10
    ensures IsDigit(c)
  {
    ('0' as int + d) as char
  }

  function DigitValue(c: char): nat
    requires IsDigit(c)
  {
    c as int - '0' as int
  }

  /** The shortest decimal numeral of `n`. */
  function NatToString(n: nat): (s: string)
    ensures |s| > 0 && AllDigits(s)
    ensures |s| > 1 ==> s[0] != '0'
  {
    if n < 10 then [DigitChar(n)] else NatToString(n / 10) + [DigitChar(n % 10)]
  }

  function ParseNat(s: string): nat
    requires AllDigits(s)
  {
    if s == [] then 0 else ParseNat(s[..|s| - 1]) * 10 + DigitValue(s[|s| - 1])
  }

  lemma {:induction false} ParseNatToString(n: nat)
    ensures ParseNat(NatToString(n)) == n
  {
    if n >= 10 {
      var s := NatToString(n);
      assert s[..|s| - 1] == NatToString(n / 10);
      ParseNatToString(n / 10);
    }
  }

  /** `int.ToString()` with the invariant negative sign. */
  function IntToString(i: int): string
  {
    if i < 0 then "-" + NatToString(-i) else NatToString(i)
  }

  /** A numeral as `IntToString` writes it: an optional minus sign, then digits. */
  predicate IsIntText(s: string)
  {
    if |s| > 0 && s[0] == '-' then |s| > 1 && AllDigits(s[1..]) else |s| > 0 && AllDigits(s)
  }

  function ParseInt(s: string): int
    requires IsIntText(s)
  {
    if s[0] == '-' then -(ParseNat(s[1..]) as int) else ParseNat(s)
  }

  /** Reading back an integer written by `IntToString` recovers it. */
  lemma IntToStringRoundTrip(i: int)
    ensures IsIntText(IntToString(i))
    ensures ParseInt(IntToString(i)) == i
  {
    if i < 0 {
      var s := IntToString(i);
      assert s[1..] == NatToString(-i);
      ParseNatToString(-i);
    } else {
      ParseNatToString(i);
    }
  }

  // ----- `ToLower` and `Trim` -----

  /** `char.IsWhiteSpace`: the Unicode separators plus the C0 and C1 controls it accepts. */
  predicate IsWhiteSpace(c: char)
  {
    ('\t' <= c <= '\r') || c == ' ' || c == '\U{0085}' || c == '\U{00A0}' || c == '\U{1680}'
    || ('\U{2000}' <= c <= '\U{200A}') || c == '\U{2028}' || c == '\U{2029}'
    || c == '\U{202F}' || c == '\U{205F}' || c == '\U{3000}'
  }

  predicate AllWhiteSpace(s: string) { forall i | 0 <= i < |s| :: IsWhiteSpace(s[i]) }

  function LowerChar(c: char): char
  {
    if 'A' <= c <= 'Z' then (c as int + 32) as char else c
  }

  /** `ToLower` on the ASCII letters; every other character is kept. */
  function ToLower(s: string): (r: string)
    ensures |r| == |s|
    ensures forall i | 0 <= i < |r| :: !('A' <= r[i] <= 'Z')
    ensures forall i | 0 <= i < |s| && 'A' <= s[i] <= 'Z' :: 'a' <= r[i] <= 'z'
    ensures forall i | 0 <= i < |s| && !('A' <= s[i] <= 'Z') :: r[i] == s[i]
  {
    seq(|s|, i requires 0 <= i < |s| => LowerChar(s[i]))
  }

  lemma ToLowerConcat(a: string, b: string)
    ensures ToLower(a + b) == ToLower(a) + ToLower(b)
  {
  }

  lemma ToLowerIdempotent(s: string)
    ensures ToLower(ToLower(s)) == ToLower(s)
  {
  }

  lemma ToLowerKeepsWhiteSpace(s: string)
    requires AllWhiteSpace(s)
    ensures ToLower(s) == s
  {
  }

  /** `TrimStart()`: drops exactly the longest all-whitespace prefix. */
  function TrimStart(s: string): (r: string)
    ensures |r| <= |s| && r == s[|s| - |r|..]
    ensures AllWhiteSpace(s[..|s| - |r|])
    ensures r == [] || !IsWhiteSpace(r[0])
  {
    if s != [] && IsWhiteSpace(s[0]) then
      var r := TrimStart(s[1..]);
      TrimStartStep(s, r);
      r
    else s
  }

  /** One whitespace character in front of a trimmed tail. */
  lemma TrimStartStep(s: string, r: string)
    requires s != [] && IsWhiteSpace(s[0])
    requires |r| <= |s| - 1 && r == s[1..][|s| - 1 - |r|..]
    requires AllWhiteSpace(s[1..][..|s| - 1 - |r|])
    ensures r == s[|s| - |r|..]
    ensures AllWhiteSpace(s[..|s| - |r|])
  {
    var n := |s| - |r|;
    assert s[1..][n - 1..] == s[n..];
    forall i | 0 <= i < n
      ensures IsWhiteSpace(s[..n][i])
    {
      if i > 0 {
        assert s[..n][i] == s[1..][..n - 1][i - 1];
      }
    }
  }

  /** `TrimEnd()`: drops exactly the longest all-whitespace suffix. */
  function TrimEnd(s: string): (r: string)
    ensures |r| <= |s| && r == s[..|r|]
    ensures AllWhiteSpace(s[|r|..])
    ensures r == [] || !IsWhiteSpace(r[|r| - 1])
  {
    if s != [] && IsWhiteSpace(s[|s| - 1]) then
      var init := s[..|s| - 1];
      var r := TrimEnd(init);
      assert r == s[..|r|] by { assert init[..|r|] == s[..|r|]; }
      assert s[|r|..] == init[|r|..] + [s[|s| - 1]];
      r
    else s
  }

  /** `Trim()`: both ends. */
  function Trim(s: string): string
  {
    TrimEnd(TrimStart(s))
  }

  lemma {:induction false} TrimStartPadded(p: string, t: string)
    requires AllWhiteSpace(p)
    ensures TrimStart(p + t) == TrimStart(t)
  {
    if p != [] {
      assert (p + t)[1..] == p[1..] + t;
      TrimStartPadded(p[1..], t);
    } else {
      assert p + t == t;
    }
  }

  lemma {:induction false} TrimEndPadded(t: string, q: string)
    requires AllWhiteSpace(q)
    ensures TrimEnd(t + q) == TrimEnd(t)
    decreases |q|
  {
    if q != [] {
      assert (t + q)[..|t + q| - 1] == t + q[..|q| - 1];
      TrimEndPadded(t, q[..|q| - 1]);
    } else {
      assert t + q == t;
    }
  }

  lemma {:induction false} TrimStartAppend(t: string, q: string)
    requires !AllWhiteSpace(t)
    ensures TrimStart(t + q) == TrimStart(t) + q
  {
    if IsWhiteSpace(t[0]) {
      var k :| 0 <= k < |t| && !IsWhiteSpace(t[k]);
      assert t[1..][k - 1] == t[k];
      assert (t + q)[1..] == t[1..] + q;
      TrimStartAppend(t[1..], q);
    }
  }

  lemma AllWhiteSpaceConcat(a: string, b: string)
    requires AllWhiteSpace(a) && AllWhiteSpace(b)
    ensures AllWhiteSpace(a + b)
  {
    forall i | 0 <= i < |a + b|
      ensures IsWhiteSpace((a + b)[i])
    {
      if i < |a| {
        assert (a + b)[i] == a[i];
      } else {
        assert (a + b)[i] == b[i - |a|];
      }
    }
  }

  /** An all-whitespace text trims to nothing. */
  lemma TrimStartAllWhiteSpace(s: string)
    requires AllWhiteSpace(s)
    ensures TrimStart(s) == []
  {
  }

  /** Whitespace around a text does not change what `Trim` leaves. */
  lemma TrimPadded(p: string, t: string, q: string)
    requires AllWhiteSpace(p) && AllWhiteSpace(q)
    ensures Trim(p + t + q) == Trim(t)
    ensures Trimmed(t) ==> Trim(p + t + q) == t
  {
    assert p + t + q == p + (t + q);
    TrimStartPadded(p, t + q);
    assert Trim(p + t + q) == TrimEnd(TrimStart(t + q));
    TrimEndAfterTrimStart(t, q);
    if Trimmed(t) {
      TrimKeepsTrimmed(t);
    }
  }

  /** Text that neither starts nor ends with whitespace. */
  predicate Trimmed(t: string)
  {
    t == [] || (!IsWhiteSpace(t[0]) && !IsWhiteSpace(t[|t| - 1]))
  }

  /** Trimming leaves text without whitespace at either end exactly as it was. */
  lemma TrimKeepsTrimmed(t: string)
    requires Trimmed(t)
    ensures Trim(t) == t
  {
  }

  /** Trailing whitespace does not change what trimming both ends leaves. */
  lemma TrimEndAfterTrimStart(t: string, q: string)
    requires AllWhiteSpace(q)
    ensures TrimEnd(TrimStart(t + q)) == TrimEnd(TrimStart(t))
  {
    if AllWhiteSpace(t) {
      AllWhiteSpaceConcat(t, q);
      TrimStartAllWhiteSpace(t + q);
      TrimStartAllWhiteSpace(t);
    } else {
      TrimStartAppend(t, q);
      TrimEndPadded(TrimStart(t), q);
    }
  }

  // ----- `Split(char)` -----

  /** `String.Split(sep)`: the maximal separator-free pieces, empty ones included. */
  function Split(s: string, sep: char): (r: seq<string>)
    ensures |r| > 0
  {
    if s == [] then [[]]
    else if s[0] == sep then [[]] + Split(s[1..], sep)
    else var rest := Split(s[1..], sep); [[s[0]] + rest[0]] + rest[1..]
  }

  lemma {:induction false} SplitFree(a: string, sep: char)
    requires sep !in a
    ensures Split(a, sep) == [a]
  {
    if a != [] {
      SplitFree(a[1..], sep);
      assert [a[0]] + a[1..] == a;
    }
  }

  lemma {:induction false} SplitAfterField(a: string, sep: char, b: string)
    requires sep !in a
    ensures Split(a + [sep] + b, sep) == [a] + Split(b, sep)
  {
    if a == [] {
      assert a + [sep] + b == [sep] + b;
      assert ([sep] + b)[1..] == b;
    } else {
      assert (a + [sep] + b)[1..] == a[1..] + [sep] + b;
      SplitAfterField(a[1..], sep, b);
      assert [a[0]] + a[1..] == a;
    }
  }
}
