/** The JavaScript string and number primitives the application relies on:
    `toUpperCase`/`toLowerCase` (ASCII letters), `trim`, `parseInt`, `parseFloat`,
    integer rendering, and the BINARY collation SQLite uses for `ORDER BY` on text. */
module JsText {
  import opened Wrappers

  predicate IsAsciiUpper(c: char) { 'A' <= c <= 'Z' }
  predicate IsAsciiLower(c: char) { 'a' <= c <= 'z' }
  predicate IsAsciiLetter(c: char) { IsAsciiUpper(c) || IsAsciiLower(c) }
  predicate IsDigit(c: char) { '0' <= c <= '9' }

  /** The characters `String.prototype.trim` removes: white space and line terminators. */
  predicate IsJsWhitespace(c: char) {
    c == '\t' || c == '\n' || c == '\U{B}' || c == '\U{C}' || c == '\r' || c == ' '
    || c == '\U{A0}' || c == '\U{1680}' || ('\U{2000}' <= c <= '\U{200A}')
    || c == '\U{2028}' || c == '\U{2029}' || c == '\U{202F}' || c == '\U{205F}'
    || c == '\U{3000}' || c == '\U{FEFF}'
  }

  function UpperChar(c: char): char {
    if IsAsciiLower(c) then (c as int - 32) as char else c
  }

  function LowerChar(c: char): char {
    if IsAsciiUpper(c) then (c as int + 32) as char else c
  }

  function ToUpper(s: string): string {
    if s == [] then [] else [UpperChar(s[0])] + ToUpper(s[1..])
  }

  function ToLower(s: string): string {
    if s == [] then [] else [LowerChar(s[0])] + ToLower(s[1..])
  }

  function TrimStart(s: string): string {
    if s != [] && IsJsWhitespace(s[0]) then TrimStart(s[1..]) else s
  }

  function TrimEnd(s: string): string {
    if s != [] && IsJsWhitespace(s[|s| - 1]) then TrimEnd(s[..|s| - 1]) else s
  }

  function Trim(s: string): string { TrimEnd(TrimStart(s)) }

  lemma {:induction false} ToUpperAt(s: string, i: int)
    requires 0 <= i < |s|
    ensures |ToUpper(s)| == |s| && ToUpper(s)[i] == UpperChar(s[i])
  {
    if i > 0 { ToUpperAt(s[1..], i - 1); } else { ToUpperLength(s[1..]); }
  }

  lemma {:induction false} ToUpperLength(s: string)
    ensures |ToUpper(s)| == |s|
  {
    if s != [] { ToUpperLength(s[1..]); }
  }

  lemma {:induction false} ToUpperConcat(a: string, b: string)
    ensures ToUpper(a + b) == ToUpper(a) + ToUpper(b)
  {
    if a == [] {
      assert a + b == b;
    } else {
      assert (a + b)[1..] == a[1..] + b;
      ToUpperConcat(a[1..], b);
    }
  }

  /** Upper-casing twice is upper-casing once. */
  lemma {:induction false} ToUpperIdempotent(s: string)
    ensures ToUpper(ToUpper(s)) == ToUpper(s)
  {
    if s != [] { ToUpperIdempotent(s[1..]); }
  }

  /** Upper-casing forgets the case the text was written in. */
  lemma {:induction false} ToUpperOfToLower(s: string)
    ensures ToUpper(ToLower(s)) == ToUpper(s)
  {
    if s != [] { ToUpperOfToLower(s[1..]); }
  }

  /** Upper-casing a text of upper-case letters and digits changes nothing. */
  lemma {:induction false} ToUpperFixesUpper(s: string)
    requires forall i :: 0 <= i < |s| ==> !IsAsciiLower(s[i])
    ensures ToUpper(s) == s
  {
    if s != [] { ToUpperFixesUpper(s[1..]); }
  }

  lemma {:induction false} ToUpperTrimStart(s: string)
    ensures ToUpper(TrimStart(s)) == TrimStart(ToUpper(s))
  {
    if s != [] {
      ToUpperTrimStart(s[1..]);
    }
  }

  lemma {:induction false} ToUpperTrimEnd(s: string)
    ensures ToUpper(TrimEnd(s)) == TrimEnd(ToUpper(s))
    decreases |s|
  {
    if s != [] {
      var init, last := s[..|s| - 1], s[|s| - 1];
      assert s == init + [last];
      ToUpperConcat(init, [last]);
      ToUpperLength(init);
      var u := ToUpper(s);
      assert ToUpper([last]) == [UpperChar(last)];
      assert u == ToUpper(init) + [UpperChar(last)];
      assert u != [] && u[|u| - 1] == UpperChar(last);
      assert u[..|u| - 1] == ToUpper(init);
      assert IsJsWhitespace(UpperChar(last)) <==> IsJsWhitespace(last);
      ToUpperTrimEnd(init);
      if IsJsWhitespace(last) {
        assert TrimEnd(s) == TrimEnd(init);
        assert TrimEnd(u) == TrimEnd(ToUpper(init));
      } else {
        assert TrimEnd(s) == s;
        assert TrimEnd(u) == u;
      }
    }
  }

  /** Upper-casing and trimming commute: no white-space character is a letter. */
  lemma ToUpperTrim(s: string)
    ensures ToUpper(Trim(s)) == Trim(ToUpper(s))
  {
    ToUpperTrimStart(s);
    ToUpperTrimEnd(TrimStart(s));
  }

  lemma {:induction false} TrimStartNoLeadingSpace(s: string)
    ensures TrimStart(s) == [] || !IsJsWhitespace(TrimStart(s)[0])
  {
    if s != [] && IsJsWhitespace(s[0]) { TrimStartNoLeadingSpace(s[1..]); }
  }

  lemma {:induction false} TrimEndKeepsStart(s: string)
    ensures |TrimEnd(s)| <= |s| && TrimEnd(s) == s[..|TrimEnd(s)|]
    decreases |s|
  {
    if s != [] && IsJsWhitespace(s[|s| - 1]) { TrimEndKeepsStart(s[..|s| - 1]); }
  }

  lemma {:induction false} TrimEndNoTrailingSpace(s: string)
    ensures TrimEnd(s) == [] || !IsJsWhitespace(TrimEnd(s)[|TrimEnd(s)| - 1])
    decreases |s|
  {
    if s != [] && IsJsWhitespace(s[|s| - 1]) { TrimEndNoTrailingSpace(s[..|s| - 1]); }
  }

  /** Trimming twice is trimming once. */
  lemma TrimIdempotent(s: string)
    ensures Trim(Trim(s)) == Trim(s)
  {
    var a := TrimStart(s);
    var t := TrimEnd(a);
    TrimStartNoLeadingSpace(s);
    TrimEndKeepsStart(a);
    TrimEndNoTrailingSpace(a);
    if t != [] {
      assert t[0] == a[0];
    }
    assert TrimStart(t) == t;
    assert TrimEnd(t) == t;
  }

  lemma {:induction false} TrimStartConcat(a: string, b: string)
    requires b != [] && !IsJsWhitespace(b[0])
    ensures TrimStart(a + b) == TrimStart(a) + b
  {
    if a == [] {
      assert a + b == b;
    } else {
      assert (a + b)[0] == a[0];
      assert (a + b)[1..] == a[1..] + b;
      TrimStartConcat(a[1..], b);
    }
  }

  /** Trimming a text that ends in a non-blank core only strips the front of what precedes it. */
  lemma TrimBeforeCore(a: string, b: string)
    requires b != [] && !IsJsWhitespace(b[0]) && !IsJsWhitespace(b[|b| - 1])
    ensures Trim(a + b) == TrimStart(a) + b
  {
    TrimStartConcat(a, b);
    var t := TrimStart(a) + b;
    assert t[|t| - 1] == b[|b| - 1];
  }

  // ---------------------------------------------------------------------------
  // Numbers as text

  function DigitChar(d: int): char
    requires 0 <= d < 10
  {
    ('0' as int + d) as char
  }

  function DigitValue(c: char): int
    requires IsDigit(c)
  {
    c as int - '0' as int
  }

  /** The decimal rendering `String(n)` of a natural number. */
  function NatToString(n: nat): (r: string)
    ensures r != [] && forall i :: 0 <= i < |r| ==> IsDigit(r[i])
  {
    if n < 10 then [DigitChar(n)] else NatToString(n / 10) + [DigitChar(n % 10)]
  }

  /** The decimal rendering `String(n)` of an integer. */
  function IntToString(n: int): string {
    if n < 0 then "-" + NatToString(-n) else NatToString(n)
  }

  /** The longest prefix of `s` made of decimal digits. */
  function DigitPrefix(s: string): (r: string)
    ensures |r| <= |s| && r == s[..|r|]
    ensures forall i :: 0 <= i < |r| ==> IsDigit(r[i])
    ensures |r| < |s| ==> !IsDigit(s[|r|])
  {
    if s != [] && IsDigit(s[0]) then [s[0]] + DigitPrefix(s[1..]) else []
  }

  /** The value of a string of decimal digits. */
  function DigitsValue(ds: string): nat
    requires forall i :: 0 <= i < |ds| ==> IsDigit(ds[i])
  {
    if ds == [] then 0 else DigitsValue(ds[..|ds| - 1]) * 10 + DigitValue(ds[|ds| - 1])
  }

  function Pow10(n: nat): (r: nat)
    ensures r >= 1
  {
    if n == 0 then 1 else 10 * Pow10(n - 1)
  }

  /** The sign that `parseInt` and `parseFloat` accept in front of the digits, and what follows it. */
  function SplitSign(s: string): (real, string) {
    if s != [] && s[0] == '-' then (-1.0, s[1..])
    else if s != [] && s[0] == '+' then (1.0, s[1..])
    else (1.0, s)
  }

  /** `parseInt(s)` in base 10: leading white space and a sign are skipped, then the longest
      run of digits is read; `None` stands for `NaN`, the result when there is no digit. */
  function ParseInt(s: string): Option<int> {
    var (sign, rest) := SplitSign(TrimStart(s));
    var ds := DigitPrefix(rest);
    var magnitude: int := DigitsValue(ds);
    if ds == [] then None
    else if sign < 0.0 then Some(-magnitude)
    else Some(magnitude)
  }

  /** `parseFloat(s)` for texts of the form `[sign] digits [. digits]`: leading white space is
      skipped and the longest such prefix is read; `None` stands for `NaN`. */
  function ParseFloat(s: string): Option<real> {
    var (sign, rest) := SplitSign(TrimStart(s));
    var whole := DigitPrefix(rest);
    var frac :=
      if |whole| < |rest| && rest[|whole|] == '.' then DigitPrefix(rest[|whole| + 1..]) else [];
    if whole == [] && frac == [] then None
    else Some(sign * (DigitsValue(whole) as real + DigitsValue(frac) as real / Pow10(|frac|) as real))
  }

  // ---------------------------------------------------------------------------
  // SQLite's BINARY collation: text compared character by character

  predicate StrLe(a: string, b: string) {
    a == [] || (b != [] && (a[0] < b[0] || (a[0] == b[0] && StrLe(a[1..], b[1..]))))
  }

  lemma {:induction false} StrLeTotal(a: string, b: string)
    ensures StrLe(a, b) || StrLe(b, a)
  {
    if a != [] && b != [] && a[0] == b[0] { StrLeTotal(a[1..], b[1..]); }
  }

  lemma {:induction false} StrLeTransitive(a: string, b: string, c: string)
    requires StrLe(a, b) && StrLe(b, c)
    ensures StrLe(a, c)
  {
    if a != [] && b != [] && c != [] && a[0] == b[0] == c[0] {
      StrLeTransitive(a[1..], b[1..], c[1..]);
    }
  }

  lemma {:induction false} StrLeAntisymmetric(a: string, b: string)
    requires StrLe(a, b) && StrLe(b, a)
    ensures a == b
  {
    if a != [] && b != [] {
      StrLeAntisymmetric(a[1..], b[1..]);
      assert a == [a[0]] + a[1..];
      assert b == [b[0]] + b[1..];
    }
  }
}
