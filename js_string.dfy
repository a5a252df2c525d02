/** The JavaScript string built-ins the checkout form relies on, over
    strings of Unicode code points (one `char` per code point): the
    regular-expression classes `\s` and `\d`, global replacement of a class
    by "", `slice(0, n)` and `trim()`. */
module JsString {

  /** `\d`: the ASCII decimal digits (also under the `u` flag). */
  predicate IsDigit(c: char) {
    '0' <= c <= '9'
  }

  /** LineTerminator of ECMAScript (section 12.3 of ECMA-262): LF, CR, and
      the line and paragraph separators. */
  predicate IsLineTerminator(c: char) {
    c in {'\n', '\r', '\U{2028}', '\U{2029}'}
  }

  /** The code points of Unicode general category Zs (space separator). */
  predicate IsSpaceSeparator(c: char) {
    || c in {' ', '\U{A0}', '\U{1680}', '\U{202F}', '\U{205F}', '\U{3000}'}
    || ('\U{2000}' <= c <= '\U{200A}')
  }

  /** WhiteSpace of ECMAScript (section 12.2 of ECMA-262): TAB, VT, FF,
      ZWNBSP and every Zs code point. */
  predicate IsWhiteSpace(c: char) {
    c in {'\t', '\U{B}', '\U{C}', '\U{FEFF}'} || IsSpaceSeparator(c)
  }

  /** `\s`: WhiteSpace and LineTerminator of ECMAScript. `trim()` removes
      exactly the same set. */
  predicate IsSpace(c: char) {
    || c == '\t' || c == '\n' || c == '\U{B}' || c == '\U{C}' || c == '\r'
    || c == ' ' || c == '\U{A0}' || c == '\U{1680}'
    || ('\U{2000}' <= c <= '\U{200A}')
    || c == '\U{2028}' || c == '\U{2029}' || c == '\U{202F}' || c == '\U{205F}'
    || c == '\U{3000}' || c == '\U{FEFF}'
  }

  /** `\d` is exactly the ten characters "0" to "9", and each of them is the
      digit `DigitChar` writes for its distance from "0". */
  lemma DigitClass(c: char)
    ensures IsDigit(c) <==> c in "0123456789"
    ensures IsDigit(c) ==> 0 <= c as int - '0' as int < 10 && DigitChar(c as int - '0' as int) == c
  {
  }

  /** `\s` is exactly ECMAScript's WhiteSpace together with its
      LineTerminator; no digit and no "/" is a space. */
  lemma SpaceClass(c: char)
    ensures IsSpace(c) <==> IsWhiteSpace(c) || IsLineTerminator(c)
    ensures IsSpace(c) ==> !IsDigit(c) && c != '/'
  {
  }

  predicate AllDigits(s: string) {
    forall i :: 0 <= i < |s| ==> IsDigit(s[i])
  }

  predicate NoSpace(s: string) {
    forall i {:trigger IsSpace(s[i])} :: 0 <= i < |s| ==> !IsSpace(s[i])
  }

  predicate AllSpace(s: string) {
    forall i {:trigger IsSpace(s[i])} :: 0 <= i < |s| ==> IsSpace(s[i])
  }

  predicate NoDigit(s: string) {
    forall i :: 0 <= i < |s| ==> !IsDigit(s[i])
  }

  /** `s.replace(/\s/g, "")` */
  function RemoveSpaces(s: string): (r: string)
    ensures |r| <= |s|
    ensures NoSpace(r)
    ensures NoSpace(s) ==> r == s
    ensures AllSpace(s) ==> r == []
  {
    if s == [] then []
    else (if IsSpace(s[0]) then [] else [s[0]]) + RemoveSpaces(s[1..])
  }

  /** `s.replace(/\D/g, "")` */
  function KeepDigits(s: string): (r: string)
    ensures |r| <= |s|
    ensures AllDigits(r)
    ensures AllDigits(s) ==> r == s
    ensures NoDigit(s) ==> r == []
  {
    if s == [] then []
    else (if IsDigit(s[0]) then [s[0]] else []) + KeepDigits(s[1..])
  }

  /** `s.slice(0, n)` for a non-negative n. */
  function Slice(s: string, n: nat): (r: string)
    ensures |r| <= n
    ensures |r| == if |s| <= n then |s| else n
  {
    if |s| <= n then s else s[..n]
  }

  /** `slice(0, n)` is the prefix of that length: the whole string when it
      is no longer than n. */
  lemma SliceIsPrefix(s: string, n: nat)
    ensures Slice(s, n) == s[..|Slice(s, n)|]
    ensures |s| <= n ==> Slice(s, n) == s
  {
  }

  /** Whitespace runs concatenate to a whitespace run. */
  lemma AllSpaceAppend(a: string, b: string)
    requires AllSpace(a) && AllSpace(b)
    ensures AllSpace(a + b)
  {
  }

  /** The leading-whitespace half of `trim()`. */
  function TrimStart(s: string): (r: string)
    ensures |r| <= |s|
    ensures r == s[|s| - |r|..]
    ensures AllSpace(s[..|s| - |r|])
    ensures r == [] || !IsSpace(r[0])
  {
    if s != [] && IsSpace(s[0]) then
      var t := s[1..];
      var r := TrimStart(t);
      var k := |s| - |r|;
      assert r == t[k - 1..] == s[k..];
      assert s[..k] == [s[0]] + t[..k - 1];
      AllSpaceAppend([s[0]], t[..k - 1]);
      r
    else
      s
  }

  /** The trailing-whitespace half of `trim()`. */
  function TrimEnd(s: string): (r: string)
    ensures |r| <= |s|
    ensures r == s[..|r|]
    ensures AllSpace(s[|r|..])
    ensures r == [] || !IsSpace(r[|r| - 1])
  {
    if s != [] && IsSpace(s[|s| - 1]) then
      var t := s[..|s| - 1];
      var r := TrimEnd(t);
      assert r == s[..|r|];
      assert s[|r|..] == t[|r|..] + [s[|s| - 1]];
      AllSpaceAppend(t[|r|..], [s[|s| - 1]]);
      r
    else
      s
  }

  /** `s.trim()` */
  function Trim(s: string): (r: string)
    ensures r == [] || (!IsSpace(r[0]) && !IsSpace(r[|r| - 1]))
  {
    TrimEnd(TrimStart(s))
  }

  /** `trim()` keeps a contiguous piece of the input, starting where the
      leading whitespace ends, and drops only whitespace before and after it. */
  lemma {:induction false} TrimIsInfix(s: string)
    ensures var r, i := Trim(s), |s| - |TrimStart(s)|;
      && 0 <= i <= |s| - |r|
      && (forall k :: 0 <= k < |r| ==> r[k] == s[i + k])
      && AllSpace(s[..i])
      && AllSpace(s[i + |r|..])
  {
    TrimStartIsSuffix(s);
    TrimIsPrefixOfTrimStart(s);
    InfixOfHalves(s, TrimStart(s), Trim(s));
  }

  lemma TrimStartIsSuffix(s: string)
    ensures var t := TrimStart(s);
      |t| <= |s| && t == s[|s| - |t|..] && AllSpace(s[..|s| - |t|])
  {
  }

  lemma TrimIsPrefixOfTrimStart(s: string)
    ensures var t, r := TrimStart(s), Trim(s);
      |r| <= |t| && r == t[..|r|] && AllSpace(t[|r|..])
  {
    assert Trim(s) == TrimEnd(TrimStart(s));
  }

  /** A prefix `r` of a suffix `t` of `s`, each cut off only whitespace, is
      an infix of `s` with only whitespace around it. */
  lemma {:induction false} InfixOfHalves(s: string, t: string, r: string)
    requires |t| <= |s| && t == s[|s| - |t|..] && AllSpace(s[..|s| - |t|])
    requires |r| <= |t| && r == t[..|r|] && AllSpace(t[|r|..])
    ensures var i := |s| - |t|;
      && 0 <= i <= |s| - |r|
      && (forall k :: 0 <= k < |r| ==> r[k] == s[i + k])
      && AllSpace(s[..i])
      && AllSpace(s[i + |r|..])
  {
    var i := |s| - |t|;
    assert s[i + |r|..] == t[|r|..];
  }

  lemma {:induction false} RemoveSpacesAppend(a: string, b: string)
    ensures RemoveSpaces(a + b) == RemoveSpaces(a) + RemoveSpaces(b)
  {
    if a == [] {
      assert a + b == b;
    } else {
      RemoveSpacesAppend(a[1..], b);
      RemoveSpacesAppendStep(a, b);
    }
  }

  /** The inductive step of `RemoveSpacesAppend`: the first character of
      `a + b` is the first of `a`. */
  lemma RemoveSpacesAppendStep(a: string, b: string)
    requires a != []
    requires RemoveSpaces(a[1..] + b) == RemoveSpaces(a[1..]) + RemoveSpaces(b)
    ensures RemoveSpaces(a + b) == RemoveSpaces(a) + RemoveSpaces(b)
  {
    var ab := a + b;
    assert ab[0] == a[0] && ab[1..] == a[1..] + b;
    var head := if IsSpace(a[0]) then [] else [a[0]];
    assert RemoveSpaces(ab) == head + RemoveSpaces(a[1..] + b);
    assert RemoveSpaces(a) == head + RemoveSpaces(a[1..]);
    AppendAssociates(head, RemoveSpaces(a[1..]), RemoveSpaces(b));
  }

  lemma AppendAssociates(x: string, y: string, z: string)
    ensures x + (y + z) == x + y + z
  {
  }

  lemma {:induction false} KeepDigitsAppend(a: string, b: string)
    ensures KeepDigits(a + b) == KeepDigits(a) + KeepDigits(b)
  {
    if a == [] {
      assert a + b == b;
    } else {
      var head := if IsDigit(a[0]) then [a[0]] else [];
      var ab := a + b;
      assert ab[0] == a[0] && ab[1..] == a[1..] + b;
      calc {
        KeepDigits(ab);
        head + KeepDigits(a[1..] + b);
      == { KeepDigitsAppend(a[1..], b); }
        head + (KeepDigits(a[1..]) + KeepDigits(b));
        (head + KeepDigits(a[1..])) + KeepDigits(b);
        KeepDigits(a) + KeepDigits(b);
      }
    }
  }

  /** `trim()` only ever drops whitespace: stripping all whitespace gives the
      same string before and after it. */
  lemma {:induction false} TrimKeepsNonSpace(s: string)
    ensures RemoveSpaces(Trim(s)) == RemoveSpaces(s)
  {
    var t := TrimStart(s);
    var u := TrimEnd(t);
    assert Trim(s) == u;
    TrimStartKeepsNonSpace(s);
    TrimEndKeepsNonSpace(t);
  }

  lemma {:induction false} TrimStartKeepsNonSpace(s: string)
    ensures RemoveSpaces(TrimStart(s)) == RemoveSpaces(s)
  {
    var t := TrimStart(s);
    var lead := s[..|s| - |t|];
    assert s == lead + t;
    assert RemoveSpaces(lead) == [];
    RemoveSpacesAppend(lead, t);
  }

  lemma {:induction false} TrimEndKeepsNonSpace(t: string)
    ensures RemoveSpaces(TrimEnd(t)) == RemoveSpaces(t)
  {
    var u := TrimEnd(t);
    var trail := t[|u|..];
    assert t == u + trail;
    assert RemoveSpaces(trail) == [];
    RemoveSpacesAppend(u, trail);
  }

  // Decimal numerals

  /** The decimal digit for 0 <= d < 10. */
  function DigitChar(d: nat): (c: char)
    requires d < 10
    ensures '0' <= c <= '9' && c as int - '0' as int == d
  {
    ('0' as int + d) as char
  }

  /** The number a string of decimal digits denotes, most significant digit
      first: the reference reading of `DecimalString`. */
  function DecimalValue(s: string): nat
    requires AllDigits(s)
    decreases |s|
  {
    if s == [] then 0
    else 10 * DecimalValue(s[..|s| - 1]) + (s[|s| - 1] as int - '0' as int)
  }

  /** Decimal rendering of a natural number, as JavaScript prints it
      inside a template literal: the digits denote `n`, and there is no
      leading zero. */
  function DecimalString(n: nat): (r: string)
    ensures |r| >= 1 && AllDigits(r)
    ensures DecimalValue(r) == n
    ensures r[0] == '0' ==> n == 0 && r == "0"
    ensures n < 10 <==> |r| == 1
  {
    if n < 10 then [DigitChar(n)]
    else
      var prefix := DecimalString(n / 10);
      var r := prefix + [DigitChar(n % 10)];
      assert r[..|r| - 1] == prefix;
      r
  }
}
