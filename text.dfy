/** The few pieces of Python's `str` behaviour the client relies on:
    `strip()`, `lower()`, `upper()`, `','.join(...)`, `in` on strings and
    `str()` of an integer. */
module Text {

  /** The characters Python's `str.isspace()` accepts; `strip()` removes
      exactly these from both ends. */
  predicate IsSpace(c: char) {
    || c == ' '
    || '\t' <= c <= '\r'
    || '\U{1c}' <= c <= '\U{1f}'
    || c == '\U{85}' || c == '\U{a0}' || c == '\U{1680}'
    || '\U{2000}' <= c <= '\U{200a}'
    || c == '\U{2028}' || c == '\U{2029}' || c == '\U{202f}' || c == '\U{205f}'
    || c == '\U{3000}'
  }

  predicate AllSpace(s: string) {
    forall k | 0 <= k < |s| :: IsSpace(s[k])
  }

  /** Neither end of `s` is white space. */
  predicate Trimmed(s: string) {
    s == [] || (!IsSpace(s[0]) && !IsSpace(s[|s| - 1]))
  }

  /** Drops leading white space: the result is a suffix of `s` that does not
      start with white space, and everything dropped was white space. */
  function TrimStart(s: string): (r: string)
    ensures |r| <= |s| && r == s[|s| - |r|..]
    ensures AllSpace(s[..|s| - |r|])
    ensures r == [] || !IsSpace(r[0])
  {
    if s != [] && IsSpace(s[0]) then
      var r := TrimStart(s[1..]);
      assert s[..|s| - |r|] == [s[0]] + s[1..][..|s| - 1 - |r|];
      r
    else s
  }

  /** Drops trailing white space, symmetrically to TrimStart. */
  function TrimEnd(s: string): (r: string)
    ensures |r| <= |s| && r == s[..|r|]
    ensures AllSpace(s[|r|..])
    ensures r == [] || !IsSpace(r[|r| - 1])
  {
    if s != [] && IsSpace(s[|s| - 1]) then
      var r := TrimEnd(s[..|s| - 1]);
      assert s[|r|..] == s[..|s| - 1][|r|..] + [s[|s| - 1]];
      r
    else s
  }

  /** `s` is white space up to index `i`, then `r`, then white space. */
  predicate Framed(s: string, i: int, r: string) {
    && 0 <= i <= |s| - |r|
    && s[i..i + |r|] == r
    && AllSpace(s[..i])
    && AllSpace(s[i + |r|..])
  }

  /** Python's `s.strip()`: `s` is white space, then the result, then white
      space, and the result has no white space at either end. */
  function Strip(s: string): (r: string)
    ensures Trimmed(r) && |r| <= |s|
    ensures exists i :: Framed(s, i, r)
  {
    StripLaws(s);
    TrimEnd(TrimStart(s))
  }

  lemma StripLaws(s: string)
    ensures var r := TrimEnd(TrimStart(s));
      Trimmed(r) && |r| <= |s| && Framed(s, |s| - |TrimStart(s)|, r)
  {
    var t := TrimStart(s);
    var r := TrimEnd(t);
    StripFramed(s, t, r, |s| - |t|);
    assert r != [] ==> r[0] == t[0];
  }

  /** White space up to index `i`, then `t`, of which `r` is the start and
      white space the rest: `s` is `r` framed by white space. */
  lemma StripFramed(s: string, t: string, r: string, i: nat)
    requires i <= |s| && t == s[i..] && AllSpace(s[..i])
    requires |r| <= |t| && r == t[..|r|] && AllSpace(t[|r|..])
    ensures Framed(s, i, r)
  {
    assert s[i..i + |r|] == r;
    assert s[i + |r|..] == t[|r|..];
  }

  predicate IsUpper(c: char) { 'A' <= c <= 'Z' }
  predicate IsLower(c: char) { 'a' <= c <= 'z' }

  function LowerChar(c: char): char {
    if IsUpper(c) then (c as int - 'A' as int + 'a' as int) as char else c
  }

  function UpperChar(c: char): char {
    if IsLower(c) then (c as int - 'a' as int + 'A' as int) as char else c
  }

  /** Python's `s.lower()`, restricted to the ASCII letters. */
  function Lower(s: string): string {
    seq(|s|, i requires 0 <= i < |s| => LowerChar(s[i]))
  }

  /** Python's `s.upper()`, restricted to the ASCII letters. */
  function Upper(s: string): string {
    seq(|s|, i requires 0 <= i < |s| => UpperChar(s[i]))
  }

  /** Python's `sep.join(xs)`. */
  function Join(xs: seq<string>, sep: string): string {
    if |xs| == 0 then "" else if |xs| == 1 then xs[0] else xs[0] + sep + Join(xs[1..], sep)
  }

  /** `t` occurs in `s` starting at index `i`. */
  predicate OccursAt(s: string, t: string, i: int) {
    0 <= i <= |s| - |t| && s[i..i + |t|] == t
  }

  /** Python's `t in s` for strings. */
  predicate Contains(s: string, t: string) {
    exists i | 0 <= i <= |s| - |t| :: OccursAt(s, t, i)
  }

  function DigitChar(d: nat): char
    requires d < 10
  {
    "0123456789"[d]
  }

  /** Python's `str(n)` for a natural number. */
  function NatToString(n: nat): string {
    if n < 10 then [DigitChar(n)] else NatToString(n / 10) + [DigitChar(n % 10)]
  }

  /** Python's `str(i)` (and an f-string field) for an integer. */
  function IntToString(i: int): string {
    if i < 0 then "-" + NatToString(-i) else NatToString(i)
  }

  predicate AllDigits(s: string) {
    forall c | c in s :: '0' <= c <= '9'
  }

  /** `str(n)` of a natural number is decimal digits only. */
  lemma {:induction false} NatToStringDigits(n: nat)
    ensures AllDigits(NatToString(n))
    decreases n
  {
    if n >= 10 {
      NatToStringDigits(n / 10);
      assert NatToString(n) == NatToString(n / 10) + [DigitChar(n % 10)];
    }
  }

  /** `str(i)` of an integer is a minus sign and decimal digits only. */
  lemma IntToStringChars(i: int)
    ensures forall c | c in IntToString(i) :: c == '-' || '0' <= c <= '9'
  {
    NatToStringDigits(if i < 0 then -i else i);
  }

  /** Lower-casing leaves white space alone, so it keeps a trimmed string
      trimmed. */
  lemma LowerKeepsTrimmed(s: string)
    requires Trimmed(s)
    ensures Trimmed(Lower(s))
  {
  }

  /** A lower-cased string has no upper-case letter left. */
  lemma LowerHasNoUpper(s: string)
    ensures forall c | c in Lower(s) :: !IsUpper(c)
  {
    forall c | c in Lower(s) ensures !IsUpper(c) {
      var i :| 0 <= i < |s| && Lower(s)[i] == c;
    }
  }

  /** Lower-casing a lower-cased string changes nothing. */
  lemma LowerIdempotent(s: string)
    ensures Lower(Lower(s)) == Lower(s)
  {
  }

  /** Stripping a string that is already trimmed returns it unchanged. */
  lemma {:induction false} StripTrimmed(s: string)
    requires Trimmed(s)
    ensures Strip(s) == s
  {
  }

  /** A string without upper-case letters is its own lower-case form. */
  lemma LowerOfLowerCase(s: string)
    requires forall c | c in s :: !IsUpper(c)
    ensures Lower(s) == s
  {
    assert forall i | 0 <= i < |s| :: s[i] in s;
  }

  /** A string without lower-case letters is its own upper-case form. */
  lemma UpperOfUpperCase(s: string)
    requires forall c | c in s :: !IsLower(c)
    ensures Upper(s) == s
  {
    assert forall i | 0 <= i < |s| :: s[i] in s;
  }

  /** A string that starts with `t` contains `t`. */
  lemma ContainsPrefix(t: string, rest: string)
    ensures Contains(t + rest, t)
  {
    assert OccursAt(t + rest, t, 0);
  }

  /** If the first character of `t` does not occur in `p`, no occurrence of
      `t` in `p + d` can start inside `p`: `t` is in `p + d` exactly when it
      is in `d`. */
  lemma ContainsAfterForeignPrefix(p: string, d: string, t: string)
    requires t != [] && t[0] !in p
    ensures Contains(p + d, t) <==> Contains(d, t)
  {
    var s := p + d;
    if Contains(s, t) {
      var i: int :| OccursAt(s, t, i);
      assert OccursAt(s, t, i);
      assert 0 <= i <= |s| - |t| && s[i..i + |t|] == t;
      assert s[i] == t[0];
      if i < |p| {
        assert false;
      }
      assert d[i - |p|..i - |p| + |t|] == s[i..i + |t|];
      assert OccursAt(d, t, i - |p|);
    }
    if Contains(d, t) {
      var j: int :| OccursAt(d, t, j);
      assert OccursAt(d, t, j);
      assert 0 <= j <= |d| - |t| && d[j..j + |t|] == t;
      assert s[|p| + j..|p| + j + |t|] == d[j..j + |t|];
      assert OccursAt(s, t, |p| + j);
    }
  }
  /** If every occurrence in `p` of the first character of `t` is followed,
      still inside `p`, by a character other than the second of `t`, no
      occurrence of `t` in `p + d` can start inside `p`: `t` is in `p + d`
      exactly when it is in `d`. */
  lemma ContainsAfterGuardedPrefix(p: string, d: string, t: string)
    requires |t| >= 2
    requires forall i | 0 <= i < |p| && p[i] == t[0] :: i + 1 < |p| && p[i + 1] != t[1]
    ensures Contains(p + d, t) <==> Contains(d, t)
  {
    var s := p + d;
    if Contains(s, t) {
      var i: int :| OccursAt(s, t, i);
      assert OccursAt(s, t, i);
      assert 0 <= i <= |s| - |t| && s[i..i + |t|] == t;
      assert s[i] == t[0] && s[i + 1] == t[1];
      if i < |p| {
        assert false;
      }
      assert d[i - |p|..i - |p| + |t|] == s[i..i + |t|];
      assert OccursAt(d, t, i - |p|);
    }
    if Contains(d, t) {
      var j: int :| OccursAt(d, t, j);
      assert OccursAt(d, t, j);
      assert 0 <= j <= |d| - |t| && d[j..j + |t|] == t;
      assert s[|p| + j..|p| + j + |t|] == d[j..j + |t|];
      assert OccursAt(s, t, |p| + j);
    }
  }
}
