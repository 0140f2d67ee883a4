/**
 * Shared vocabulary: optional values, results with an error side, and the
 * string predicates (prefix, substring, whitespace classes, trimming) that the
 * Java backend and the TypeScript frontend rely on.
 */
module Common {

  /** A Java `null`-able reference or a TypeScript `T | null | undefined`. */
  datatype Option<+T> = None | Some(value: T)

  /** A computation that either returns a value or throws / rejects with an error. */
  datatype Result<+T, +E> = Ok(value: T) | Err(error: E)

  /** `s.startsWith(prefix)` in both Java and JavaScript. */
  predicate StartsWith(s: string, prefix: string)
  {
    |prefix| <= |s| && s[..|prefix|] == prefix
  }

  /** `t` occurs in `s` starting at index `i`. */
  predicate OccursAt(s: string, t: string, i: int)
  {
    0 <= i && i + |t| <= |s| && s[i..i + |t|] == t
  }

  /** `s.includes(t)` (JavaScript) / `s.contains(t)` (Java): case-sensitive substring test. */
  predicate Contains(s: string, t: string)
  {
    exists i :: 0 <= i <= |s| - |t| && OccursAt(s, t, i)
  }

  lemma ContainsAt(s: string, t: string, i: int)
    requires OccursAt(s, t, i)
    ensures Contains(s, t)
  {
  }

  /** Every string contains itself, and so does any string it prefixes. */
  lemma {:induction false} PrefixContained(s: string, t: string, rest: string)
    ensures Contains(t + rest, t)
  {
    assert (t + rest)[0..|t|] == t;
    ContainsAt(t + rest, t, 0);
  }

  /** A string shorter than `t` cannot contain it. */
  lemma ShortDoesNotContain(s: string, t: string)
    requires |s| < |t|
    ensures !Contains(s, t)
  {
  }

  /** A string without one of `t`'s characters cannot contain `t`. */
  lemma MissingCharDoesNotContain(s: string, t: string, c: char)
    requires c in t && c !in s
    ensures !Contains(s, t)
  {
  }

  /** JavaScript's `\s` class and the set `String.prototype.trim` strips: WhiteSpace and LineTerminator. */
  predicate IsJsSpace(c: char)
  {
    c == '\t' || c == '\n' || c == '\U{0B}' || c == '\U{0C}' || c == '\r' || c == ' '
    || c == '\U{A0}' || c == '\U{1680}' || ('\U{2000}' <= c <= '\U{200A}')
    || c == '\U{2028}' || c == '\U{2029}' || c == '\U{202F}' || c == '\U{205F}'
    || c == '\U{3000}' || c == '\U{FEFF}'
  }

  /** Java's default (non-Unicode) `\s` class: [ \t\n\x0B\f\r]. */
  predicate IsJavaSpace(c: char)
  {
    c == ' ' || c == '\t' || c == '\n' || c == '\U{0B}' || c == '\U{0C}' || c == '\r'
  }

  /** The characters Java's `.` does not match without DOTALL: the line terminators. */
  predicate IsJavaLineTerminator(c: char)
  {
    c == '\n' || c == '\r' || c == '\U{85}' || c == '\U{2028}' || c == '\U{2029}'
  }

  /** Number of `IsJsSpace` characters at the front of `s`. */
  function LeadingSpaces(s: string): (n: nat)
    ensures n <= |s|
    ensures forall k :: 0 <= k < n ==> IsJsSpace(s[k])
    ensures n == |s| || !IsJsSpace(s[n])
  {
    if s != [] && IsJsSpace(s[0]) then 1 + LeadingSpaces(s[1..]) else 0
  }

  /** Number of `IsJsSpace` characters at the back of `s`. */
  function TrailingSpaces(s: string): (n: nat)
    ensures n <= |s|
    ensures forall k :: |s| - n <= k < |s| ==> IsJsSpace(s[k])
    ensures n == |s| || !IsJsSpace(s[|s| - n - 1])
  {
    if s != [] && IsJsSpace(s[|s| - 1]) then 1 + TrailingSpaces(s[..|s| - 1]) else 0
  }

  /**
   * `s.trim()` in JavaScript: the slice of `s` left after dropping every leading
   * and trailing `IsJsSpace` character.
   */
  function JsTrim(s: string): (r: string)
    ensures |r| <= |s|
    ensures r == [] || (!IsJsSpace(r[0]) && !IsJsSpace(r[|r| - 1]))
    ensures forall c :: c in s && !IsJsSpace(c) ==> c in r
  {
    var t := s[LeadingSpaces(s)..];
    t[..|t| - TrailingSpaces(t)]
  }

  /** Decimal rendering of a number, as Java's string concatenation of a `Long` gives it. */
  function IntToString(n: int): (s: string)
    ensures |s| > 0
    ensures (n < 0) <==> s[0] == '-'
  {
    if n < 0 then "-" + NatToString(-n) else NatToString(n)
  }

  function NatToString(n: nat): (s: string)
    ensures |s| > 0 && '0' <= s[0] <= '9'
    ensures forall c :: c in s ==> '0' <= c <= '9'
    decreases n
  {
    if n < 10 then [DigitChar(n)] else NatToString(n / 10) + [DigitChar(n % 10)]
  }

  function DigitChar(d: nat): (c: char)
    requires d < 10
    ensures '0' <= c <= '9'
  {
    match d
    case 0 => '0' case 1 => '1' case 2 => '2' case 3 => '3' case 4 => '4'
    case 5 => '5' case 6 => '6' case 7 => '7' case 8 => '8' case _ => '9'
  }
}
