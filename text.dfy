/** String helpers the services use to build SQL text and messages. */
module Text {

  predicate IsUpper(c: char) {
    'A' <= c <= 'Z'
  }

  predicate IsDigit(c: char) {
    '0' <= c <= '9'
  }

  predicate NoUpper(s: string) {
    forall i :: 0 <= i < |s| ==> !IsUpper(s[i])
  }

  predicate AllDigits(s: string) {
    forall i :: 0 <= i < |s| ==> IsDigit(s[i])
  }

  /** `letter.toLowerCase()` on an ASCII upper-case letter. */
  function Lower(c: char): (l: char)
    requires IsUpper(c)
    ensures 'a' <= l <= 'z'
  {
    (c as int + 32) as char
  }

  /** The replacement the regular expression /[A-Z]/g applies to one character. */
  function SnakeChar(c: char): string {
    if IsUpper(c) then ['_', Lower(c)] else [c]
  }

  /**
   * camelToSnakeCase: every ASCII upper-case letter becomes '_' followed by
   * its lower-case form; every other character is kept.
   */
  function CamelToSnake(s: string): (r: string)
    ensures NoUpper(r)
    ensures |r| >= |s|
  {
    if s == [] then [] else SnakeChar(s[0]) + CamelToSnake(s[1..])
  }

  /** A string without upper-case letters is a fixed point of the conversion. */
  lemma {:induction false} CamelToSnakeFixesLower(s: string)
    requires NoUpper(s)
    ensures CamelToSnake(s) == s
  {
    if s != [] {
      CamelToSnakeFixesLower(s[1..]);
    }
  }

  /** The conversion of a single upper-case letter. */
  lemma CamelToSnakeUpper(c: char)
    requires IsUpper(c)
    ensures CamelToSnake([c]) == ['_', Lower(c)]
  {
    assert [c][1..] == [];
  }

  /** A word with one upper-case letter: that letter becomes '_' and its lower-case form. */
  lemma CamelToSnakeOneHump(head: string, c: char, tail: string)
    requires NoUpper(head) && IsUpper(c) && NoUpper(tail)
    ensures CamelToSnake(head + [c] + tail) == head + ['_', Lower(c)] + tail
  {
    var rest := [c] + tail;
    assert head + [c] + tail == head + rest;
    CamelToSnakeAppend([c], tail);
    CamelToSnakeUpper(c);
    CamelToSnakeFixesLower(tail);
    assert CamelToSnake(rest) == ['_', Lower(c)] + tail;
    CamelToSnakeAppend(head, rest);
    CamelToSnakeFixesLower(head);
    assert head + (['_', Lower(c)] + tail) == head + ['_', Lower(c)] + tail;
  }

  /** Converting twice is the same as converting once. */
  lemma CamelToSnakeIdempotent(s: string)
    ensures CamelToSnake(CamelToSnake(s)) == CamelToSnake(s)
  {
    CamelToSnakeFixesLower(CamelToSnake(s));
  }

  /** The conversion works character by character, so it distributes over concatenation. */
  lemma {:induction false} CamelToSnakeAppend(a: string, b: string)
    ensures CamelToSnake(a + b) == CamelToSnake(a) + CamelToSnake(b)
  {
    if a != [] {
      assert (a + b)[0] == a[0] && (a + b)[1..] == a[1..] + b;
      CamelToSnakeAppend(a[1..], b);
      calc {
        CamelToSnake(a + b);
        SnakeChar(a[0]) + CamelToSnake(a[1..] + b);
        SnakeChar(a[0]) + (CamelToSnake(a[1..]) + CamelToSnake(b));
        (SnakeChar(a[0]) + CamelToSnake(a[1..])) + CamelToSnake(b);
      }
    } else {
      assert a + b == b;
    }
  }

  function DigitChar(d: nat): (c: char)
    requires d < 10
    ensures IsDigit(c)
  {
    ('0' as int + d) as char
  }

  function DigitValue(c: char): (d: nat)
    requires IsDigit(c)
    ensures d < 10
  {
    c as int - '0' as int
  }

  /** The decimal text JavaScript produces when a non-negative integer is put in a template string. */
  function NatToString(n: nat): (s: string)
    ensures |s| >= 1 && AllDigits(s)
  {
    if n < 10 then [DigitChar(n)] else NatToString(n / 10) + [DigitChar(n % 10)]
  }

  /** Reads decimal digits back into a number (the inverse of NatToString). */
  function ParseNat(s: string): nat
    requires AllDigits(s)
  {
    if s == [] then 0 else ParseNat(s[..|s| - 1]) * 10 + DigitValue(s[|s| - 1])
  }

  lemma {:induction false} ParseNatToString(n: nat)
    ensures ParseNat(NatToString(n)) == n
  {
    var s := NatToString(n);
    if n >= 10 {
      ParseNatToString(n / 10);
      assert s[..|s| - 1] == NatToString(n / 10);
      assert DigitValue(s[|s| - 1]) == n % 10;
    }
  }

  /** Distinct numbers are written differently. */
  lemma NatToStringInjective(a: nat, b: nat)
    requires a != b
    ensures NatToString(a) != NatToString(b)
  {
    ParseNatToString(a);
    ParseNatToString(b);
  }

  /** Ids written after the same prefix stay distinct: the prefix is followed by each id's own digits. */
  lemma PrefixedIdsDistinct(prefix: string, a: nat, b: nat)
    requires a != b
    ensures prefix + NatToString(a) != prefix + NatToString(b)
  {
    if prefix + NatToString(a) == prefix + NatToString(b) {
      assert NatToString(a) == (prefix + NatToString(a))[|prefix|..];
      assert NatToString(b) == (prefix + NatToString(b))[|prefix|..];
      NatToStringInjective(a, b);
    }
  }

  /** `s.includes(pat)`. */
  predicate Contains(s: string, pat: string)
    decreases |s|
  {
    pat <= s || (s != [] && Contains(s[1..], pat))
  }

  /** A text that starts with the pattern contains it, whatever follows. */
  lemma PrefixContains(pat: string, rest: string)
    ensures Contains(pat + rest, pat)
  {
    assert pat <= pat + rest;
  }

  /** A text that lacks the pattern's first character cannot contain the pattern. */
  lemma {:induction false} MissingFirstCharNotContained(s: string, pat: string)
    requires pat != [] && pat[0] !in s
    ensures !Contains(s, pat)
    decreases |s|
  {
    if s != [] {
      assert s[0] != pat[0];
      assert forall c :: c in s[1..] ==> c in s;
      MissingFirstCharNotContained(s[1..], pat);
    }
  }

  /** `parts.join(sep)`. */
  function Join(parts: seq<string>, sep: string): string {
    if parts == [] then ""
    else if |parts| == 1 then parts[0]
    else parts[0] + sep + Join(parts[1..], sep)
  }
}
