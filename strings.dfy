/**
 * Text primitives shared by every page: JavaScript's `trim`, `toLowerCase`,
 * `includes`, `startsWith`, `indexOf`, `split`, the `\s+` collapse used by
 * `normalizeText`, `Number(...)` on digit strings and `padStart(2, "0")`.
 */
module Strings {
  import opened Wrappers

  /** The characters JavaScript's `\s` and `String.prototype.trim` treat as white space. */
  predicate IsSpace(c: char)
  {
    c == ' ' || c == '\t' || c == '\n' || c == '\r' || c == '\U{000B}' || c == '\U{000C}'
    || c == '\U{00A0}' || c == '\U{1680}' || ('\U{2000}' <= c <= '\U{200A}')
    || c == '\U{2028}' || c == '\U{2029}' || c == '\U{202F}' || c == '\U{205F}'
    || c == '\U{3000}' || c == '\U{FEFF}'
  }

  predicate IsDigit(c: char) { '0' <= c <= '9' }

  predicate IsUpperAscii(c: char) { 'A' <= c <= 'Z' }

  predicate IsLowerAscii(c: char) { 'a' <= c <= 'z' }

  /** Characters of the regular-expression class `\w`, which decides where `\b` holds. */
  predicate IsWordChar(c: char) { IsDigit(c) || IsUpperAscii(c) || IsLowerAscii(c) || c == '_' }

  function LowerChar(c: char): (r: char)
    ensures IsUpperAscii(c) ==> IsLowerAscii(r)
    ensures !IsUpperAscii(c) ==> r == c
    ensures IsSpace(r) == IsSpace(c) && IsWordChar(r) == IsWordChar(c) && IsDigit(r) == IsDigit(c)
  {
    if IsUpperAscii(c) then (c as int + 32) as char else c
  }

  function UpperChar(c: char): (r: char)
    ensures IsLowerAscii(c) ==> IsUpperAscii(r)
    ensures !IsLowerAscii(c) ==> r == c
  {
    if IsLowerAscii(c) then (c as int - 32) as char else c
  }

  /** `toLowerCase`, on the ASCII letters. */
  function Lower(s: string): (r: string)
    ensures |r| == |s|
    ensures forall k :: 0 <= k < |s| ==> r[k] == LowerChar(s[k])
  {
    seq(|s|, k requires 0 <= k < |s| => LowerChar(s[k]))
  }

  function Upper(s: string): (r: string)
    ensures |r| == |s|
    ensures forall k :: 0 <= k < |s| ==> r[k] == UpperChar(s[k])
  {
    seq(|s|, k requires 0 <= k < |s| => UpperChar(s[k]))
  }

  lemma LowerIdempotent(s: string)
    ensures Lower(Lower(s)) == Lower(s)
  {
  }

  /** The number of white-space characters `s` starts with. */
  function Lead(s: string): (n: nat)
    ensures n <= |s|
    ensures forall k :: 0 <= k < n ==> IsSpace(s[k])
    ensures n == |s| || !IsSpace(s[n])
  {
    if s == [] || !IsSpace(s[0]) then 0 else 1 + Lead(s[1..])
  }

  /** The number of white-space characters `s` ends with. */
  function Trail(s: string): (n: nat)
    ensures n <= |s|
    ensures forall k :: |s| - n <= k < |s| ==> IsSpace(s[k])
    ensures n == |s| || !IsSpace(s[|s| - n - 1])
  {
    if s == [] || !IsSpace(s[|s| - 1]) then 0 else 1 + Trail(s[..|s| - 1])
  }

  /** `trimStart`: `s` without its leading white space. */
  function TrimStart(s: string): (r: string)
    ensures r == [] || !IsSpace(r[0])
  {
    s[Lead(s)..]
  }

  /** `trim`: `s` without its leading and trailing white space. */
  function Trim(s: string): (r: string)
    ensures Lead(s) + |r| <= |s| && r == s[Lead(s)..Lead(s) + |r|]
    ensures forall k :: Lead(s) + |r| <= k < |s| ==> IsSpace(s[k])
    ensures r == [] || (!IsSpace(r[0]) && !IsSpace(r[|r| - 1]))
  {
    if Lead(s) == |s| then [] else s[Lead(s)..|s| - Trail(s)]
  }

  /** `trimEnd`: `s` without its trailing white space. */
  function TrimEnd(s: string): (r: string)
    ensures |r| <= |s| && r == s[..|r|]
    ensures forall k :: |r| <= k < |s| ==> IsSpace(s[k])
    ensures r == [] || !IsSpace(r[|r| - 1])
  {
    s[..|s| - Trail(s)]
  }

  /** One blank on either side of a trimmed, non-empty text is what `trim` removes. */
  lemma TrimPadded(s: string)
    requires s != [] && !IsSpace(s[0]) && !IsSpace(s[|s| - 1])
    ensures Trim([' '] + s) == s
    ensures Trim(s + [' ']) == s
  {
    var a := [' '] + s;
    assert a[1..] == s;
    assert Lead(a) == 1;
    assert Trail(a) == 0;
    assert a[1..|a|] == s;
    var b := s + [' '];
    assert b[..|b| - 1] == s;
    assert Lead(b) == 0;
    assert Trail(b) == 1;
    assert b[0..|b| - 1] == s;
  }

  /** A string whose `trim()` is empty: JavaScript's `!s.trim()`. */
  predicate IsBlank(s: string) { Trim(s) == [] }

  lemma {:induction false} BlankIffAllSpace(s: string)
    ensures IsBlank(s) <==> forall k :: 0 <= k < |s| ==> IsSpace(s[k])
  {
    if !IsBlank(s) {
      assert s[Lead(s)] == Trim(s)[0];
    }
  }

  lemma TrimOfTrimmed(s: string)
    requires s == [] || (!IsSpace(s[0]) && !IsSpace(s[|s| - 1]))
    ensures Trim(s) == s
  {
  }

  /** `s.replace(/\s+/g, " ")`: every maximal run of white space becomes one blank. */
  function Collapse(s: string): (r: string)
    ensures |r| <= |s|
    ensures s == [] <==> r == []
    ensures s != [] ==> (IsSpace(r[0]) <==> IsSpace(s[0]))
    ensures s != [] ==> (IsSpace(r[|r| - 1]) <==> IsSpace(s[|s| - 1]))
    decreases |s|
  {
    if s == [] then []
    else if IsSpace(s[0]) then [' '] + Collapse(TrimStart(s))
    else [s[0]] + Collapse(s[1..])
  }

  /** No white space other than single blanks between non-blank characters. */
  predicate SingleSpaced(s: string)
  {
    && (forall k :: 0 <= k < |s| && IsSpace(s[k]) ==> s[k] == ' ')
    && (forall k :: 0 <= k < |s| - 1 && IsSpace(s[k]) ==> !IsSpace(s[k + 1]))
  }

  /** What `normalizeText` and `stripTokensForText` promise of their results. */
  predicate Tidy(s: string)
  {
    SingleSpaced(s) && (s == [] || (!IsSpace(s[0]) && !IsSpace(s[|s| - 1])))
  }

  lemma {:induction false} CollapseSingleSpaced(s: string)
    ensures SingleSpaced(Collapse(s))
    decreases |s|
  {
    if s == [] {
    } else if IsSpace(s[0]) {
      var rest := TrimStart(s);
      CollapseSingleSpaced(rest);
      var t := Collapse(rest);
      assert Collapse(s) == [' '] + t;
      assert t != [] ==> !IsSpace(t[0]);
    } else {
      CollapseSingleSpaced(s[1..]);
    }
  }

  lemma SingleSpacedInfix(s: string, i: int, j: int)
    requires SingleSpaced(s) && 0 <= i <= j <= |s|
    ensures SingleSpaced(s[i..j])
  {
    var t := s[i..j];
    forall k | 0 <= k < |t| - 1 && IsSpace(t[k]) ensures !IsSpace(t[k + 1]) {
      assert t[k] == s[i + k] && t[k + 1] == s[i + k + 1];
    }
  }

  /** `s.replace(/\s+/g, " ").trim()`, the last step of `stripTokensForText`. */
  function Squish(s: string): (r: string)
    ensures Tidy(r)
  {
    var c := Collapse(s);
    CollapseSingleSpaced(s);
    SingleSpacedInfix(c, Lead(c), Lead(c) + |Trim(c)|);
    Trim(c)
  }

  /** `String(s || "").trim().toLowerCase().replace(/\s+/g, " ")`. */
  function NormalizeText(s: string): (r: string)
    ensures Tidy(r)
    ensures |r| <= |s|
  {
    var t := Lower(Trim(s));
    CollapseSingleSpaced(t);
    Collapse(t)
  }

  lemma {:induction false} CollapseOfTidy(s: string)
    requires Tidy(s)
    ensures Collapse(s) == s
    decreases |s|
  {
    if s != [] {
      if |s| >= 2 && IsSpace(s[1]) {
        assert s[1] == ' ' && |s| >= 3;
        assert !IsSpace(s[2]);
        SingleSpacedInfix(s, 2, |s|);
        assert Lead(s[1..]) == 1;
        assert TrimStart(s[1..]) == s[2..];
        CollapseOfTidy(s[2..]);
        assert Collapse(s[1..]) == [' '] + s[2..];
      } else if |s| >= 2 {
        SingleSpacedInfix(s, 1, |s|);
        CollapseOfTidy(s[1..]);
      }
    }
  }

  /** Normalising twice changes nothing. */
  lemma NormalizeIdempotent(s: string)
    ensures NormalizeText(NormalizeText(s)) == NormalizeText(s)
  {
    var n := NormalizeText(s);
    TrimOfTrimmed(n);
    var l := Lower(n);
    assert Tidy(l);
    CollapseOfTidy(l);
    LowerIdempotent(Trim(s));
    assert Collapse(Lower(Trim(s))) == n;
    LowerOfCollapse(Lower(Trim(s)));
  }

  lemma {:induction false} LowerOfCollapse(s: string)
    requires Lower(s) == s
    ensures Lower(Collapse(s)) == Collapse(s)
    decreases |s|
  {
    if s != [] {
      if IsSpace(s[0]) {
        var rest := TrimStart(s);
        assert Lower(rest) == rest by {
          forall k | 0 <= k < |rest| ensures LowerChar(rest[k]) == rest[k] {
            assert rest[k] == s[Lead(s) + k];
          }
        }
        LowerOfCollapse(rest);
      } else {
        assert Lower(s[1..]) == s[1..] by {
          forall k | 0 <= k < |s| - 1 ensures LowerChar(s[1..][k]) == s[1..][k] {
            assert s[1..][k] == s[k + 1];
          }
        }
        LowerOfCollapse(s[1..]);
      }
    }
  }

  // ---------------------------------------------------------------- searching

  /** `s.startsWith(p)`. */
  predicate StartsWith(s: string, p: string) { |p| <= |s| && s[..|p|] == p }

  predicate OccursAt(s: string, t: string, i: int)
  {
    0 <= i && i + |t| <= |s| && s[i..i + |t|] == t
  }

  /** `s.indexOf(t, from)`: the first position at or after `from` where `t` occurs, or -1. */
  function IndexFrom(s: string, t: string, from: nat): (r: int)
    ensures r == -1 || (from <= r && OccursAt(s, t, r))
    ensures forall k :: from <= k < (if r == -1 then |s| + 1 else r) ==> !OccursAt(s, t, k)
    decreases |s| + 1 - from
  {
    if from + |t| > |s| then -1
    else if s[from..from + |t|] == t then from
    else IndexFrom(s, t, from + 1)
  }

  function IndexOf(s: string, t: string): (r: int)
    ensures r == -1 || OccursAt(s, t, r)
    ensures forall k :: 0 <= k < (if r == -1 then |s| + 1 else r) ==> !OccursAt(s, t, k)
  {
    IndexFrom(s, t, 0)
  }

  /** `s.includes(t)`. */
  predicate Contains(s: string, t: string) { IndexOf(s, t) != -1 }

  lemma ContainsIff(s: string, t: string)
    ensures Contains(s, t) <==> exists k :: OccursAt(s, t, k)
  {
    if exists k :: OccursAt(s, t, k) {
      var k :| OccursAt(s, t, k);
      assert k < |s| + 1;
    }
  }

  lemma ContainsAt(s: string, t: string, k: int)
    requires OccursAt(s, t, k)
    ensures Contains(s, t)
  {
    ContainsIff(s, t);
  }

  /** A text containing `big` contains every piece of `big`. */
  lemma ContainsInfix(t: string, big: string, small: string, off: nat)
    requires off + |small| <= |big| && big[off..off + |small|] == small
    ensures Contains(t, big) ==> Contains(t, small)
  {
    if !Contains(t, big) { return; }
    var i := IndexOf(t, big);
    assert OccursAt(t, big, i);
    var w := t[i..i + |big|];
    assert w == big;
    assert t[i + off..i + off + |small|] == w[off..off + |small|];
    ContainsAt(t, small, i + off);
  }

  /** A text lacking one of the characters of `w` does not contain `w`. */
  lemma MissingChar(t: string, w: string, k: nat)
    requires k < |w| && w[k] !in t
    ensures !Contains(t, w)
  {
  }

  /** A text in which two adjacent characters of `w` never appear side by side does not contain `w`. */
  lemma MissingPair(t: string, w: string, k: nat)
    requires k + 1 < |w|
    requires forall j :: 0 <= j < |t| - 1 ==> !(t[j] == w[k] && t[j + 1] == w[k + 1])
    ensures !Contains(t, w)
  {
    forall i | OccursAt(t, w, i) ensures t[i + k] == w[k] && t[i + k + 1] == w[k + 1] {
      assert t[i..i + |w|][k] == w[k] && t[i..i + |w|][k + 1] == w[k + 1];
    }
    ContainsIff(t, w);
  }

  /** Text that is already trimmed, lower case and single-spaced normalises to itself. */
  lemma NormalizeOfNormal(s: string)
    requires Tidy(s) && Lower(s) == s
    ensures NormalizeText(s) == s
  {
    TrimOfTrimmed(s);
    CollapseOfTidy(s);
  }

  // ---------------------------------------------------------------- splitting

  /** A character that occurs at none of the first `n` positions is not in the first `n` characters. */
  lemma SeparatorAbsent(s: string, sep: char, n: nat)
    requires n <= |s|
    requires forall k :: 0 <= k < n ==> !OccursAt(s, [sep], k)
    ensures sep !in s[..n]
  {
    forall k | 0 <= k < n ensures s[k] != sep {
      assert !OccursAt(s, [sep], k);
      assert s[k..k + 1] == [s[k]];
    }
  }

  /** `s.split(sep)` for a one-character separator: the pieces between separators. */
  function Split(s: string, sep: char): (r: seq<string>)
    ensures |r| >= 1
    ensures forall k :: 0 <= k < |r| ==> sep !in r[k]
    ensures sep !in s ==> r == [s]
    ensures Join(r, sep) == s
    decreases |s|
  {
    var i := IndexOf(s, [sep]);
    if i == -1 then
      SeparatorAbsent(s, sep, |s|);
      assert s[..|s|] == s;
      [s]
    else
      var head := s[..i];
      SeparatorAbsent(s, sep, i);
      var rest := Split(s[i + 1..], sep);
      assert s == head + [sep] + s[i + 1..];
      [head] + rest
  }

  function Join(parts: seq<string>, sep: char): string
  {
    if parts == [] then []
    else if |parts| == 1 then parts[0]
    else parts[0] + [sep] + Join(parts[1..], sep)
  }

  /** Splitting at the first separator: the piece before it, then the pieces of the rest. */
  lemma {:induction false} SplitAfter(a: string, sep: char, rest: string)
    requires sep !in a
    ensures Split(a + [sep] + rest, sep) == [a] + Split(rest, sep)
  {
    var s := a + [sep] + rest;
    var i := IndexOf(s, [sep]);
    assert OccursAt(s, [sep], |a|) by { assert s[|a|..|a| + 1] == [sep]; }
    forall k | 0 <= k < |a| ensures !OccursAt(s, [sep], k) {
      assert s[k] == a[k];
    }
    assert i == |a|;
    assert s[..|a|] == a && s[|a| + 1..] == rest;
  }

  /** Three pieces without the separator, joined by it, split back into the three. */
  lemma SplitThree(a: string, b: string, c: string, sep: char)
    requires sep !in a && sep !in b && sep !in c
    ensures Split(a + [sep] + b + [sep] + c, sep) == [a, b, c]
  {
    assert a + [sep] + b + [sep] + c == a + [sep] + (b + [sep] + c);
    SplitAfter(a, sep, b + [sep] + c);
    SplitAfter(b, sep, c);
  }

  // ---------------------------------------------------------------- numbers

  function DigitChar(n: nat): (c: char)
    requires n < 10
    ensures IsDigit(c) && c as int == '0' as int + n
  {
    ('0' as int + n) as char
  }

  function DigitValue(c: char): (n: nat)
    requires IsDigit(c)
    ensures n < 10 && DigitChar(n) == c
  {
    (c as int - '0' as int)
  }

  /** `String(n)` for a natural number: its decimal digits, without leading zeros. */
  function NatToString(n: nat): (r: string)
    ensures |r| >= 1 && (forall k :: 0 <= k < |r| ==> IsDigit(r[k]))
    ensures n < 10 <==> |r| == 1
  {
    if n < 10 then [DigitChar(n)] else NatToString(n / 10) + [DigitChar(n % 10)]
  }

  /** `String(n)` for an integer. */
  function IntToString(n: int): string
  {
    if n < 0 then "-" + NatToString(-n) else NatToString(n)
  }

  /** The value of a string of decimal digits; "" is 0. */
  function DigitsValue(s: string): (n: nat)
    requires forall k :: 0 <= k < |s| ==> IsDigit(s[k])
  {
    if s == [] then 0 else 10 * DigitsValue(s[..|s| - 1]) + DigitValue(s[|s| - 1])
  }

  predicate AllDigits(s: string) { forall k :: 0 <= k < |s| ==> IsDigit(s[k]) }

  /**
   * `Number(s)` for the strings the app stores in date and time fields:
   * surrounding white space is ignored, "" is 0, a run of decimal digits is
   * its value, and anything else is `NaN`, modelled as `None`.
   */
  function ParseNumber(s: string): (r: Option<nat>)
    ensures r.Some? <==> AllDigits(Trim(s))
  {
    var t := Trim(s);
    if AllDigits(t) then Some(DigitsValue(t)) else None
  }

  lemma {:induction false} DigitsOfNatToString(n: nat)
    ensures DigitsValue(NatToString(n)) == n
  {
    if n >= 10 {
      DigitsOfNatToString(n / 10);
      var s := NatToString(n);
      assert s[..|s| - 1] == NatToString(n / 10);
    }
  }

  /** Formatting a number and reading it back gives the number again. */
  lemma NumberRoundTrip(n: nat)
    ensures ParseNumber(NatToString(n)) == Some(n)
  {
    var s := NatToString(n);
    TrimOfTrimmed(s);
    DigitsOfNatToString(n);
  }

  /** `String(n).padStart(2, "0")`. */
  function Pad2(n: nat): (r: string)
    ensures |r| >= 2 && AllDigits(r)
    ensures n < 100 ==> r == [DigitChar(n / 10), DigitChar(n % 10)]
  {
    if n < 10 then "0" + NatToString(n)
    else
      assert n < 100 ==> NatToString(n / 10) == [DigitChar(n / 10)];
      NatToString(n)
  }

  lemma Pad2RoundTrip(n: nat)
    ensures ParseNumber(Pad2(n)) == Some(n)
  {
    if n < 10 {
      var s := Pad2(n);
      TrimOfTrimmed(s);
      assert s[..1] == "0" && s[1] == DigitChar(n);
      assert DigitsValue(s[..1]) == 0;
    } else {
      NumberRoundTrip(n);
    }
  }

  /** Different numbers below 100 pad to different texts. */
  lemma Pad2Injective(m: nat, n: nat)
    requires m < 100 && n < 100 && Pad2(m) == Pad2(n)
    ensures m == n
  {
    assert DigitChar(m / 10) == DigitChar(n / 10) && DigitChar(m % 10) == DigitChar(n % 10);
  }

  lemma NatToStringInjective(a: nat, b: nat)
    requires NatToString(a) == NatToString(b)
    ensures a == b
  {
    DigitsOfNatToString(a);
    DigitsOfNatToString(b);
  }

  /** `String` is one-to-one on integers: the sign shows in the first character, the digits give the value. */
  lemma IntToStringInjective(a: int, b: int)
    requires IntToString(a) == IntToString(b)
    ensures a == b
  {
    var s := IntToString(a);
    if a < 0 {
      assert s[0] == '-';
      assert b < 0;
      assert NatToString(-a) == s[1..] == NatToString(-b);
      NatToStringInjective(-a, -b);
    } else {
      assert IsDigit(s[0]);
      assert b >= 0;
      NatToStringInjective(a, b);
    }
  }
}
