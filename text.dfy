/**
  The part of Python's `str` that the reports rely on: stripping white space,
  lower-casing ASCII letters, prefix / suffix / substring tests, ASCII digit
  strings and their values, the decimal renderings of integers and of cent
  amounts, and the code-point order that `sorted` uses on strings.
*/
module Text {

  import opened Common

  predicate IsDigit(c: char) { '0' <= c <= '9' }

  predicate IsLetter(c: char) { 'A' <= c <= 'Z' || 'a' <= c <= 'z' }

  /**
    The characters `str.isspace()` accepts, which are those `str.strip()`
    removes: the ASCII controls 9 to 13 and 28 to 31, the space, U+0085,
    U+00A0, U+1680, U+2000 to U+200A, U+2028, U+2029, U+202F, U+205F and the
    ideographic space U+3000.
  */
  predicate IsSpace(c: char)
  {
    var n := c as int;
    9 <= n <= 13 || 28 <= n <= 32 || n == 0x85 || n == 0xA0 || n == 0x1680
    || 0x2000 <= n <= 0x200A || n == 0x2028 || n == 0x2029 || n == 0x202F
    || n == 0x205F || n == 0x3000
  }

  // ---------------------------------------------------------------------------
  // strip / lower
  // ---------------------------------------------------------------------------

  /** `lstrip()`: drops the leading white space. */
  function TrimStart(s: string): string
  {
    if |s| > 0 && IsSpace(s[0]) then TrimStart(s[1..]) else s
  }

  /** `rstrip()`: drops the trailing white space. */
  function TrimEnd(s: string): string
  {
    if |s| > 0 && IsSpace(s[|s| - 1]) then TrimEnd(s[..|s| - 1]) else s
  }

  /** `strip()`. */
  function Trim(s: string): string
  {
    TrimEnd(TrimStart(s))
  }

  /** `lstrip()` drops the leading white space and nothing else. */
  lemma {:induction false} TrimStartFacts(s: string)
    ensures var r := TrimStart(s);
      && |r| <= |s| && r == s[|s| - |r|..]
      && (|r| > 0 ==> !IsSpace(r[0]))
      && (forall i :: 0 <= i < |s| - |r| ==> IsSpace(s[i]))
  {
    if |s| > 0 && IsSpace(s[0]) {
      TrimStartFacts(s[1..]);
    }
  }

  /** `rstrip()` drops the trailing white space and nothing else. */
  lemma {:induction false} TrimEndFacts(s: string)
    ensures var r := TrimEnd(s);
      && |r| <= |s| && r == s[..|r|]
      && (|r| > 0 ==> !IsSpace(r[|r| - 1]))
      && (forall i :: |r| <= i < |s| ==> IsSpace(s[i]))
  {
    if |s| > 0 && IsSpace(s[|s| - 1]) {
      TrimEndFacts(s[..|s| - 1]);
    }
  }

  /** `strip()` leaves a piece of the text with no white space at either end. */
  lemma TrimFacts(s: string)
    ensures |Trim(s)| <= |s|
    ensures |Trim(s)| > 0 ==> !IsSpace(Trim(s)[0]) && !IsSpace(Trim(s)[|Trim(s)| - 1])
  {
    TrimStartFacts(s);
    TrimEndFacts(TrimStart(s));
    var t := TrimStart(s);
    var r := TrimEnd(t);
    if |r| > 0 {
      assert r[0] == t[0];
    }
  }

  /** `strip()` leaves nothing exactly when the text is all white space. */
  lemma TrimEmpty(s: string)
    ensures Trim(s) == [] <==> forall i :: 0 <= i < |s| ==> IsSpace(s[i])
  {
    TrimStartFacts(s);
    var t := TrimStart(s);
    TrimEndFacts(t);
    if t != [] {
      assert !IsSpace(s[|s| - |t|]);
      assert TrimEnd(t) != [];
    }
  }

  /** Text without white space at either end is its own `strip()`. */
  lemma TrimUnpadded(s: string)
    requires |s| > 0 && !IsSpace(s[0]) && !IsSpace(s[|s| - 1])
    ensures Trim(s) == s
  {
  }

  function LowerChar(c: char): char
  {
    if 'A' <= c <= 'Z' then (c as int + 32) as char else c
  }

  /** `lower()` on ASCII letters. */
  function Lower(s: string): (r: string)
    ensures |r| == |s|
    ensures forall i :: 0 <= i < |s| ==> r[i] == LowerChar(s[i])
  {
    seq(|s|, i requires 0 <= i < |s| => LowerChar(s[i]))
  }

  // ---------------------------------------------------------------------------
  // prefix, suffix, substring
  // ---------------------------------------------------------------------------

  predicate StartsWith(s: string, prefix: string)
  {
    |prefix| <= |s| && s[..|prefix|] == prefix
  }

  predicate EndsWith(s: string, suffix: string)
  {
    |suffix| <= |s| && s[|s| - |suffix|..] == suffix
  }

  /** The regular expression `^[A-Za-z]` matches `s`. */
  predicate StartsWithLetter(s: string) { |s| > 0 && IsLetter(s[0]) }

  /** The regular expression `^\d` matches `s` (ASCII digits). */
  predicate StartsWithDigit(s: string) { |s| > 0 && IsDigit(s[0]) }

  predicate OccursAt(s: string, sub: string, i: int)
  {
    0 <= i && i + |sub| <= |s| && s[i..i + |sub|] == sub
  }

  /** `sub in s`, scanning from the left. */
  predicate Contains(s: string, sub: string)
    decreases |s|
  {
    StartsWith(s, sub) || (|s| > 0 && Contains(s[1..], sub))
  }

  /** The scan finds `sub` exactly when it occurs at some position of `s`. */
  lemma {:induction false} ContainsIffOccurs(s: string, sub: string)
    ensures Contains(s, sub) <==> exists i :: OccursAt(s, sub, i)
    decreases |s|
  {
    if StartsWith(s, sub) {
      assert OccursAt(s, sub, 0);
    } else if |s| > 0 {
      ContainsIffOccurs(s[1..], sub);
      if Contains(s[1..], sub) {
        var i :| OccursAt(s[1..], sub, i);
        assert s[1..][i..i + |sub|] == s[i + 1..i + 1 + |sub|];
        assert OccursAt(s, sub, i + 1);
      } else {
        forall i | OccursAt(s, sub, i) ensures false {
          assert i != 0;
          assert s[1..][i - 1..i - 1 + |sub|] == s[i..i + |sub|];
          assert OccursAt(s[1..], sub, i - 1);
        }
      }
    }
  }

  /** `s.contains(sub, case=False)` on ASCII text. */
  predicate ContainsIgnoringCase(s: string, sub: string)
  {
    Contains(Lower(s), Lower(sub))
  }

  /** `strip()` leaves a piece of the text: it starts where the leading white space ends. */
  lemma TrimOccurs(s: string)
    ensures OccursAt(s, Trim(s), |s| - |TrimStart(s)|)
  {
    TrimStartFacts(s);
    var t := TrimStart(s);
    TrimEndFacts(t);
    var a := |s| - |t|;
    var r := Trim(s);
    assert r == t[..|r|];
    assert s[a..a + |r|] == r by {
      forall i | 0 <= i < |r| ensures s[a..a + |r|][i] == r[i] {
        assert t[i] == s[a + i];
      }
    }
  }

  /** Text always contains its own `strip()`, in any case. */
  lemma ContainsOwnTrim(s: string)
    ensures ContainsIgnoringCase(s, Trim(s))
  {
    TrimOccurs(s);
    var a := |s| - |TrimStart(s)|;
    var r := Trim(s);
    assert Lower(s)[a..a + |r|] == Lower(r) by {
      forall i | 0 <= i < |r| ensures Lower(s)[a..a + |r|][i] == Lower(r)[i] {
        assert r[i] == s[a + i];
      }
    }
    assert OccursAt(Lower(s), Lower(r), a);
    ContainsIffOccurs(Lower(s), Lower(r));
  }

  /**
    The characters that Python's `re` may read as syntax rather than as
    themselves: `.` `^` `$` `*` `+` `?` the braces, the brackets, the
    backslash, `|` and the parentheses.
  */
  const RegexSpecials: string := ".^$*+?{}[]\\|()"

  /**
    A search text none of whose characters is regex syntax: searching for it
    as a regular expression is searching for it as plain text.
  */
  predicate PlainPattern(p: string)
  {
    forall i :: 0 <= i < |p| ==> p[i] !in RegexSpecials
  }

  /** Stripping a plain text leaves a plain text. */
  lemma PlainTrim(s: string)
    requires PlainPattern(s)
    ensures PlainPattern(Trim(s))
  {
    TrimOccurs(s);
    var a := |s| - |TrimStart(s)|;
    var r := Trim(s);
    forall i | 0 <= i < |r| ensures r[i] !in RegexSpecials {
      assert r[i] == s[a + i];
    }
  }


  // ---------------------------------------------------------------------------
  // digit strings
  // ---------------------------------------------------------------------------

  /** `str.isnumeric()` / `str.isdigit()`, ASCII digits only: false on the empty string. */
  predicate IsNumeric(s: string)
  {
    |s| > 0 && forall i :: 0 <= i < |s| ==> IsDigit(s[i])
  }

  function DigitValue(c: char): nat
  {
    if IsDigit(c) then c as int - '0' as int else 0
  }

  function DigitChar(n: nat): (c: char)
    requires n < 10
    ensures IsDigit(c) && DigitValue(c) == n
  {
    ('0' as int + n) as char
  }

  /** `int(s)` for a string of ASCII digits. */
  function NumValue(s: string): nat
  {
    if s == [] then 0 else NumValue(s[..|s| - 1]) * 10 + DigitValue(s[|s| - 1])
  }

  lemma NumValueSnoc(s: string, c: char)
    ensures NumValue(s + [c]) == NumValue(s) * 10 + DigitValue(c)
  {
    assert (s + [c])[..|s|] == s;
  }

  /** The regular expression `^(\d+)`: the leading run of digits. */
  function LeadingDigits(s: string): (r: string)
    ensures |r| <= |s| && r == s[..|r|]
    ensures forall i :: 0 <= i < |r| ==> IsDigit(r[i])
    ensures |r| < |s| ==> !IsDigit(s[|r|])
  {
    if |s| > 0 && IsDigit(s[0]) then [s[0]] + LeadingDigits(s[1..]) else []
  }

  /** The leading digits of a digit string followed by a non-digit are that digit string. */
  lemma {:induction false} LeadingDigitsOfPrefix(p: string, rest: string)
    requires forall i :: 0 <= i < |p| ==> IsDigit(p[i])
    requires |rest| > 0 && !IsDigit(rest[0])
    ensures LeadingDigits(p + rest) == p
    decreases |p|
  {
    if p != [] {
      assert (p + rest)[1..] == p[1..] + rest;
      LeadingDigitsOfPrefix(p[1..], rest);
    } else {
      assert p + rest == rest;
    }
  }

  /** `''.join(filter(str.isdigit, s))`: every digit of `s`, in order. */
  function DigitsOf(s: string): (r: string)
    ensures |r| <= |s|
    ensures forall i :: 0 <= i < |r| ==> IsDigit(r[i])
    ensures multiset(r) <= multiset(s)
    ensures (forall i :: 0 <= i < |s| ==> IsDigit(s[i])) ==> r == s
    ensures (forall i :: 0 <= i < |s| ==> !IsDigit(s[i])) ==> r == []
  {
    if s == [] then []
    else
      assert s == [s[0]] + s[1..];
      (if IsDigit(s[0]) then [s[0]] else []) + DigitsOf(s[1..])
  }

  /**
    Filtering the digits of two texts one after the other keeps the digits of
    each, in order: with the one-character cases above, this determines the
    result.
  */
  lemma {:induction false} DigitsOfAppend(a: string, b: string)
    ensures DigitsOf(a + b) == DigitsOf(a) + DigitsOf(b)
    decreases |a|
  {
    if a != [] {
      var head := if IsDigit(a[0]) then [a[0]] else [];
      assert (a + b)[1..] == a[1..] + b;
      assert DigitsOf(a + b) == head + DigitsOf(a[1..] + b);
      DigitsOfAppend(a[1..], b);
      assert DigitsOf(a) == head + DigitsOf(a[1..]);
    } else {
      assert a + b == b;
    }
  }

  // ---------------------------------------------------------------------------
  // rendering numbers
  // ---------------------------------------------------------------------------

  /** `str(n)` for a natural number: no leading zero except for `0` itself. */
  function NatText(n: nat): (r: string)
    ensures IsNumeric(r)
    ensures r[0] == '0' <==> n == 0
  {
    if n < 10 then [DigitChar(n)] else NatText(n / 10) + [DigitChar(n % 10)]
  }

  /** `int(str(n)) == n`. */
  lemma {:induction false} NatTextValue(n: nat)
    ensures NumValue(NatText(n)) == n
  {
    if n >= 10 {
      NatTextValue(n / 10);
      NumValueSnoc(NatText(n / 10), DigitChar(n % 10));
    } else {
      assert NatText(n)[..0] == [];
    }
  }

  function Pow10(k: nat): (p: nat)
    ensures p >= 1
  {
    if k == 0 then 1 else 10 * Pow10(k - 1)
  }

  /** The field of a `%0<width>d` rendering: exactly `width` digits, zero-padded on the left. */
  function PaddedDigits(n: nat, width: nat): (r: string)
    ensures |r| == width
    ensures forall i :: 0 <= i < width ==> IsDigit(r[i])
  {
    if width == 0 then [] else PaddedDigits(n / 10, width - 1) + [DigitChar(n % 10)]
  }

  /** A number that fits in the field reads back unchanged. */
  lemma {:induction false} PaddedDigitsValue(n: nat, width: nat)
    requires n < Pow10(width)
    ensures NumValue(PaddedDigits(n, width)) == n
  {
    if width > 0 {
      PaddedDigitsValue(n / 10, width - 1);
      NumValueSnoc(PaddedDigits(n / 10, width - 1), DigitChar(n % 10));
    }
  }

  /** `format(v / 100, '.2f')` for an amount `v` in cents. */
  function CentsText(v: int): string
  {
    var a := if v < 0 then -v else v;
    (if v < 0 then "-" else "") + NatText(a / 100) + "." + PaddedDigits(a % 100, 2)
  }

  /** Reads a `CentsText` rendering back into cents (`None` if it has no `.dd` ending). */
  function ParseCents(s: string): (r: Option<int>)
  {
    if |s| < 4 || s[|s| - 3] != '.' then None
    else Some(SignedCents(s[..|s| - 3], s[|s| - 2..]))
  }

  /** The amount in cents of a whole part, possibly signed, and its two decimals. */
  function SignedCents(whole: string, frac: string): int
  {
    var cents := NumValue(frac);
    if |whole| > 0 && whole[0] == '-' then -(NumValue(whole[1..]) * 100 + cents)
    else NumValue(whole) * 100 + cents
  }

  /** The two-decimal rendering loses nothing: the cents read back exactly. */
  lemma CentsTextRoundTrip(v: int)
    ensures ParseCents(CentsText(v)) == Some(v)
  {
    var a := if v < 0 then -v else v;
    var whole, frac := NatText(a / 100), PaddedDigits(a % 100, 2);
    NatTextValue(a / 100);
    PaddedDigitsValue(a % 100, 2);
    assert NumValue(whole) * 100 + NumValue(frac) == a by {
      assert a == a / 100 * 100 + a % 100;
    }
    if v < 0 {
      assert CentsText(v) == "-" + whole + "." + frac;
      ParseCentsNegative(whole, frac);
    } else {
      assert CentsText(v) == whole + "." + frac;
      ParseCentsUnsigned(whole, frac);
    }
  }

  lemma ParseCentsUnsigned(whole: string, frac: string)
    requires IsNumeric(whole) && |frac| == 2
    ensures ParseCents(whole + "." + frac) == Some(NumValue(whole) * 100 + NumValue(frac))
  {
    ParseCentsSplit(whole, frac);
    SignedCentsUnsigned(whole, frac);
  }

  lemma ParseCentsNegative(whole: string, frac: string)
    requires |frac| == 2
    ensures ParseCents("-" + whole + "." + frac) == Some(-(NumValue(whole) * 100 + NumValue(frac)))
  {
    ParseCentsSplit("-" + whole, frac);
    SignedCentsNegative(whole, frac);
  }

  lemma SignedCentsUnsigned(whole: string, frac: string)
    requires IsNumeric(whole)
    ensures SignedCents(whole, frac) == NumValue(whole) * 100 + NumValue(frac)
  {
    assert IsDigit(whole[0]);
  }

  lemma SignedCentsNegative(whole: string, frac: string)
    ensures SignedCents("-" + whole, frac) == -(NumValue(whole) * 100 + NumValue(frac))
  {
    assert ("-" + whole)[1..] == whole;
  }

  /** `ParseCents` cuts the text at the point three characters from its end. */
  lemma ParseCentsSplit(p: string, frac: string)
    requires |p| > 0 && |frac| == 2
    ensures ParseCents(p + "." + frac) == Some(SignedCents(p, frac))
  {
    var s := p + "." + frac;
    assert s[|s| - 3] == '.';
    assert s[..|s| - 3] == p;
    assert s[|s| - 2..] == frac;
  }

  /**
    `str(float)` of an amount held in cents: the shortest decimal that reads back,
    so `100.0`, `100.5`, `4143.49`.
  */
  function FloatText(v: int): (r: string)
  {
    var a := if v < 0 then -v else v;
    var frac := if a % 100 == 0 then "0"
                else if a % 10 == 0 then [DigitChar(a % 100 / 10)]
                else PaddedDigits(a % 100, 2);
    (if v < 0 then "-" else "") + NatText(a / 100) + "." + frac
  }

  /** A `str(float)` amount is made of digits, a point and perhaps a minus sign. */
  lemma FloatTextCharacters(v: int)
    ensures forall i :: 0 <= i < |FloatText(v)| ==> IsDigit(FloatText(v)[i]) || FloatText(v)[i] in ".-"
  {
    var a := if v < 0 then -v else v;
    var frac := if a % 100 == 0 then "0"
                else if a % 10 == 0 then [DigitChar(a % 100 / 10)]
                else PaddedDigits(a % 100, 2);
    var whole := NatText(a / 100);
    var sign: string := if v < 0 then "-" else "";
    assert forall i :: 0 <= i < |frac| ==> IsDigit(frac[i]);
    assert FloatText(v) == sign + whole + "." + frac;
  }

  // ---------------------------------------------------------------------------
  // joining and splitting on a separator
  // ---------------------------------------------------------------------------

  /** `sep.join(parts)`. */
  function Join(parts: seq<string>, sep: char): string
  {
    if |parts| == 0 then ""
    else if |parts| == 1 then parts[0]
    else parts[0] + [sep] + Join(parts[1..], sep)
  }

  /** `s.split(sep)`: the pieces between the separators, at least one. */
  function Split(s: string, sep: char): (r: seq<string>)
    ensures |r| > 0
  {
    if s == [] then [""]
    else
      var rest := Split(s[1..], sep);
      if s[0] == sep then [""] + rest else [[s[0]] + rest[0]] + rest[1..]
  }

  lemma {:induction false} SplitPlain(p: string, sep: char)
    requires sep !in p
    ensures Split(p, sep) == [p]
  {
    if p != [] {
      SplitPlain(p[1..], sep);
      assert p == [p[0]] + p[1..];
    }
  }

  lemma {:induction false} SplitAfterPiece(p: string, sep: char, rest: string)
    requires sep !in p
    ensures Split(p + [sep] + rest, sep) == [p] + Split(rest, sep)
  {
    if p == [] {
      assert (p + [sep] + rest)[1..] == rest;
    } else {
      SplitAfterPiece(p[1..], sep, rest);
      assert (p + [sep] + rest)[1..] == p[1..] + [sep] + rest;
      assert p == [p[0]] + p[1..];
    }
  }

  /** Splitting a join gives the parts back when no part holds the separator. */
  lemma {:induction false} SplitJoin(parts: seq<string>, sep: char)
    requires |parts| > 0
    requires forall i :: 0 <= i < |parts| ==> sep !in parts[i]
    ensures Split(Join(parts, sep), sep) == parts
  {
    if |parts| == 1 {
      SplitPlain(parts[0], sep);
    } else {
      SplitJoin(parts[1..], sep);
      SplitAfterPiece(parts[0], sep, Join(parts[1..], sep));
      assert parts == [parts[0]] + parts[1..];
    }
  }

  /** The text before the first `sep` and the text after it (`s` and `""` when there is none). */
  function SplitAtFirst(s: string, sep: char): (string, string)
  {
    if s == [] then ([], [])
    else if s[0] == sep then ([], s[1..])
    else
      var t := SplitAtFirst(s[1..], sep);
      ([s[0]] + t.0, t.1)
  }

  lemma {:induction false} SplitAtFirstPiece(p: string, sep: char, rest: string)
    requires sep !in p
    ensures SplitAtFirst(p + [sep] + rest, sep) == (p, rest)
  {
    if p == [] {
      assert (p + [sep] + rest)[1..] == rest;
    } else {
      SplitAtFirstPiece(p[1..], sep, rest);
      assert (p + [sep] + rest)[1..] == p[1..] + [sep] + rest;
      assert p == [p[0]] + p[1..];
    }
  }

  // ---------------------------------------------------------------------------
  // the order `sorted` uses on strings
  // ---------------------------------------------------------------------------

  /** Code-point lexicographic order; a proper prefix comes first. */
  predicate LexLe(a: string, b: string)
    decreases |a|
  {
    |a| == 0 || (|b| > 0 && (a[0] < b[0] || (a[0] == b[0] && LexLe(a[1..], b[1..]))))
  }

  lemma {:induction false} LexLeTotal(a: string, b: string)
    ensures LexLe(a, b) || LexLe(b, a)
    decreases |a|
  {
    if |a| > 0 && |b| > 0 && a[0] == b[0] {
      LexLeTotal(a[1..], b[1..]);
    }
  }

  lemma {:induction false} LexLeTransitive(a: string, b: string, c: string)
    requires LexLe(a, b) && LexLe(b, c)
    ensures LexLe(a, c)
    decreases |a|
  {
    if |a| > 0 && a[0] == b[0] && b[0] == c[0] {
      LexLeTransitive(a[1..], b[1..], c[1..]);
    }
  }

  lemma {:induction false} LexLeAntisymmetric(a: string, b: string)
    requires LexLe(a, b) && LexLe(b, a)
    ensures a == b
    decreases |a|
  {
    if |a| > 0 {
      LexLeAntisymmetric(a[1..], b[1..]);
      assert a == [a[0]] + a[1..];
      assert b == [b[0]] + b[1..];
    }
  }
}
