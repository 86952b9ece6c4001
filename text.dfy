/**
 * String helpers shared by the model: Python's `startswith`, `find`,
 * `rfind`, `split` on one character, `str(n)` / `format(n, "x")`, and the
 * ASCII character classes the generators draw from.
 */
module Text {

  predicate IsDigit(c: char) { '0' <= c <= '9' }

  predicate IsAsciiLetter(c: char) { 'a' <= c <= 'z' || 'A' <= c <= 'Z' }

  /** A character that `\w` matches when word boundaries are read in ASCII. */
  predicate IsWordChar(c: char) { IsAsciiLetter(c) || IsDigit(c) || c == '_' }

  predicate StartsWith(s: string, prefix: string)
  {
    |prefix| <= |s| && s[..|prefix|] == prefix
  }

  predicate EndsWith(s: string, suffix: string)
  {
    |suffix| <= |s| && s[|s| - |suffix|..] == suffix
  }

  /** `p` occurs in `s` starting at index `i`. */
  predicate OccursAt(s: string, p: string, i: int)
  {
    0 <= i && i + |p| <= |s| && s[i..i + |p|] == p
  }

  /** Python's `p in s` for strings. */
  predicate Contains(s: string, p: string)
  {
    exists i | 0 <= i <= |s| :: OccursAt(s, p, i)
  }

  function LowerChar(c: char): char
  {
    if 'A' <= c <= 'Z' then (c as int + 32) as char else c
  }

  /** `s.lower()` restricted to ASCII letters. */
  function Lower(s: string): (r: string)
    ensures |r| == |s|
  {
    seq(|s|, i requires 0 <= i < |s| => LowerChar(s[i]))
  }

  // ---------------------------------------------------------------------
  // find / rfind

  /** `s.find(p, i)`: the first index at or after `i` where `p` occurs, or -1. */
  function FindFrom(s: string, p: string, i: nat): (r: int)
    requires i <= |s|
    ensures r == -1 || (i <= r && OccursAt(s, p, r))
    ensures r == -1 ==> forall j :: i <= j ==> !OccursAt(s, p, j)
    ensures r != -1 ==> forall j :: i <= j < r ==> !OccursAt(s, p, j)
    decreases |s| - i
  {
    if OccursAt(s, p, i) then i
    else if i == |s| then -1
    else FindFrom(s, p, i + 1)
  }

  /** `s.find(p)`. */
  function Find(s: string, p: string): (r: int)
    ensures r == -1 <==> !Contains(s, p)
    ensures r != -1 ==> OccursAt(s, p, r) && forall j :: 0 <= j < r ==> !OccursAt(s, p, j)
  {
    FindFrom(s, p, 0)
  }

  /** `s.rfind(c)` for one character. */
  function RFind(s: string, c: char): (r: int)
    ensures -1 <= r < |s|
    ensures r == -1 <==> c !in s
    ensures r != -1 ==> s[r] == c && c !in s[r + 1..]
  {
    if s == [] then -1
    else if s[|s| - 1] == c then |s| - 1
    else
      var r := RFind(s[..|s| - 1], c);
      assert s[..|s| - 1] + [s[|s| - 1]] == s;
      r
  }

  // ---------------------------------------------------------------------
  // split and join on one separator character

  /** `s.split(sep)` for a one-character separator. */
  function Split(s: string, sep: char): (r: seq<string>)
    ensures |r| >= 1
    ensures |r| == 1 <==> sep !in s
  {
    if s == [] then [""]
    else
      var rest := Split(s[1..], sep);
      if s[0] == sep then [""] + rest
      else [[s[0]] + rest[0]] + rest[1..]
  }

  /** `sep.join(parts)`. */
  function Join(parts: seq<string>, sep: char): (r: string)
    requires |parts| >= 1
    decreases |parts|
  {
    if |parts| == 1 then parts[0] else parts[0] + [sep] + Join(parts[1..], sep)
  }

  lemma {:induction false} SplitPrefix(p: string, tail: string, sep: char)
    requires sep !in p
    ensures Split(p + tail, sep) == [p + Split(tail, sep)[0]] + Split(tail, sep)[1..]
    decreases |p|
  {
    if p != [] {
      assert (p + tail)[1..] == p[1..] + tail;
      SplitPrefix(p[1..], tail, sep);
      assert [p[0]] + (p[1..] + Split(tail, sep)[0]) == p + Split(tail, sep)[0];
    } else {
      var t := Split(tail, sep);
      assert p + tail == tail;
      assert p + t[0] == t[0];
      assert t == [t[0]] + t[1..];
    }
  }

  /** Splitting a join gives the parts back when no part holds the separator. */
  lemma {:induction false} SplitJoin(parts: seq<string>, sep: char)
    requires |parts| >= 1
    requires forall i :: 0 <= i < |parts| ==> sep !in parts[i]
    ensures Split(Join(parts, sep), sep) == parts
    decreases |parts|
  {
    if |parts| == 1 {
      SplitPrefix(parts[0], "", sep);
      assert parts[0] + "" == parts[0];
    } else {
      var rest := Join(parts[1..], sep);
      SplitJoin(parts[1..], sep);
      var tail := [sep] + rest;
      assert tail[1..] == rest;
      assert Split(tail, sep) == [""] + parts[1..];
      assert parts[0] + [sep] + rest == parts[0] + tail;
      SplitPrefix(parts[0], tail, sep);
      assert parts[0] + "" == parts[0];
      assert parts == [parts[0]] + parts[1..];
    }
  }

  // ---------------------------------------------------------------------
  // positional numerals: Python's str(n) and format(n, "x")

  const DecimalDigits: string := "0123456789"
  const HexDigits: string := "0123456789abcdef"

  predicate DistinctChars(a: string)
  {
    forall i, j :: 0 <= i < j < |a| ==> a[i] != a[j]
  }

  /** A digit alphabet: digit k is `a[k]`. */
  predicate IsAlphabet(a: string)
  {
    |a| >= 2 && DistinctChars(a)
  }

  /** The numeral of `n` in base `|a|`, most significant digit first, no leading zeros. */
  function NatToDigits(n: nat, a: string): (r: string)
    requires |a| >= 2
    ensures |r| >= 1
    ensures forall i :: 0 <= i < |r| ==> r[i] in a
    decreases n
  {
    if n < |a| then [a[n]] else NatToDigits(n / |a|, a) + [a[n % |a|]]
  }

  /** The position of `c` in `a`. */
  function IndexIn(c: char, a: string): (k: nat)
    requires c in a
    ensures k < |a| && a[k] == c
  {
    if a[0] == c then 0 else 1 + IndexIn(c, a[1..])
  }

  /** The value of a numeral in base `|a|`. */
  function DigitsToNat(s: string, a: string): nat
    requires forall i :: 0 <= i < |s| ==> s[i] in a
  {
    if s == [] then 0 else DigitsToNat(s[..|s| - 1], a) * |a| + IndexIn(s[|s| - 1], a)
  }

  lemma {:induction false} IndexInDistinct(a: string, k: nat)
    requires DistinctChars(a) && k < |a|
    ensures IndexIn(a[k], a) == k
  {
  }

  lemma DigitsToNatSnoc(q: string, c: char, a: string)
    requires forall i :: 0 <= i < |q| ==> q[i] in a
    requires c in a
    ensures DigitsToNat(q + [c], a) == DigitsToNat(q, a) * |a| + IndexIn(c, a)
  {
    assert (q + [c])[..|q|] == q;
  }

  lemma DivStep(n: nat, b: nat)
    requires b >= 2 && n >= b
    ensures n / b < n && (n / b) * b + n % b == n
  {
  }

  /** Reading a numeral back gives the number it was made from. */
  lemma {:induction false} DigitsRoundTrip(n: nat, a: string)
    requires IsAlphabet(a)
    ensures DigitsToNat(NatToDigits(n, a), a) == n
    decreases n
  {
    var b := |a|;
    if n < b {
      assert NatToDigits(n, a) == [a[n]];
      DigitsToNatSnoc([], a[n], a);
      assert [] + [a[n]] == [a[n]];
      IndexInDistinct(a, n);
    } else {
      DivStep(n, b);
      var q := NatToDigits(n / b, a);
      assert NatToDigits(n, a) == q + [a[n % b]];
      DigitsRoundTrip(n / b, a);
      IndexInDistinct(a, n % b);
      DigitsToNatSnoc(q, a[n % b], a);
      assert DigitsToNat(q + [a[n % b]], a) == (n / b) * b + n % b;
    }
  }

  /** A numeral has no leading zero digit unless it is the numeral of zero. */
  lemma {:induction false} NoLeadingZero(n: nat, a: string)
    requires IsAlphabet(a) && n > 0
    ensures NatToDigits(n, a)[0] != a[0]
    decreases n
  {
    if n >= |a| {
      NoLeadingZero(n / |a|, a);
    }
  }

  function Pow(b: nat, k: nat): nat
  {
    if k == 0 then 1 else b * Pow(b, k - 1)
  }

  /** A number below `|a|^k` needs at most `k` digits. */
  lemma {:induction false} DigitsLength(n: nat, a: string, k: nat)
    requires |a| >= 2 && 1 <= k && n < Pow(|a|, k)
    ensures |NatToDigits(n, a)| <= k
    decreases k
  {
    var b := |a|;
    if k == 1 {
      assert Pow(b, 1) == b;
    } else if n >= b {
      assert Pow(b, k) == b * Pow(b, k - 1);
      DivBelow(n, b, Pow(b, k - 1));
      DigitsLength(n / b, a, k - 1);
    }
  }

  lemma DivBelow(n: nat, b: nat, m: nat)
    requires b > 0 && n < b * m
    ensures n / b < m
  {
  }

  /** Python's `str(i)` for an integer. */
  function IntToStr(i: int): (r: string)
    ensures |r| >= 1
  {
    if i < 0 then "-" + NatToDigits(-i, DecimalDigits) else NatToDigits(i, DecimalDigits)
  }

  lemma DecimalAlphabet()
    ensures IsAlphabet(DecimalDigits)
  {
  }

  lemma HexAlphabet()
    ensures IsAlphabet(HexDigits)
  {
  }

  /** Different integers have different decimal numerals. */
  lemma IntToStrInjective(a: int, b: int)
    requires IntToStr(a) == IntToStr(b)
    ensures a == b
  {
    DecimalAlphabet();
    if a >= 0 && b >= 0 {
      DigitsRoundTrip(a, DecimalDigits);
      DigitsRoundTrip(b, DecimalDigits);
    } else if a < 0 && b < 0 {
      assert IntToStr(a)[1..] == NatToDigits(-a, DecimalDigits);
      assert IntToStr(b)[1..] == NatToDigits(-b, DecimalDigits);
      DigitsRoundTrip(-a, DecimalDigits);
      DigitsRoundTrip(-b, DecimalDigits);
    } else {
      NumeralSign(a);
      NumeralSign(b);
      assert false;
    }
  }

  /** A numeral starts with `-` exactly when its number is negative. */
  lemma NumeralSign(i: int)
    ensures IntToStr(i)[0] == '-' <==> i < 0
  {
    if i >= 0 {
      var d := NatToDigits(i, DecimalDigits);
      assert d[0] in DecimalDigits;
      assert '-' !in DecimalDigits;
    }
  }
}
