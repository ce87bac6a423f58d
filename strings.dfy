/**
 * The parts of java.lang.String and StringBuilder the model needs: decimal
 * rendering of integers (`StringBuilder.append(int)`, `Integer.toString`),
 * joining with a separator, and ASCII case mapping.
 */
module Strings {

  predicate IsDigit(c: char) { '0' <= c <= '9' }

  predicate AllDigits(s: string) { forall i :: 0 <= i < |s| ==> IsDigit(s[i]) }

  function DigitChar(d: int): (c: char)
    requires 0 <= d < 10
    ensures IsDigit(c) && c as int - '0' as int == d
  {
    ('0' as int + d) as char
  }

  /** Decimal digits of a natural number, without leading zeros. */
  function NatString(n: nat): (s: string)
    ensures |s| >= 1 && AllDigits(s)
    ensures n >= 10 ==> s[0] != '0'
    decreases n
  {
    if n < 10 then [DigitChar(n)] else NatString(n / 10) + [DigitChar(n % 10)]
  }

  /** Java's decimal rendering of an integer: a minus sign for negatives, then the digits. */
  function IntString(x: int): (s: string)
    ensures |s| >= 1 && (IsDigit(s[0]) || s[0] == '-')
    ensures x >= 0 <==> IsDigit(s[0])
    ensures AllDigits(s[1..])
  {
    if x < 0 then "-" + NatString(-x) else NatString(x)
  }

  function ParseNat(s: string): nat
    requires AllDigits(s)
  {
    if s == [] then 0 else ParseNat(s[..|s| - 1]) * 10 + (s[|s| - 1] as int - '0' as int)
  }

  function ParseInt(s: string): int
    requires |s| >= 1 && (IsDigit(s[0]) || s[0] == '-') && AllDigits(s[1..])
  {
    if s[0] == '-' then -(ParseNat(s[1..]) as int) else ParseNat(s)
  }

  /** Reading back the decimal rendering of a natural number gives the number. */
  lemma {:induction false} NatStringRoundTrip(n: nat)
    ensures ParseNat(NatString(n)) == n
    decreases n
  {
    if n >= 10 {
      var s := NatString(n);
      assert s[..|s| - 1] == NatString(n / 10);
      NatStringRoundTrip(n / 10);
    }
  }

  /** The decimal rendering of an integer is unambiguous: it parses back to the integer. */
  lemma IntStringRoundTrip(x: int)
    ensures ParseInt(IntString(x)) == x
  {
    if x < 0 {
      assert IntString(x)[1..] == NatString(-x);
      NatStringRoundTrip(-x);
    } else {
      NatStringRoundTrip(x);
    }
  }

  /** `parts` joined with `sep` between consecutive parts (no leading or trailing separator). */
  function Join(parts: seq<string>, sep: string): string
  {
    if |parts| == 0 then ""
    else if |parts| == 1 then parts[0]
    else parts[0] + sep + Join(parts[1..], sep)
  }

  /** Appending a part to a builder adds the separator only when something preceded it. */
  lemma {:induction false} JoinSnoc(parts: seq<string>, p: string, sep: string)
    ensures Join(parts + [p], sep) == if parts == [] then p else Join(parts, sep) + sep + p
    decreases |parts|
  {
    if |parts| == 1 {
      assert parts + [p] == [parts[0], p];
      assert ([parts[0], p])[1..] == [p];
    } else if |parts| > 1 {
      assert (parts + [p])[1..] == parts[1..] + [p];
      JoinSnoc(parts[1..], p, sep);
    }
  }

  /** When every part is non-empty, the joined text is empty exactly when there are no parts. */
  lemma {:induction false} JoinEmptyIff(parts: seq<string>, sep: string)
    requires forall i :: 0 <= i < |parts| ==> parts[i] != ""
    ensures Join(parts, sep) == "" <==> parts == []
  {
    if |parts| >= 1 {
      assert Join(parts, sep)[..|parts[0]|] == parts[0];
    }
  }

  /** The joined text ends with the last part. */
  lemma JoinEndsWithLast(parts: seq<string>, sep: string)
    requires |parts| >= 1
    ensures var j := Join(parts, sep); var p := parts[|parts| - 1];
      |j| >= |p| && j[|j| - |p|..] == p
  {
    var init := parts[..|parts| - 1];
    assert parts == init + [parts[|parts| - 1]];
    JoinSnoc(init, parts[|parts| - 1], sep);
  }

  predicate IsUpperAscii(c: char) { 'A' <= c <= 'Z' }
  predicate IsLowerAscii(c: char) { 'a' <= c <= 'z' }

  /** `Character.toUpperCase`, restricted to the ASCII letters. */
  function UpperChar(c: char): (u: char)
    ensures IsLowerAscii(c) ==> IsUpperAscii(u)
    ensures !IsLowerAscii(c) ==> u == c
  {
    if IsLowerAscii(c) then (c as int - 32) as char else c
  }

  /** `Character.toLowerCase`, restricted to the ASCII letters. */
  function LowerChar(c: char): (l: char)
    ensures IsUpperAscii(c) ==> IsLowerAscii(l) && UpperChar(l) == c
    ensures !IsUpperAscii(c) ==> l == c
  {
    if IsUpperAscii(c) then (c as int + 32) as char else c
  }

  /** `String.toLowerCase`: every character mapped by LowerChar, length unchanged. */
  function ToLower(s: string): (r: string)
    ensures |r| == |s| && forall i :: 0 <= i < |s| ==> r[i] == LowerChar(s[i])
  {
    seq(|s|, i requires 0 <= i < |s| => LowerChar(s[i]))
  }

  function ToUpper(s: string): (r: string)
    ensures |r| == |s| && forall i :: 0 <= i < |s| ==> r[i] == UpperChar(s[i])
  {
    seq(|s|, i requires 0 <= i < |s| => UpperChar(s[i]))
  }

  /** The per-character test of `String.regionMatches(true, ...)`: equal, equal in upper case, or equal once lowered again. */
  predicate CharsEqualIgnoreCase(a: char, b: char)
  {
    a == b || UpperChar(a) == UpperChar(b) || LowerChar(UpperChar(a)) == LowerChar(UpperChar(b))
  }

  /** `a.equalsIgnoreCase(b)` for a non-null `b`. */
  predicate EqualsIgnoreCase(a: string, b: string)
  {
    |a| == |b| && forall i :: 0 <= i < |a| ==> CharsEqualIgnoreCase(a[i], b[i])
  }

  /** Lower-casing a string reverses to the string when it has no lower-case ASCII letter to begin with. */
  lemma UpperOfLower(s: string)
    requires forall i :: 0 <= i < |s| ==> !IsLowerAscii(s[i])
    ensures ToUpper(ToLower(s)) == s
  {
  }
}
