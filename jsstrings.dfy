/** The JavaScript string operations the engine relies on: `trim`,
    `indexOf`, `split` and `parseInt` (without a radix argument). */
module JsStrings {

  import opened Wrappers

  /** The characters JavaScript's `trim` and `parseInt` skip: the WhiteSpace
      and LineTerminator code points of ECMAScript. */
  predicate IsSpace(c: char) {
    || c == '\t' || c == '\n' || c == '\U{000B}' || c == '\U{000C}' || c == '\r'
    || c == ' ' || c == '\U{00A0}' || c == '\U{1680}'
    || ('\U{2000}' <= c <= '\U{200A}')
    || c == '\U{2028}' || c == '\U{2029}' || c == '\U{202F}' || c == '\U{205F}'
    || c == '\U{3000}' || c == '\U{FEFF}'
  }

  /** The first position at or after `i` that does not hold white space (`|s|` if none). */
  function SkipSpaces(s: string, i: nat): (j: nat)
    requires i <= |s|
    ensures i <= j <= |s|
    ensures forall k :: i <= k < j ==> IsSpace(s[k])
    ensures j < |s| ==> !IsSpace(s[j])
    decreases |s| - i
  {
    if i < |s| && IsSpace(s[i]) then SkipSpaces(s, i + 1) else i
  }

  /** The end of `s[lo..hi]` once its trailing white space is dropped. */
  function BackOverSpaces(s: string, lo: nat, hi: nat): (e: nat)
    requires lo <= hi <= |s|
    ensures lo <= e <= hi
    ensures forall k :: e <= k < hi ==> IsSpace(s[k])
    ensures e > lo ==> !IsSpace(s[e - 1])
  {
    if hi > lo && IsSpace(s[hi - 1]) then BackOverSpaces(s, lo, hi - 1) else hi
  }

  /** How many white-space characters `trim` removes from the front of `s`. */
  function Leading(s: string): nat {
    SkipSpaces(s, 0)
  }

  /** `s` without its leading white space, as `parseInt` first does. */
  function TrimStart(s: string): (r: string)
    ensures r == s[Leading(s)..]
    ensures forall k :: 0 <= k < |s| - |r| ==> IsSpace(s[k])
    ensures r != [] ==> !IsSpace(r[0])
  {
    s[SkipSpaces(s, 0)..]
  }

  /** JavaScript's `String.prototype.trim`: the infix of `s` left after removing
      white space at both ends; it starts and ends with a non-space. */
  function Trim(s: string): (r: string)
    ensures Leading(s) + |r| <= |s| && r == s[Leading(s)..Leading(s) + |r|]
    ensures forall k :: 0 <= k < Leading(s) ==> IsSpace(s[k])
    ensures forall k :: Leading(s) + |r| <= k < |s| ==> IsSpace(s[k])
    ensures r != [] ==> !IsSpace(r[0]) && !IsSpace(r[|r| - 1])
  {
    var start := SkipSpaces(s, 0);
    s[start..BackOverSpaces(s, start, |s|)]
  }

  /** JavaScript's `indexOf` for a character known to occur: the first position of `c`. */
  function IndexOf(s: string, c: char): (r: nat)
    requires c in s
    ensures r < |s| && s[r] == c && c !in s[..r]
  {
    if s[0] == c then 0 else 1 + IndexOf(s[1..], c)
  }

  /** Number of occurrences of `c` in `s`. */
  function Count(s: string, c: char): (n: nat)
    ensures n == 0 <==> c !in s
  {
    if s == [] then 0 else Count(s[1..], c) + (if s[0] == c then 1 else 0)
  }

  /** The inverse of `Split`: the parts glued together with `sep` between them. */
  function Join(parts: seq<string>, sep: char): string
    requires |parts| >= 1
  {
    if |parts| == 1 then parts[0] else parts[0] + [sep] + Join(parts[1..], sep)
  }

  /** Putting a character in front of the first part puts it in front of the joined string. */
  lemma JoinPrepend(c: char, rest: seq<string>, sep: char)
    requires |rest| >= 1
    ensures Join([[c] + rest[0]] + rest[1..], sep) == [c] + Join(rest, sep)
  {
    var parts := [[c] + rest[0]] + rest[1..];
    if |rest| > 1 {
      assert parts[1..] == rest[1..];
    }
  }

  /** JavaScript's `split` with a one-character separator: one part more than
      there are separators, no part holds the separator, and joining the
      parts with the separator gives `s` back. */
  function Split(s: string, sep: char): (parts: seq<string>)
    ensures |parts| == Count(s, sep) + 1
    ensures forall i :: 0 <= i < |parts| ==> sep !in parts[i]
    ensures Join(parts, sep) == s
  {
    if s == [] then [[]]
    else
      var rest := Split(s[1..], sep);
      assert s == [s[0]] + s[1..];
      if s[0] == sep then
        [[]] + rest
      else
        JoinPrepend(s[0], rest, sep);
        [[s[0]] + rest[0]] + rest[1..]
  }

  /** The value of a character as a digit of any radix up to 36; 36 when it is not a digit. */
  function DigitOf(c: char): nat {
    if '0' <= c <= '9' then (c as int) - ('0' as int)
    else if 'a' <= c <= 'z' then (c as int) - ('a' as int) + 10
    else if 'A' <= c <= 'Z' then (c as int) - ('A' as int) + 10
    else 36
  }

  /** The longest prefix of `s` made of digits of the given radix. */
  function TakeDigits(s: string, radix: nat): (d: string)
    ensures |d| <= |s| && d == s[..|d|]
    ensures forall i :: 0 <= i < |d| ==> DigitOf(d[i]) < radix
    ensures |d| < |s| ==> DigitOf(s[|d|]) >= radix
  {
    if s != [] && DigitOf(s[0]) < radix then [s[0]] + TakeDigits(s[1..], radix) else []
  }

  /** The number a string of digits denotes in the given radix, most significant first. */
  function Numeral(d: string, radix: nat): int
    requires forall i :: 0 <= i < |d| ==> DigitOf(d[i]) < radix
  {
    if d == [] then 0
    else
      assert forall i :: 0 <= i < |d| - 1 ==> d[..|d| - 1][i] == d[i];
      Numeral(d[..|d| - 1], radix) * radix + DigitOf(d[|d| - 1])
  }

  /** The digits part of `parseInt`: after a `0x`/`0X` prefix read radix 16,
      otherwise radix 10; `None` when no digit follows. */
  function ParseDigits(u: string): Option<int> {
    var hex := |u| >= 2 && u[0] == '0' && (u[1] == 'x' || u[1] == 'X');
    var radix := if hex then 16 else 10;
    var digits := TakeDigits(if hex then u[2..] else u, radix);
    if digits == [] then None else Some(Numeral(digits, radix))
  }

  /** `n` with the sign `parseInt` read. */
  function Signed(negative: bool, n: int): int {
    if negative then -n else n
  }

  /** The sign part of `parseInt`: an optional `-` or `+` before the digits. */
  function ParseSigned(t: string): Option<int> {
    var negative := t != [] && t[0] == '-';
    var rest := if t != [] && (t[0] == '-' || t[0] == '+') then t[1..] else t;
    match ParseDigits(rest)
    case None => None
    case Some(n) => Some(Signed(negative, n))
  }

  /** JavaScript's `parseInt(s)` with no radix: skip leading white space, read an
      optional sign, switch to radix 16 after a `0x`/`0X` prefix, and read the longest
      run of digits. `None` stands for NaN (no digit at all). */
  function ParseInt(s: string): Option<int> {
    ParseSigned(TrimStart(s))
  }

  /** The decimal digits of `n`, without leading zeros. */
  function DecimalString(n: nat): (s: string)
    ensures s != [] && forall i :: 0 <= i < |s| ==> DigitOf(s[i]) < 10
    ensures s[0] == '0' ==> n == 0 && |s| == 1
  {
    var last := [(('0' as int) + n % 10) as char];
    if n < 10 then last else DecimalString(n / 10) + last
  }

  /** The decimal rendering of an integer, with a `-` sign when negative. */
  function IntToString(n: int): string {
    if n < 0 then "-" + DecimalString(-n) else DecimalString(n)
  }

  lemma {:induction false} NumeralOfDecimal(n: nat)
    ensures Numeral(DecimalString(n), 10) == n
  {
    var s := DecimalString(n);
    if n >= 10 {
      NumeralOfDecimal(n / 10);
      assert s[..|s| - 1] == DecimalString(n / 10);
    }
  }

  lemma {:induction false} TakeDigitsAfterNumeral(d: string, t: string, radix: nat)
    requires forall i :: 0 <= i < |d| ==> DigitOf(d[i]) < radix
    requires t == [] || DigitOf(t[0]) >= radix
    ensures TakeDigits(d + t, radix) == d
  {
    if d != [] {
      assert (d + t)[1..] == d[1..] + t;
      TakeDigitsAfterNumeral(d[1..], t, radix);
    } else {
      assert d + t == t;
    }
  }

  lemma ParseDigitsOfDecimal(m: nat, t: string)
    requires t == [] || (DigitOf(t[0]) >= 10 && t[0] != 'x' && t[0] != 'X')
    ensures ParseDigits(DecimalString(m) + t) == Some(m)
  {
    var d := DecimalString(m);
    NumeralOfDecimal(m);
    TakeDigitsAfterNumeral(d, t, 10);
    if |d + t| >= 2 && (d + t)[0] == '0' {
      assert (d + t)[1] == t[0];
    }
  }

  lemma NotSpace(c: char)
    requires c == '-' || DigitOf(c) < 10
    ensures !IsSpace(c)
  {
  }

  lemma ParseSignedMinus(u: string, m: nat)
    requires ParseDigits(u) == Some(m)
    ensures ParseSigned(['-'] + u) == Some(Signed(true, m))
  {
    assert (['-'] + u)[1..] == u;
  }

  lemma ParseSignedUnsigned(u: string, m: nat)
    requires ParseDigits(u) == Some(m)
    requires u != [] && DigitOf(u[0]) < 10
    ensures ParseSigned(u) == Some(m)
  {
  }

  lemma ParseIntNoSpace(s: string, n: int)
    requires s != [] && (s[0] == '-' || DigitOf(s[0]) < 10)
    requires ParseSigned(s) == Some(n)
    ensures ParseInt(s) == Some(n)
  {
    NotSpace(s[0]);
  }

  lemma ParseIntOfUnsigned(m: nat, t: string)
    requires t == [] || (DigitOf(t[0]) >= 10 && t[0] != 'x' && t[0] != 'X')
    ensures ParseInt(DecimalString(m) + t) == Some(m)
  {
    var u := DecimalString(m) + t;
    ParseDigitsOfDecimal(m, t);
    assert u[0] == DecimalString(m)[0];
    ParseSignedUnsigned(u, m);
    ParseIntNoSpace(u, m);
  }

  lemma ParseIntOfNegative(m: nat, t: string)
    requires t == [] || (DigitOf(t[0]) >= 10 && t[0] != 'x' && t[0] != 'X')
    ensures ParseInt(['-'] + DecimalString(m) + t) == Some(Signed(true, m))
  {
    var u := DecimalString(m) + t;
    var s := ['-'] + DecimalString(m) + t;
    assert s == ['-'] + u;
    ParseDigitsOfDecimal(m, t);
    ParseSignedMinus(u, m);
    ParseIntNoSpace(s, Signed(true, m));
  }

  /** `parseInt` reads back the decimal rendering of any integer, and stops at the
      first character that is not a digit (so "2.2" reads as 2 and "42abc" as 42). */
  lemma ParseIntOfDecimal(n: int, t: string)
    requires t == [] || (DigitOf(t[0]) >= 10 && t[0] != 'x' && t[0] != 'X')
    ensures ParseInt(IntToString(n) + t) == Some(n)
  {
    if n < 0 {
      var m: nat := -n;
      assert IntToString(n) == ['-'] + DecimalString(m);
      ParseIntOfNegative(m, t);
    } else {
      assert IntToString(n) == DecimalString(n);
      ParseIntOfUnsigned(n, t);
    }
  }

  /** Skipping white space in `[c] + s` from one past `c` is skipping it in `s`, shifted by one. */
  lemma {:induction false} SkipSpacesShift(c: char, s: string, i: nat)
    requires i <= |s|
    ensures SkipSpaces([c] + s, i + 1) == 1 + SkipSpaces(s, i)
    decreases |s| - i
  {
    assert ([c] + s)[i + 1..] == s[i..];
    if i < |s| && IsSpace(s[i]) {
      SkipSpacesShift(c, s, i + 1);
    }
  }

  /** `parseInt` skips leading white space, as in `parseInt(' 42')`. */
  lemma ParseIntSkipsSpace(c: char, s: string)
    requires IsSpace(c)
    ensures ParseInt([c] + s) == ParseInt(s)
  {
    SkipSpacesShift(c, s, 0);
    assert TrimStart([c] + s) == TrimStart(s);
  }
}
