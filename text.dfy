/**
 * The character-level helpers the configuration parser relies on:
 * `strchr`-style truncation, `isspace` trimming, `strncmp` prefix tests,
 * and the `%d` / `atoi` integer conversions.
 */
module Text {
  import opened Wrappers

  /** The ASCII characters C's `isspace` accepts. */
  predicate IsSpace(c: char)
  {
    c == ' ' || c == '\t' || c == '\n' || c == '\U{B}' || c == '\U{C}' || c == '\r'
  }

  predicate IsDigit(c: char)
  {
    '0' <= c <= '9'
  }

  function DigitValue(c: char): (d: nat)
    requires IsDigit(c)
    ensures d < 10
  {
    (c as int) - ('0' as int)
  }

  function DigitChar(d: nat): (c: char)
    requires d < 10
    ensures IsDigit(c) && DigitValue(c) == d
  {
    (('0' as int) + d) as char
  }

  /** `strncmp(s, p, |p|) == 0` for a NUL-terminated `s`. */
  predicate StartsWith(s: string, p: string)
  {
    |p| <= |s| && s[..|p|] == p
  }

  /**
   * The effect of `c = strchr(s, ch); if (c) *c = '\0';`: everything from the
   * first occurrence of `ch` on is dropped.
   */
  function CutAt(s: string, ch: char): (r: string)
    ensures |r| <= |s| && s[..|r|] == r
    ensures ch !in r
    ensures r == s || s[|r|] == ch
  {
    if s == [] || s[0] == ch then [] else [s[0]] + CutAt(s[1..], ch)
  }

  /** Cutting a concatenation cuts the first part if it holds `ch`, otherwise the second. */
  lemma {:induction false} CutAtAppend(a: string, b: string, ch: char)
    ensures CutAt(a + b, ch) == if ch in a then CutAt(a, ch) else a + CutAt(b, ch)
  {
    if a == [] {
      assert a + b == b;
    } else if a[0] == ch {
    } else {
      assert (a + b)[1..] == a[1..] + b;
      CutAtAppend(a[1..], b, ch);
      assert ch in a <==> ch in a[1..];
    }
  }

  /** Cutting at a character that does not occur changes nothing. */
  lemma CutAtAbsent(s: string, ch: char)
    requires ch !in s
    ensures CutAt(s, ch) == s
  {
  }

  /** `while (isspace(*s)) s++;` */
  function TrimLeft(s: string): (r: string)
    ensures |r| <= |s| && r == s[|s| - |r|..]
    ensures r == [] || !IsSpace(r[0])
    ensures forall k :: 0 <= k < |s| - |r| ==> IsSpace(s[k])
  {
    if s != [] && IsSpace(s[0]) then TrimLeft(s[1..]) else s
  }

  /** Leading whitespace never survives trimming. */
  lemma {:induction false} TrimLeftSkipsSpaces(w: string, s: string)
    requires forall k :: 0 <= k < |w| ==> IsSpace(w[k])
    ensures TrimLeft(w + s) == TrimLeft(s)
  {
    if w != [] {
      assert (w + s)[1..] == w[1..] + s;
      TrimLeftSkipsSpaces(w[1..], s);
    } else {
      assert w + s == s;
    }
  }

  /** Length of the run of decimal digits at the front of `s`. */
  function LeadingDigits(s: string): (n: nat)
    ensures n <= |s|
    ensures forall k :: 0 <= k < n ==> IsDigit(s[k])
    ensures n == |s| || !IsDigit(s[n])
  {
    if s != [] && IsDigit(s[0]) then 1 + LeadingDigits(s[1..]) else 0
  }

  predicate AllDigits(s: string)
  {
    forall k :: 0 <= k < |s| ==> IsDigit(s[k])
  }

  /** Decimal value of a digit string, most significant digit first. */
  function DigitsValue(s: string): nat
    requires AllDigits(s)
  {
    if s == [] then 0 else DigitsValue(s[..|s| - 1]) * 10 + DigitValue(s[|s| - 1])
  }

  /**
   * One `%d` conversion: optional whitespace, an optional sign, then at least
   * one digit. Yields the value and the text after the digits, or None when
   * no digit follows.
   */
  function ScanInt(s: string): Option<(int, string)>
  {
    ScanSigned(TrimLeft(s))
  }

  /** The sign, if any, then the digits. */
  function ScanSigned(t: string): Option<(int, string)>
  {
    if t != [] && t[0] == '-' then Negate(ScanDigits(t[1..]))
    else if t != [] && t[0] == '+' then ScanDigits(t[1..])
    else ScanDigits(t)
  }

  function Negate(o: Option<(int, string)>): Option<(int, string)>
  {
    match o
    case None => None
    case Some((v, rest)) => Some((-v, rest))
  }

  /** The value of the leading digits and the text after them, or None when there is no digit. */
  function ScanDigits(body: string): Option<(int, string)>
  {
    var n := LeadingDigits(body);
    if n == 0 then None else Some((DigitsValue(body[..n]) as int, body[n..]))
  }

  /** `atoi`: the `%d` value, or 0 when there is none. */
  function Atoi(s: string): int
  {
    match ScanInt(s)
    case Some((v, _)) => v
    case None => 0
  }

  /** `sscanf(s, "%d:%d", &a, &b) == 2`: both numbers, when both convert. */
  function ScanPair(s: string): Option<(int, int)>
  {
    match ScanInt(s)
    case None => None
    case Some((a, rest)) =>
      if rest != [] && rest[0] == ':' then
        match ScanInt(rest[1..])
        case None => None
        case Some((b, _)) => Some((a, b))
      else None
  }

  /** Decimal rendering of a natural number: the inverse partner of DigitsValue. */
  function ShowNat(n: nat): (s: string)
    ensures s != [] && AllDigits(s)
  {
    if n < 10 then [DigitChar(n)] else ShowNat(n / 10) + [DigitChar(n % 10)]
  }

  /** Decimal rendering of an integer, with `-` for negatives. */
  function ShowInt(n: int): (s: string)
    ensures s != [] && (IsDigit(s[0]) || s[0] == '-')
    ensures forall k :: 0 <= k < |s| ==> IsDigit(s[k]) || s[k] == '-'
  {
    if n < 0 then "-" + ShowNat(-n) else ShowNat(n)
  }

  lemma {:induction false} DigitsValueShowNat(n: nat)
    ensures DigitsValue(ShowNat(n)) == n
  {
    if n >= 10 {
      var s := ShowNat(n);
      assert s[..|s| - 1] == ShowNat(n / 10);
      DigitsValueShowNat(n / 10);
    }
  }

  lemma {:induction false} LeadingDigitsAppend(a: string, b: string)
    requires AllDigits(a)
    requires b == [] || !IsDigit(b[0])
    ensures LeadingDigits(a + b) == |a|
  {
    if a == [] {
      assert a + b == b;
    } else {
      assert (a + b)[1..] == a[1..] + b;
      LeadingDigitsAppend(a[1..], b);
    }
  }

  /** A non-empty digit string followed by a non-digit: its value, and the rest left over. */
  lemma ScanDigitsOf(d: string, rest: string)
    requires d != [] && AllDigits(d)
    requires rest == [] || !IsDigit(rest[0])
    ensures ScanDigits(d + rest) == Some((DigitsValue(d) as int, rest))
  {
    var s := d + rest;
    LeadingDigitsAppend(d, rest);
    assert s[..|d|] == d;
    assert s[|d|..] == rest;
  }

  lemma TrimLeftNoSpace(s: string)
    requires s != [] && !IsSpace(s[0])
    ensures TrimLeft(s) == s
  {
  }

  lemma ScanUnsignedOf(d: string, rest: string)
    requires d != [] && AllDigits(d)
    requires rest == [] || !IsDigit(rest[0])
    ensures ScanInt(d + rest) == Some((DigitsValue(d) as int, rest))
  {
    assert (d + rest)[0] == d[0];
    TrimLeftNoSpace(d + rest);
    ScanDigitsOf(d, rest);
  }

  lemma MinusSplit(d: string, rest: string)
    ensures ("-" + d + rest)[0] == '-' && ("-" + d + rest)[1..] == d + rest
  {
  }

  /** A leading `-` negates what the digits after it convert to. */
  lemma ScanMinusSign(t: string)
    requires t != [] && t[0] == '-'
    ensures ScanInt(t) == Negate(ScanDigits(t[1..]))
  {
    TrimLeftNoSpace(t);
  }

  lemma ScanNegativeOf(d: string, rest: string)
    requires d != [] && AllDigits(d)
    requires rest == [] || !IsDigit(rest[0])
    ensures ScanInt("-" + d + rest) == Some((-(DigitsValue(d) as int), rest))
  {
    MinusSplit(d, rest);
    ScanMinusSign("-" + d + rest);
    ScanDigitsOf(d, rest);
  }

  /** Reading back a rendered integer recovers it and leaves the rest untouched. */
  lemma ScanShowInt(n: int, rest: string)
    requires rest == [] || !IsDigit(rest[0])
    ensures ScanInt(ShowInt(n) + rest) == Some((n, rest))
  {
    if n < 0 {
      assert ShowInt(n) + rest == "-" + ShowNat(-n) + rest;
      ScanNegativeOf(ShowNat(-n), rest);
      DigitsValueShowNat(-n);
    } else {
      assert ShowInt(n) == ShowNat(n);
      ScanUnsignedOf(ShowNat(n), rest);
      DigitsValueShowNat(n);
    }
  }

  /** `atoi` inverts ShowInt. */
  lemma AtoiShowInt(n: int)
    ensures Atoi(ShowInt(n)) == n
  {
    ScanShowInt(n, []);
    assert ShowInt(n) + [] == ShowInt(n);
  }

  /** `sscanf("%d:%d")` reads back two rendered integers joined by a colon. */
  lemma ScanPairShow(a: int, b: int)
    ensures ScanPair(ShowInt(a) + ":" + ShowInt(b)) == Some((a, b))
  {
    var rest := ":" + ShowInt(b);
    assert ShowInt(a) + ":" + ShowInt(b) == ShowInt(a) + rest;
    ScanShowInt(a, rest);
    assert rest[1..] == ShowInt(b) + [];
    ScanShowInt(b, []);
  }
}
