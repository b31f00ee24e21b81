/**
 * The two pieces of `java.lang` text behaviour the core relies on: the
 * decimal rendering of a `long` (string concatenation `"cart:" + userId`) and
 * `String.trim().isEmpty()`.
 */
module JavaText {
  import opened JavaInt

  function DigitChar(d: nat): (c: char)
    requires d < 10
    ensures '0' <= c <= '9'
  {
    "0123456789"[d]
  }

  function DigitValue(c: char): nat {
    if '0' <= c <= '9' then (c as int - '0' as int) as nat else 0
  }

  /** The decimal digits of `n`, most significant first, with no leading zero. */
  function Digits(n: nat): (s: string)
    ensures s != []
    ensures forall i :: 0 <= i < |s| ==> '0' <= s[i] <= '9'
  {
    if n < 10 then [DigitChar(n)] else Digits(n / 10) + [DigitChar(n % 10)]
  }

  /** `Long.toString(n)`: a minus sign for negative values, then the digits. */
  function LongToString(n: Int64): string {
    var m: int := n;
    if m < 0 then "-" + Digits(-m) else Digits(m)
  }

  /** Reads a string of decimal digits back. */
  function ParseDigits(s: string): nat {
    if s == [] then 0 else ParseDigits(s[..|s| - 1]) * 10 + DigitValue(s[|s| - 1])
  }

  /** Reads what `LongToString` writes. */
  function ParseLong(s: string): int {
    if s != [] && s[0] == '-' then 0 - ParseDigits(s[1..]) as int else ParseDigits(s)
  }

  lemma {:induction false} ParseDigitsOfDigits(n: nat)
    ensures ParseDigits(Digits(n)) == n
  {
    if n >= 10 {
      var s := Digits(n);
      assert s[..|s| - 1] == Digits(n / 10);
      ParseDigitsOfDigits(n / 10);
    } else {
      assert DigitValue("0123456789"[n]) == n;
    }
  }

  lemma ParseNegative(d: nat)
    ensures ParseLong("-" + Digits(d)) == -(d as int)
  {
    assert ("-" + Digits(d))[1..] == Digits(d);
    ParseDigitsOfDigits(d);
  }

  lemma ParseNonNegative(d: nat)
    ensures ParseLong(Digits(d)) == d
  {
    assert Digits(d)[0] != '-';
    ParseDigitsOfDigits(d);
  }

  /** The rendering of a `long` can be read back, so it is injective. */
  lemma LongToStringRoundTrip(n: Int64)
    ensures ParseLong(LongToString(n)) == n
  {
    var m: int := n;
    if m < 0 {
      ParseNegative(-m);
    } else {
      ParseNonNegative(m);
    }
  }

  lemma LongToStringInjective(a: Int64, b: Int64)
    ensures LongToString(a) == LongToString(b) <==> a == b
  {
    LongToStringRoundTrip(a);
    LongToStringRoundTrip(b);
  }

  /** `trim()` drops every character up to and including U+0020 from the front... */
  function TrimStart(s: string): (r: string)
    ensures r == [] || r[0] > ' '
  {
    if s != [] && s[0] <= ' ' then TrimStart(s[1..]) else s
  }

  /** ... and from the back. */
  function TrimEnd(s: string): (r: string)
    ensures |r| <= |s| && r == s[..|r|]
  {
    if s != [] && s[|s| - 1] <= ' ' then TrimEnd(s[..|s| - 1]) else s
  }

  /** `String.trim()`. */
  function Trim(s: string): string {
    TrimEnd(TrimStart(s))
  }

  lemma {:induction false} TrimStartEmpty(s: string)
    ensures TrimStart(s) == [] <==> forall i :: 0 <= i < |s| ==> s[i] <= ' '
  {
    if s != [] && s[0] <= ' ' {
      TrimStartEmpty(s[1..]);
      assert forall i :: 1 <= i < |s| ==> s[i] == s[1..][i - 1];
    }
  }

  /** `s.trim().isEmpty()` holds exactly when every character of `s` is a
      control character or a space. */
  lemma TrimEmptyIffBlank(s: string)
    ensures Trim(s) == [] <==> forall i :: 0 <= i < |s| ==> s[i] <= ' '
  {
    var t := TrimStart(s);
    TrimStartEmpty(s);
    if t != [] {
      assert TrimEnd(t) != [] by {
        TrimEndKeepsFirst(t);
      }
    }
  }

  lemma {:induction false} TrimEndKeepsFirst(t: string)
    requires t != [] && t[0] > ' '
    ensures TrimEnd(t) != []
  {
    if |t| > 1 && t[|t| - 1] <= ' ' {
      TrimEndKeepsFirst(t[..|t| - 1]);
    }
  }
}
