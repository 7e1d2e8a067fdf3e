/**
 * The string primitives the forms rely on: String.prototype.trim, parseInt(text, 10)
 * and the decimal rendering of an integer by Number.prototype.toString.
 */
module Text {
  import opened Types

  /** The white-space characters trim and parseInt skip (the common ones; see README). */
  predicate IsSpace(c: char) {
    c == ' ' || c == '\t' || c == '\n' || c == '\r' || c == '\U{000B}' || c == '\U{000C}'
    || c == '\U{00A0}' || c == '\U{FEFF}' || c == '\U{2028}' || c == '\U{2029}'
  }

  predicate IsDigit(c: char) { '0' <= c <= '9' }

  /** How many white-space characters `s` starts with. */
  function LeadingSpace(s: string): (n: nat)
    ensures n <= |s|
    ensures forall k :: 0 <= k < n ==> IsSpace(s[k])
    ensures n < |s| ==> !IsSpace(s[n])
  {
    if s != [] && IsSpace(s[0]) then
      var m := LeadingSpace(s[1..]);
      assert forall k :: 1 <= k < m + 1 ==> s[k] == s[1..][k - 1];
      m + 1
    else 0
  }

  /** How many white-space characters `s` ends with. */
  function TrailingSpace(s: string): (n: nat)
    ensures n <= |s|
    ensures forall k :: |s| - n <= k < |s| ==> IsSpace(s[k])
    ensures n < |s| ==> !IsSpace(s[|s| - n - 1])
  {
    if s != [] && IsSpace(s[|s| - 1]) then
      var m := TrailingSpace(s[..|s| - 1]);
      assert forall k :: |s| - 1 - m <= k < |s| - 1 ==> s[k] == s[..|s| - 1][k];
      m + 1
    else 0
  }

  /** Drops leading white space: the result is the suffix after the longest white prefix. */
  function TrimStart(s: string): (r: string)
    ensures |r| <= |s| && r == s[|s| - |r|..]
    ensures forall k :: 0 <= k < |s| - |r| ==> IsSpace(s[k])
    ensures r == [] || !IsSpace(r[0])
  {
    s[LeadingSpace(s)..]
  }

  /** Drops trailing white space: the result is the prefix before the longest white suffix. */
  function TrimEnd(s: string): (r: string)
    ensures |r| <= |s| && r == s[..|r|]
    ensures forall k :: |r| <= k < |s| ==> IsSpace(s[k])
    ensures r == [] || !IsSpace(r[|r| - 1])
  {
    s[..|s| - TrailingSpace(s)]
  }

  /**
   * String.prototype.trim: `s` with its leading white space (the first `a` characters) and its
   * trailing white space cut off, and neither end of what is left white.
   */
  function Trim(s: string): (r: string)
    ensures var a := |s| - |TrimStart(s)|;
      && a + |r| <= |s| && r == s[a..a + |r|]
      && (forall k :: 0 <= k < a ==> IsSpace(s[k]))
      && (forall k :: a + |r| <= k < |s| ==> IsSpace(s[k]))
    ensures r == [] || (!IsSpace(r[0]) && !IsSpace(r[|r| - 1]))
  {
    var t := TrimStart(s);
    var r := TrimEnd(t);
    CutBothEnds(s, t, r);
    r
  }

  /**
   * A prefix `r` of a suffix `t` of `s`, where `t` starts with no white space and what follows
   * `r` in `t` is white, is a slice of `s` followed only by white space and white at neither end.
   */
  lemma CutBothEnds(s: string, t: string, r: string)
    requires |t| <= |s| && t == s[|s| - |t|..]
    requires t == [] || !IsSpace(t[0])
    requires |r| <= |t| && r == t[..|r|]
    requires forall k :: |r| <= k < |t| ==> IsSpace(t[k])
    requires r == [] || !IsSpace(r[|r| - 1])
    ensures var a := |s| - |t|;
      && a + |r| <= |s| && r == s[a..a + |r|]
      && (forall k :: a + |r| <= k < |s| ==> IsSpace(s[k]))
    ensures r == [] || (!IsSpace(r[0]) && !IsSpace(r[|r| - 1]))
  {
    var a := |s| - |t|;
    forall k | a + |r| <= k < |s|
      ensures IsSpace(s[k])
    {
      assert s[k] == t[k - a];
    }
    if r != [] {
      assert r[0] == t[0];
    }
  }

  lemma TrimFixesUnpadded(s: string)
    requires s == [] || (!IsSpace(s[0]) && !IsSpace(s[|s| - 1]))
    ensures Trim(s) == s
  {
  }

  lemma {:induction false} TrimIdempotent(s: string)
    ensures Trim(Trim(s)) == Trim(s)
  {
    TrimFixesUnpadded(Trim(s));
  }

  /** The longest prefix of `s` made of decimal digits. */
  function DigitPrefix(s: string): (r: string)
    ensures |r| <= |s| && r == s[..|r|]
    ensures forall k :: 0 <= k < |r| ==> IsDigit(r[k])
    ensures |r| < |s| ==> !IsDigit(s[|r|])
  {
    if s != [] && IsDigit(s[0]) then [s[0]] + DigitPrefix(s[1..]) else []
  }

  /** The value of a digit string, read left to right as parseInt accumulates it. */
  function DigitsValue(ds: string): (v: nat)
    requires forall k :: 0 <= k < |ds| ==> IsDigit(ds[k])
  {
    if ds == [] then 0
    else
      var d := ds[|ds| - 1] as int - '0' as int;
      assert IsDigit(ds[|ds| - 1]);
      DigitsValue(ds[..|ds| - 1]) * 10 + d
  }

  /** Whether `t` starts, after an optional sign, with a digit. */
  predicate StartsNumeric(t: string) {
    (|t| > 0 && IsDigit(t[0])) || (|t| > 1 && (t[0] == '-' || t[0] == '+') && IsDigit(t[1]))
  }

  /** The longest run of leading digits of `r` as a number; None when there is none. */
  function ParseDigits(r: string): (v: Option<int>)
    ensures v.Some? <==> (r != [] && IsDigit(r[0]))
    ensures v.Some? ==> v.value >= 0
  {
    var ds := DigitPrefix(r);
    if ds == [] then None else Some(DigitsValue(ds))
  }

  /** An optional sign followed by digits. */
  function ParseSigned(t: string): (v: Option<int>)
    ensures v.Some? <==> StartsNumeric(t)
  {
    if t != [] && t[0] == '-' then
      match ParseDigits(t[1..])
      case None => None
      case Some(n) => Some(-n)
    else if t != [] && t[0] == '+' then ParseDigits(t[1..])
    else ParseDigits(t)
  }

  /**
   * parseInt(s, 10): skip leading white space, read an optional sign and then the longest
   * run of digits; NaN (None) when that run is empty. Anything after the digits is ignored.
   */
  function ParseInt(s: string): (r: Option<int>)
    ensures r.Some? <==> StartsNumeric(TrimStart(s))
  {
    ParseSigned(TrimStart(s))
  }

  function DigitChar(d: nat): (c: char)
    requires d < 10
    ensures IsDigit(c) && c as int - '0' as int == d
  {
    ('0' as int + d) as char
  }

  /** The decimal digits of a natural number, most significant first, without leading zeros. */
  function NatDigits(n: nat): (ds: string)
    ensures ds != [] && forall k :: 0 <= k < |ds| ==> IsDigit(ds[k])
  {
    if n < 10 then [DigitChar(n)] else NatDigits(n / 10) + [DigitChar(n % 10)]
  }

  /** Number.prototype.toString() of an integer. */
  function ToDecimal(n: int): (s: string)
    ensures s != [] && !IsSpace(s[0]) && !IsSpace(s[|s| - 1])
  {
    if n < 0 then "-" + NatDigits(-n) else NatDigits(n)
  }

  lemma {:induction false} NatDigitsValue(n: nat)
    ensures DigitsValue(NatDigits(n)) == n
  {
    if n >= 10 {
      NatDigitsValue(n / 10);
      var ds := NatDigits(n);
      assert ds[..|ds| - 1] == NatDigits(n / 10);
    }
  }

  lemma {:induction false} DigitPrefixOfDigits(ds: string)
    requires forall k :: 0 <= k < |ds| ==> IsDigit(ds[k])
    ensures DigitPrefix(ds) == ds
  {
    if ds != [] {
      DigitPrefixOfDigits(ds[1..]);
    }
  }

  lemma ParseDigitsOfDigits(ds: string)
    requires ds != [] && forall k :: 0 <= k < |ds| ==> IsDigit(ds[k])
    ensures ParseDigits(ds) == Some(DigitsValue(ds))
  {
    DigitPrefixOfDigits(ds);
  }

  /** The digit run of digits followed by a non-digit is exactly those digits. */
  lemma {:induction false} DigitPrefixStops(ds: string, rest: string)
    requires forall k :: 0 <= k < |ds| ==> IsDigit(ds[k])
    requires rest == [] || !IsDigit(rest[0])
    ensures DigitPrefix(ds + rest) == ds
  {
    if ds == [] {
      assert ds + rest == rest;
    } else {
      DigitPrefixStops(ds[1..], rest);
      assert (ds + rest)[1..] == ds[1..] + rest;
    }
  }

  /** Round trip: parseInt reads back every integer that toString renders. */
  lemma {:induction false} ParseIntToDecimal(n: int)
    ensures ParseInt(ToDecimal(n)) == Some(n)
  {
    var m: nat := if n < 0 then -n else n;
    var ds := NatDigits(m);
    NatDigitsValue(m);
    ParseDigitsOfDigits(ds);
    var s := ToDecimal(n);
    assert !IsSpace(s[0]);
    assert TrimStart(s) == s;
    if n < 0 {
      assert s[0] == '-' && s[1..] == ds;
    } else {
      assert IsDigit(ds[0]) && s == ds;
    }
  }

  /** parseInt stops at the first character that is not a digit: `parseInt("12abc")` is 12. */
  lemma ParseIntIgnoresTail(n: int, rest: string)
    requires rest == [] || !IsDigit(rest[0])
    ensures ParseInt(ToDecimal(n) + rest) == Some(n)
  {
    UnpaddedStart(ToDecimal(n), rest);
    SignedIgnoresTail(n, rest);
  }

  /** Text whose first character is not white space is not changed by TrimStart, whatever follows. */
  lemma UnpaddedStart(a: string, rest: string)
    requires a != [] && !IsSpace(a[0])
    ensures TrimStart(a + rest) == a + rest
  {
    assert (a + rest)[0] == a[0];
  }

  /** The sign and the digit run of a rendering are read back whatever non-digit follows. */
  lemma SignedIgnoresTail(n: int, rest: string)
    requires rest == [] || !IsDigit(rest[0])
    ensures ParseSigned(ToDecimal(n) + rest) == Some(n)
  {
    var m: nat := if n < 0 then -n else n;
    var ds := NatDigits(m);
    NatDigitsValue(m);
    DigitsIgnoreTail(ds, rest);
    if n < 0 {
      NegativeRendering(n, rest);
      NegativeSign(ToDecimal(n) + rest, DigitsValue(ds));
    } else {
      UnsignedIgnoresTail(ds, rest);
    }
  }

  /** The rendering of a negative number is a minus sign and the digits of its magnitude. */
  lemma NegativeRendering(n: int, rest: string)
    requires n < 0
    ensures var s := ToDecimal(n) + rest; s != [] && s[0] == '-' && s[1..] == NatDigits(-n) + rest
  {
    var s := ToDecimal(n) + rest;
    assert s == "-" + (NatDigits(-n) + rest);
  }

  /** A minus sign followed by a digit run that parses to `v` parses to `-v`. */
  lemma NegativeSign(s: string, v: int)
    requires s != [] && s[0] == '-' && ParseDigits(s[1..]) == Some(v)
    ensures ParseSigned(s) == Some(-v)
  {
  }

  lemma UnsignedIgnoresTail(ds: string, rest: string)
    requires ds != [] && forall k :: 0 <= k < |ds| ==> IsDigit(ds[k])
    requires rest == [] || !IsDigit(rest[0])
    ensures ParseSigned(ds + rest) == Some(DigitsValue(ds))
  {
    assert (ds + rest)[0] == ds[0];
    DigitsIgnoreTail(ds, rest);
  }

  /** A digit run followed by a non-digit parses to the run's value. */
  lemma DigitsIgnoreTail(ds: string, rest: string)
    requires ds != [] && forall k :: 0 <= k < |ds| ==> IsDigit(ds[k])
    requires rest == [] || !IsDigit(rest[0])
    ensures ParseDigits(ds + rest) == Some(DigitsValue(ds))
  {
    DigitPrefixStops(ds, rest);
  }
}
