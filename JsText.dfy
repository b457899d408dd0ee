/**
 * The two pieces of JavaScript string behaviour the screens rely on:
 * `String.prototype.trim` (used by the login and home-naming checks) and
 * `Number.prototype.toString` on an integer (used to store the home id).
 */
module JsText {
  import opened Common

  /**
   * A character that `trim` removes: ECMAScript WhiteSpace (TAB, VT, FF,
   * ZWNBSP and every Unicode space separator) and LineTerminator (LF, CR, LS, PS).
   */
  predicate IsTrimmable(c: char) {
    || c == '\t' || c == '\U{000B}' || c == '\U{000C}' || c == ' '
    || c == '\U{00A0}' || c == '\U{FEFF}' || c == '\U{1680}'
    || ('\U{2000}' <= c <= '\U{200A}')
    || c == '\U{202F}' || c == '\U{205F}' || c == '\U{3000}'
    || c == '\n' || c == '\r' || c == '\U{2028}' || c == '\U{2029}'
  }

  /** Every character of `s` is one that `trim` removes (the empty string included). */
  predicate Blank(s: string) {
    forall i :: 0 <= i < |s| ==> IsTrimmable(s[i])
  }

  /** `s` without its leading trimmable characters. */
  function TrimStart(s: string): string {
    if s != [] && IsTrimmable(s[0]) then TrimStart(s[1..]) else s
  }

  /** `s` without its trailing trimmable characters. */
  function TrimEnd(s: string): string {
    if s != [] && IsTrimmable(s[|s| - 1]) then TrimEnd(s[..|s| - 1]) else s
  }

  /** `String.prototype.trim`: never longer, and neither starts nor ends with a trimmable character. */
  function Trim(s: string): (r: string)
    ensures |r| <= |s|
    ensures r == [] || (!IsTrimmable(r[0]) && !IsTrimmable(r[|r| - 1]))
  {
    TrimStartDropsPrefix(s);
    TrimEndDropsSuffix(TrimStart(s));
    TrimEnd(TrimStart(s))
  }

  /** TrimStart drops the longest trimmable prefix and nothing else. */
  lemma {:induction false} TrimStartDropsPrefix(s: string)
    ensures |TrimStart(s)| <= |s|
    ensures TrimStart(s) == s[|s| - |TrimStart(s)|..]
    ensures forall i :: 0 <= i < |s| - |TrimStart(s)| ==> IsTrimmable(s[i])
    ensures TrimStart(s) == [] || !IsTrimmable(TrimStart(s)[0])
  {
    if s != [] && IsTrimmable(s[0]) {
      var tail := s[1..];
      TrimStartDropsPrefix(tail);
      var r := TrimStart(tail);
      assert TrimStart(s) == r;
      assert tail[|tail| - |r|..] == s[|s| - |r|..];
      forall i | 0 < i < |s| - |r|
        ensures IsTrimmable(s[i])
      {
        assert s[i] == tail[i - 1];
      }
    } else {
      assert TrimStart(s) == s;
    }
  }

  /** TrimEnd drops the longest trimmable suffix and nothing else. */
  lemma {:induction false} TrimEndDropsSuffix(s: string)
    ensures var r := TrimEnd(s);
      && |r| <= |s| && r == s[..|r|]
      && (forall i :: |r| <= i < |s| ==> IsTrimmable(s[i]))
      && (r == [] || !IsTrimmable(r[|r| - 1]))
  {
    if s != [] && IsTrimmable(s[|s| - 1]) {
      TrimEndDropsSuffix(s[..|s| - 1]);
    }
  }

  /** `s.trim()` is falsy (the empty string) exactly when `s` is blank. */
  lemma TrimEmptyIffBlank(s: string)
    ensures Trim(s) == [] <==> Blank(s)
  {
    var t := TrimStart(s);
    var k := |s| - |t|;
    TrimStartDropsPrefix(s);
    TrimEndDropsSuffix(t);
    if Trim(s) == [] {
      // TrimEnd dropped all of t, whose first character is not trimmable: so TrimStart dropped all of s.
      assert t == [];
    } else {
      var r := Trim(s);
      assert r == t[..|r|];
      assert !IsTrimmable(t[|r| - 1]);
      assert t[|r| - 1] == s[k + |r| - 1];
    }
  }

  /** The decimal digit character for `d`. */
  function DigitChar(d: int): (c: char)
    requires 0 <= d < 10
    ensures '0' <= c <= '9'
  {
    (48 + d) as char
  }

  /** The value of a decimal digit character. */
  function DigitValue(c: char): (d: int)
    requires '0' <= c <= '9'
    ensures 0 <= d < 10
  {
    c as int - 48
  }

  predicate IsDigits(s: string) {
    forall i :: 0 <= i < |s| ==> '0' <= s[i] <= '9'
  }

  /** The decimal numeral of a natural number, without leading zeros. */
  function NatToString(n: nat): (r: string)
    ensures r != [] && IsDigits(r)
    decreases n
  {
    if n < 10 then [DigitChar(n)] else NatToString(n / 10) + [DigitChar(n % 10)]
  }

  /** `Number.prototype.toString()` applied to an integer: an optional minus sign, then the digits. */
  function IntToString(n: int): (r: string)
    ensures r != []
    ensures r[0] == '-' <==> n < 0
  {
    if n < 0 then "-" + NatToString(-n) else NatToString(n)
  }

  /** The value of a string of decimal digits. */
  function ParseNat(s: string): nat
    requires IsDigits(s)
  {
    if s == [] then 0 else 10 * ParseNat(s[..|s| - 1]) + DigitValue(s[|s| - 1])
  }

  /** Reads back an integer written by IntToString; None for anything that is not an integer numeral. */
  function ParseInt(s: string): Option<int> {
    if s != [] && s[0] == '-' && |s| > 1 && IsDigits(s[1..]) then Some(-(ParseNat(s[1..]) as int))
    else if s != [] && IsDigits(s) then Some(ParseNat(s))
    else None
  }

  lemma {:induction false} ParseNatToString(n: nat)
    ensures ParseNat(NatToString(n)) == n
    decreases n
  {
    var s := NatToString(n);
    if n >= 10 {
      ParseNatToString(n / 10);
      assert s[..|s| - 1] == NatToString(n / 10);
    }
  }

  /** The stored form of an id reads back as the same id: IntToString loses nothing. */
  lemma IntToStringRoundTrip(n: int)
    ensures ParseInt(IntToString(n)) == Some(n)
  {
    var s := IntToString(n);
    if n < 0 {
      var digits := NatToString(-n);
      assert s[0] == '-' && s[1..] == digits;
      ParseNatToString(-n);
    } else {
      assert '0' <= s[0] <= '9';
      ParseNatToString(n);
    }
  }
}
