/**
 * The text conventions the save format relies on: decimal integers as
 * Integer.toString writes them and Integer.parseInt reads them (32-bit),
 * the whitespace-separated tokens a java.util.Scanner hands out, and
 * String.trim, which Double.parseDouble applies to its argument.
 */
module Text {
  import opened Wrappers

  /** Integer.MIN_VALUE and Integer.MAX_VALUE. */
  const IntMin: int := -0x8000_0000
  const IntMax: int := 0x7fff_ffff

  /** Character.isWhitespace: the separators a Scanner skips between tokens. */
  predicate IsSpace(c: char)
  {
    c == ' ' || c == '\t' || c == '\n' || c == '\r' || c == '\U{B}' || c == '\U{C}'
    || ('\U{1C}' <= c <= '\U{1F}') || c == '\U{1680}' || ('\U{2000}' <= c <= '\U{2006}')
    || ('\U{2008}' <= c <= '\U{200A}') || c == '\U{2028}' || c == '\U{2029}' || c == '\U{205F}' || c == '\U{3000}'
  }

  /** A token that survives tokenising and trimming unchanged: non-empty, no whitespace, no control character. */
  predicate Solid(t: string)
  {
    |t| > 0 && forall i :: 0 <= i < |t| ==> ' ' < t[i] && !IsSpace(t[i])
  }

  // ------------------------------------------------------------ integers

  function DigitChar(d: nat): (c: char)
    requires d < 10
    ensures '0' <= c <= '9' && c as int - '0' as int == d
  {
    ('0' as int + d) as char
  }

  predicate IsDigit(c: char)
  {
    '0' <= c <= '9'
  }

  /** The decimal digits of n, most significant first, without leading zeros. */
  function NatToString(n: nat): (s: string)
    ensures |s| > 0 && forall i :: 0 <= i < |s| ==> IsDigit(s[i])
    decreases n
  {
    if n < 10 then [DigitChar(n)] else NatToString(n / 10) + [DigitChar(n % 10)]
  }

  /** Integer.toString (and int-to-string concatenation): a minus sign for negatives. */
  function IntToString(n: int): (s: string)
    ensures Solid(s)
  {
    if n < 0 then "-" + NatToString(-n) else NatToString(n)
  }

  function DigitValue(c: char): (d: nat)
    requires IsDigit(c)
    ensures d < 10
  {
    c as int - '0' as int
  }

  /** The value of a string of decimal digits; None when some character is no digit. */
  function DigitsValue(s: string): Option<nat>
  {
    if |s| == 0 then Some(0)
    else match DigitsValue(s[..|s| - 1])
      case None => None
      case Some(m) => if IsDigit(s[|s| - 1]) then Some(m * 10 + DigitValue(s[|s| - 1])) else None
  }

  /**
   * Integer.parseInt: an optional sign, then one or more decimal digits, and
   * the value must fit in 32 bits; anything else is None (a
   * NumberFormatException in the source).
   */
  function ParseInt(s: string): (r: Option<int>)
    ensures r.Some? ==> IntMin <= r.value <= IntMax
  {
    var neg := |s| > 0 && s[0] == '-';
    var digits := if |s| > 0 && (s[0] == '-' || s[0] == '+') then s[1..] else s;
    if |digits| == 0 then None
    else match DigitsValue(digits)
      case None => None
      case Some(m) =>
        var k: int := m;
        var v := if neg then -k else k;
        if IntMin <= v <= IntMax then Some(v) else None
  }

  /** The digits of n read back give n. */
  lemma {:induction false} NatToStringValue(n: nat)
    ensures DigitsValue(NatToString(n)) == Some(n)
    decreases n
  {
    var s := NatToString(n);
    if n >= 10 {
      NatToStringValue(n / 10);
      assert s[..|s| - 1] == NatToString(n / 10);
    }
  }

  /** parseInt(Integer.toString(n)) == n for every 32-bit n. */
  lemma IntRoundTrip(n: int)
    requires IntMin <= n <= IntMax
    ensures ParseInt(IntToString(n)) == Some(n)
  {
    var s := IntToString(n);
    if n < 0 {
      NatToStringValue(-n);
      assert s[1..] == NatToString(-n);
    } else {
      NatToStringValue(n);
    }
  }

  // ------------------------------------------------------------- tokens

  /** Length of the run of non-whitespace characters at the front of s. */
  function RunLength(s: string): (k: nat)
    ensures k <= |s| && (forall i :: 0 <= i < k ==> !IsSpace(s[i])) && (k < |s| ==> IsSpace(s[k]))
  {
    if |s| == 0 || IsSpace(s[0]) then 0 else 1 + RunLength(s[1..])
  }

  /** The tokens a Scanner reads from a line: maximal whitespace-free runs, in order. */
  function Tokens(s: string): (ts: seq<string>)
    ensures forall i :: 0 <= i < |ts| ==> |ts[i]| > 0
    decreases |s|
  {
    if |s| == 0 then []
    else if IsSpace(s[0]) then Tokens(s[1..])
    else
      var k := RunLength(s);
      [s[..k]] + Tokens(s[k..])
  }

  /** A solid token followed by a space is read as that token, then the rest. */
  lemma TokensCons(t: string, rest: string)
    requires Solid(t)
    ensures Tokens(t + " " + rest) == [t] + Tokens(rest)
  {
    var sp := " " + rest;
    var s := t + sp;
    assert s == t + " " + rest;
    RunLengthOf(t, sp);
    assert s[0] == t[0] && !IsSpace(s[0]);
    assert s[..|t|] == t && s[|t|..] == sp;
    assert sp[1..] == rest && IsSpace(sp[0]);
    assert Tokens(sp) == Tokens(rest);
  }

  /** A solid token on its own is one token. */
  lemma TokensSingle(t: string)
    requires Solid(t)
    ensures Tokens(t) == [t]
  {
    RunLengthOf(t, "");
    assert t + "" == t;
    assert t[|t|..] == [];
  }

  lemma {:induction false} RunLengthOf(t: string, rest: string)
    requires forall i :: 0 <= i < |t| ==> !IsSpace(t[i])
    requires |rest| == 0 || IsSpace(rest[0])
    ensures RunLength(t + rest) == |t|
    decreases |t|
  {
    if |t| > 0 {
      assert (t + rest)[1..] == t[1..] + rest;
      RunLengthOf(t[1..], rest);
    } else {
      assert t + rest == rest;
    }
  }

  // --------------------------------------------------------------- trim

  /** String.trim: drops every character up to ' ' from both ends. */
  function Trim(s: string): (r: string)
    ensures |r| <= |s|
    decreases |s|
  {
    if |s| > 0 && s[0] <= ' ' then Trim(s[1..])
    else if |s| > 0 && s[|s| - 1] <= ' ' then Trim(s[..|s| - 1])
    else s
  }

  /** Trimming a solid token leaves it as it is. */
  lemma TrimSolid(t: string)
    requires Solid(t)
    ensures Trim(t) == t
  {
  }
}
