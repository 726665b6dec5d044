/**
 * The string operations the forms rely on: `String.prototype.trim` and the
 * decimal text of an integer (`n.toString()`) with its strict inverse.
 */
module Text {
  import opened Common

  /**
   * The characters `trim` removes: the ECMAScript WhiteSpace set (tab,
   * vertical tab, form feed, space, no-break space, the byte-order mark
   * and the Unicode space separators) and the LineTerminator set.
   */
  predicate IsWhitespace(c: char) {
    c == '\t' || c == '\n' || c == '\U{000B}' || c == '\U{000C}' || c == '\r'
    || c == ' ' || c == '\U{00A0}' || c == '\U{1680}' || '\U{2000}' <= c <= '\U{200A}'
    || c == '\U{2028}' || c == '\U{2029}' || c == '\U{202F}' || c == '\U{205F}'
    || c == '\U{3000}' || c == '\U{FEFF}'
  }

  /** Every character is whitespace (so `s.trim() === ''`). */
  predicate IsBlank(s: string) {
    forall i :: 0 <= i < |s| ==> IsWhitespace(s[i])
  }

  /** How many whitespace characters `s` starts with. */
  function LeadingWhitespace(s: string): (n: nat)
    ensures n <= |s|
    ensures forall i :: 0 <= i < n ==> IsWhitespace(s[i])
    ensures n < |s| ==> !IsWhitespace(s[n])
  {
    if s != [] && IsWhitespace(s[0]) then
      var m := LeadingWhitespace(s[1..]);
      assert forall i :: 1 <= i <= m ==> s[i] == s[1..][i - 1];
      1 + m
    else 0
  }

  /** Where the trailing whitespace of `s` begins. */
  function TrailingStart(s: string): (n: nat)
    ensures n <= |s|
    ensures forall i :: n <= i < |s| ==> IsWhitespace(s[i])
    ensures n > 0 ==> !IsWhitespace(s[n - 1])
  {
    if s != [] && IsWhitespace(s[|s| - 1]) then TrailingStart(s[..|s| - 1]) else |s|
  }

  /** Every character of `s` before `lo` and from `hi` on is whitespace. */
  predicate Surrounded(s: string, lo: nat, hi: nat) {
    (forall i :: 0 <= i < lo && i < |s| ==> IsWhitespace(s[i]))
    && (forall i :: hi <= i < |s| ==> IsWhitespace(s[i]))
  }

  /** The part between the leading and the trailing whitespace is a slice of the input. */
  lemma {:induction false} MiddleSlice(s: string)
    ensures var k := LeadingWhitespace(s); var t := s[k..]; var e := TrailingStart(t);
      k + e <= |s| && t[..e] == s[k..k + e]
  {
  }

  /** Only whitespace comes before and after that slice. */
  lemma {:induction false} MiddleSurrounded(s: string)
    ensures var k := LeadingWhitespace(s); var e := TrailingStart(s[k..]);
      Surrounded(s, k, k + e)
  {
    var k := LeadingWhitespace(s);
    var t := s[k..];
    var e := TrailingStart(t);
    forall i | k + e <= i < |s| ensures IsWhitespace(s[i]) {
      assert s[i] == t[i - k];
    }
  }

  /** That part is empty exactly for a blank input. */
  lemma {:induction false} MiddleEmpty(s: string)
    ensures TrailingStart(s[LeadingWhitespace(s)..]) == 0 <==> IsBlank(s)
  {
    var k := LeadingWhitespace(s);
    var t := s[k..];
    assert t != [] ==> t[0] == s[k];
    if IsBlank(s) {
      assert k == |s|;
    }
  }

  /** A non-empty middle part starts and ends with characters other than whitespace. */
  lemma {:induction false} MiddleEnds(s: string)
    ensures var k := LeadingWhitespace(s); var e := TrailingStart(s[k..]);
      e > 0 ==> !IsWhitespace(s[k]) && !IsWhitespace(s[k + e - 1])
  {
    var k := LeadingWhitespace(s);
    var t := s[k..];
    var e := TrailingStart(t);
    if e > 0 {
      assert t[e - 1] == s[k + e - 1];
    }
  }

  /**
   * `s.trim()`: the input without its leading and its trailing whitespace,
   * that is the slice after the leading whitespace with only whitespace
   * after it.
   */
  function Trim(s: string): (r: string)
    ensures var k := LeadingWhitespace(s);
      k + |r| <= |s| && r == s[k..k + |r|] && Surrounded(s, k, k + |r|)
    ensures r == [] <==> IsBlank(s)
    ensures r != [] ==> !IsWhitespace(r[0]) && !IsWhitespace(r[|r| - 1])
  {
    MiddleSlice(s);
    MiddleSurrounded(s);
    MiddleEmpty(s);
    MiddleEnds(s);
    var t := s[LeadingWhitespace(s)..];
    t[..TrailingStart(t)]
  }

  /** Trimming a trimmed string changes nothing. */
  lemma TrimIdempotent(s: string)
    ensures Trim(Trim(s)) == Trim(s)
  {
    var r := Trim(s);
    assert LeadingWhitespace(r) == 0;
    assert TrailingStart(r) == |r|;
    assert r[0..] == r;
  }

  // ---- decimal text of integers ----

  function DigitChar(d: nat): (c: char)
    requires d < 10
    ensures '0' <= c <= '9'
  {
    "0123456789"[d]
  }

  function DigitValue(c: char): (d: nat)
    requires '0' <= c <= '9'
    ensures d < 10 && DigitChar(d) == c
  {
    (c as int - '0' as int) as nat
  }

  predicate IsDigits(s: string) {
    s != [] && forall i :: 0 <= i < |s| ==> '0' <= s[i] <= '9'
  }

  /** `String(n)` for a non-negative integer: its shortest decimal text. */
  function NatToString(n: nat): (s: string)
    ensures IsDigits(s)
    ensures |s| > 1 ==> s[0] != '0'
    decreases n
  {
    if n < 10 then [DigitChar(n)] else NatToString(n / 10) + [DigitChar(n % 10)]
  }

  /** The value of a string of decimal digits, read left to right. */
  function DigitsValue(s: string): (n: nat)
    requires forall i :: 0 <= i < |s| ==> '0' <= s[i] <= '9'
  {
    if s == [] then 0 else DigitsValue(s[..|s| - 1]) * 10 + DigitValue(s[|s| - 1])
  }

  /** `String(n)` for any integer. */
  function IntToString(n: int): (s: string)
    ensures s != []
  {
    if n < 0 then "-" + NatToString(-n) else NatToString(n)
  }

  /**
   * An optional minus sign followed by at least one decimal digit, read as
   * an integer; anything else is None (the NaN a number parse yields).
   */
  function ParseInt(s: string): (r: Option<int>)
    ensures r.Some? <==> IsDigits(s) || (|s| > 1 && s[0] == '-' && IsDigits(s[1..]))
  {
    if IsDigits(s) then Some(DigitsValue(s) as int)
    else if |s| > 1 && s[0] == '-' && IsDigits(s[1..]) then Some(0 - DigitsValue(s[1..]) as int)
    else None
  }

  lemma {:induction false} DigitsOfNat(n: nat)
    ensures DigitsValue(NatToString(n)) == n
    decreases n
  {
    var s := NatToString(n);
    if n >= 10 {
      DigitsOfNat(n / 10);
      assert s[..|s| - 1] == NatToString(n / 10);
    }
  }

  /** Parsing the text of an integer gives the integer back. */
  lemma ParseIntToString(n: int)
    ensures ParseInt(IntToString(n)) == Some(n)
  {
    var s := IntToString(n);
    if n < 0 {
      DigitsOfNat(-n);
      assert s[1..] == NatToString(-n);
      assert !IsDigits(s) by { assert s[0] == '-'; }
    } else {
      DigitsOfNat(n);
    }
  }
}
