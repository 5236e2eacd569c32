/** String helpers shared by the screens: JavaScript's notion of white space,
    decimal rendering of numbers (template literals, `toString`), `padStart`,
    `trim`, and the digit prefix that `parseInt` reads. */
module Text {

  /** The characters that JavaScript's `\s` class and `String.prototype.trim`
      treat as white space (WhiteSpace and LineTerminator of ECMAScript). */
  predicate IsJsSpace(c: char)
  {
    c == '\t' || c == '\n' || c == '\U{000B}' || c == '\U{000C}' || c == '\r' || c == ' '
    || c == '\U{00A0}' || c == '\U{1680}' || ('\U{2000}' <= c <= '\U{200A}')
    || c == '\U{2028}' || c == '\U{2029}' || c == '\U{202F}' || c == '\U{205F}'
    || c == '\U{3000}' || c == '\U{FEFF}'
  }

  /** True when every character is white space: `!s.trim()` in JavaScript. */
  predicate IsBlank(s: string)
  {
    forall i :: 0 <= i < |s| ==> IsJsSpace(s[i])
  }

  /** Drops leading white space. */
  function TrimStart(s: string): (r: string)
    decreases |s|
  {
    if s != [] && IsJsSpace(s[0]) then TrimStart(s[1..]) else s
  }

  /** Drops trailing white space. */
  function TrimEnd(s: string): (r: string)
    decreases |s|
  {
    if s != [] && IsJsSpace(s[|s| - 1]) then TrimEnd(s[..|s| - 1]) else s
  }

  /** `String.prototype.trim`. */
  function Trim(s: string): string
  {
    TrimEnd(TrimStart(s))
  }

  lemma {:induction false} TrimStartEmpty(s: string)
    ensures TrimStart(s) == [] <==> IsBlank(s)
    decreases |s|
  {
    if s != [] && IsJsSpace(s[0]) {
      TrimStartEmpty(s[1..]);
      assert IsBlank(s) <==> IsBlank(s[1..]) by {
        if IsBlank(s[1..]) {
          forall i | 0 <= i < |s| ensures IsJsSpace(s[i]) {
            if i > 0 { assert s[i] == s[1..][i - 1]; }
          }
        }
      }
    }
  }

  /** What `trim()` leaves is empty exactly when the string is blank, so
      `!s.trim()` is the test "is blank". */
  lemma {:induction false} TrimEmptyIffBlank(s: string)
    ensures Trim(s) == [] <==> IsBlank(s)
  {
    TrimStartEmpty(s);
    var t := TrimStart(s);
    if t != [] {
      if IsJsSpace(t[|t| - 1]) {
        // t starts with a non-space character, so trimming its end keeps it
        assert !IsJsSpace(t[0]) by { TrimStartHead(s); }
        TrimEndKeepsHead(t);
      } else {
        assert TrimEnd(t) == t;
      }
    }
  }

  lemma {:induction false} TrimStartHead(s: string)
    ensures TrimStart(s) != [] ==> !IsJsSpace(TrimStart(s)[0])
    decreases |s|
  {
    if s != [] && IsJsSpace(s[0]) { TrimStartHead(s[1..]); }
  }

  lemma {:induction false} TrimEndKeepsHead(t: string)
    requires t != [] && !IsJsSpace(t[0])
    ensures TrimEnd(t) != []
    decreases |t|
  {
    if IsJsSpace(t[|t| - 1]) {
      assert |t| > 1;
      TrimEndKeepsHead(t[..|t| - 1]);
    }
  }

  predicate IsDigit(c: char)
  {
    '0' <= c <= '9'
  }

  function DigitChar(d: nat): (c: char)
    requires d < 10
    ensures IsDigit(c)
  {
    ('0' as int + d) as char
  }

  function DigitValue(c: char): (d: nat)
    requires IsDigit(c)
    ensures d < 10
  {
    c as int - '0' as int
  }

  predicate AllDigits(s: string)
  {
    forall i :: 0 <= i < |s| ==> IsDigit(s[i])
  }

  /** The decimal rendering of a natural number, as `n.toString()` gives it. */
  function NatToString(n: nat): (s: string)
    ensures |s| >= 1 && AllDigits(s)
    ensures s[0] == '0' ==> n == 0
    decreases n
  {
    if n < 10 then [DigitChar(n)] else NatToString(n / 10) + [DigitChar(n % 10)]
  }

  /** The decimal rendering of an integer: a '-' sign before the digits of a negative. */
  function IntToString(i: int): (s: string)
  {
    if i < 0 then "-" + NatToString(-i) else NatToString(i)
  }

  /** The value of a string of decimal digits (empty gives 0). */
  function DigitsValue(s: string): nat
    requires AllDigits(s)
    decreases |s|
  {
    if s == [] then 0 else DigitsValue(s[..|s| - 1]) * 10 + DigitValue(s[|s| - 1])
  }

  /** Reading back the decimal rendering gives the number. */
  lemma {:induction false} NatToStringRoundTrip(n: nat)
    ensures DigitsValue(NatToString(n)) == n
    decreases n
  {
    if n >= 10 {
      NatToStringRoundTrip(n / 10);
      var s := NatToString(n);
      assert s[..|s| - 1] == NatToString(n / 10);
      assert DigitValue(s[|s| - 1]) == n % 10;
    }
  }

  /** `s.padStart(width, pad)`: pads on the left up to `width` characters. */
  function PadStart(s: string, width: nat, pad: char): (r: string)
    ensures |r| == if |s| >= width then |s| else width
    ensures r[|r| - |s|..] == s
    ensures forall i :: 0 <= i < |r| - |s| ==> r[i] == pad
    decreases width - |s|
  {
    if |s| >= width then s else PadStart([pad] + s, width, pad)
  }

  /** `s.slice(0, -1)`: all but the last character; the empty string stays empty. */
  function DropLast(s: string): (r: string)
    ensures s == [] ==> r == []
    ensures s != [] ==> r + [s[|s| - 1]] == s
  {
    if s == [] then s else s[..|s| - 1]
  }

  /** The longest prefix of decimal digits. */
  function DigitPrefix(s: string): (r: string)
    ensures r <= s && AllDigits(r)
    ensures |r| < |s| ==> !IsDigit(s[|r|])
    decreases |s|
  {
    if s != [] && IsDigit(s[0]) then [s[0]] + DigitPrefix(s[1..]) else []
  }

  /** `parseInt(s)` without a radix, on strings without a "0x" prefix (which
      would read as hexadecimal; the tile codes never have one): skips
      leading white space, reads an optional sign and the longest run of
      digits; `None` stands for NaN. */
  function ParseInt(s: string): (r: Option<int>)
  {
    var t := TrimStart(s);
    var neg := t != [] && t[0] == '-';
    var body := if t != [] && (t[0] == '-' || t[0] == '+') then t[1..] else t;
    var digits := DigitPrefix(body);
    if digits == [] then None
    else if neg then Some(-(DigitsValue(digits) as int))
    else Some(DigitsValue(digits) as int)
  }

  /** `parseInt` reads back what `toString` wrote. */
  lemma ParseIntOfDecimal(n: nat)
    ensures ParseInt(NatToString(n)) == Some(n)
  {
    var s := NatToString(n);
    assert TrimStart(s) == s;
    DigitPrefixAll(s);
    NatToStringRoundTrip(n);
  }

  lemma {:induction false} DigitPrefixAll(s: string)
    requires AllDigits(s)
    ensures DigitPrefix(s) == s
    decreases |s|
  {
    if s != [] {
      assert AllDigits(s[1..]) by {
        forall i | 0 <= i < |s[1..]| ensures IsDigit(s[1..][i]) { assert s[1..][i] == s[i + 1]; }
      }
      DigitPrefixAll(s[1..]);
    }
  }

  /** What `parseFloat` reads from a string with no exponent part: NaN, or a
      sign with the digits before and after the decimal point. */
  datatype Decimal = NaN | Decimal(negative: bool, whole: string, fraction: string)

  /** `parseFloat(s)`: skips leading white space, reads an optional sign,
      the longest run of digits and, after a '.', the longest run of
      fraction digits; at least one digit must be read, or the result is NaN. */
  function ParseFloat(s: string): (r: Decimal)
    ensures r.Decimal? ==> AllDigits(r.whole) && AllDigits(r.fraction) && (r.whole != [] || r.fraction != [])
  {
    var t := TrimStart(s);
    var neg := t != [] && t[0] == '-';
    var body := if t != [] && (t[0] == '-' || t[0] == '+') then t[1..] else t;
    var whole := DigitPrefix(body);
    var rest := body[|whole|..];
    var fraction := if rest != [] && rest[0] == '.' then DigitPrefix(rest[1..]) else [];
    if whole == [] && fraction == [] then NaN else Decimal(neg, whole, fraction)
  }

  /** `parseFloat(s) === n` for an integer `n`: a number whose fraction digits
      are all zero and whose signed whole part is `n` (so "-0" equals 0). */
  predicate FloatEquals(d: Decimal, n: int)
  {
    && d.Decimal? && AllDigits(d.whole)
    && (forall i :: 0 <= i < |d.fraction| ==> d.fraction[i] == '0')
    && (if d.negative then -(DigitsValue(d.whole) as int) else DigitsValue(d.whole) as int) == n
  }

  /** `parseFloat` reads back the decimal rendering of any integer. */
  lemma ParseFloatOfInt(n: int)
    ensures FloatEquals(ParseFloat(IntToString(n)), n)
  {
    var m: nat := if n < 0 then -n else n;
    var digits := NatToString(m);
    assert IntToString(n) == (if n < 0 then "-" else "") + digits;
    ParseFloatOfDigits(n < 0, digits);
    NatToStringRoundTrip(m);
    assert DigitsValue(digits) as int == m;
  }

  /** A string of digits, with or without a leading minus, reads as itself
      with no fraction. */
  lemma ParseFloatOfDigits(negative: bool, digits: string)
    requires AllDigits(digits) && digits != []
    ensures ParseFloat((if negative then "-" else "") + digits) == Decimal(negative, digits, [])
  {
    var s := (if negative then "-" else "") + digits;
    assert !IsJsSpace(s[0]);
    assert TrimStart(s) == s;
    var body := if negative then s[1..] else s;
    assert body == digits;
    DigitPrefixAll(digits);
    assert body[|digits|..] == [];
  }

  datatype Option<+T> = None | Some(value: T)
}
