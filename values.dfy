/**
 * The JavaScript values the page shuffles around, and the handful of
 * coercions it applies to them: truthiness (`||`, `&&`), `String(v)`,
 * `parseInt`, `isNaN` and the `substring` truncations.
 *
 * `Null` stands for both `null` and `undefined`: every branch of the page
 * treats the two alike. An object carries the text `JSON.stringify` would
 * give it; the model never looks inside it.
 */
module JsValues {

  import opened Wrappers

  datatype Value =
    | Null
    | Str(s: string)
    | Num(n: int)
    | Bool(b: bool)
    | Obj(json: string)

  /** A JavaScript object with string keys, as the API returns it. */
  type Record = map<string, Value>

  /** JavaScript truthiness (NaN is not modelled: numbers are integers). */
  predicate Truthy(v: Value)
  {
    match v
    case Null => false
    case Str(s) => s != ""
    case Num(n) => n != 0
    case Bool(b) => b
    case Obj(_) => true
  }

  /** `a || b` */
  function Or(a: Value, b: Value): (r: Value)
    ensures Truthy(a) ==> r == a
    ensures !Truthy(a) ==> r == b
  {
    if Truthy(a) then a else b
  }

  /** `item[key]`: a key the object does not have reads as undefined. */
  function Get(item: Record, key: string): (r: Value)
    ensures key !in item ==> r == Null
    ensures key in item ==> r == item[key]
  {
    if key in item then item[key] else Null
  }

  // ---------------------------------------------------------------------
  // Decimal text of integers, and parseInt

  function DigitChar(d: nat): (c: char)
    requires d < 10
    ensures '0' <= c <= '9'
  {
    (48 + d) as char
  }

  predicate IsDigit(c: char)
  {
    '0' <= c <= '9'
  }

  function DigitValue(c: char): (d: nat)
    requires IsDigit(c)
    ensures d < 10 && DigitChar(d) == c
  {
    c as int - 48
  }

  predicate AllDigits(s: string)
  {
    forall i :: 0 <= i < |s| ==> IsDigit(s[i])
  }

  /** The decimal text of a natural number, without leading zeros. */
  function NatToText(n: nat): (s: string)
    ensures 1 <= |s| && AllDigits(s)
    ensures n < 10 <==> |s| == 1
    decreases n
  {
    if n < 10 then [DigitChar(n)] else NatToText(n / 10) + [DigitChar(n % 10)]
  }

  /** `String(n)` / template-literal text of an integer. */
  function IntToText(i: int): (s: string)
    ensures i >= 0 ==> s == NatToText(i)
    ensures i < 0 ==> s == "-" + NatToText(-i)
  {
    if i < 0 then "-" + NatToText(-i) else NatToText(i)
  }

  /** Distinct numbers have distinct decimal texts. */
  lemma {:induction false} NatToTextInjective(a: nat, b: nat)
    requires NatToText(a) == NatToText(b)
    ensures a == b
  {
    var s := NatToText(a);
    if a >= 10 && b >= 10 {
      assert NatToText(a) == NatToText(a / 10) + [DigitChar(a % 10)];
      assert NatToText(b) == NatToText(b / 10) + [DigitChar(b % 10)];
      assert NatToText(a / 10) == s[..|s| - 1] == NatToText(b / 10);
      NatToTextInjective(a / 10, b / 10);
      assert DigitChar(a % 10) == s[|s| - 1] == DigitChar(b % 10);
    } else if a < 10 && b < 10 {
      assert DigitChar(a) == s[0] == DigitChar(b);
    }
  }

  /** The value of a string of decimal digits, read left to right. */
  function DigitsValue(s: string): (n: nat)
    requires AllDigits(s)
    decreases |s|
  {
    if s == [] then 0 else DigitsValue(s[..|s| - 1]) * 10 + DigitValue(s[|s| - 1])
  }

  /** The longest prefix of `s` made of decimal digits. */
  function DigitPrefix(s: string): (p: string)
    ensures p <= s && AllDigits(p)
    ensures |p| < |s| ==> !IsDigit(s[|p|])
  {
    if s != [] && IsDigit(s[0]) then [s[0]] + DigitPrefix(s[1..]) else []
  }

  predicate IsHexDigit(c: char)
  {
    IsDigit(c) || 'a' <= c <= 'f' || 'A' <= c <= 'F'
  }

  function HexDigitValue(c: char): (d: nat)
    requires IsHexDigit(c)
    ensures d < 16
    ensures IsDigit(c) ==> d == DigitValue(c)
  {
    if IsDigit(c) then DigitValue(c)
    else if 'a' <= c <= 'f' then c as int - 87
    else c as int - 55
  }

  predicate AllHexDigits(s: string)
  {
    forall i :: 0 <= i < |s| ==> IsHexDigit(s[i])
  }

  /** The number a run of hexadecimal digits denotes, most significant first. */
  function HexValue(s: string): (n: nat)
    requires AllHexDigits(s)
    decreases |s|
  {
    if s == [] then 0 else HexValue(s[..|s| - 1]) * 16 + HexDigitValue(s[|s| - 1])
  }

  /** The longest prefix of `s` made of hexadecimal digits. */
  function HexPrefix(s: string): (p: string)
    ensures p <= s && AllHexDigits(p)
    ensures |p| < |s| ==> !IsHexDigit(s[|p|])
  {
    if s != [] && IsHexDigit(s[0]) then [s[0]] + HexPrefix(s[1..]) else []
  }

  /** The "0x" or "0X" that makes `parseInt` without a radix read hexadecimal. */
  predicate HasHexPrefix(s: string)
  {
    |s| >= 2 && s[0] == '0' && (s[1] == 'x' || s[1] == 'X')
  }

  /**
   * The white space `Number(s)` and `parseInt(s)` skip: tab, line feed,
   * vertical tab, form feed, carriage return, space, no-break space, the
   * byte order mark, the line and paragraph separators, and the other space
   * separators of Unicode (U+1680, U+2000 to U+200A, U+202F, U+205F, U+3000).
   */
  predicate IsSpace(c: char)
  {
    || c == '\t' || c == '\n' || c == '\U{000B}' || c == '\U{000C}' || c == '\r' || c == ' '
    || c == '\U{00A0}' || c == '\U{FEFF}' || c == '\U{2028}' || c == '\U{2029}'
    || c == '\U{1680}' || ('\U{2000}' <= c <= '\U{200A}') || c == '\U{202F}' || c == '\U{205F}' || c == '\U{3000}'
  }

  function TrimStart(s: string): (t: string)
    ensures |t| <= |s| && t == s[|s| - |t|..]
    ensures t == [] || !IsSpace(t[0])
  {
    if s != [] && IsSpace(s[0]) then TrimStart(s[1..]) else s
  }

  function TrimEnd(s: string): (t: string)
    ensures t <= s
    ensures t == [] || !IsSpace(t[|t| - 1])
  {
    if s != [] && IsSpace(s[|s| - 1]) then TrimEnd(s[..|s| - 1]) else s
  }

  /**
   * What `parseInt` reads after the sign: the longest run of hexadecimal
   * digits after a "0x" or "0X", or else the longest run of decimal digits;
   * no digit at all gives NaN (None).
   */
  function Unsigned(body: string): (r: Option<nat>)
  {
    if HasHexPrefix(body) then
      var digits := HexPrefix(body[2..]);
      if digits == [] then None else Some(HexValue(digits))
    else
      var digits := DigitPrefix(body);
      if digits == [] then None else Some(DigitsValue(digits))
  }

  /** `parseInt(s)` without a radix: leading white space and an optional sign, then `Unsigned`. */
  function ParseInt(s: string): (r: Option<int>)
  {
    var t := TrimStart(s);
    var negative := t != [] && t[0] == '-';
    var body := if t != [] && (t[0] == '-' || t[0] == '+') then t[1..] else t;
    match Unsigned(body)
    case None => None
    case Some(m) => if negative then Some(0 - m as int) else Some(m as int)
  }

  /** A text that starts with neither white space nor a sign is read by `Unsigned` alone, and with a '-' in front, negated. */
  lemma ParseIntOfUnsigned(body: string)
    requires body != [] && !IsSpace(body[0]) && body[0] != '-' && body[0] != '+'
    ensures ParseInt(body) == (match Unsigned(body) case None => None case Some(m) => Some(m as int))
    ensures ParseInt("-" + body) == (match Unsigned(body) case None => None case Some(m) => Some(0 - m as int))
  {
    TrimStartOfNonSpace(body);
    var neg := "-" + body;
    TrimStartOfNonSpace(neg);
    assert neg[1..] == body;
  }

  lemma {:induction false} DigitsValueOfNatToText(n: nat)
    ensures DigitsValue(NatToText(n)) == n
    decreases n
  {
    var s := NatToText(n);
    if n >= 10 {
      DigitsValueOfNatToText(n / 10);
      assert s[..|s| - 1] == NatToText(n / 10);
    }
  }

  lemma {:induction false} DigitPrefixOfDigits(s: string)
    requires AllDigits(s)
    ensures DigitPrefix(s) == s
  {
    if s != [] {
      DigitPrefixOfDigits(s[1..]);
    }
  }

  lemma TrimStartOfNonSpace(s: string)
    requires s != [] && !IsSpace(s[0])
    ensures TrimStart(s) == s
  {
  }

  lemma ParseIntOfDigits(digits: string)
    requires digits != [] && AllDigits(digits)
    ensures ParseInt(digits) == Some(DigitsValue(digits))
    ensures ParseInt("-" + digits) == Some(0 - DigitsValue(digits) as int)
  {
    DigitPrefixOfDigits(digits);
    assert !HasHexPrefix(digits) by {
      if |digits| >= 2 {
        assert IsDigit(digits[1]);
      }
    }
    ParseIntOfUnsigned(digits);
  }

  lemma {:induction false} HexPrefixOfHexDigits(s: string)
    requires AllHexDigits(s)
    ensures HexPrefix(s) == s
  {
    if s != [] {
      HexPrefixOfHexDigits(s[1..]);
    }
  }

  /** A "0x" or "0X" prefix makes `parseInt` read the digits after it as hexadecimal, after a sign too. */
  lemma ParseIntOfHex(s: string)
    requires HasHexPrefix(s) && s[2..] != [] && AllHexDigits(s[2..])
    ensures ParseInt(s) == Some(HexValue(s[2..]))
    ensures ParseInt("-" + s) == Some(0 - HexValue(s[2..]) as int)
  {
    UnsignedOfHex(s, s[2..]);
    ParseIntOfUnsigned(s);
  }

  lemma UnsignedOfHex(body: string, digits: string)
    requires |body| >= 2 && body[0] == '0' && (body[1] == 'x' || body[1] == 'X') && body[2..] == digits
    requires digits != [] && AllHexDigits(digits)
    ensures Unsigned(body) == Some(HexValue(digits))
  {
    assert HasHexPrefix(body);
    HexPrefixOfHexDigits(digits);
  }

  /** `parseInt(String(i)) === i`: the period ids of the master data survive the round trip. */
  lemma ParseIntOfIntToText(i: int)
    ensures ParseInt(IntToText(i)) == Some(i)
  {
    var m: nat := if i < 0 then -i else i;
    ParseIntOfDigits(NatToText(m));
    DigitsValueOfNatToText(m);
  }

  // ---------------------------------------------------------------------
  // String(v), isNaN(v)

  /**
   * `String(v)`, as a template literal writes it. `Null` gives the text of
   * `undefined`: the only place the page writes an absent value into text is
   * an error message built from a missing `message` property.
   */
  function ToText(v: Value): string
  {
    match v
    case Null => "undefined"
    case Str(s) => s
    case Num(n) => IntToText(n)
    case Bool(b) => if b then "true" else "false"
    case Obj(_) => "[object Object]"
  }

  /** The text of a truthy value is never empty. */
  lemma ToTextOfTruthy(v: Value)
    requires Truthy(v)
    ensures ToText(v) != ""
  {
  }

  /**
   * Whether `Number(s)` is a number: white space only (which converts to 0),
   * or an optional sign followed by digits with at most one decimal point.
   */
  predicate NumericText(s: string)
  {
    var t := TrimEnd(TrimStart(s));
    var body := if t != [] && (t[0] == '-' || t[0] == '+') then t[1..] else t;
    t == [] || DecimalDigits(body, false, false)
  }

  /**
   * `s` is the rest of a decimal numeral: digits and at most one '.', with
   * a digit somewhere in it or already seen (`seenDigit`), and no second
   * '.' when one was already seen (`seenPoint`).
   */
  predicate DecimalDigits(s: string, seenDigit: bool, seenPoint: bool)
    decreases |s|
  {
    if s == [] then seenDigit
    else if IsDigit(s[0]) then DecimalDigits(s[1..], true, seenPoint)
    else s[0] == '.' && !seenPoint && DecimalDigits(s[1..], seenDigit, true)
  }

  /** `!isNaN(v)` */
  predicate NotNaN(v: Value)
  {
    match v
    case Null => true
    case Str(s) => NumericText(s)
    case Num(_) => true
    case Bool(_) => true
    case Obj(_) => false
  }

  /**
   * `s.length > n ? s.substring(0, n) + '...' : s` — the truncation used by
   * the export's sanitising (n = 50) and cell formatting (n = 40).
   */
  function Ellipsize(s: string, n: nat): (r: string)
    ensures |s| <= n ==> r == s
    ensures |s| > n ==> |r| == n + 3 && r[..n] == s[..n] && r[n..] == "..."
    ensures |r| <= n + 3
  {
    if |s| > n then s[..n] + "..." else s
  }

  /** `s.includes(sub)` */
  predicate Contains(s: string, sub: string)
    decreases |s|
  {
    sub <= s || (s != [] && Contains(s[1..], sub))
  }

  /** A text that contains `sub` contains every character of `sub`. */
  lemma {:induction false} ContainsKeepsChars(s: string, sub: string, c: char)
    requires c in sub
    ensures Contains(s, sub) ==> c in s
    decreases |s|
  {
    if Contains(s, sub) && !(sub <= s) {
      ContainsKeepsChars(s[1..], sub, c);
    }
  }

  /** Looking for one character is looking for it anywhere in the text. */
  lemma {:induction false} ContainsChar(s: string, c: char)
    ensures Contains(s, [c]) <==> c in s
    decreases |s|
  {
    if s != [] {
      ContainsChar(s[1..], c);
      assert [c] <= s <==> s[0] == c;
      assert s == [s[0]] + s[1..];
    }
  }
}
