/** The slice of JavaScript semantics the reporter relies on: primitive values and their
    truthiness, the `<` comparison of two strings, and the global `parseInt`. */
module Js {

  import opened Wrappers

  /** A primitive JavaScript value as it appears in a statistics record or in flattened
      output. Numbers are integers here; `NaN` is the number `parseInt` returns on failure. */
  datatype Value = Undefined | Null | Bool(b: bool) | Num(n: int) | NaN | Str(s: string)

  /** An exception a statement can throw. */
  datatype Error = ReferenceError(name: string) | TypeError(message: string)

  /** How evaluating an expression ends: with a value, or with a thrown exception. */
  datatype Completion<+T> = Normal(value: T) | Threw(error: Error)

  /** JavaScript's ToBoolean: the falsy values are undefined, null, false, 0, NaN and "". */
  predicate Truthy(v: Value) {
    match v
    case Undefined => false
    case Null => false
    case Bool(b) => b
    case Num(n) => n != 0
    case NaN => false
    case Str(s) => s != ""
  }

  // ---------------------------------------------------------------------------
  // String comparison
  // ---------------------------------------------------------------------------

  /** `a < b` on two strings: character codes compared left to right, and a proper
      prefix is smaller than the longer string. */
  predicate Less(a: string, b: string)
    decreases |a|
  {
    if a == [] then b != []
    else if b == [] then false
    else if a[0] != b[0] then a[0] < b[0]
    else Less(a[1..], b[1..])
  }

  /** `<` on strings is a strict total order: irreflexive, asymmetric, and any two
      different strings are ordered one way or the other. */
  lemma {:induction false} LessTrichotomy(a: string, b: string)
    ensures !Less(a, a)
    ensures Less(a, b) ==> !Less(b, a)
    ensures a != b ==> Less(a, b) || Less(b, a)
    decreases |a|
  {
    if a != [] {
      LessTrichotomy(a[1..], if b == [] then [] else b[1..]);
      if b != [] && a[0] == b[0] && a[1..] == b[1..] {
        assert a == [a[0]] + a[1..] && b == [b[0]] + b[1..];
      }
    }
  }

  // ---------------------------------------------------------------------------
  // Number to string and parseInt
  // ---------------------------------------------------------------------------

  /** The numeric value of a digit character in radix up to 36, or 36 for a non-digit. */
  function DigitValue(c: char): (d: nat)
    ensures d <= 36
  {
    if '0' <= c <= '9' then c as int - '0' as int
    else if 'a' <= c <= 'z' then c as int - 'a' as int + 10
    else if 'A' <= c <= 'Z' then c as int - 'A' as int + 10
    else 36
  }

  predicate IsDigit(c: char, radix: nat) {
    DigitValue(c) < radix
  }

  /** The decimal digit character for `d`. */
  function DigitChar(d: nat): (c: char)
    requires d < 10
    ensures DigitValue(c) == d
  {
    ('0' as int + d) as char
  }

  /** The shortest decimal numeral for `n`, as JavaScript's `String(n)` writes it. */
  function NatToDecimal(n: nat): (s: string)
    ensures |s| >= 1
    ensures forall i :: 0 <= i < |s| ==> IsDigit(s[i], 10)
    ensures |s| >= 2 ==> s[0] != '0'
    ensures DigitsValue(s, 10) == n
  {
    if n < 10 then [DigitChar(n)]
    else
      var prefix := NatToDecimal(n / 10);
      var s := prefix + [DigitChar(n % 10)];
      assert s[..|s| - 1] == prefix;
      s
  }

  /** `String(n)` for an integer: a minus sign for a negative number, then the numeral. */
  function IntToDecimal(n: int): string {
    if n < 0 then "-" + NatToDecimal(-n) else NatToDecimal(n)
  }

  /** JavaScript's ToString on a primitive value. */
  function ToJsString(v: Value): string {
    match v
    case Undefined => "undefined"
    case Null => "null"
    case Bool(b) => if b then "true" else "false"
    case Num(n) => IntToDecimal(n)
    case NaN => "NaN"
    case Str(s) => s
  }

  /** The characters `parseInt` skips at the start of its input: the white space and line
      terminator characters of ECMAScript. */
  predicate IsWhitespace(c: char) {
    c == '\t' || c == '\U{000B}' || c == '\U{000C}' || c == ' ' || c == '\U{00A0}' || c == '\U{FEFF}'
    || c == '\n' || c == '\r' || c == '\U{2028}' || c == '\U{2029}'
    || c == '\U{1680}' || ('\U{2000}' <= c <= '\U{200A}') || c == '\U{202F}' || c == '\U{205F}'
    || c == '\U{3000}'
  }

  /** `s` without its leading white space. */
  function TrimStart(s: string): (t: string)
    ensures t == [] || !IsWhitespace(t[0])
  {
    if s != [] && IsWhitespace(s[0]) then TrimStart(s[1..]) else s
  }

  /** The length of the longest prefix of `s` made of digits in `radix`. */
  function DigitsPrefix(s: string, radix: nat): (k: nat)
    ensures k <= |s|
    ensures forall i :: 0 <= i < k ==> IsDigit(s[i], radix)
    ensures k < |s| ==> !IsDigit(s[k], radix)
  {
    if s == [] || !IsDigit(s[0], radix) then 0 else 1 + DigitsPrefix(s[1..], radix)
  }

  /** The number a numeral of digits in `radix` denotes, most significant digit first. */
  function DigitsValue(s: string, radix: nat): nat {
    if s == [] then 0
    else DigitsValue(s[..|s| - 1], radix) * radix + DigitValue(s[|s| - 1])
  }

  /** `parseInt(s)` with no radix: skip leading white space, then read a signed numeral. */
  function ParseIntString(input: string): Value {
    ParseSigned(TrimStart(input))
  }

  /** An optional sign, then the magnitude; `NaN` when no digit was read. */
  function ParseSigned(s: string): Value {
    if s != [] && s[0] == '-' then WithSign(ParseMagnitude(s[1..]), true)
    else if s != [] && s[0] == '+' then WithSign(ParseMagnitude(s[1..]), false)
    else WithSign(ParseMagnitude(s), false)
  }

  /** The number for a magnitude read (negated after a minus sign), or `NaN` for none. */
  function WithSign(magnitude: Option<nat>, negative: bool): Value {
    match magnitude
    case None => NaN
    case Some(m) => var value: int := if negative then -(m as int) else m; Num(value)
  }

  /** The magnitude `parseInt` reads after the sign: a hexadecimal numeral after a `0x`/`0X`
      prefix and a decimal one otherwise, up to the first character that is not a digit;
      `None` when no digit is there. */
  function ParseMagnitude(unsigned: string): Option<nat> {
    if |unsigned| >= 2 && unsigned[0] == '0' && (unsigned[1] == 'x' || unsigned[1] == 'X') then
      var numeral := unsigned[2..];
      var k := DigitsPrefix(numeral, 16);
      if k == 0 then None else Some(DigitsValue(numeral[..k], 16))
    else
      var k := DigitsPrefix(unsigned, 10);
      if k == 0 then None else Some(DigitsValue(unsigned[..k], 10))
  }

  /** The global `parseInt(v)`: the value is first converted to a string. The result is
      always a number, possibly `NaN`. */
  function ParseInt(v: Value): (r: Value)
    ensures r.Num? || r.NaN?
  {
    ParseIntString(ToJsString(v))
  }

  /** Reading back a decimal numeral: `parseInt` of an integer's numeral, followed by any text
      that does not continue the numeral, is that integer. */
  lemma ParseIntOfDecimal(n: int, rest: string)
    requires rest == [] || !IsDigit(rest[0], 10)
    requires n == 0 && rest != [] ==> rest[0] != 'x' && rest[0] != 'X'
    ensures ParseIntString(IntToDecimal(n) + rest) == Num(n)
  {
    var m: nat := if n < 0 then -n else n;
    var digits := NatToDecimal(m);
    var unsigned := digits + rest;
    assert ParseMagnitude(unsigned) == Some(m) by {
      MagnitudeOfNumeral(m, rest);
    }
    assert '0' <= unsigned[0] <= '9' by {
      assert unsigned[0] == digits[0] && IsDigit(digits[0], 10);
    }
    assert IntToDecimal(n) + rest == if n < 0 then "-" + unsigned else unsigned by {
      assert IntToDecimal(n) == if n < 0 then "-" + digits else digits;
    }
    SignedNumeral(unsigned, n < 0);
  }

  /** A numeral that starts with a decimal digit, possibly after a minus sign, parses to its
      magnitude with that sign. */
  lemma SignedNumeral(unsigned: string, negative: bool)
    requires unsigned != [] && '0' <= unsigned[0] <= '9'
    ensures ParseIntString(if negative then "-" + unsigned else unsigned)
         == WithSign(ParseMagnitude(unsigned), negative)
  {
    var input := if negative then "-" + unsigned else unsigned;
    assert input[0] == if negative then '-' else unsigned[0];
    assert TrimStart(input) == input;
    if negative {
      assert input[1..] == unsigned;
    }
  }

  /** The magnitude read from a decimal numeral followed by a non-digit is the numeral's
      value. */
  lemma MagnitudeOfNumeral(m: nat, rest: string)
    requires rest == [] || !IsDigit(rest[0], 10)
    requires m == 0 && rest != [] ==> rest[0] != 'x' && rest[0] != 'X'
    ensures ParseMagnitude(NatToDecimal(m) + rest) == Some(m)
  {
    var digits := NatToDecimal(m);
    var unsigned := digits + rest;
    if |unsigned| >= 2 && |digits| == 1 {
      assert unsigned[1] == rest[0];
    }
    DigitsPrefixOfNumeral(digits, rest, 10);
    assert unsigned[..|digits|] == digits;
  }

  /** A numeral followed by a non-digit: the digit prefix is exactly the numeral. */
  lemma {:induction false} DigitsPrefixOfNumeral(digits: string, rest: string, radix: nat)
    requires forall i :: 0 <= i < |digits| ==> IsDigit(digits[i], radix)
    requires rest == [] || !IsDigit(rest[0], radix)
    ensures DigitsPrefix(digits + rest, radix) == |digits|
  {
    if digits != [] {
      assert (digits + rest)[1..] == digits[1..] + rest;
      DigitsPrefixOfNumeral(digits[1..], rest, radix);
    }
  }

  /** `parseInt` turns every integer back into itself. */
  lemma ParseIntOfNumber(n: int)
    ensures ParseInt(Num(n)) == Num(n)
  {
    ParseIntOfDecimal(n, "");
    assert IntToDecimal(n) + "" == IntToDecimal(n);
  }

  /** A string that starts with something other than white space, a sign or a decimal digit
      (such as "abc") is not a number to `parseInt`: the result is NaN, not an error. */
  lemma ParseIntNonNumeric(s: string)
    requires s == [] || (!IsWhitespace(s[0]) && s[0] != '-' && s[0] != '+' && !IsDigit(s[0], 10))
    ensures ParseInt(Str(s)) == NaN
  {
    assert TrimStart(s) == s;
    if s != [] {
      assert s[0] != '0';
      assert DigitsPrefix(s, 10) == 0;
    }
  }

  /** `parseInt` of undefined, null, a boolean or NaN is NaN: their string forms ("undefined",
      "null", "true", "false", "NaN") start with a letter. */
  lemma ParseIntNonNumber(v: Value)
    requires v.Undefined? || v.Null? || v.Bool? || v.NaN?
    ensures ParseInt(v) == NaN
  {
    var s := ToJsString(v);
    assert s[0] in "unftN";
    ParseIntNonNumeric(s);
  }
}
