/** JavaScript's number parsing and printing as the pages use them:
    `parseInt` (with and without a radix), `parseFloat`, `BigInt(string)`,
    the `Number` coercion applied by arithmetic and comparisons, and
    `toString` of integral numbers. All values are exact. */
module JsNumbers {
  import opened JsValues

  /** The value of a character read as a digit of a radix up to 36
      (letters in either case stand for 10 to 35); 36 for a non-digit. */
  function DigitValue(c: char): (d: nat)
    ensures d <= 36
  {
    if '0' <= c <= '9' then c as int - '0' as int
    else if 'a' <= c <= 'z' then c as int - 'a' as int + 10
    else if 'A' <= c <= 'Z' then c as int - 'A' as int + 10
    else 36
  }

  predicate IsDigitIn(c: char, radix: nat) {
    DigitValue(c) < radix
  }

  predicate AllDigitsIn(s: string, radix: nat) {
    forall i :: 0 <= i < |s| ==> IsDigitIn(s[i], radix)
  }

  /** The lower-case character that stands for digit `d`. */
  function DigitChar(d: nat): (c: char)
    requires d < 36
    ensures DigitValue(c) == d && LowerChar(c) == c
  {
    if d < 10 then ('0' as int + d) as char else ('a' as int + d - 10) as char
  }

  /** Length of the longest prefix of `s` made of digits of the radix. */
  function DigitRun(s: string, radix: nat): (n: nat)
    ensures n <= |s| && AllDigitsIn(s[..n], radix)
    ensures n < |s| ==> !IsDigitIn(s[n], radix)
  {
    if s == [] || !IsDigitIn(s[0], radix) then 0
    else
      var k := DigitRun(s[1..], radix);
      assert s[..1 + k] == [s[0]] + s[1..][..k];
      1 + k
  }

  /** The value of a digit string read most significant digit first. */
  function DigitsValue(s: string, radix: nat): nat {
    if s == [] then 0 else DigitsValue(s[..|s| - 1], radix) * radix + DigitValue(s[|s| - 1])
  }

  function Pow(b: nat, e: nat): (p: nat)
    ensures b > 0 ==> p > 0
  {
    if e == 0 then 1 else b * Pow(b, e - 1)
  }

  /** 10 raised to an integer power, as an exact real. */
  function Scale(e: int): (r: real)
    ensures r > 0.0
  {
    if e >= 0 then Pow(10, e) as real else 1.0 / (Pow(10, -e) as real)
  }

  /** The radix `parseInt` reads with: 10 when none is given. */
  function EffectiveRadix(radix: nat): nat {
    if radix == 0 then 10 else radix
  }

  /** `parseInt` after white space and sign: with no radix, or radix 16, a
      `0x`/`0X` prefix selects hexadecimal; the longest run of digits that
      follows is read, and no digit at all is NaN (None). */
  function ParseUnsignedInt(u: string, radix: nat): Option<nat> {
    var hexPrefix := (radix == 0 || radix == 16) && (StartsWith(u, "0x") || StartsWith(u, "0X"));
    var r := if hexPrefix then 16 else EffectiveRadix(radix);
    var body := if hexPrefix then u[2..] else u;
    var n := DigitRun(body, r);
    if n == 0 then None else Some(DigitsValue(body[..n], r))
  }

  /** `parseInt(s, radix)`; a radix of 0 stands for an absent radix. None is
      NaN. Leading white space and one sign are skipped before the digits. */
  function ParseInt(s: string, radix: nat): Option<int> {
    if radix != 0 && (radix < 2 || radix > 36) then None
    else
      var t := TrimStart(s);
      var negative := |t| > 0 && t[0] == '-';
      var u := if |t| > 0 && (t[0] == '-' || t[0] == '+') then t[1..] else t;
      match ParseUnsignedInt(u, radix)
      case None => None
      case Some(v) => Some(if negative then -(v as int) else v)
  }

  /** A string of digits of the radix with nothing else, as the prefixed
      forms of `BigInt` and `Number` read it. */
  function RadixLiteral(u: string, radix: nat): Option<int> {
    if u != [] && DigitRun(u, radix) == |u| then Some(DigitsValue(u, radix)) else None
  }

  /** The radix selected by a `0x`, `0o` or `0b` prefix (either case); 0 when
      the string has none. */
  function RadixPrefix(t: string): (r: nat)
    ensures r != 0 ==> |t| >= 2 && (r == 16 || r == 8 || r == 2)
  {
    if StartsWith(t, "0x") || StartsWith(t, "0X") then 16
    else if StartsWith(t, "0o") || StartsWith(t, "0O") then 8
    else if StartsWith(t, "0b") || StartsWith(t, "0B") then 2
    else 0
  }

  /** `BigInt(s)` for a string: surrounding white space is ignored, the empty
      string is 0n, a prefixed literal takes no sign, and anything else must
      be an optionally signed run of decimal digits. None is the SyntaxError. */
  function ParseBigInt(s: string): Option<int> {
    var t := Trim(s);
    if t == "" then Some(0)
    else if RadixPrefix(t) != 0 then RadixLiteral(t[2..], RadixPrefix(t))
    else
      var negative := t[0] == '-';
      var u := if t[0] == '-' || t[0] == '+' then t[1..] else t;
      match RadixLiteral(u, 10)
      case None => None
      case Some(v) => Some(if negative then -(v as int) else v)
  }

  /** The longest prefix of an optional exponent part `e[+-]digits`: its
      value and its length (0 and 0 when there is none). */
  function ExponentPrefix(s: string): (r: (int, nat))
    ensures r.1 <= |s|
  {
    if |s| > 0 && (s[0] == 'e' || s[0] == 'E') then
      var signLen := if |s| > 1 && (s[1] == '-' || s[1] == '+') then 1 else 0;
      var d := DigitRun(s[1 + signLen..], 10);
      if d == 0 then (0, 0)
      else
        var v: int := DigitsValue(s[1 + signLen..][..d], 10);
        (if signLen == 1 && s[1] == '-' then -v else v, 1 + signLen + d)
    else (0, 0)
  }

  /** A decimal literal as read from text: sign, the digits before and after
      the point, the exponent, and how many characters it spans. */
  datatype DecimalLiteral = DecimalLiteral(negative: bool, whole: string, fraction: string, exponent: int, length: nat)

  /** The exact value a decimal literal denotes. */
  function LiteralValue(l: DecimalLiteral): real {
    var magnitude := (DigitsValue(l.whole, 10) as real
                      + DigitsValue(l.fraction, 10) as real / Pow(10, |l.fraction|) as real) * Scale(l.exponent);
    if l.negative then -magnitude else magnitude
  }

  /** The longest prefix of `s` that is an unsigned decimal literal
      (digits, an optional point and fraction, an optional exponent, at
      least one digit before the exponent). */
  function UnsignedDecimalPrefix(s: string): (r: Option<DecimalLiteral>)
    ensures r.Some? ==> 0 < r.value.length <= |s|
  {
    var i := DigitRun(s, 10);
    var hasDot := i < |s| && s[i] == '.';
    var f := if hasDot then DigitRun(s[i + 1..], 10) else 0;
    if i == 0 && f == 0 then None
    else
      var mantissaLen := if hasDot then i + 1 + f else i;
      var fraction := if hasDot then s[i + 1..i + 1 + f] else [];
      var exponent := ExponentPrefix(s[mantissaLen..]);
      Some(DecimalLiteral(false, s[..i], fraction, exponent.0, mantissaLen + exponent.1))
  }

  /** The longest prefix of `s` that is an optionally signed decimal literal. */
  function DecimalPrefix(s: string): (r: Option<DecimalLiteral>)
    ensures r.Some? ==> 0 < r.value.length <= |s|
  {
    if |s| > 0 && (s[0] == '-' || s[0] == '+') then
      match UnsignedDecimalPrefix(s[1..])
      case None => None
      case Some(l) => Some(l.(negative := s[0] == '-', length := l.length + 1))
    else UnsignedDecimalPrefix(s)
  }

  /** `parseFloat(s)`: the value of the longest decimal-literal prefix after
      leading white space, so that trailing text is ignored; None is NaN. */
  function ParseFloat(s: string): Option<real> {
    match DecimalPrefix(TrimStart(s))
    case None => None
    case Some(l) => Some(LiteralValue(l))
  }

  /** `Number(s)`, the coercion arithmetic and comparisons apply to a
      string: white space around it is ignored, the blank string is 0, and
      the whole rest must be one literal. None is NaN. */
  function StringToNumber(s: string): Option<real> {
    var t := Trim(s);
    if t == "" then Some(0.0)
    else if RadixPrefix(t) != 0 then
      match RadixLiteral(t[2..], RadixPrefix(t))
      case None => None
      case Some(v) => Some(v as real)
    else
      match DecimalPrefix(t)
      case None => None
      case Some(l) => if l.length == |t| then Some(LiteralValue(l)) else None
  }

  /** ECMAScript ToNumber on the modelled values; None is NaN. */
  function ToNumber(v: JsValue): Option<real> {
    match v
    case Undefined => None
    case Null => Some(0.0)
    case Bool(b) => Some(if b then 1.0 else 0.0)
    case Num(n) => Some(n)
    case NaN => None
    case Str(s) => StringToNumber(s)
  }

  predicate IsIntegral(x: real) {
    x == x.Floor as real
  }

  /** Decimal digits of a natural number, without leading zeros. */
  function NatToString(n: nat): (s: string)
    ensures |s| > 0 && AllDigitsIn(s, 10)
  {
    if n < 10 then [DigitChar(n)] else NatToString(n / 10) + [DigitChar(n % 10)]
  }

  /** `String(n)` for an integral number. */
  function IntToString(n: int): string {
    if n < 0 then "-" + NatToString(-n) else NatToString(n)
  }

  /** A template literal's rendering of `parseInt`'s result. */
  function NumberText(v: Option<int>): string {
    match v
    case None => "NaN"
    case Some(n) => IntToString(n)
  }

  /** The lower-case hexadecimal digits of `n`, zero-padded to `width`. */
  function HexDigits(n: nat, width: nat): (s: string)
    ensures |s| == width && AllDigitsIn(s, 16)
  {
    if width == 0 then [] else HexDigits(n / 16, width - 1) + [DigitChar(n % 16)]
  }

  // ---------------------------------------------------------------------
  // Lemmas

  lemma DigitsValueSnoc(s: string, c: char, radix: nat)
    ensures DigitsValue(s + [c], radix) == DigitsValue(s, radix) * radix + DigitValue(c)
  {
    assert (s + [c])[..|s|] == s;
  }

  /** A digit string is read to its end by DigitRun when nothing digit-like follows it. */
  lemma {:induction false} DigitRunStopsAt(a: string, b: string, radix: nat)
    requires AllDigitsIn(a, radix)
    requires b == [] || !IsDigitIn(b[0], radix)
    ensures DigitRun(a + b, radix) == |a|
  {
    if a != [] {
      assert (a + b)[1..] == a[1..] + b;
      DigitRunStopsAt(a[1..], b, radix);
    }
  }

  lemma DigitRunAll(a: string, radix: nat)
    requires AllDigitsIn(a, radix)
    ensures DigitRun(a, radix) == |a|
  {
    DigitRunStopsAt(a, [], radix);
    assert a + [] == a;
  }

  /** The decimal rendering of `n` reads back as `n`. */
  lemma {:induction false} NatToStringValue(n: nat)
    ensures DigitsValue(NatToString(n), 10) == n
  {
    if n >= 10 {
      NatToStringValue(n / 10);
      DigitsValueSnoc(NatToString(n / 10), DigitChar(n % 10), 10);
    }
  }

  /** What `parseInt` finds after the sign in a plain run of digits. */
  lemma ParseUnsignedDigits(u: string, radix: nat)
    requires radix == 0 || 2 <= radix <= 33
    requires u != [] && AllDigitsIn(u, EffectiveRadix(radix))
    ensures ParseUnsignedInt(u, radix) == Some(DigitsValue(u, EffectiveRadix(radix)))
  {
    assert !StartsWith(u, "0x") && !StartsWith(u, "0X") by {
      if |u| >= 2 { assert IsDigitIn(u[1], EffectiveRadix(radix)); }
    }
    DigitRunAll(u, EffectiveRadix(radix));
    assert u[..|u|] == u;
  }

  /** The rendering of an integer starts with a sign or a digit, never with white space. */
  lemma IntToStringNoSpace(n: int)
    ensures |IntToString(n)| > 0 && !IsJsSpace(IntToString(n)[0]) && !IsJsSpace(IntToString(n)[|IntToString(n)| - 1])
    ensures n < 0 ==> IntToString(n)[0] == '-' && IntToString(n)[1..] == NatToString(-n)
    ensures n >= 0 ==> IntToString(n) == NatToString(n) && IsDigitIn(IntToString(n)[0], 10)
  {
    var s := IntToString(n);
    var m: nat := if n < 0 then -n else n;
    assert IsDigitIn(NatToString(m)[0], 10);
    assert IsDigitIn(NatToString(m)[|NatToString(m)| - 1], 10);
    if n < 0 {
      assert s[|s| - 1] == NatToString(m)[|NatToString(m)| - 1];
    }
  }

  /** `parseInt` applies a leading minus sign to what follows it. */
  lemma ParseIntReadsSign(s: string, radix: nat, u: string, negative: bool)
    requires radix == 0 || 2 <= radix <= 36
    requires s != [] && !IsJsSpace(s[0])
    requires negative ==> s == "-" + u
    requires !negative ==> s == u && s[0] != '-' && s[0] != '+'
    ensures ParseInt(s, radix) == match ParseUnsignedInt(u, radix)
                                  case None => None
                                  case Some(v) => Some(if negative then -(v as int) else v)
  {
    assert TrimStart(s) == s;
    if negative {
      assert s[1..] == u;
    }
  }

  /** `parseInt(String(n))` is `n` for every integer. */
  lemma ParseIntOfIntToString(n: int)
    ensures ParseInt(IntToString(n), 0) == Some(n)
  {
    var m: nat := if n < 0 then -n else n;
    var d := NatToString(m);
    assert ParseUnsignedInt(d, 0) == Some(m) by {
      NatToStringValue(m);
      ParseUnsignedDigits(d, 0);
    }
    IntToStringNoSpace(n);
    ParseIntReadsSign(IntToString(n), 0, d, n < 0);
  }

  /** `BigInt` of a trimmed, unprefixed string applies its sign to the decimal digits after it. */
  lemma ParseBigIntReadsSign(s: string, u: string, negative: bool)
    requires s != [] && !IsJsSpace(s[0]) && !IsJsSpace(s[|s| - 1])
    requires negative ==> s == "-" + u
    requires !negative ==> s == u && s[0] != '-' && s[0] != '+'
    requires u != [] && AllDigitsIn(u, 10)
    ensures ParseBigInt(s) == Some(if negative then -(DigitsValue(u, 10) as int) else DigitsValue(u, 10))
  {
    TrimNoop(s);
    if negative {
      assert s[0] == '-';
      NoRadixPrefix(s);
      assert s[1..] == u;
    } else {
      if |s| >= 2 { assert IsDigitIn(s[1], 10); }
      NoRadixPrefix(s);
    }
    DigitRunAll(u, 10);
    assert RadixLiteral(u, 10) == Some(DigitsValue(u, 10));
  }

  /** A string that does not start with `0` followed by a letter has no radix prefix. */
  lemma NoRadixPrefix(t: string)
    requires |t| < 2 || t[0] != '0' || IsDigitIn(t[1], 10)
    ensures RadixPrefix(t) == 0
  {
    if |t| >= 2 {
      assert t[..2][0] == t[0] && t[..2][1] == t[1];
    }
  }

  /** `BigInt(String(n))` is `n` for every integer. */
  lemma BigIntOfIntToString(n: int)
    ensures ParseBigInt(IntToString(n)) == Some(n)
  {
    var m: nat := if n < 0 then -n else n;
    NatToStringValue(m);
    IntToStringNoSpace(n);
    ParseBigIntReadsSign(IntToString(n), NatToString(m), n < 0);
  }

  /** A run of decimal digits followed by text that cannot continue a
      number is a whole decimal literal on its own. */
  lemma UnsignedDecimalOfDigits(d: string, rest: string)
    requires d != [] && AllDigitsIn(d, 10)
    requires rest == [] || (!IsDigitIn(rest[0], 10) && rest[0] != '.' && rest[0] != 'e' && rest[0] != 'E')
    ensures UnsignedDecimalPrefix(d + rest) == Some(DecimalLiteral(false, d, [], 0, |d|))
  {
    var s := d + rest;
    DigitRunStopsAt(d, rest, 10);
    assert s[..|d|] == d;
    assert s[|d|..] == rest;
    assert ExponentPrefix(rest) == (0, 0);
  }

  lemma WholeLiteralValue(d: string)
    ensures LiteralValue(DecimalLiteral(false, d, [], 0, |d|)) == DigitsValue(d, 10) as real
  {
    assert Scale(0) == 1.0;
  }

  /** A decimal digit is neither white space nor a sign. */
  lemma DecimalDigitIsPlain(c: char)
    requires IsDigitIn(c, 10)
    ensures '0' <= c <= '9' && !IsJsSpace(c) && c != '-' && c != '+'
  {
  }

  /** `parseFloat` of a digit run followed by text that cannot continue a
      number is the run's value. */
  lemma ParseFloatOfDigits(d: string, rest: string)
    requires d != [] && AllDigitsIn(d, 10)
    requires rest == [] || (!IsDigitIn(rest[0], 10) && rest[0] != '.' && rest[0] != 'e' && rest[0] != 'E')
    ensures ParseFloat(d + rest) == Some(DigitsValue(d, 10) as real)
  {
    var s := d + rest;
    assert s[0] == d[0];
    DecimalDigitIsPlain(s[0]);
    assert TrimStart(s) == s;
    assert DecimalPrefix(s) == UnsignedDecimalPrefix(s);
    UnsignedDecimalOfDigits(d, rest);
    WholeLiteralValue(d);
  }

  /** `parseFloat` reads the digits of a natural number and ignores the text
      after them when that text cannot continue a number ("25abc" is 25). */
  lemma ParseFloatReadsLeadingNumber(n: nat, rest: string)
    requires rest == [] || (!IsDigitIn(rest[0], 10) && rest[0] != '.' && rest[0] != 'e' && rest[0] != 'E')
    ensures ParseFloat(NatToString(n) + rest) == Some(n as real)
  {
    NatToStringValue(n);
    ParseFloatOfDigits(NatToString(n), rest);
  }

  /** A hexadecimal rendering reads back as the number it renders. */
  lemma {:induction false} HexDigitsValue(n: nat, width: nat)
    requires n < Pow(16, width)
    ensures DigitsValue(HexDigits(n, width), 16) == n
  {
    if width > 0 {
      var q, d := n / 16, n % 16;
      DivModSixteen(n, Pow(16, width - 1));
      HexDigitsValue(q, width - 1);
      var h := HexDigits(q, width - 1);
      assert HexDigits(n, width) == h + [DigitChar(d)];
      DigitsValueSnoc(h, DigitChar(d), 16);
    }
  }

  lemma DivModSixteen(n: nat, p: nat)
    requires n < 16 * p
    ensures n / 16 < p && (n / 16) * 16 + n % 16 == n && n % 16 < 16
  {
  }

  /** The value of a digit string of a given length is below radix^length. */
  lemma {:induction false} DigitsValueBound(s: string, radix: nat)
    requires AllDigitsIn(s, radix)
    ensures DigitsValue(s, radix) < Pow(radix, |s|)
  {
    if s != [] {
      var p := s[..|s| - 1];
      var d := DigitValue(s[|s| - 1]);
      assert AllDigitsIn(p, radix);
      DigitsValueBound(p, radix);
      var v := DigitsValue(p, radix);
      assert DigitsValue(s, radix) == v * radix + d;
      assert d < radix;
      MulMonotone(v + 1, Pow(radix, |p|), radix);
      MulSucc(v, radix);
      assert Pow(radix, |s|) == radix * Pow(radix, |p|);
    }
  }

  lemma MulSucc(a: nat, b: nat)
    ensures (a + 1) * b == a * b + b
  {
  }

  lemma MulMonotone(a: nat, b: nat, c: nat)
    requires a <= b
    ensures a * c <= b * c
  {
  }

  /** `parseInt(s, 16)` of a non-empty string of hexadecimal digits is its value. */
  lemma ParseHexDigits(s: string)
    requires s != [] && AllDigitsIn(s, 16)
    ensures ParseInt(s, 16) == Some(DigitsValue(s, 16))
  {
    assert IsDigitIn(s[0], 16) && IsDigitIn(s[|s| - 1], 16);
    TrimNoop(s);
    ParseUnsignedDigits(s, 16);
  }
}
