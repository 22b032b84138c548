/** The integer parsers behind the `-l` and `-c` options: JavaScript's global
    `parseInt` (JS variant) and Swift's failable `Int(String)` (Swift variant),
    plus decimal rendering, against which both are checked. */
module NumberParsing {
  import opened Wrappers

  const INT64_MIN: int := -0x8000_0000_0000_0000
  const INT64_MAX: int := 0x7FFF_FFFF_FFFF_FFFF

  /** The value of `c` as a digit of base `radix` (at most 36), if it is one. */
  function DigitValue(c: char, radix: nat): (d: Option<nat>)
    ensures d.Some? ==> d.value < radix
  {
    var v := if '0' <= c <= '9' then c as int - '0' as int
             else if 'a' <= c <= 'z' then c as int - 'a' as int + 10
             else if 'A' <= c <= 'Z' then c as int - 'A' as int + 10
             else 36;
    if v < radix then Some(v) else None
  }

  predicate AllDigits(s: string, radix: nat)
  {
    forall i :: 0 <= i < |s| ==> DigitValue(s[i], radix).Some?
  }

  /** The length of the longest prefix of `s` made of digits of base `radix`. */
  function DigitRun(s: string, radix: nat): (n: nat)
    ensures n <= |s|
    ensures AllDigits(s[..n], radix)
    ensures n < |s| ==> DigitValue(s[n], radix).None?
  {
    if s == [] || DigitValue(s[0], radix).None? then 0
    else
      var n := 1 + DigitRun(s[1..], radix);
      assert forall i :: 1 <= i < n ==> s[..n][i] == s[1..][..n - 1][i - 1];
      n
  }

  /** The value of a string of base-`radix` digits, most significant first. */
  function ValueOf(digits: string, radix: nat): nat
    requires AllDigits(digits, radix)
  {
    if digits == [] then 0
    else ValueOf(digits[..|digits| - 1], radix) * radix + DigitValue(digits[|digits| - 1], radix).value
  }

  /** The white space and line terminators `parseInt` skips before the number. */
  predicate IsJsWhitespace(c: char)
  {
    var u := c as int;
    u == 0x09 || u == 0x0A || u == 0x0B || u == 0x0C || u == 0x0D || u == 0x20 || u == 0xA0
    || u == 0x1680 || (0x2000 <= u <= 0x200A) || u == 0x2028 || u == 0x2029 || u == 0x202F
    || u == 0x205F || u == 0x3000 || u == 0xFEFF
  }

  function LeadingWhitespace(s: string): (n: nat)
    ensures n <= |s|
    ensures n < |s| ==> !IsJsWhitespace(s[n])
  {
    if s == [] || !IsJsWhitespace(s[0]) then 0 else 1 + LeadingWhitespace(s[1..])
  }

  /** `parseInt(s)` with no radix: skip leading white space, take an optional
      sign, then read the number as `JsParseMagnitude` does. `None` stands for
      `NaN`. (A missing argument, `undefined`, also parses as `NaN`; callers
      pass `None` for it.) */
  function JsParseInt(s: string): Option<int>
  {
    var t := s[LeadingWhitespace(s)..];
    var negative := t != [] && t[0] == '-';
    var u := if t != [] && (t[0] == '-' || t[0] == '+') then t[1..] else t;
    match JsParseMagnitude(u)
    case None => None
    case Some(m) => Some(if negative then -m else m)
  }

  /** The unsigned part of `parseInt`: a `0x`/`0X`-prefixed hexadecimal or else
      a decimal digit run, ignoring whatever follows it. */
  function JsParseMagnitude(u: string): Option<int>
  {
    var hex := |u| >= 2 && u[0] == '0' && (u[1] == 'x' || u[1] == 'X');
    var radix := if hex then 16 else 10;
    var body := if hex then u[2..] else u;
    var n := DigitRun(body, radix);
    if n == 0 then None else Some(ValueOf(body[..n], radix))
  }

  /** Swift's `Int(s)`: an optional `+` or `-` followed by one or more decimal
      digits and nothing else, whose value fits a 64-bit `Int`. */
  function SwiftParseInt(s: string): Option<int>
  {
    var negative := s != [] && s[0] == '-';
    var body := if s != [] && (s[0] == '-' || s[0] == '+') then s[1..] else s;
    if body == [] || !AllDigits(body, 10) then None
    else
      var m: int := ValueOf(body, 10);
      var v: int := if negative then -m else m;
      if INT64_MIN <= v <= INT64_MAX then Some(v) else None
  }

  function DigitChar(d: nat): (c: char)
    requires d < 10
    ensures DigitValue(c, 10) == Some(d)
  {
    ('0' as int + d) as char
  }

  /** `n` written in decimal, as `String(n)` and `str(n)` render it. */
  function Decimal(n: nat): (s: string)
    ensures s != [] && AllDigits(s, 10)
  {
    if n < 10 then [DigitChar(n)] else Decimal(n / 10) + [DigitChar(n % 10)]
  }

  /** Only zero is rendered with a leading `0`. */
  lemma {:induction false} DecimalLeadingDigit(n: nat)
    ensures Decimal(n)[0] == '0' ==> n == 0
  {
    if n >= 10 {
      DecimalLeadingDigit(n / 10);
      assert Decimal(n)[0] == Decimal(n / 10)[0];
    }
  }

  lemma {:induction false} ValueOfDecimal(n: nat)
    ensures ValueOf(Decimal(n), 10) == n
  {
    var s := Decimal(n);
    if n < 10 {
      assert s[..0] == [];
    } else {
      ValueOfDecimal(n / 10);
      assert s[..|s| - 1] == Decimal(n / 10);
    }
  }

  /** A digit run ends where the digits end. */
  lemma {:induction false} DigitRunOf(s: string, suffix: string, radix: nat)
    requires AllDigits(s, radix)
    requires suffix == [] || DigitValue(suffix[0], radix).None?
    ensures DigitRun(s + suffix, radix) == |s|
  {
    if s == [] {
      assert s + suffix == suffix;
    } else {
      assert (s + suffix)[1..] == s[1..] + suffix;
      DigitRunOf(s[1..], suffix, radix);
    }
  }

  lemma {:induction false} JsMagnitudeOfDecimal(n: nat, suffix: string)
    requires suffix == [] || DigitValue(suffix[0], 10).None?
    requires n == 0 && suffix != [] ==> suffix[0] != 'x' && suffix[0] != 'X'
    ensures JsParseMagnitude(Decimal(n) + suffix) == Some(n)
  {
    var d := Decimal(n);
    var u := d + suffix;
    DecimalLeadingDigit(n);
    assert !(|u| >= 2 && u[0] == '0' && (u[1] == 'x' || u[1] == 'X'));
    DigitRunOf(d, suffix, 10);
    assert u[..|d|] == d;
    ValueOfDecimal(n);
  }

  /** `v` written in decimal, with a leading `-` when negative. */
  function DecimalInt(v: int): (s: string)
    ensures s != []
  {
    if v < 0 then "-" + Decimal(-v) else Decimal(v)
  }

  /** `parseInt` reads back every integer written in decimal, whatever
      non-digit text follows (except that `0` followed by `x` opens a
      hexadecimal number). */
  lemma {:induction false} JsParseIntReadsDecimal(v: int, suffix: string)
    requires suffix == [] || DigitValue(suffix[0], 10).None?
    requires v == 0 && suffix != [] ==> suffix[0] != 'x' && suffix[0] != 'X'
    ensures JsParseInt(DecimalInt(v) + suffix) == Some(v)
  {
    var n: nat := if v < 0 then -v else v;
    var u := Decimal(n) + suffix;
    JsMagnitudeOfDecimal(n, suffix);
    DecimalLeadingDigit(n);
    assert u[0] == Decimal(n)[0];
    SignedText(v, suffix);
    JsParseIntSigned(u, v < 0, n);
  }

  /** A negative number is written as a minus sign before its magnitude. */
  lemma SignedText(v: int, suffix: string)
    ensures DecimalInt(v) + suffix == if v < 0 then ['-'] + (Decimal(-v) + suffix) else Decimal(v) + suffix
  {
  }

  /** `parseInt` negates the magnitude after a leading minus sign. */
  lemma JsParseIntSigned(u: string, negative: bool, m: nat)
    requires u != [] && DigitValue(u[0], 10).Some?
    requires JsParseMagnitude(u) == Some(m)
    ensures JsParseInt(if negative then ['-'] + u else u) == Some(if negative then -(m as int) else m as int)
  {
    var s := if negative then ['-'] + u else u;
    assert !IsJsWhitespace(s[0]);
    assert s[LeadingWhitespace(s)..] == s;
    if negative {
      assert s[1..] == u;
    }
  }

  /** Swift reads back every 64-bit integer written in decimal. */
  lemma {:induction false} SwiftParseIntReadsDecimal(v: int)
    requires INT64_MIN <= v <= INT64_MAX
    ensures SwiftParseInt(DecimalInt(v)) == Some(v)
  {
    var n: nat := if v < 0 then -v else v;
    var d := Decimal(n);
    ValueOfDecimal(n);
    SwiftParseIntSigned(d, v < 0);
    if v < 0 {
      assert DecimalInt(v) == ['-'] + d;
    } else {
      assert DecimalInt(v) == d;
    }
  }

  /** Swift's parser negates the value after a leading minus sign. */
  lemma SwiftParseIntSigned(u: string, negative: bool)
    requires u != [] && AllDigits(u, 10)
    ensures var m: int := ValueOf(u, 10);
            var v := if negative then -m else m;
            SwiftParseInt(if negative then ['-'] + u else u) == if INT64_MIN <= v <= INT64_MAX then Some(v) else None
  {
    var s := if negative then ['-'] + u else u;
    assert DigitValue(u[0], 10).Some?;
    if negative {
      assert s[1..] == u;
    }
  }

  /** Swift rejects anything after the digits, where `parseInt` ignores it. */
  lemma {:induction false} SwiftRejectsTrailingText(n: nat, suffix: string)
    requires suffix != [] && DigitValue(suffix[0], 10).None?
    ensures SwiftParseInt(Decimal(n) + suffix) == None
  {
    var s := Decimal(n) + suffix;
    DigitRunOf(Decimal(n), suffix, 10);
    assert s[|Decimal(n)|] == suffix[0];
    assert !AllDigits(s, 10);
    assert DigitValue(s[0], 10).Some?;
  }

  /** The two parsers disagree on trailing text, on leading white space and
      on hexadecimal: `-l 12abc`, `-l " 20"` and `-l 0x10` set a length in the
      JavaScript variant and are ignored by the Swift one. */
  lemma ParsersDisagree()
    ensures JsParseInt("12abc") == Some(12) && SwiftParseInt("12abc") == None
    ensures JsParseInt(" 20") == Some(20) && SwiftParseInt(" 20") == None
    ensures JsParseInt("0x10") == Some(16) && SwiftParseInt("0x10") == None
  {
    TrailingTextDisagrees();
    LeadingSpaceDisagrees();
    HexadecimalDisagrees();
  }

  lemma TrailingTextDisagrees()
    ensures JsParseInt("12abc") == Some(12) && SwiftParseInt("12abc") == None
  {
    assert Decimal(12) == "12";
    JsParseIntReadsDecimal(12, "abc");
    assert DecimalInt(12) + "abc" == "12abc";
    SwiftRejectsTrailingText(12, "abc");
  }

  lemma LeadingSpaceDisagrees()
    ensures JsParseInt(" 20") == Some(20) && SwiftParseInt(" 20") == None
  {
    assert LeadingWhitespace(" 20") == 1;
    assert " 20"[1..] == "20";
    assert Decimal(20) == "20";
    JsMagnitudeOfDecimal(20, "");
    assert Decimal(20) + "" == "20";
    assert DigitValue(" 20"[0], 10).None?;
  }

  lemma HexadecimalDisagrees()
    ensures JsParseInt("0x10") == Some(16) && SwiftParseInt("0x10") == None
  {
    assert LeadingWhitespace("0x10") == 0;
    assert "0x10"[2..] == "10";
    assert DigitRun("10", 16) == 2;
    assert "10"[..2] == "10";
    assert "10"[..1] == "1";
    assert ValueOf("10", 16) == 16;
    assert JsParseMagnitude("0x10") == Some(16);
    assert !AllDigits("0x10", 10) by {
      assert DigitValue("0x10"[1], 10).None?;
    }
    assert "0x10"[0] != '-' && "0x10"[0] != '+';
  }

  /** Every value Swift's parser produces fits a 64-bit `Int`; text with no
      digits parses to nothing in both languages. */
  lemma ParsersOnEmptyAndRange(s: string)
    ensures SwiftParseInt(s).Some? ==> INT64_MIN <= SwiftParseInt(s).value <= INT64_MAX
    ensures JsParseInt("") == None && SwiftParseInt("") == None
    ensures JsParseInt("-") == None && SwiftParseInt("-") == None
  {
  }
}
