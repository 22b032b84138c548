/** The four fixed character categories, the ambiguous-character filter and the
    per-category alphabets a generation request draws from. */
module Alphabet {

  const UPPERCASE: string := "ABCDEFGHIJKLMNOPQRSTUVWXYZ"
  const LOWERCASE: string := "abcdefghijklmnopqrstuvwxyz"
  const DIGITS: string := "0123456789"
  const SPECIAL: string := "!@#$%^&*_+-=[]{}|;:,.<>?"
  /** Glyphs that are easily confused when read or transcribed. */
  const CONFUSING: string := "0O1lI|"

  datatype Category = Upper | Lower | Digit | Special

  /** The categories in the order every variant visits them. */
  const CATEGORIES: seq<Category> := [Upper, Lower, Digit, Special]

  /** The full (unfiltered) alphabet of a category. */
  function FullAlphabet(cat: Category): string
  {
    match cat
    case Upper => UPPERCASE
    case Lower => LOWERCASE
    case Digit => DIGITS
    case Special => SPECIAL
  }

  /** The characters of `s` that satisfy `keep`
      (`Array.prototype.filter`, a generator expression with `if`, `String.filter`). */
  function FilterChars(s: string, keep: char -> bool): (r: string)
    ensures |r| <= |s|
    ensures forall c :: c in r <==> c in s && keep(c)
  {
    if s == [] then []
    else if keep(s[0]) then [s[0]] + FilterChars(s[1..], keep)
    else FilterChars(s[1..], keep)
  }

  predicate NotConfusing(c: char)
  {
    c !in CONFUSING
  }

  /** `s` without the ambiguous characters. */
  function Filter(s: string): (r: string)
    ensures forall c :: c in r <==> c in s && c !in CONFUSING
  {
    FilterChars(s, NotConfusing)
  }

  /** The alphabets of the four categories after the enable flags and the
      optional ambiguous-character filter have been applied. */
  datatype Alphabets = Alphabets(upper: string, lower: string, digits: string, special: string)
  {
    function Of(cat: Category): string
    {
      match cat
      case Upper => upper
      case Lower => lower
      case Digit => digits
      case Special => special
    }

    /** The pooled alphabet: the four category alphabets concatenated in order. */
    function AllChars(): (r: string)
      ensures |r| == |upper| + |lower| + |digits| + |special|
      ensures forall c :: c in r <==> exists cat :: c in Of(cat)
    {
      assert forall c :: c in upper ==> c in Of(Upper);
      assert forall c :: c in lower ==> c in Of(Lower);
      assert forall c :: c in digits ==> c in Of(Digit);
      assert forall c :: c in special ==> c in Of(Special);
      upper + lower + digits + special
    }

    /** How many category alphabets are non-empty, i.e. how many characters
        the generators draw as "required" before filling the rest. */
    function RequiredCount(): (n: nat)
      ensures n <= 4
      ensures n == 0 <==> AllChars() == []
    {
      (if upper != [] then 1 else 0) + (if lower != [] then 1 else 0)
      + (if digits != [] then 1 else 0) + (if special != [] then 1 else 0)
    }
  }

  /** The alphabet a category contributes: empty when disabled, filtered when
      ambiguous characters are excluded. */
  function CategoryAlphabet(cat: Category, enabled: bool, excludeConfusing: bool): string
  {
    var full := if enabled then FullAlphabet(cat) else "";
    if excludeConfusing then Filter(full) else full
  }

  /** The category alphabets of a request (the `upper`, `lower`, `digits` and
      `special` strings of the JavaScript and Swift generators). */
  function BuildAlphabets(excludeConfusing: bool, includeUpper: bool, includeLower: bool,
                          includeDigits: bool, includeSpecial: bool): (al: Alphabets)
    ensures al.upper == CategoryAlphabet(Upper, includeUpper, excludeConfusing)
    ensures al.lower == CategoryAlphabet(Lower, includeLower, excludeConfusing)
    ensures al.digits == CategoryAlphabet(Digit, includeDigits, excludeConfusing)
    ensures al.special == CategoryAlphabet(Special, includeSpecial, excludeConfusing)
  {
    Alphabets(CategoryAlphabet(Upper, includeUpper, excludeConfusing),
              CategoryAlphabet(Lower, includeLower, excludeConfusing),
              CategoryAlphabet(Digit, includeDigits, excludeConfusing),
              CategoryAlphabet(Special, includeSpecial, excludeConfusing))
  }

  /** Some character of `pw` belongs to `alphabet`. */
  predicate Has(pw: string, alphabet: string)
  {
    exists i :: 0 <= i < |pw| && pw[i] in alphabet
  }

  /** Every character of `pw` comes from the pooled alphabet of `al`. */
  predicate DrawnFrom(pw: string, al: Alphabets)
  {
    forall i :: 0 <= i < |pw| ==> pw[i] in al.AllChars()
  }

  /** Every non-empty category alphabet of `al` is represented in `pw`. */
  predicate Covers(pw: string, al: Alphabets)
  {
    forall cat :: al.Of(cat) != [] ==> Has(pw, al.Of(cat))
  }

  /** No ambiguous character occurs in `s`. */
  predicate Unambiguous(s: string)
  {
    forall c :: c in s ==> c !in CONFUSING
  }

  /** Filtering distributes over concatenation. */
  lemma {:induction false} FilterAppend(a: string, b: string)
    ensures Filter(a + b) == Filter(a) + Filter(b)
  {
    if a == [] {
      assert a + b == b;
    } else {
      assert (a + b)[0] == a[0] && (a + b)[1..] == a[1..] + b;
      FilterAppend(a[1..], b);
    }
  }

  /** A string without ambiguous characters passes the filter unchanged. */
  lemma {:induction false} FilterKeepsUnambiguous(s: string)
    requires Unambiguous(s)
    ensures Filter(s) == s
  {
    if s != [] {
      FilterKeepsUnambiguous(s[1..]);
    }
  }

  /** The filter leaves 24 upper-case letters, 25 lower-case letters, 8 digits
      and 23 special characters: it never empties an enabled category. */
  lemma FilteredSizes()
    ensures |Filter(UPPERCASE)| == 24
    ensures |Filter(LOWERCASE)| == 25
    ensures |Filter(DIGITS)| == 8
    ensures |Filter(SPECIAL)| == 23
  {
    FilteredUpper();
    FilteredLower();
    FilteredDigits();
    FilteredSpecial();
  }

  lemma FilteredUpper()
    ensures |Filter(UPPERCASE)| == 24
  {
    assert UPPERCASE == "ABCDEFGH" + ['I'] + ("JKLMN" + ['O'] + "PQRSTUVWXYZ");
    NoConfusingIn("ABCDEFGH");
    NoConfusingIn("JKLMN");
    NoConfusingIn("PQRSTUVWXYZ");
    FilterTwoGaps("ABCDEFGH", 'I', "JKLMN", 'O', "PQRSTUVWXYZ");
  }

  lemma FilteredLower()
    ensures |Filter(LOWERCASE)| == 25
  {
    assert LOWERCASE == "abcdefghijk" + ['l'] + "mnopqrstuvwxyz";
    NoConfusingIn("abcdefghijk");
    NoConfusingIn("mnopqrstuvwxyz");
    FilterOneGap("abcdefghijk", 'l', "mnopqrstuvwxyz");
  }

  lemma FilteredDigits()
    ensures |Filter(DIGITS)| == 8
  {
    assert DIGITS == "" + ['0'] + ("" + ['1'] + "23456789");
    FilterTwoGaps("", '0', "", '1', "23456789");
  }

  lemma FilteredSpecial()
    ensures |Filter(SPECIAL)| == 23
  {
    assert SPECIAL == "!@#$%^&*_+-=[]{}" + ['|'] + ";:,.<>?";
    NoConfusingIn("!@#$%^&*_+-=[]{}");
    NoConfusingIn(";:,.<>?");
    FilterOneGap("!@#$%^&*_+-=[]{}", '|', ";:,.<>?");
  }

  /** `Unambiguous`, checked one character at a time. */
  lemma {:induction false} NoConfusingIn(s: string)
    requires forall i :: 0 <= i < |s| ==> s[i] !in CONFUSING
    ensures Unambiguous(s)
  {
    forall c | c in s
      ensures c !in CONFUSING
    {
      var i :| 0 <= i < |s| && s[i] == c;
    }
  }

  /** Filtering an unambiguous run `a`, an ambiguous character `x` and a rest
      `b` keeps the run and filters the rest. */
  lemma FilterDrop(a: string, x: char, b: string)
    requires Unambiguous(a)
    requires x in CONFUSING
    ensures Filter(a + [x] + b) == a + Filter(b)
  {
    assert Filter([x]) == [] by {
      assert [x][0] == x && [x][1..] == [] && !NotConfusing(x);
      assert FilterChars([], NotConfusing) == [];
    }
    FilterKeepsUnambiguous(a);
    FilterAppend(a, [x]);
    assert Filter(a + [x]) == a;
    FilterAppend(a + [x], b);
  }

  lemma FilterOneGap(a: string, x: char, b: string)
    requires Unambiguous(a) && Unambiguous(b)
    requires x in CONFUSING
    ensures |Filter(a + [x] + b)| == |a| + |b|
  {
    FilterDrop(a, x, b);
    FilterKeepsUnambiguous(b);
  }

  lemma FilterTwoGaps(a: string, x: char, b: string, y: char, c: string)
    requires Unambiguous(a) && Unambiguous(b) && Unambiguous(c)
    requires x in CONFUSING && y in CONFUSING
    ensures |Filter(a + [x] + (b + [y] + c))| == |a| + |b| + |c|
  {
    FilterDrop(a, x, b + [y] + c);
    FilterOneGap(b, y, c);
  }

  /** With exclusion on, no category alphabet (and so not the pooled alphabet)
      holds an ambiguous character, while every other character of an enabled
      category is kept; a disabled category is always empty. */
  lemma ExclusionKeepsExactlyTheUnambiguous(excludeConfusing: bool, includeUpper: bool, includeLower: bool,
                                            includeDigits: bool, includeSpecial: bool, cat: Category, c: char)
    ensures var al := BuildAlphabets(excludeConfusing, includeUpper, includeLower, includeDigits, includeSpecial);
            var enabled := match cat
                           case Upper => includeUpper
                           case Lower => includeLower
                           case Digit => includeDigits
                           case Special => includeSpecial;
            (c in al.Of(cat) <==> enabled && c in FullAlphabet(cat) && (excludeConfusing ==> c !in CONFUSING))
            && (!enabled ==> al.Of(cat) == "")
            && (excludeConfusing ==> Unambiguous(al.AllChars()))
  {
  }

  /** An enabled category keeps 26/26/10/24 characters, or 24/25/8/23 once the
      ambiguous ones are filtered out; a disabled one has none. */
  lemma CategorySize(cat: Category, enabled: bool, excludeConfusing: bool)
    ensures |CategoryAlphabet(cat, enabled, excludeConfusing)| ==
            if !enabled then 0
            else match cat
                 case Upper => if excludeConfusing then 24 else 26
                 case Lower => if excludeConfusing then 25 else 26
                 case Digit => if excludeConfusing then 8 else 10
                 case Special => if excludeConfusing then 23 else 24
  {
    if enabled && excludeConfusing {
      match cat
      case Upper => FilteredUpper();
      case Lower => FilteredLower();
      case Digit => FilteredDigits();
      case Special => FilteredSpecial();
    } else if !enabled {
      assert Filter("") == "";
    }
  }

  /** The pooled alphabet is empty exactly when no category is enabled. */
  lemma EmptyExactlyWhenNoneEnabled(excludeConfusing: bool, includeUpper: bool, includeLower: bool,
                                    includeDigits: bool, includeSpecial: bool)
    ensures var al := BuildAlphabets(excludeConfusing, includeUpper, includeLower, includeDigits, includeSpecial);
            al.AllChars() == [] <==> !includeUpper && !includeLower && !includeDigits && !includeSpecial
  {
    CategorySize(Upper, includeUpper, excludeConfusing);
    CategorySize(Lower, includeLower, excludeConfusing);
    CategorySize(Digit, includeDigits, excludeConfusing);
    CategorySize(Special, includeSpecial, excludeConfusing);
  }

  /** No character belongs to two categories. */
  lemma CategoriesDisjoint(c: char)
    ensures c in DIGITS ==> c !in UPPERCASE && c !in LOWERCASE && c !in SPECIAL
    ensures c in UPPERCASE ==> c !in LOWERCASE && c !in SPECIAL
    ensures c in LOWERCASE ==> c !in SPECIAL
  {
    CategoryRanges(c);
  }

  /** Digits, upper-case and lower-case letters are the ASCII ranges `0`-`9`,
      `A`-`Z`, `a`-`z`; the special characters lie outside all three. */
  lemma CategoryRanges(c: char)
    ensures c in DIGITS <==> '0' <= c <= '9'
    ensures c in UPPERCASE <==> 'A' <= c <= 'Z'
    ensures c in LOWERCASE <==> 'a' <= c <= 'z'
    ensures c in SPECIAL ==> !('0' <= c <= '9') && !('A' <= c <= 'Z') && !('a' <= c <= 'z')
  {
    if '0' <= c <= '9' {
      assert DIGITS[c as int - '0' as int] == c;
    }
    if 'A' <= c <= 'Z' {
      assert UPPERCASE[c as int - 'A' as int] == c;
    }
    if 'a' <= c <= 'z' {
      assert LOWERCASE[c as int - 'a' as int] == c;
    }
    UpperRange(c);
    LowerRange(c);
    SpecialOutsideRanges(c);
  }

  lemma UpperRange(c: char)
    ensures c in UPPERCASE ==> 'A' <= c <= 'Z'
  {
  }

  lemma LowerRange(c: char)
    ensures c in LOWERCASE ==> 'a' <= c <= 'z'
  {
  }

  lemma SpecialOutsideRanges(c: char)
    ensures c in SPECIAL ==> !('0' <= c <= '9') && !('A' <= c <= 'Z') && !('a' <= c <= 'z')
  {
  }

  /** Every character of every category is printable ASCII. */
  lemma PrintableAscii(c: char, cat: Category)
    ensures c in FullAlphabet(cat) ==> '!' <= c <= '~'
  {
    UpperRange(c);
    LowerRange(c);
    SpecialPrintable(c);
  }

  lemma SpecialPrintable(c: char)
    ensures c in SPECIAL ==> '!' <= c <= '~'
  {
  }
}
