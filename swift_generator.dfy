/** The Swift command-line generator (`generate-password.swift`):
    `generatePassword`, `generatePasswords` and the `parseArguments` loop.
    Strength analysis is `Strength`. */
module SwiftGenerator {
  import opened Wrappers
  import opened Alphabet
  import opened SecureRandom
  import opened Strength
  import opened Assembly
  import opened Settings
  import opened NumberParsing
  import JsGenerator

  /** What `generatePassword` returns in place of a password when every
      category is off. */
  const ERROR_TEXT: string := "错误: " + NO_CATEGORY_MESSAGE

  /** `generatePassword(length:...)`: the error text when every category is
      off, otherwise a password of `max(length, required)` characters drawn
      from the pooled alphabet and covering every enabled category. The error
      text can never be mistaken for a password. */
  method GeneratePassword(length: int, excludeConfusing: bool, includeUppercase: bool,
                          includeLowercase: bool, includeDigits: bool, includeSpecial: bool)
    returns (r: string)
    ensures var al := BuildAlphabets(excludeConfusing, includeUppercase, includeLowercase, includeDigits, includeSpecial);
            (r == ERROR_TEXT <==> al.AllChars() == [])
            && (al.AllChars() != [] ==> Assembled(r, al, length))
  {
    var al := SelectAlphabets(excludeConfusing, includeUppercase, includeLowercase, includeDigits, includeSpecial);
    var upper, lower, digits, special := al.upper, al.lower, al.digits, al.special;
    var allChars := upper + lower + digits + special;
    if allChars == [] {
      return ERROR_TEXT;
    }
    var required := DrawRequired(al);
    var password := required;
    var remaining := length - |password|;
    if remaining > 0 {
      var k := 0;
      while k < remaining
        invariant |password| == |required| + k <= length
        invariant DrawnFrom(password, al) && Covers(password, al)
      {
        var c := RandomChoice(allChars);
        AppendKeeps(password, c, al);
        password := password + [c];
        k := k + 1;
      }
    }
    assert |password| == Max(length, al.RequiredCount());
    ghost var unshuffled := password;
    password := Shuffle(password);
    PermutationKeeps(unshuffled, password, al);
    assert Assembled(password, al, length);
    ErrorTextIsNoPassword(password, length, excludeConfusing, includeUppercase, includeLowercase,
                          includeDigits, includeSpecial);
    return password;
  }

  /** No password equals the error text: its first character, `错`, is in no
      category. */
  lemma ErrorTextIsNoPassword(pw: string, length: int, excludeConfusing: bool, includeUppercase: bool,
                              includeLowercase: bool, includeDigits: bool, includeSpecial: bool)
    requires Assembled(pw, BuildAlphabets(excludeConfusing, includeUppercase, includeLowercase,
                                          includeDigits, includeSpecial), length)
    ensures pw != ERROR_TEXT
  {
    if pw == ERROR_TEXT {
      var al := BuildAlphabets(excludeConfusing, includeUppercase, includeLowercase, includeDigits, includeSpecial);
      assert pw[0] in al.AllChars();
      var cat :| pw[0] in al.Of(cat);
      ExclusionKeepsExactlyTheUnambiguous(excludeConfusing, includeUppercase, includeLowercase,
                                          includeDigits, includeSpecial, cat, pw[0]);
      PrintableAscii(pw[0], cat);
      assert false;
    }
  }

  /** What one call of `generatePassword` with these options returns: the
      error text when every category is off, an assembled password otherwise. */
  predicate Generated(opts: Options, pw: string)
  {
    var al := opts.Alphabets();
    (al.AllChars() == [] ==> pw == ERROR_TEXT) && (al.AllChars() != [] ==> Assembled(pw, al, opts.length))
  }

  /** `generatePasswords(opts)`: `count` pairs of a generated password (or
      the error text) and its entropy. A negative count is a range error in
      Swift (`0..<count` traps), so it is excluded. */
  method GeneratePasswords(opts: Options) returns (results: seq<(string, Entropy)>)
    requires opts.count >= 0
    ensures |results| == opts.count
    ensures forall k :: 0 <= k < |results| ==>
              results[k].1 == CalculateEntropy(results[k].0) && Generated(opts, results[k].0)
  {
    results := [];
    var k := 0;
    while k < opts.count
      invariant k <= opts.count
      invariant |results| == k
      invariant forall j :: 0 <= j < |results| ==>
                  results[j].1 == CalculateEntropy(results[j].0) && Generated(opts, results[j].0)
    {
      var pwd := GeneratePassword(opts.length, opts.excludeConfusing, opts.includeUppercase,
                                  opts.includeLowercase, opts.includeDigits, opts.includeSpecial);
      assert Generated(opts, pwd);
      var entropy := CalculateEntropy(pwd);
      results := results + [(pwd, entropy)];
      k := k + 1;
    }
  }

  /** As written, `generatePasswords` passes the error text on as if it were
      a password, and it is rated like one: its `:` is a special character,
      so it scores 16 characters over a charset of 24, about 73.4 bits, and
      comes out Strong. */
  lemma ErrorTextRatedStrong()
    ensures CalculateEntropy(ERROR_TEXT) == Entropy(24, 16)
    ensures EvaluateStrength(CalculateEntropy(ERROR_TEXT)) == Strong
  {
    ErrorTextCharset();
    RatedStrong(ERROR_TEXT);
  }

  /** Sixteen characters over a charset of 24 are rated Strong. */
  lemma RatedStrong(pw: string)
    requires |pw| == 16 && CharsetSize(pw) == 24
    ensures CalculateEntropy(pw) == Entropy(24, 16)
    ensures EvaluateStrength(CalculateEntropy(pw)) == Strong
  {
    KeyspaceOfErrorText();
    PowIncreasing(2, 28, 60);
    PowIncreasing(2, 36, 60);
  }

  /** Only the `:` of the error text belongs to a category. */
  lemma ErrorTextCharset()
    ensures |ERROR_TEXT| == 16 && CharsetSize(ERROR_TEXT) == 24
  {
    assert ERROR_TEXT[2] == ':';
    forall i | 0 <= i < |ERROR_TEXT|
      ensures ERROR_TEXT[i] !in UPPERCASE && ERROR_TEXT[i] !in LOWERCASE && ERROR_TEXT[i] !in DIGITS
    {
      CategoryRanges(ERROR_TEXT[i]);
    }
  }

  /** 2^60 <= 24^16 < 2^80: 24^16 = (24^4)^4, and 2^18 < 24^4 < 2^19. */
  lemma KeyspaceOfErrorText()
    ensures Pow(2, 60) <= Pow(24, 16) < Pow(2, 80)
  {
    PowMul(24, 4, 4);
    assert Pow(24, 4) == 331776;
    PowMul(2, 18, 4);
    PowMul(2, 19, 4);
    PowMul(2, 9, 2);
    assert Pow(2, 9) == 512;
    assert Pow(512, 2) == 262144;
    assert Pow(2, 19) == 2 * Pow(2, 18);
    PowBaseMonotone(262144, 331776, 4);
    PowBaseMonotone(331776, 524288, 4);
    PowIncreasing(2, 60, 72);
    PowIncreasing(2, 76, 80);
  }

  /** `generatePasswords` with the error text reported as an error rather
      than analysed as a password: it fails exactly when a password is asked
      for and every category is off, and otherwise every pair holds an
      assembled password and its entropy. */
  method GeneratePasswordsChecked(opts: Options) returns (r: Result<seq<(string, Entropy)>, string>)
    requires opts.count >= 0
    ensures r.Failure? <==> opts.count > 0 && opts.Alphabets().AllChars() == []
    ensures r.Failure? ==> r.error == ERROR_TEXT
    ensures r.Success? ==> |r.value| == opts.count
    ensures r.Success? ==> forall k :: 0 <= k < |r.value| ==>
              r.value[k].1 == CalculateEntropy(r.value[k].0)
              && Assembled(r.value[k].0, opts.Alphabets(), opts.length)
  {
    var al := opts.Alphabets();
    if opts.count > 0 && al.AllChars() == [] {
      return Failure(ERROR_TEXT);
    }
    var results: seq<(string, Entropy)> := [];
    var k := 0;
    while k < opts.count
      invariant k <= opts.count
      invariant |results| == k
      invariant forall j :: 0 <= j < |results| ==>
                  results[j].1 == CalculateEntropy(results[j].0) && Assembled(results[j].0, al, opts.length)
    {
      var pwd := GeneratePassword(opts.length, opts.excludeConfusing, opts.includeUppercase,
                                  opts.includeLowercase, opts.includeDigits, opts.includeSpecial);
      assert Generated(opts, pwd);
      results := results + [(pwd, CalculateEntropy(pwd))];
      k := k + 1;
    }
    return Success(results);
  }

  /** One pass of the `switch` in `parseArguments`: the updated options, and
      whether the argument consumed the one after it. A length or count is
      set only when the next argument exists and `Int(_)` accepts it. */
  function ApplyArg(opts: Options, arg: string, value: Option<string>): (Options, bool)
  {
    Apply(opts, Recognise(arg), value)
  }

  /** The body of one `case`, for the option `flag`. */
  function Apply(opts: Options, flag: Switch, value: Option<string>): (Options, bool)
  {
    var parsed := if value.Some? then SwiftParseInt(value.value) else None;
    match flag
    case Length =>
      (if parsed.Some? then opts.(length := Clamp(MIN_LENGTH, MAX_LENGTH, parsed.value)) else opts, true)
    case Count =>
      (if parsed.Some? then opts.(count := Clamp(MIN_COUNT, MAX_COUNT, parsed.value)) else opts, true)
    case flag => (SetFlag(opts, flag), false)
  }

  /** Every option keeps the options valid: lengths and counts are clamped
      into range, and the flags leave them alone. */
  lemma ApplyArgKeepsValid(opts: Options, arg: string, value: Option<string>)
    requires opts.Valid()
    ensures ApplyArg(opts, arg, value).0.Valid()
  {
    ApplyKeepsValid(opts, Recognise(arg), value);
  }

  lemma ApplyKeepsValid(opts: Options, flag: Switch, value: Option<string>)
    requires opts.Valid()
    ensures Apply(opts, flag, value).0.Valid()
  {
    if !flag.TakesValue() {
      SetFlagKeepsValid(opts, flag);
    }
  }

  /** Exactly `-l`, `--length`, `-c` and `--count` take the next argument as
      their value; `--plain` and `--json` set batch mode. */
  lemma ApplyArgConsumes(opts: Options, arg: string, value: Option<string>)
    ensures ApplyArg(opts, arg, value).1 <==> Recognise(arg).TakesValue()
    ensures arg in ["--plain", "--json"] ==> ApplyArg(opts, arg, value).0.batchMode
  {
    if !Recognise(arg).TakesValue() {
      SetFlagKeepsValid(opts, Recognise(arg));
    }
  }

  /** `parseArguments()` over the command-line arguments `args`
      (`CommandLine.arguments.dropFirst()`). */
  method ParseArguments(args: seq<string>) returns (opts: Options)
    ensures opts == ParseFrom(ApplyArg, args, 0, DEFAULTS)
    ensures opts.Valid()
  {
    opts := DEFAULTS;
    var i := 0;
    while i < |args|
      invariant i <= |args| + 1
      invariant ParseFrom(ApplyArg, args, i, opts) == ParseFrom(ApplyArg, args, 0, DEFAULTS)
      invariant opts.Valid()
      decreases |args| + 1 - i
    {
      var (next, consumed) := ApplyArg(opts, args[i], ArgAt(args, i + 1));
      ApplyArgKeepsValid(opts, args[i], ArgAt(args, i + 1));
      opts := next;
      if consumed {
        i := i + 1;
      }
      i := i + 1;
    }
  }

  /** A missing or unparsable value leaves `-l` and `-c` as they were (the
      option still consumes the argument after it). */
  lemma BadValueKeeps(opts: Options, value: Option<string>)
    requires value.None? || SwiftParseInt(value.value).None?
    ensures ApplyArg(opts, "--length", value) == (opts, true)
    ensures ApplyArg(opts, "-c", value) == (opts, true)
  {
  }

  /** A decimal value `v` in 64-bit range sets the length to `v` clamped to
      [8, 128] and the count to `v` clamped to [1, 100]; unlike the
      JavaScript parser, 0 is clamped, not defaulted. */
  lemma DecimalValue(opts: Options, v: int)
    requires INT64_MIN <= v <= INT64_MAX
    ensures ApplyArg(opts, "-l", Some(DecimalInt(v))).0 == opts.(length := Clamp(MIN_LENGTH, MAX_LENGTH, v))
    ensures ApplyArg(opts, "--count", Some(DecimalInt(v))).0 == opts.(count := Clamp(MIN_COUNT, MAX_COUNT, v))
  {
    SwiftParseIntReadsDecimal(v);
  }

  /** With exclusion on, no password holds an ambiguous character. */
  lemma ExcludedPasswordIsUnambiguous(pw: string, length: int, includeUppercase: bool,
                                      includeLowercase: bool, includeDigits: bool, includeSpecial: bool)
    requires Assembled(pw, BuildAlphabets(true, includeUppercase, includeLowercase, includeDigits, includeSpecial), length)
    ensures Unambiguous(pw)
  {
    ExclusionKeepsExactlyTheUnambiguous(true, includeUppercase, includeLowercase, includeDigits, includeSpecial, Upper, 'A');
    DrawnFromUnambiguous(pw, BuildAlphabets(true, includeUppercase, includeLowercase, includeDigits, includeSpecial));
  }

  /** The two parsers part ways on a bad value after a good one: given
      `-l 20 -l abc`, the JavaScript parser ends with the default length 12,
      the Swift parser keeps 20. */
  lemma BadValueAfterGoodOne()
    ensures ParseFrom(JsGenerator.ApplyArg, ["-l", "20", "-l", "abc"], 0, DEFAULTS).length == DEFAULT_LENGTH
    ensures ParseFrom(ApplyArg, ["-l", "20", "-l", "abc"], 0, DEFAULTS).length == 20
  {
    JsResetsLength();
    SwiftKeepsLength();
  }

  lemma ValueTexts()
    ensures DecimalInt(20) == "20"
    ensures JsParseInt("abc").None? && SwiftParseInt("abc").None?
  {
    assert Decimal(20) == "20";
    assert "abc"[0] == 'a';
    assert !IsJsWhitespace('a');
    assert LeadingWhitespace("abc") == 0;
    assert "abc"[0..] == "abc";
    assert DigitValue('a', 10).None?;
    assert DigitRun("abc", 10) == 0;
    assert !AllDigits("abc", 10);
  }

  lemma JsResetsLength()
    ensures ParseFrom(JsGenerator.ApplyArg, ["-l", "20", "-l", "abc"], 0, DEFAULTS).length == DEFAULT_LENGTH
  {
    var args := ["-l", "20", "-l", "abc"];
    ValueTexts();
    JsGenerator.DecimalValue(DEFAULTS, 20);
    var first := JsGenerator.ApplyArg(DEFAULTS, "-l", Some("20"));
    assert first.1;
    JsGenerator.BadValueResets(first.0, Some("abc"));
    assert ArgAt(args, 1) == Some("20") && ArgAt(args, 3) == Some("abc");
    assert ParseFrom(JsGenerator.ApplyArg, args, 0, DEFAULTS) == ParseFrom(JsGenerator.ApplyArg, args, 2, first.0);
  }

  lemma SwiftKeepsLength()
    ensures ParseFrom(ApplyArg, ["-l", "20", "-l", "abc"], 0, DEFAULTS).length == 20
  {
    var args := ["-l", "20", "-l", "abc"];
    ValueTexts();
    DecimalValue(DEFAULTS, 20);
    var first := ApplyArg(DEFAULTS, "-l", Some("20"));
    assert first.1 && first.0.length == 20;
    BadValueKeeps(first.0, Some("abc"));
    assert ArgAt(args, 1) == Some("20") && ArgAt(args, 3) == Some("abc");
    assert ParseFrom(ApplyArg, args, 0, DEFAULTS) == ParseFrom(ApplyArg, args, 2, first.0);
  }
}
