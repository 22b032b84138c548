/** The JavaScript command-line generator (`generate-password.js`): the
    Fisher–Yates `shuffleArray`, `generatePassword`, `generatePasswords` and
    the hand-written `parseArgs` loop. Strength analysis is `Strength`. */
module JsGenerator {
  import opened Wrappers
  import opened Alphabet
  import opened SecureRandom
  import opened Strength
  import opened Assembly
  import opened Settings
  import opened NumberParsing

  /** `shuffleArray`: a Fisher–Yates shuffle of a copy of `arr`; walking `i`
      down from the last index, it swaps `i` with a random `j` in `[0, i]`.
      The caller's sequence is a value, so it is left as it was. */
  method ShuffleArray(arr: seq<char>) returns (result: seq<char>)
    ensures multiset(result) == multiset(arr)
  {
    var a := new char[|arr|](k requires 0 <= k < |arr| => arr[k]);
    assert a[..] == arr;
    var i := a.Length - 1;
    while i > 0
      invariant i < a.Length
      invariant multiset(a[..]) == multiset(arr)
    {
      var j := RandomIndex(i + 1);
      a[i], a[j] := a[j], a[i];
      i := i - 1;
    }
    result := a[..];
  }

  /** `generatePassword(options)`: the error when every category is off,
      otherwise a password of `max(length, required)` characters drawn from
      the pooled alphabet and covering every enabled category. */
  method GeneratePassword(opts: Options) returns (r: Result<string, string>)
    ensures r.Failure? <==> opts.Alphabets().AllChars() == []
    ensures r.Failure? ==> r.error == NO_CATEGORY_MESSAGE
    ensures r.Success? ==> Assembled(r.value, opts.Alphabets(), opts.length)
  {
    var al := SelectAlphabets(opts.excludeConfusing, opts.includeUppercase, opts.includeLowercase, opts.includeDigits, opts.includeSpecial);
    var upper, lower, digits, special := al.upper, al.lower, al.digits, al.special;
    var allChars := upper + lower + digits + special;
    if allChars == [] {
      return Failure(NO_CATEGORY_MESSAGE);
    }
    var required := DrawRequired(al);
    var password := required;
    var remaining := opts.length - |password|;
    var i := 0;
    while i < remaining
      invariant i <= Max(remaining, 0)
      invariant |password| == |required| + i
      invariant DrawnFrom(password, al) && Covers(password, al)
    {
      var c := RandomChoice(allChars);
      AppendKeeps(password, c, al);
      password := password + [c];
      i := i + 1;
    }
    assert |password| == Max(opts.length, al.RequiredCount());
    var shuffled := ShuffleArray(password);
    PermutationKeeps(password, shuffled, al);
    assert Assembled(shuffled, al, opts.length);
    return Success(shuffled);
  }

  /** An entry of `generatePasswords`: the analysis of an assembled password. */
  predicate AnalysedPassword(a: Analysis, opts: Options)
  {
    a == AnalyzePassword(a.password) && Assembled(a.password, opts.Alphabets(), opts.length)
  }

  /** `generatePasswords(opts)`: `count` analysed passwords; the first
      generation error, if any, propagates. */
  method GeneratePasswords(opts: Options) returns (r: Result<seq<Analysis>, string>)
    ensures r.Failure? <==> opts.count > 0 && opts.Alphabets().AllChars() == []
    ensures r.Failure? ==> r.error == NO_CATEGORY_MESSAGE
    ensures r.Success? ==> |r.value| == Max(opts.count, 0)
    ensures r.Success? ==> forall k :: 0 <= k < |r.value| ==> AnalysedPassword(r.value[k], opts)
  {
    var results: seq<Analysis> := [];
    var i := 0;
    while i < opts.count
      invariant i <= Max(opts.count, 0)
      invariant |results| == i
      invariant i > 0 ==> opts.Alphabets().AllChars() != []
      invariant forall k :: 0 <= k < |results| ==> AnalysedPassword(results[k], opts)
    {
      var pwd := GeneratePassword(opts);
      if pwd.Failure? {
        return Failure(pwd.error);
      }
      results := results + [AnalyzePassword(pwd.value)];
      i := i + 1;
    }
    return Success(results);
  }

  /** `parseInt(v) || DEFAULT`: the parsed number, unless it is `NaN` or 0. */
  function OrDefault(parsed: Option<int>, default: int): int
  {
    if parsed.None? || parsed.value == 0 then default else parsed.value
  }

  /** One pass of the `switch` in `parseArgs`: the updated options, and
      whether the argument consumed the one after it (`args[++i]`, which is
      `undefined` past the end). */
  function ApplyArg(opts: Options, arg: string, value: Option<string>): (Options, bool)
  {
    Apply(opts, Recognise(arg), value)
  }

  /** The body of one `case`, for the option `flag`. */
  function Apply(opts: Options, flag: Switch, value: Option<string>): (Options, bool)
  {
    var parsed := if value.Some? then JsParseInt(value.value) else None;
    match flag
    case Length =>
      (opts.(length := Clamp(MIN_LENGTH, MAX_LENGTH, OrDefault(parsed, DEFAULT_LENGTH))), true)
    case Count =>
      (opts.(count := Clamp(MIN_COUNT, MAX_COUNT, OrDefault(parsed, DEFAULT_COUNT))), true)
    case flag => (SetFlag(opts, flag), false)
  }

  /** Every option keeps the options valid: lengths and counts are clamped
      into range, and the flags leave them alone. */
  lemma ApplyArgKeepsValid(opts: Options, arg: string, value: Option<string>)
    requires opts.Valid()
    ensures ApplyArg(opts, arg, value).0.Valid()
  {
    ApplyKeepsValid(opts, Recognise(arg), value);
  }

  lemma ApplyKeepsValid(opts: Options, flag: Switch, value: Option<string>)
    requires opts.Valid()
    ensures Apply(opts, flag, value).0.Valid()
  {
    if !flag.TakesValue() {
      SetFlagKeepsValid(opts, flag);
    }
  }

  /** Exactly `-l`, `--length`, `-c` and `--count` take the next argument as
      their value; `--plain` and `--json` set batch mode. */
  lemma ApplyArgConsumes(opts: Options, arg: string, value: Option<string>)
    ensures ApplyArg(opts, arg, value).1 <==> Recognise(arg).TakesValue()
    ensures arg in ["--plain", "--json"] ==> ApplyArg(opts, arg, value).0.batchMode
  {
    if !Recognise(arg).TakesValue() {
      SetFlagKeepsValid(opts, Recognise(arg));
    }
  }

  /** `parseArgs()` over the command-line arguments `args` (`process.argv.slice(2)`). */
  method ParseArgs(args: seq<string>) returns (opts: Options)
    ensures opts == ParseFrom(ApplyArg, args, 0, DEFAULTS)
    ensures opts.Valid()
  {
    opts := DEFAULTS;
    var i := 0;
    while i < |args|
      invariant i <= |args| + 1
      invariant ParseFrom(ApplyArg, args, i, opts) == ParseFrom(ApplyArg, args, 0, DEFAULTS)
      invariant opts.Valid()
      decreases |args| + 1 - i
    {
      var (next, consumed) := ApplyArg(opts, args[i], ArgAt(args, i + 1));
      ApplyArgKeepsValid(opts, args[i], ArgAt(args, i + 1));
      opts := next;
      if consumed {
        i := i + 1;
      }
      i := i + 1;
    }
  }

  /** A missing or non-numeric value resets `-l` to 12 and `-c` to 3,
      whatever an earlier occurrence had set; the option still consumes the
      argument after it. */
  lemma BadValueResets(opts: Options, value: Option<string>)
    requires value.None? || JsParseInt(value.value).None?
    ensures ApplyArg(opts, "-l", value) == (opts.(length := DEFAULT_LENGTH), true)
    ensures ApplyArg(opts, "--count", value) == (opts.(count := DEFAULT_COUNT), true)
  {
  }

  /** A decimal value `v` sets the length to `v` clamped to [8, 128] and
      the count to `v` clamped to [1, 100], except that 0, being falsy, gives
      the default. */
  lemma DecimalValue(opts: Options, v: int)
    ensures ApplyArg(opts, "--length", Some(DecimalInt(v))).0
              == opts.(length := if v == 0 then DEFAULT_LENGTH else Clamp(MIN_LENGTH, MAX_LENGTH, v))
    ensures ApplyArg(opts, "-c", Some(DecimalInt(v))).0
              == opts.(count := if v == 0 then DEFAULT_COUNT else Clamp(MIN_COUNT, MAX_COUNT, v))
  {
    JsParseIntReadsDecimal(v, "");
    assert DecimalInt(v) + "" == DecimalInt(v);
    ParsedValue(opts, DecimalInt(v));
  }

  lemma ParsedValue(opts: Options, text: string)
    requires JsParseInt(text).Some?
    ensures var v := JsParseInt(text).value;
            ApplyArg(opts, "--length", Some(text)).0
              == opts.(length := if v == 0 then DEFAULT_LENGTH else Clamp(MIN_LENGTH, MAX_LENGTH, v))
            && ApplyArg(opts, "-c", Some(text)).0
              == opts.(count := if v == 0 then DEFAULT_COUNT else Clamp(MIN_COUNT, MAX_COUNT, v))
  {
    RecogniseEachLabel();
  }

  /** With exclusion on, no password holds an ambiguous character. */
  lemma ExcludedPasswordIsUnambiguous(opts: Options, pw: string)
    requires opts.excludeConfusing
    requires Assembled(pw, opts.Alphabets(), opts.length)
    ensures Unambiguous(pw)
  {
    ExclusionKeepsExactlyTheUnambiguous(true, opts.includeUppercase, opts.includeLowercase,
                                        opts.includeDigits, opts.includeSpecial, Upper, 'A');
    DrawnFromUnambiguous(pw, opts.Alphabets());
  }
}
