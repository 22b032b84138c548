/** The command-line options record the JavaScript `parseArgs` and the Swift
    `parseArguments` fill in, with its defaults and bounds. */
module Settings {
  import opened Wrappers
  import opened Alphabet

  const DEFAULT_LENGTH: int := 12
  const DEFAULT_COUNT: int := 3
  const MIN_LENGTH: int := 8
  const MAX_LENGTH: int := 128
  /** The bounds the parsers clamp `count` to. */
  const MIN_COUNT: int := 1
  const MAX_COUNT: int := 100

  datatype Options = Options(
    length: int,
    count: int,
    excludeConfusing: bool,
    includeUppercase: bool,
    includeLowercase: bool,
    includeDigits: bool,
    includeSpecial: bool,
    plainOutput: bool,
    jsonOutput: bool,
    batchMode: bool,
    showHelp: bool)
  {
    /** The category alphabets these options ask for. */
    function Alphabets(): Alphabets
    {
      BuildAlphabets(excludeConfusing, includeUppercase, includeLowercase, includeDigits, includeSpecial)
    }

    /** Length and count lie within the bounds the parsers clamp to. */
    predicate InRange()
    {
      MIN_LENGTH <= length <= MAX_LENGTH && MIN_COUNT <= count <= MAX_COUNT
    }

    /** Asking for plain or JSON output implies batch mode. */
    predicate OutputImpliesBatch()
    {
      (plainOutput || jsonOutput) ==> batchMode
    }

    /** What a parser guarantees of the options it returns. */
    predicate Valid()
    {
      InRange() && OutputImpliesBatch()
    }
  }

  /** The options before any argument is read. */
  const DEFAULTS: Options := Options(DEFAULT_LENGTH, DEFAULT_COUNT, false, true, true, true, true,
                                     false, false, false, false)

  /** `Math.max(lo, Math.min(hi, v))` / `max(lo, min(hi, v))`. */
  function Clamp(lo: int, hi: int, v: int): (r: int)
    requires lo <= hi
    ensures lo <= r <= hi
    ensures lo <= v <= hi ==> r == v
    ensures v < lo ==> r == lo
    ensures v > hi ==> r == hi
  {
    if v < lo then lo else if v > hi then hi else v
  }

  /** The options the JavaScript and Swift argument loops recognise. */
  datatype Switch = Length | Count | Exclude | NoUpper | NoLower | NoDigits | NoSpecial
                  | Plain | Json | Batch | Help | Unrecognised
  {
    /** Whether the option takes the next argument as its value. */
    predicate TakesValue()
    {
      this == Length || this == Count
    }
  }

  /** The `case` labels of the two `switch` statements. */
  function Recognise(arg: string): Switch
  {
    match arg
    case "-l" | "--length" => Length
    case "-c" | "--count" => Count
    case "-e" | "--exclude" => Exclude
    case "--no-upper" => NoUpper
    case "--no-lower" => NoLower
    case "--no-digits" => NoDigits
    case "--no-special" => NoSpecial
    case "--plain" => Plain
    case "--json" => Json
    case "-b" | "--batch" => Batch
    case "-h" | "--help" => Help
    case _ => Unrecognised
  }

  /** Exactly `-l`, `--length`, `-c` and `--count` take a value, and every
      argument other than the sixteen `case` labels falls through the
      `switch` unrecognised. */
  lemma RecogniseLabels(arg: string)
    ensures Recognise(arg).TakesValue() <==> arg in ["-l", "--length", "-c", "--count"]
    ensures Recognise(arg) == Unrecognised <==>
              arg !in ["-l", "--length", "-c", "--count", "-e", "--exclude", "--no-upper", "--no-lower",
                       "--no-digits", "--no-special", "--plain", "--json", "-b", "--batch", "-h", "--help"]
    ensures Recognise("--plain") == Plain && Recognise("--json") == Json
  {
  }

  /** Each `case` label selects its own option. */
  lemma RecogniseEachLabel()
    ensures Recognise("-l") == Length && Recognise("--length") == Length
    ensures Recognise("-c") == Count && Recognise("--count") == Count
    ensures Recognise("-e") == Exclude && Recognise("--exclude") == Exclude
    ensures Recognise("--no-upper") == NoUpper && Recognise("--no-lower") == NoLower
    ensures Recognise("--no-digits") == NoDigits && Recognise("--no-special") == NoSpecial
    ensures Recognise("--plain") == Plain && Recognise("--json") == Json
    ensures Recognise("-b") == Batch && Recognise("--batch") == Batch
    ensures Recognise("-h") == Help && Recognise("--help") == Help
  {
  }

  /** The options the flags (every option but `-l` and `-c`) set. */
  function SetFlag(opts: Options, flag: Switch): (r: Options)
    requires !flag.TakesValue()
  {
    match flag
    case Exclude => opts.(excludeConfusing := true)
    case NoUpper => opts.(includeUppercase := false)
    case NoLower => opts.(includeLowercase := false)
    case NoDigits => opts.(includeDigits := false)
    case NoSpecial => opts.(includeSpecial := false)
    case Plain => opts.(plainOutput := true, batchMode := true)
    case Json => opts.(jsonOutput := true, batchMode := true)
    case Batch => opts.(batchMode := true)
    case Help => opts.(showHelp := true)
    case Unrecognised => opts
  }

  /** Setting a flag keeps options valid: it leaves length and count alone,
      and `--plain` and `--json` switch on batch mode along with their output. */
  lemma SetFlagKeepsValid(opts: Options, flag: Switch)
    requires !flag.TakesValue()
    ensures opts.Valid() ==> SetFlag(opts, flag).Valid()
    ensures SetFlag(opts, flag).length == opts.length && SetFlag(opts, flag).count == opts.count
    ensures flag == Plain ==> SetFlag(opts, flag).plainOutput && SetFlag(opts, flag).batchMode
    ensures flag == Json ==> SetFlag(opts, flag).jsonOutput && SetFlag(opts, flag).batchMode
  {
  }

  /** `args[k]`; `None` past the end of the arguments. */
  function ArgAt(args: seq<string>, k: int): (v: Option<string>)
    ensures v.Some? <==> 0 <= k < |args|
    ensures v.Some? ==> v.value == args[k]
  {
    if 0 <= k < |args| then Some(args[k]) else None
  }

  /** The options an argument loop reaches from `opts` by reading `args`
      from index `i` on, where `apply` is one pass of its `switch`: it
      returns the updated options and whether the option took the argument
      after it as its value. */
  function ParseFrom(apply: (Options, string, Option<string>) -> (Options, bool),
                     args: seq<string>, i: nat, opts: Options): Options
    decreases |args| - i
  {
    if i >= |args| then opts
    else
      var (next, consumed) := apply(opts, args[i], ArgAt(args, i + 1));
      ParseFrom(apply, args, if consumed then i + 2 else i + 1, next)
  }

  /** A `switch` that keeps options valid keeps them valid over any
      command line. */
  lemma {:induction false} ParseFromValid(apply: (Options, string, Option<string>) -> (Options, bool),
                                          args: seq<string>, i: nat, opts: Options)
    requires forall o: Options, a, v :: o.Valid() ==> apply(o, a, v).0.Valid()
    requires opts.Valid()
    ensures ParseFrom(apply, args, i, opts).Valid()
    decreases |args| - i
  {
    if i < |args| {
      var (next, consumed) := apply(opts, args[i], ArgAt(args, i + 1));
      ParseFromValid(apply, args, if consumed then i + 2 else i + 1, next);
    }
  }
}
