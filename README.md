# Password generator core, modelled in Dafny

The password generator ships three parallel command-line programs:
`generate-password.js`, `generate-password.py` and `generate-password.swift`.
They share one core, and this project models that core and proves what it
promises.

- **Category alphabets.** There are four categories:
  - upper-case letters (26);
  - lower-case letters (26);
  - digits (10);
  - a 24-character special set.

  On request, each category is filtered against the ambiguous set
  `0O1lI|`.
- **Password assembly.** The generator draws one required character from
  every non-empty category. It fills the rest from the pooled alphabet and
  shuffles the result.
- **Strength estimation.** The estimate is "presence based": the charset
  size is the sum of the sizes of the categories that occur in the password.
  The entropy is `length × log2(size)`. From it come six strength tiers and
  a crack-time unit, assuming 10^12 guesses per second.
- **Option handling.**
  - The hand-written argument loops of the JavaScript and Swift programs.
    Both clamp the length into [8, 128] and the count into [1, 100].
  - The range validation of the Python program.
  - The append-and-truncate step of the Python history.

Modules, one per concern:

| module | file | what it holds |
|---|---|---|
| `Wrappers` | wrappers.dfy | `Option`, `Result` |
| `Alphabet` | alphabet.dfy | the four alphabets, the ambiguity filter, the per-request category alphabets, and the `DrawnFrom`/`Covers`/`Unambiguous` predicates |
| `SecureRandom` | secure_random.dfy | the random-index, random-choice and library-shuffle contracts |
| `Assembly` | assembly.dfy | the steps the three generators share: selecting alphabets, drawing the required characters, filling, and what survives a shuffle |
| `Strength` | strength.dfy | charset size, exact entropy, tiers, crack-time units, and the analysis record |
| `NumberParsing` | number_parsing.dfy | JavaScript `parseInt` and Swift `Int(_)` on decimal text |
| `Settings` | settings.dfy | the options record and its defaults, `Clamp`, recognising an option, and the argument loop as a function |
| `JsGenerator` | js_generator.dfy | `shuffleArray`, `generatePassword`, `generatePasswords`, `parseArgs` |
| `PyGenerator` | py_generator.dfy | `get_charset`, `generate_strong_password`, argument validation, history truncation |
| `SwiftGenerator` | swift_generator.dfy | `generatePassword`, `generatePasswords`, `parseArguments` |

Entropy is a floating-point number in the sources. Here it is the exact
pair `Entropy(size, length)`, whose keyspace is `size^length`. Because
`2^entropy = size^length`, the test "entropy < T bits" becomes
`size^length < 2^T`. The test "seconds < X" becomes
`size^length < X · 10^12`. Every tier and every crack-time unit is therefore
decided by integer comparisons. These agree with the programs'
floating-point tests wherever the rounding of `log2` and `2^entropy` does
not land on a bound (see "## Left out" for the one reachable case). Both classifications are also proved equal
to a single reference, `Bucket`: the index of the first bound that exceeds
the keyspace.

The sources are imperative, and so is the model:
- The fill loops, the dictionary rewrite of `get_charset`, the argument
  loops and the JavaScript Fisher–Yates shuffle are Dafny methods with loops
  and invariants. The Fisher–Yates shuffle swaps the elements of a fresh
  array.
- The Python and Swift programs shuffle with their standard libraries
  (`SystemRandom().shuffle`, `Array.shuffle()`). These calls are
  `SecureRandom.Shuffle`, which promises only that its result is a
  permutation of its input.
- The strength functions are pure functions, and lemmas state their
  properties.

The three programs differ, and each variant is modelled as written:

| situation | JavaScript | Python | Swift |
|---|---|---|---|
| `length` below the number of required characters | longer password, `max(length, required)` characters | exactly `length` characters from the pool; coverage is dropped | as JavaScript |
| every category off | throws | raises `ValueError` | returns the text `错误: …` in place of a password |
| bad `-l`/`-c` value | resets to the default (12 or 3); `0` resets too | out-of-range values rejected by validation | keeps the previous value |

Further facts about the programs:
- With all four categories present, the detected charset size is
  26+26+10+24 = 86, since the special alphabet has 24 characters. A
  12-character mixed password therefore scores about 77.1 bits, which is
  Strong (`Strength.TwelveMixedIsStrong`).
- When `length` is below the number of enabled categories, no program cuts
  the required characters down to `length` (see the table above).
- Exclusion never empties an enabled category: 24/25/8/23 characters remain
  (`Alphabet.CategorySize`). The pooled alphabet is empty exactly when all
  four categories are off (`Alphabet.EmptyExactlyWhenNoneEnabled`).
- Only the JavaScript and Swift parsers clamp the numeric options. The
  Python program rejects an out-of-range length or count instead
  (`PyGenerator.ValidateArgs`).

## Model

| member | source | states |
|---|---|---|
| Alphabet.Filter | generate-password.js:71-77 | the filtered string holds exactly the characters of the input that are not in `0O1lI\|` |
| Alphabet.FilterChars | generate-password.js:72 | `split('').filter(p).join('')` keeps exactly the characters satisfying `p` and never grows the string |
| Alphabet.FilterAppend | generate-password.js:72 | filtering distributes over concatenation |
| Alphabet.FilterKeepsUnambiguous | generate-password.js:72 | a string without ambiguous characters is left unchanged by the filter |
| Alphabet.FilteredSizes | generate-password.js:18-22 | filtering leaves 24 upper-case letters, 25 lower-case letters, 8 digits and 23 special characters |
| Alphabet.CategorySize | generate-password.js:66-77 | `CategoryAlphabet` (and so each field of `BuildAlphabets`) has 26/26/10/24 characters for an enabled category, or 24/25/8/23 with exclusion; a disabled one has none |
| Alphabet.ExclusionKeepsExactlyTheUnambiguous | generate-password.js:66-77 | a character is in a category alphabet of `BuildAlphabets` iff the category is enabled, the character belongs to it and, under exclusion, it is not ambiguous; under exclusion the pooled alphabet is unambiguous |
| Alphabet.EmptyExactlyWhenNoneEnabled | generate-password.js:79-82 | the pooled alphabet is empty iff all four categories are disabled, with or without exclusion |
| Alphabet.CategoriesDisjoint | generate-password.js:18-21 | no character belongs to two categories |
| Alphabet.CategoryRanges | generate-password.js:18-21 | a character is a digit, upper-case or lower-case letter iff it lies in the ASCII range `0`-`9`, `A`-`Z` or `a`-`z`; the special characters lie outside all three |
| Alphabet.PrintableAscii | generate-password.js:18-21 | every category character is printable ASCII |
| Assembly.SelectAlphabets | generate-password.js:66-77 | the four category strings, after the optional filter, are the category alphabets of the request (the same opening is generate-password.swift:46-56) |
| Assembly.DrawRequired | generate-password.js:85-89 | one character per non-empty category: the count is the number of non-empty categories, every character comes from the pool, and every non-empty category is covered (likewise generate-password.py:78-86 and generate-password.swift:63-67) |
| Assembly.Push | generate-password.js:86-89 | pushing a character of a category extends the list by it, covers that category and keeps every earlier category |
| Assembly.Choices | generate-password.py:89-93 | `[secrets.choice(all_chars) for _ in range(n)]` has `max(n, 0)` characters, all from the pool |
| Assembly.AppendKeeps | generate-password.js:93-95 | appending a pool character keeps the password drawn from the pool and keeps every category it covered |
| Assembly.ConcatKeeps | generate-password.py:93 | `required_chars + filler` stays within the pool and keeps the coverage of `required_chars` |
| Assembly.PermutationKeeps | generate-password.js:97 | a rearrangement keeps the length, pool membership and coverage |
| Assembly.DrawnFromUnambiguous | generate-password.js:79-94 | a password drawn from an unambiguous pool is unambiguous |
| SecureRandom.RandomIndex | generate-password.js:39-41 | `crypto.randomInt(0, max)` returns an index below `max` |
| SecureRandom.RandomChoice | generate-password.js:43-45 | the chosen character occurs in the string |
| SecureRandom.Shuffle | generate-password.py:96 | the library shuffle keeps the multiset of characters (likewise `password.shuffle()`, generate-password.swift:77) |
| Strength.CharsetSize | generate-password.js:103-116 | the charset size is at most 86, and 0 iff no category occurs |
| Strength.CalculateEntropy | generate-password.js:103-118 | the charset size is the detected `CharsetSize` of the password; the keyspace is 1 (0 bits) when no category is present and `size^\|pw\|` otherwise (likewise generate-password.py:103-125 without its rounding, and generate-password.swift:83-99) |
| Strength.TierIsFirstBoundExceeded | generate-password.js:120-127 | `EvaluateStrength` gives the tier of the first of the bounds 2^28, 2^36, 2^60, 2^80, 2^100 that exceeds the keyspace; all earlier bounds are at most the keyspace (likewise generate-password.py:128-141 and generate-password.swift:108-123) |
| Strength.TierMonotone | generate-password.swift:108-123 | a larger keyspace, and so more entropy, never gives a lower tier |
| Strength.EstimateCrackTime | generate-password.js:129-144 | a displayed amount lies in its unit's range, e.g. [1, 60) seconds or [0.1, 1000) millennia |
| Strength.CrackTimeIsFirstBoundExceeded | generate-password.swift:125-143 | the unit is the first of the bounds 10^12 × (1, 60, 3600, 86400, year, 100 years, 10^6 years, 10^9 years) that exceeds the keyspace; instant iff `size^len < 10^12`; age of the universe iff it reaches 10^9 years (likewise generate-password.py:144-167) |
| Strength.CrackTimeMonotone | generate-password.swift:125-143 | more entropy never gives a shorter unit |
| Strength.TierAndCrackTimeAgree | generate-password.js:120-144 | a Very Weak password is cracked instantly; an Extremely Strong one takes the age of the universe |
| Strength.EntropyGrowsWithLength | generate-password.js:117 | at equal charset size, a longer password has a keyspace and a tier at least as large |
| Strength.TwelveMixedIsStrong | generate-password.js:103-127 | 12 characters covering all four categories are rated Strong |
| Strength.EightDigitsIsVeryWeak | generate-password.js:103-127 | 8 digits are rated Very Weak |
| Strength.AnalyzePassword | generate-password.js:146-151 | the record holds the password, its length and exactly the entropy `CalculateEntropy` gives it, the charset from the detected categories, and the tier and unit as first bounds exceeded; each `has_*` flag (generate-password.py:184-187) holds iff that category occurs |
| NumberParsing.DigitRun | generate-password.js:236 | `parseInt` reads the longest run of leading digits |
| NumberParsing.JsParseIntReadsDecimal | generate-password.js:236 | `JsParseInt` (leading whitespace, a sign, then `JsParseMagnitude` over the longest digit run) reads back any integer written in decimal, whatever non-digit text follows it, except that `0` followed by `x` or `X` is read as hexadecimal |
| NumberParsing.SwiftParseIntReadsDecimal | generate-password.swift:246 | `SwiftParseInt`, which accepts an optional sign and digits only, reads back any 64-bit integer written in decimal |
| NumberParsing.SwiftRejectsTrailingText | generate-password.swift:246 | `Int(_)` rejects digits followed by other text |
| NumberParsing.ParsersDisagree | generate-password.js:236 | on `12abc`, ` 20` and `0x10`, `parseInt` gives 12, 20 and 16, while `Int(_)` rejects all three |
| NumberParsing.ParsersOnEmptyAndRange | generate-password.swift:246 | `Int(_)` yields only 64-bit values; both parsers reject `""` and `"-"` |
| Settings.Clamp | generate-password.js:236 | `max(lo, min(hi, v))` is in [lo, hi], equals v inside, and equals the nearer bound outside |
| Settings.RecogniseLabels | generate-password.js:233-273 | exactly `-l`, `--length`, `-c` and `--count` take a value, and an argument is unrecognised iff it is none of the sixteen labels (the same labels are generate-password.swift:245-271) |
| Settings.RecogniseEachLabel | generate-password.js:233-273 | `Recognise` maps each of the sixteen `case` labels to its own option: `-l`/`--length` to the length, `-c`/`--count` to the count, `-e`/`--exclude` to exclusion, each `--no-*` label to its category, `--plain`, `--json`, `-b`/`--batch` and `-h`/`--help` to theirs (the same labels are generate-password.swift:245-271) |
| Settings.SetFlagKeepsValid | generate-password.js:242-273 | `SetFlag`, the body of every case but `-l` and `-c`, keeps length and count and keeps the options valid; `--plain` and `--json` set their output flag and batch mode (the same cases are generate-password.swift:255-273) |
| Settings.ParseFromValid | generate-password.js:231-275 | `ParseFrom`, the argument loop of either parser (generate-password.swift:240-278), keeps the options valid (in range, output implies batch) whenever each step of its `switch` does |
| JsGenerator.ShuffleArray | generate-password.js:47-54 | the Fisher–Yates loop over a copy returns a permutation of its argument |
| JsGenerator.GeneratePassword | generate-password.js:56-99 | throws the no-category message iff the pooled alphabet is empty; otherwise `max(length, required)` characters, all from the pool, covering every non-empty category |
| JsGenerator.ExcludedPasswordIsUnambiguous | generate-password.js:71-97 | with exclusion on, no password holds an ambiguous character |
| JsGenerator.GeneratePasswords | generate-password.js:281-288 | `max(count, 0)` analyses, each of an assembled password; fails iff a password is needed and every category is off, with the message `generatePassword` throws (generate-password.js:81) |
| JsGenerator.ParseArgs | generate-password.js:215-277 | the loop computes the argument fold from the defaults, and its result is always in range with output implying batch mode |
| JsGenerator.ApplyArgKeepsValid | generate-password.js:233-274 | `ApplyArg`, one pass of the `switch` through `Recognise` and `Apply`, keeps length in [8, 128], count in [1, 100] and output implying batch mode |
| JsGenerator.ApplyArgConsumes | generate-password.js:234-265 | exactly `-l`, `--length`, `-c`, `--count` consume the next argument; `--plain` and `--json` set batch mode |
| JsGenerator.BadValueResets | generate-password.js:236-240 | through `OrDefault` (`\|\| DEFAULT`), a missing or non-numeric value resets length to 12 and count to 3 |
| JsGenerator.DecimalValue | generate-password.js:236-240 | a decimal value `v` sets length to `v` clamped to [8, 128] and count to `v` clamped to [1, 100], except that 0 gives the default through `OrDefault` |
| JsGenerator.ParsedValue | generate-password.js:236-240 | any text `parseInt` accepts sets the option from its parsed value, 0 giving the default |
| PyGenerator.GetCharset | generate-password.py:42-59 | every category is present; a disabled one maps to `''`; each entry is its category alphabet, filtered under exclusion; under exclusion no entry is ambiguous |
| PyGenerator.FilterEntries | generate-password.py:55-57 | the rewrite loop replaces every entry by its filtered value |
| PyGenerator.GenerateStrongPassword | generate-password.py:62-98 | raises iff the pool is empty; otherwise exactly `max(length, 0)` characters from the pool, covering every non-empty category when `length` is at least the number of required characters |
| PyGenerator.ValidateArgs | generate-password.py:547-553 | accepts iff the length is in [8, 128] and the count in [1, 100]; a bad length is reported with the length message whatever the count, and a bad count with the count message |
| PyGenerator.ExcludedPasswordIsUnambiguous | generate-password.py:55-57 | with exclusion on, a password `generate_strong_password` returns (generate-password.py:89-96) holds none of `0O1lI\|` |
| PyGenerator.ValidatedRequestCovers | generate-password.py:89-93 | after validation the Python password has the JavaScript/Swift guarantees, coverage included |
| PyGenerator.ShortRequestsDiverge | generate-password.py:89-93 | for length 2 with all categories, Python returns 2 characters that cannot cover them, the others return 4 |
| PyGenerator.TwoCannotCoverFour | generate-password.py:89-90 | two characters cannot cover four disjoint non-empty categories |
| PyGenerator.AppendToHistory | generate-password.py:230-233 | the history holds `min(n + 1, 100)` records, the new record is last, and the earlier ones are the most recent of the old, in order |
| SwiftGenerator.GeneratePassword | generate-password.swift:38-79 | the error text iff the pooled alphabet is empty; otherwise `max(length, required)` characters, all from the pool, covering every non-empty category |
| SwiftGenerator.ErrorTextIsNoPassword | generate-password.swift:58-61 | no password equals the error text |
| SwiftGenerator.ExcludedPasswordIsUnambiguous | generate-password.swift:51-77 | with exclusion on, no password holds an ambiguous character |
| SwiftGenerator.GeneratePasswords | generate-password.swift:285-302 | `count` pairs, each an entropy and either the error text (every category off) or an assembled password |
| SwiftGenerator.ErrorTextRatedStrong | generate-password.swift:285-298 | as written, the error text is analysed like a password: charset 24, 16 characters, rated Strong |
| SwiftGenerator.GeneratePasswordsChecked | generate-password.swift:285-302 | corrected: fails with the error text iff a password is needed and every category is off; otherwise every pair is an assembled password and its entropy |
| SwiftGenerator.ParseArguments | generate-password.swift:235-281 | the loop computes the argument fold from the defaults, and its result is always in range with output implying batch mode |
| SwiftGenerator.ApplyArgKeepsValid | generate-password.swift:243-276 | `ApplyArg`, one pass of the `switch` through `Recognise` and `Apply`, keeps length in [8, 128], count in [1, 100] and output implying batch mode |
| SwiftGenerator.ApplyArgConsumes | generate-password.swift:244-269 | exactly `-l`, `--length`, `-c`, `--count` consume the next argument; `--plain` and `--json` set batch mode |
| SwiftGenerator.BadValueKeeps | generate-password.swift:244-253 | a missing or unparsable value leaves length and count unchanged |
| SwiftGenerator.DecimalValue | generate-password.swift:244-253 | a decimal 64-bit value sets length to `v` clamped to [8, 128] and count to `v` clamped to [1, 100], 0 included |
| SwiftGenerator.BadValueAfterGoodOne | generate-password.swift:244-248 | on `-l 20 -l abc` the JavaScript parser ends with length 12 and the Swift parser with 20 |

## Findings

| source | as written | input that shows it | evidently intended | confidence | as-written member | corrected member |
|---|---|---|---|---|---|---|
| generate-password.swift:285-302 | `generatePasswords` stores whatever `generatePassword` returns, the error text included, with its entropy; batch and JSON output then list it as a password | `--no-upper --no-lower --no-digits --no-special --json`: every entry is `错误: 至少需要选择一种字符类型`, 16 characters whose ASCII `:` is a special character, so 16 × log2(24) ≈ 73.4 bits, strength 强 (Strong) | report the error and list no password, as the JavaScript and Python generators do by throwing or raising | medium, not executed | SwiftGenerator.ErrorTextRatedStrong | SwiftGenerator.GeneratePasswordsChecked |

## Left out

- Floating point: `log2`, `pow`, and the `%.1f`/`toFixed`/`%.2f` formatting are left out. Entropy is the exact pair (size, length), and every threshold is compared as an integer.
- Strength.CalculateEntropy: Python's `round(entropy, 2)` (generate-password.py:125) is not modelled. Rounding can move an entropy within 0.005 bits of a tier boundary across it, so the Python tiers and crack-time units are proved for the unrounded value only. For crack-time units the rounding does change a result: 12 digits give 39.86 bits in Python, 0.998 seconds, which is instant.
- Strength.EstimateCrackTime / Strength.CrackTimeIsFirstBoundExceeded: the exact keyspace is compared with the bound, not the floating-point `2^entropy / 10^12`. For a 12-character digits-only password (keyspace exactly 10^12, reachable with `--no-upper --no-lower --no-special`) the programs compute 0.9999999999999999 seconds and show instant, while the model gives 1.0 second. No other reachable charset size and length up to 128 flips a unit, and no tier flips.
- Strength.EstimateCrackTime: the displayed amount is a real in its unit's range, not the formatted text. The millennia range starts at 0.1 because `100 years / 1000` displays as 0.1.
- Randomness: quality and uniformity of `crypto.randomInt`, `secrets.choice`, `SystemRandom().shuffle`, `randomElement` and `shuffle` are left out. Only the index range, the membership of a choice and the permutation property are specified.
- Input and output are left out, each being I/O or a library call:
  - clipboard copy (`pbcopy`/`xclip`);
  - loading and saving the history file, and `hash_password` (SHA-256);
  - `save_to_file`;
  - banner, help and card printing, and JSON serialisation;
  - the readline and async interactive loops.

  `AppendToHistory` models only the in-memory append-and-truncate.
- Python argument parsing: `argparse` is a library and is left out. Only the range validation after it is modelled.
- JavaScript `generatePassword(options = {})`: the default-parameter destructuring is not modelled. The options record always carries every field, as `parseArgs` builds it.
- NumberParsing.JsParseInt: covers the decimal and `0x` forms that `parseInt` accepts. Precision loss above 2^53 is not modelled, because every value is clamped afterwards anyway.
- Strings are sequences of Unicode scalar values. Swift's `Character` (a grapheme cluster) and JavaScript's UTF-16 units coincide with them for every alphabet character, so the difference is not modelled.
- Python's dictionary keys `'uppercase'`…`'special'` are modelled as the `Category` values.
- SwiftGenerator.GeneratePasswords: requires a non-negative count. A negative count traps in `0..<count`, and the parser never produces one.
- macos-app/PasswordGenerator.swift is a window shell whose generator is JavaScript inside an HTML string, so it is not part of this model. As a contrast, its generator differs from the core in three ways:
  - an 11-symbol special set that is never filtered;
  - `+32` to the charset for any non-alphanumeric character;
  - a modulo-biased random index.
- icons/create_icon.py renders images through subprocesses and is not part of this model.
