/** The Python generator (`generate-password.py`): `get_charset`,
    `generate_strong_password`, the argument validation of `main` and the
    append-and-truncate step of `save_to_history`. Strength analysis is
    `Strength`. */
module PyGenerator {
  import opened Wrappers
  import opened Alphabet
  import opened SecureRandom
  import opened Assembly
  import opened Settings

  /** Whether the request enables category `cat`. */
  function Enabled(cat: Category, includeUppercase: bool, includeLowercase: bool,
                   includeDigits: bool, includeSpecial: bool): bool
  {
    match cat
    case Upper => includeUppercase
    case Lower => includeLowercase
    case Digit => includeDigits
    case Special => includeSpecial
  }

  /** `get_charset(...)`: a dictionary from category to its alphabet, `''` for
      a disabled category; with exclusion on, every entry is rewritten with
      its ambiguous characters removed. */
  method GetCharset(excludeConfusing: bool, includeUppercase: bool, includeLowercase: bool,
                    includeDigits: bool, includeSpecial: bool) returns (chars: map<Category, string>)
    ensures forall cat :: cat in chars
    ensures forall cat :: chars[cat] == CategoryAlphabet(cat, Enabled(cat, includeUppercase, includeLowercase,
                                                                       includeDigits, includeSpecial), excludeConfusing)
    ensures forall cat :: !Enabled(cat, includeUppercase, includeLowercase, includeDigits, includeSpecial) ==> chars[cat] == ""
    ensures excludeConfusing ==> forall cat :: Unambiguous(chars[cat])
  {
    chars := map[Upper := if includeUppercase then UPPERCASE else "",
                 Lower := if includeLowercase then LOWERCASE else "",
                 Digit := if includeDigits then DIGITS else "",
                 Special := if includeSpecial then SPECIAL else ""];
    ghost var requested := chars;
    forall cat
      ensures cat in requested
      ensures requested[cat] == CategoryAlphabet(cat, Enabled(cat, includeUppercase, includeLowercase,
                                                              includeDigits, includeSpecial), false)
    {
      match cat
      case Upper =>
      case Lower =>
      case Digit =>
      case Special =>
    }
    if excludeConfusing {
      chars := FilterEntries(chars);
    }
    forall cat
      ensures excludeConfusing ==> Unambiguous(chars[cat])
    {
      ExclusionKeepsExactlyTheUnambiguous(excludeConfusing, includeUppercase, includeLowercase,
                                          includeDigits, includeSpecial, cat, 'A');
    }
  }

  /** The `for key in chars` loop of `get_charset`: every entry of the
      dictionary is rewritten with its ambiguous characters removed. */
  method FilterEntries(entries: map<Category, string>) returns (chars: map<Category, string>)
    requires forall cat :: cat in entries
    ensures forall cat :: cat in chars && chars[cat] == Filter(entries[cat])
  {
    chars := entries;
    var k := 0;
    while k < |CATEGORIES|
      invariant 0 <= k <= |CATEGORIES|
      invariant chars.Keys == entries.Keys
      invariant chars[Upper] == if k > 0 then Filter(entries[Upper]) else entries[Upper]
      invariant chars[Lower] == if k > 1 then Filter(entries[Lower]) else entries[Lower]
      invariant chars[Digit] == if k > 2 then Filter(entries[Digit]) else entries[Digit]
      invariant chars[Special] == if k > 3 then Filter(entries[Special]) else entries[Special]
    {
      var key := CATEGORIES[k];
      chars := chars[key := Filter(chars[key])];
      k := k + 1;
    }
    forall cat
      ensures chars[cat] == Filter(entries[cat])
    {
      match cat
      case Upper =>
      case Lower =>
      case Digit =>
      case Special =>
    }
  }

  /** What `generate_strong_password` promises: exactly `length` characters
      (none for a negative length), all from the pooled alphabet, covering
      every non-empty category whenever there is room for the required ones. */
  predicate PyAssembled(pw: string, al: Alphabets, length: int)
  {
    |pw| == Max(length, 0) && DrawnFrom(pw, al) && (length >= al.RequiredCount() ==> Covers(pw, al))
  }

  /** `generate_strong_password(length, ...)`: `ValueError` when every
      category is off; otherwise the required characters plus filler, or,
      when `length` is below the number of required characters, `length`
      characters of the pooled alphabet; then shuffled. */
  method GenerateStrongPassword(length: int, excludeConfusing: bool, includeUppercase: bool,
                                includeLowercase: bool, includeDigits: bool, includeSpecial: bool)
    returns (r: Result<string, string>)
    ensures var al := BuildAlphabets(excludeConfusing, includeUppercase, includeLowercase, includeDigits, includeSpecial);
            (r.Failure? <==> al.AllChars() == [])
            && (r.Failure? ==> r.error == NO_CATEGORY_MESSAGE)
            && (r.Success? ==> PyAssembled(r.value, al, length))
  {
    var chars := GetCharset(excludeConfusing, includeUppercase, includeLowercase, includeDigits, includeSpecial);
    var al := Alphabets(chars[Upper], chars[Lower], chars[Digit], chars[Special]);
    assert al.upper == CategoryAlphabet(Upper, includeUppercase, excludeConfusing);
    assert al.lower == CategoryAlphabet(Lower, includeLowercase, excludeConfusing);
    assert al.digits == CategoryAlphabet(Digit, includeDigits, excludeConfusing);
    assert al.special == CategoryAlphabet(Special, includeSpecial, excludeConfusing);
    assert al == BuildAlphabets(excludeConfusing, includeUppercase, includeLowercase, includeDigits, includeSpecial);
    var allChars := chars[Upper] + chars[Lower] + chars[Digit] + chars[Special];
    assert allChars == al.AllChars();
    if allChars == [] {
      return Failure(NO_CATEGORY_MESSAGE);
    }
    var required := DrawRequired(al);
    var password: string;
    if length < |required| {
      password := Choices(al, length);
    } else {
      var fill := Choices(al, length - |required|);
      ConcatKeeps(required, fill, al);
      password := required + fill;
    }
    var shuffled := Shuffle(password);
    PermutationKeeps(password, shuffled, al);
    assert PyAssembled(shuffled, al, length);
    return Success(shuffled);
  }

  const LENGTH_RANGE_MESSAGE: string := "错误: 密码长度必须在 8-128 之间"
  const COUNT_RANGE_MESSAGE: string := "错误: 生成数量必须在 1-100 之间"

  /** The checks `main` makes on the parsed `--length` and `--count` before
      generating: the first violated one yields its message (and exit 1). */
  function ValidateArgs(length: int, count: int): (r: Option<string>)
    ensures r.None? <==> MIN_LENGTH <= length <= MAX_LENGTH && MIN_COUNT <= count <= MAX_COUNT
    ensures !(MIN_LENGTH <= length <= MAX_LENGTH) ==> r == Some(LENGTH_RANGE_MESSAGE)
    ensures MIN_LENGTH <= length <= MAX_LENGTH && !(MIN_COUNT <= count <= MAX_COUNT) ==> r == Some(COUNT_RANGE_MESSAGE)
  {
    if length < MIN_LENGTH || length > MAX_LENGTH then Some(LENGTH_RANGE_MESSAGE)
    else if count < 1 || count > 100 then Some(COUNT_RANGE_MESSAGE)
    else None
  }

  /** Through the command line, lengths are at least 8, so a Python password
      always covers every enabled category and keeps the JavaScript and Swift
      promise. */
  lemma ValidatedRequestCovers(pw: string, al: Alphabets, length: int, count: int)
    requires ValidateArgs(length, count).None?
    requires PyAssembled(pw, al, length)
    ensures Assembled(pw, al, length)
  {
  }

  /** Asked for fewer characters than there are categories, the Python
      generator keeps the length and gives up coverage, where the JavaScript
      and Swift generators keep coverage and return a longer password: with
      every category on, a request for 2 characters yields 2 in Python, 4 in
      the others, and the 2 cannot cover all four categories. */
  lemma ShortRequestsDiverge(al: Alphabets, excludeConfusing: bool, py: string, other: string)
    requires al == BuildAlphabets(excludeConfusing, true, true, true, true)
    requires PyAssembled(py, al, 2)
    requires Assembled(other, al, 2)
    ensures |py| == 2 && |other| == 4
    ensures !Covers(py, al)
  {
    forall cat
      ensures al.Of(cat) != []
      ensures forall c :: c in al.Of(cat) ==> c in FullAlphabet(cat)
    {
      CategorySize(cat, true, excludeConfusing);
      forall c | c in al.Of(cat)
        ensures c in FullAlphabet(cat)
      {
        ExclusionKeepsExactlyTheUnambiguous(excludeConfusing, true, true, true, true, cat, c);
      }
    }
    assert al.RequiredCount() == 4;
    TwoCannotCoverFour(py, al);
  }

  /** Two characters cannot cover four non-empty, pairwise disjoint categories
      (already the first three are one too many). */
  lemma TwoCannotCoverFour(pw: string, al: Alphabets)
    requires |pw| == 2
    requires forall cat :: al.Of(cat) != []
    requires forall cat, c :: c in al.Of(cat) ==> c in FullAlphabet(cat)
    ensures !Covers(pw, al)
  {
    if Covers(pw, al) {
      assert FullAlphabet(Upper) == UPPERCASE && FullAlphabet(Lower) == LOWERCASE && FullAlphabet(Digit) == DIGITS;
      var i :| 0 <= i < |pw| && pw[i] in al.Of(Upper);
      var j :| 0 <= j < |pw| && pw[j] in al.Of(Lower);
      var k :| 0 <= k < |pw| && pw[k] in al.Of(Digit);
      assert pw[i] in UPPERCASE && pw[j] in LOWERCASE && pw[k] in DIGITS;
      if i == j {
        CategoriesDisjoint(pw[i]);
        assert false;
      }
      if i == k || j == k {
        CategoriesDisjoint(pw[k]);
        assert false;
      }
      assert false;
    }
  }

  /** With exclusion on, no Python password holds an ambiguous character. */
  lemma ExcludedPasswordIsUnambiguous(pw: string, length: int, includeUppercase: bool,
                                      includeLowercase: bool, includeDigits: bool, includeSpecial: bool)
    requires PyAssembled(pw, BuildAlphabets(true, includeUppercase, includeLowercase, includeDigits, includeSpecial), length)
    ensures Unambiguous(pw)
  {
    ExclusionKeepsExactlyTheUnambiguous(true, includeUppercase, includeLowercase, includeDigits, includeSpecial, Upper, 'A');
    DrawnFromUnambiguous(pw, BuildAlphabets(true, includeUppercase, includeLowercase, includeDigits, includeSpecial));
  }

  const HISTORY_LIMIT: nat := 100

  /** The append-and-truncate step of `save_to_history`: the new record is
      appended and only the latest 100 records are kept (`history[-100:]`). */
  method AppendToHistory<T>(history: seq<T>, record: T) returns (h: seq<T>)
    ensures |h| == if |history| < HISTORY_LIMIT then |history| + 1 else HISTORY_LIMIT
    ensures h[|h| - 1] == record
    ensures h[..|h| - 1] == history[|history| + 1 - |h|..]
  {
    h := history + [record];
    h := h[if |h| > HISTORY_LIMIT then |h| - HISTORY_LIMIT else 0..];
  }
}
