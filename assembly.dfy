/** The steps the three generators share when they assemble a password: one
    required character from every non-empty category, then filler from the
    pooled alphabet, then a shuffle. What survives the shuffle is stated once
    here, for the JavaScript, Python and Swift generators alike. */
module Assembly {
  import opened Alphabet
  import opened SecureRandom

  /** The message all three generators report when every category is off. */
  const NO_CATEGORY_MESSAGE: string := "至少需要选择一种字符类型"

  function Max(a: int, b: int): (m: int)
    ensures m >= a && m >= b && (m == a || m == b)
  {
    if a >= b then a else b
  }

  /** What a JavaScript or Swift password of requested `length` promises:
      it is never shorter than the number of required characters, every
      character comes from the pooled alphabet and every non-empty category
      occurs in it. */
  predicate Assembled(pw: string, al: Alphabets, length: int)
  {
    |pw| == Max(length, al.RequiredCount()) && DrawnFrom(pw, al) && Covers(pw, al)
  }

  /** The opening of `generatePassword` in JavaScript and Swift: each
      category string is its alphabet or empty, and with exclusion on each is
      replaced by its filtered version. */
  method SelectAlphabets(excludeConfusing: bool, includeUppercase: bool, includeLowercase: bool,
                         includeDigits: bool, includeSpecial: bool) returns (al: Alphabets)
    ensures al == BuildAlphabets(excludeConfusing, includeUppercase, includeLowercase, includeDigits, includeSpecial)
  {
    var upper := if includeUppercase then UPPERCASE else "";
    var lower := if includeLowercase then LOWERCASE else "";
    var digits := if includeDigits then DIGITS else "";
    var special := if includeSpecial then SPECIAL else "";
    if excludeConfusing {
      upper := Filter(upper);
      lower := Filter(lower);
      digits := Filter(digits);
      special := Filter(special);
    }
    al := Alphabets(upper, lower, digits, special);
  }

  /** The `required` list: one random character of every non-empty category,
      in the order upper, lower, digits, special. */
  method DrawRequired(al: Alphabets) returns (required: string)
    ensures |required| == al.RequiredCount()
    ensures DrawnFrom(required, al)
    ensures Covers(required, al)
  {
    required := [];
    if al.upper != [] {
      var c := RandomChoice(al.upper);
      required := Push(required, c, al, Upper);
    }
    if al.lower != [] {
      var c := RandomChoice(al.lower);
      required := Push(required, c, al, Lower);
    }
    if al.digits != [] {
      var c := RandomChoice(al.digits);
      required := Push(required, c, al, Digit);
    }
    if al.special != [] {
      var c := RandomChoice(al.special);
      required := Push(required, c, al, Special);
    }
    forall cat | al.Of(cat) != []
      ensures Has(required, al.Of(cat))
    {
      match cat
      case Upper =>
      case Lower =>
      case Digit =>
      case Special =>
    }
  }

  /** A list of `n` random characters of the pooled alphabet (none when `n`
      is not positive). */
  method Choices(al: Alphabets, n: int) returns (xs: string)
    requires al.AllChars() != []
    ensures |xs| == Max(n, 0)
    ensures DrawnFrom(xs, al)
  {
    xs := [];
    while |xs| < n
      invariant |xs| <= Max(n, 0)
      invariant DrawnFrom(xs, al)
    {
      var c := RandomChoice(al.AllChars());
      AppendKeeps(xs, c, al);
      xs := xs + [c];
    }
  }

  /** Concatenation keeps a password drawn from the pooled alphabet and
      keeps the coverage of its first part. */
  lemma {:induction false} ConcatKeeps(pw: string, fill: string, al: Alphabets)
    ensures DrawnFrom(pw, al) && DrawnFrom(fill, al) ==> DrawnFrom(pw + fill, al)
    ensures Covers(pw, al) ==> Covers(pw + fill, al)
  {
    var r := pw + fill;
    forall cat | Has(pw, al.Of(cat))
      ensures Has(r, al.Of(cat))
    {
      var i :| 0 <= i < |pw| && pw[i] in al.Of(cat);
      assert r[i] == pw[i];
    }
    if DrawnFrom(pw, al) && DrawnFrom(fill, al) {
      forall i | 0 <= i < |r|
        ensures r[i] in al.AllChars()
      {
        if i >= |pw| {
          assert r[i] == fill[i - |pw|];
        }
      }
    }
  }

  /** `required.push(c)` for a character `c` of category `cat`. */
  function Push(pw: string, c: char, al: Alphabets, cat: Category): (r: string)
    requires c in al.Of(cat)
    ensures r == pw + [c]
    ensures |r| == |pw| + 1
    ensures DrawnFrom(pw, al) ==> DrawnFrom(r, al)
    ensures Has(r, al.Of(cat))
    ensures forall k :: Has(pw, al.Of(k)) ==> Has(r, al.Of(k))
  {
    AppendKeeps(pw, c, al);
    pw + [c]
  }

  /** Appending a character of the pooled alphabet keeps a password drawn from
      it, keeps every category it already had, and adds the categories of `c`. */
  lemma {:induction false} AppendKeeps(pw: string, c: char, al: Alphabets)
    ensures forall cat :: Has(pw, al.Of(cat)) ==> Has(pw + [c], al.Of(cat))
    ensures forall cat :: c in al.Of(cat) ==> Has(pw + [c], al.Of(cat))
    ensures DrawnFrom(pw, al) && c in al.AllChars() ==> DrawnFrom(pw + [c], al)
    ensures Covers(pw, al) ==> Covers(pw + [c], al)
  {
    var r := pw + [c];
    assert r[|pw|] == c;
    forall cat | Has(pw, al.Of(cat))
      ensures Has(r, al.Of(cat))
    {
      var i :| 0 <= i < |pw| && pw[i] in al.Of(cat);
      assert r[i] == pw[i];
    }
  }

  /** A rearrangement keeps membership in the pooled alphabet and the
      coverage of every category. */
  lemma {:induction false} PermutationKeeps(pw: string, q: string, al: Alphabets)
    requires multiset(q) == multiset(pw)
    ensures |q| == |pw|
    ensures DrawnFrom(pw, al) ==> DrawnFrom(q, al)
    ensures Covers(pw, al) ==> Covers(q, al)
  {
    assert |q| == |multiset(q)| == |multiset(pw)| == |pw|;
    forall i | 0 <= i < |q|
      ensures q[i] in pw
    {
      assert q[i] in multiset(q);
    }
    forall a | Has(pw, a)
      ensures Has(q, a)
    {
      var i :| 0 <= i < |pw| && pw[i] in a;
      assert pw[i] in multiset(pw);
      assert pw[i] in q;
      var j :| 0 <= j < |q| && q[j] == pw[i];
    }
  }

  /** Drawn from a filtered alphabet, a password holds no ambiguous character. */
  lemma {:induction false} DrawnFromUnambiguous(pw: string, al: Alphabets)
    requires DrawnFrom(pw, al)
    requires Unambiguous(al.AllChars())
    ensures Unambiguous(pw)
  {
    forall c | c in pw
      ensures c !in CONFUSING
    {
      var i :| 0 <= i < |pw| && pw[i] == c;
    }
  }
}
