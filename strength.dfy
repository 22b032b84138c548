/** Presence-based strength estimation, shared by the three command-line
    variants: the charset size detected in a password, the entropy
    `length * log2(charsetSize)`, the six strength tiers and the crack-time
    unit at 10^12 guesses per second.

    Entropy is a floating-point number in the source. Here it is kept exact:
    an `Entropy` records the detected charset size and the length, and
    `2^entropy` is the integer `charsetSize^length` (`Keyspace`). Every
    comparison the source makes against an integer threshold becomes an
    integer comparison: `entropy < T` iff `Keyspace() < 2^T`, and
    `2^entropy / 10^12 < X` iff `Keyspace() < X * 10^12`. */
module Strength {
  import opened Alphabet

  function Pow(b: nat, e: nat): nat
  {
    if e == 0 then 1 else b * Pow(b, e - 1)
  }

  /** Exact form of an entropy value: `length * log2(charsetSize)` bits. A
      password in which no category is detected has 0 bits, recorded as
      `Entropy(0, 0)`. */
  datatype Entropy = Entropy(charsetSize: nat, length: nat)
  {
    /** `2^entropy`, the number of candidates a brute-force search covers. */
    function Keyspace(): (k: nat)
      ensures charsetSize > 0 ==> k > 0
    {
      PowPositive(charsetSize, length);
      Pow(charsetSize, length)
    }
  }

  lemma {:induction false} PowPositive(b: nat, e: nat)
    ensures b > 0 ==> Pow(b, e) > 0
  {
    if e > 0 {
      PowPositive(b, e - 1);
    }
  }

  /** The sum of the theoretical sizes 26/26/10/24 of the categories of which
      `pw` holds at least one character. */
  function CharsetSize(pw: string): (n: nat)
    ensures n <= 86
    ensures n == 0 <==> !Has(pw, UPPERCASE) && !Has(pw, LOWERCASE) && !Has(pw, DIGITS) && !Has(pw, SPECIAL)
  {
    (if Has(pw, UPPERCASE) then 26 else 0)
    + (if Has(pw, LOWERCASE) then 26 else 0)
    + (if Has(pw, DIGITS) then 10 else 0)
    + (if Has(pw, SPECIAL) then |SPECIAL| else 0)
  }

  /** `calculateEntropy` / `calculate_entropy`: 0 bits when no category is
      detected, otherwise `|pw| * log2(CharsetSize(pw))`. */
  function CalculateEntropy(pw: string): (e: Entropy)
    ensures e.charsetSize == CharsetSize(pw)
    ensures e.Keyspace() == if e.charsetSize == 0 then 1 else Pow(e.charsetSize, |pw|)
    ensures e.charsetSize == 0 ==> e.Keyspace() == 1
    ensures e.charsetSize > 0 ==> e.length == |pw| && e.Keyspace() >= 1
  {
    var size := CharsetSize(pw);
    if size == 0 then Entropy(0, 0) else Entropy(size, |pw|)
  }

  // ---------------------------------------------------------------------------
  // Ordered buckets: the reference both classifications are checked against.

  /** Strictly increasing bounds. */
  predicate Ascending(bounds: seq<nat>)
  {
    forall i, j :: 0 <= i < j < |bounds| ==> bounds[i] < bounds[j]
  }

  /** The index of the first bound that exceeds `x`, or `|bounds|` when none does. */
  function Bucket(x: nat, bounds: seq<nat>): (i: nat)
    ensures i <= |bounds|
  {
    if bounds == [] || x < bounds[0] then 0 else 1 + Bucket(x, bounds[1..])
  }

  /** For ascending bounds, `Bucket` is characterised by: every earlier bound is
      at most `x`, and the bound at the bucket (if any) exceeds `x`. */
  lemma {:induction false} BucketIsFirstExceeding(x: nat, bounds: seq<nat>)
    requires Ascending(bounds)
    ensures forall j :: 0 <= j < Bucket(x, bounds) ==> bounds[j] <= x
    ensures Bucket(x, bounds) < |bounds| ==> x < bounds[Bucket(x, bounds)]
  {
    if bounds != [] && x >= bounds[0] {
      BucketIsFirstExceeding(x, bounds[1..]);
      forall j | 0 <= j < Bucket(x, bounds)
        ensures bounds[j] <= x
      {
        if j > 0 {
          assert bounds[j] == bounds[1..][j - 1];
        }
      }
    }
  }

  /** A larger value never lands in an earlier bucket. */
  lemma {:induction false} BucketMonotone(x: nat, y: nat, bounds: seq<nat>)
    requires x <= y
    ensures Bucket(x, bounds) <= Bucket(y, bounds)
  {
    if bounds != [] && x >= bounds[0] {
      BucketMonotone(x, y, bounds[1..]);
    }
  }

  // ---------------------------------------------------------------------------
  // Strength tiers.

  datatype Tier = VeryWeak | Weak | Medium | Strong | VeryStrong | ExtremelyStrong
  {
    /** Position in the order from weakest to strongest. */
    function Rank(): nat
    {
      match this
      case VeryWeak => 0
      case Weak => 1
      case Medium => 2
      case Strong => 3
      case VeryStrong => 4
      case ExtremelyStrong => 5
    }
  }

  /** The tier boundaries as keyspace sizes `2^bits`. */
  function TierBounds(): (b: seq<nat>)
    ensures |b| == 5
  {
    [Pow(2, 28), Pow(2, 36), Pow(2, 60), Pow(2, 80), Pow(2, 100)]
  }

  /** `evaluateStrength` / `evaluate_strength`: the first tier whose bound exceeds
      the entropy (`< 28`, `< 36`, `< 60`, `< 80`, `< 100` bits), else the highest. */
  function EvaluateStrength(e: Entropy): Tier
  {
    var k := e.Keyspace();
    if k < Pow(2, 28) then VeryWeak
    else if k < Pow(2, 36) then Weak
    else if k < Pow(2, 60) then Medium
    else if k < Pow(2, 80) then Strong
    else if k < Pow(2, 100) then VeryStrong
    else ExtremelyStrong
  }

  /** `Bucket` over five bounds, spelled out as the source's chain of tests. */
  lemma BucketOfFive(x: nat, b0: nat, b1: nat, b2: nat, b3: nat, b4: nat)
    ensures Bucket(x, [b0, b1, b2, b3, b4]) ==
            if x < b0 then 0 else if x < b1 then 1 else if x < b2 then 2
            else if x < b3 then 3 else if x < b4 then 4 else 5
  {
    assert [b4][1..] == [];
    assert Bucket(x, [b4]) == if x < b4 then 0 else 1;
    assert [b3, b4][1..] == [b4];
    assert Bucket(x, [b3, b4]) == if x < b3 then 0 else 1 + Bucket(x, [b4]);
    assert [b2, b3, b4][1..] == [b3, b4];
    assert Bucket(x, [b2, b3, b4]) == if x < b2 then 0 else 1 + Bucket(x, [b3, b4]);
    assert [b1, b2, b3, b4][1..] == [b2, b3, b4];
    assert Bucket(x, [b1, b2, b3, b4]) == if x < b1 then 0 else 1 + Bucket(x, [b2, b3, b4]);
    assert [b0, b1, b2, b3, b4][1..] == [b1, b2, b3, b4];
  }

  /** A larger exponent gives a larger power of a base of at least 2. */
  lemma {:induction false} PowIncreasing(b: nat, e1: nat, e2: nat)
    requires b >= 2 && e1 < e2
    ensures Pow(b, e1) < Pow(b, e2)
  {
    PowPositive(b, e2 - 1);
    if e1 < e2 - 1 {
      PowIncreasing(b, e1, e2 - 1);
    }
  }

  lemma TierBoundsAscending()
    ensures Ascending(TierBounds())
  {
    PowIncreasing(2, 28, 36);
    PowIncreasing(2, 36, 60);
    PowIncreasing(2, 60, 80);
    PowIncreasing(2, 80, 100);
  }

  /** The tier is the bucket of `2^entropy` among the bounds `2^28`, `2^36`,
      `2^60`, `2^80`, `2^100`: it is the first tier whose bound exceeds the
      entropy, and every lower bound is at most the entropy. */
  lemma {:induction false} TierIsFirstBoundExceeded(e: Entropy)
    ensures EvaluateStrength(e).Rank() == Bucket(e.Keyspace(), TierBounds())
    ensures forall j :: 0 <= j < EvaluateStrength(e).Rank() ==> TierBounds()[j] <= e.Keyspace()
    ensures EvaluateStrength(e) != ExtremelyStrong ==> e.Keyspace() < TierBounds()[EvaluateStrength(e).Rank()]
  {
    TierBoundsAscending();
    var k := e.Keyspace();
    var b := TierBounds();
    BucketOfFive(k, b[0], b[1], b[2], b[3], b[4]);
    assert b == [b[0], b[1], b[2], b[3], b[4]];
    BucketIsFirstExceeding(k, b);
  }

  /** The tier never decreases as the entropy grows. */
  lemma TierMonotone(e1: Entropy, e2: Entropy)
    requires e1.Keyspace() <= e2.Keyspace()
    ensures EvaluateStrength(e1).Rank() <= EvaluateStrength(e2).Rank()
  {
    TierIsFirstBoundExceeded(e1);
    TierIsFirstBoundExceeded(e2);
    BucketMonotone(e1.Keyspace(), e2.Keyspace(), TierBounds());
  }

  // ---------------------------------------------------------------------------
  // Crack-time estimate.

  /** Guesses per second assumed for the adversary. */
  const ATTEMPTS_PER_SECOND: nat := 1_000_000_000_000
  /** Seconds in a (365-day) year. */
  const YEAR: nat := 31536000

  datatype TimeUnit = Seconds | Minutes | Hours | Days | Years | Millennia | MillionYears
  {
    function Rank(): nat
    {
      match this
      case Seconds => 0
      case Minutes => 1
      case Hours => 2
      case Days => 3
      case Years => 4
      case Millennia => 5
      case MillionYears => 6
    }
  }

  /** The crack-time estimate before formatting: "instant", an amount of a
      unit (printed with one decimal, e.g. `3.2 天`), or "age of the universe". */
  datatype CrackTime = Instant | Span(unit: TimeUnit, amount: real) | AgeOfUniverse
  {
    /** Position in the order from shortest to longest. */
    function Rank(): nat
    {
      match this
      case Instant => 0
      case Span(u, _) => 1 + u.Rank()
      case AgeOfUniverse => 8
    }
  }

  /** The unit boundaries in seconds (1 s, 1 min, 1 h, 1 day, 1 year, 100
      years, 10^6 years, 10^9 years), scaled to keyspace sizes by the guess rate. */
  function CrackBounds(): (b: seq<nat>)
    ensures |b| == 8
  {
    [1 * ATTEMPTS_PER_SECOND, 60 * ATTEMPTS_PER_SECOND, 3600 * ATTEMPTS_PER_SECOND,
     86400 * ATTEMPTS_PER_SECOND, YEAR * ATTEMPTS_PER_SECOND, YEAR * 100 * ATTEMPTS_PER_SECOND,
     YEAR * 1_000_000 * ATTEMPTS_PER_SECOND, YEAR * 1_000_000_000 * ATTEMPTS_PER_SECOND]
  }

  /** The smallest and (exclusive) largest amount shown in each unit. */
  function AmountRange(u: TimeUnit): (real, real)
  {
    match u
    case Seconds => (1.0, 60.0)
    case Minutes => (1.0, 60.0)
    case Hours => (1.0, 24.0)
    case Days => (1.0, 365.0)
    case Years => (1.0, 100.0)
    case Millennia => (0.1, 1000.0)
    case MillionYears => (1.0, 1000.0)
  }

  /** `estimateCrackTime` / `get_crack_time_estimate`: `seconds = 2^entropy / 10^12`
      placed in the first unit whose bound exceeds it. The amount shown is at
      least 1 and below the next unit, except in thousands of years, which
      starts at 100 years and so can show 0.1. */
  function EstimateCrackTime(e: Entropy): (r: CrackTime)
    ensures r.Span? ==> AmountRange(r.unit).0 <= r.amount < AmountRange(r.unit).1
  {
    var seconds := e.Keyspace() as real / ATTEMPTS_PER_SECOND as real;
    var year := YEAR as real;
    if seconds < 1.0 then Instant
    else if seconds < 60.0 then Span(Seconds, seconds)
    else if seconds < 3600.0 then Span(Minutes, seconds / 60.0)
    else if seconds < 86400.0 then Span(Hours, seconds / 3600.0)
    else if seconds < year then Span(Days, seconds / 86400.0)
    else if seconds < year * 100.0 then Span(Years, seconds / year)
    else if seconds < year * 1000000.0 then Span(Millennia, seconds / year / 1000.0)
    else if seconds < year * 1000000000.0 then Span(MillionYears, seconds / year / 1000000.0)
    else AgeOfUniverse
  }

  /** `Bucket` over eight bounds, spelled out as the source's chain of tests. */
  lemma BucketOfEight(x: nat, b: seq<nat>)
    requires |b| == 8
    ensures Bucket(x, b) ==
            if x < b[0] then 0 else if x < b[1] then 1 else if x < b[2] then 2
            else if x < b[3] then 3 else if x < b[4] then 4 else if x < b[5] then 5
            else if x < b[6] then 6 else if x < b[7] then 7 else 8
  {
    var t := b[4..];
    assert Bucket(x, t) == if x < b[4] then 0 else if x < b[5] then 1 else if x < b[6] then 2
                           else if x < b[7] then 3 else 4 by {
      BucketOfFour(x, t);
    }
    assert b[1..][1..][1..][1..] == t;
    assert Bucket(x, b[3..]) == if x < b[3] then 0 else 1 + Bucket(x, t) by { assert b[3..][1..] == t; }
    assert Bucket(x, b[2..]) == if x < b[2] then 0 else 1 + Bucket(x, b[3..]) by { assert b[2..][1..] == b[3..]; }
    assert Bucket(x, b[1..]) == if x < b[1] then 0 else 1 + Bucket(x, b[2..]) by { assert b[1..][1..] == b[2..]; }
  }

  lemma BucketOfFour(x: nat, b: seq<nat>)
    requires |b| == 4
    ensures Bucket(x, b) ==
            if x < b[0] then 0 else if x < b[1] then 1 else if x < b[2] then 2
            else if x < b[3] then 3 else 4
  {
    assert b[1..][1..][1..][1..] == [];
    assert Bucket(x, b[3..]) == if x < b[3] then 0 else 1 by { assert b[3..][1..] == []; }
    assert Bucket(x, b[2..]) == if x < b[2] then 0 else 1 + Bucket(x, b[3..]) by { assert b[2..][1..] == b[3..]; }
    assert Bucket(x, b[1..]) == if x < b[1] then 0 else 1 + Bucket(x, b[2..]) by { assert b[1..][1..] == b[2..]; }
  }

  /** The crack-time unit is the bucket of `2^entropy` among the unit bounds
      scaled by 10^12 guesses per second: "instant" exactly below 10^12
      candidates, "age of the universe" exactly from 10^9 years' worth of
      guesses on, and otherwise the first unit whose bound exceeds the time. */
  lemma {:induction false} CrackTimeIsFirstBoundExceeded(e: Entropy)
    ensures EstimateCrackTime(e).Rank() == Bucket(e.Keyspace(), CrackBounds())
    ensures EstimateCrackTime(e) == Instant <==> e.Keyspace() < ATTEMPTS_PER_SECOND
    ensures EstimateCrackTime(e) == AgeOfUniverse <==> e.Keyspace() >= YEAR * 1_000_000_000 * ATTEMPTS_PER_SECOND
  {
    BucketOfEight(e.Keyspace(), CrackBounds());
  }

  /** The crack-time unit never decreases as the entropy grows. */
  lemma CrackTimeMonotone(e1: Entropy, e2: Entropy)
    requires e1.Keyspace() <= e2.Keyspace()
    ensures EstimateCrackTime(e1).Rank() <= EstimateCrackTime(e2).Rank()
  {
    CrackTimeIsFirstBoundExceeded(e1);
    CrackTimeIsFirstBoundExceeded(e2);
    BucketMonotone(e1.Keyspace(), e2.Keyspace(), CrackBounds());
  }

  // ---------------------------------------------------------------------------
  // Properties of the entropy estimate.

  lemma {:induction false} PowAdd(b: nat, m: nat, n: nat)
    ensures Pow(b, m + n) == Pow(b, m) * Pow(b, n)
  {
    if n > 0 {
      PowAdd(b, m, n - 1);
      assert Pow(b, m + n) == b * Pow(b, m + n - 1);
    }
  }

  lemma {:induction false} PowMul(b: nat, m: nat, n: nat)
    ensures Pow(Pow(b, m), n) == Pow(b, m * n)
  {
    if n > 0 {
      PowMul(b, m, n - 1);
      PowAdd(b, m, m * (n - 1));
      assert m * n == m + m * (n - 1);
    }
  }

  lemma {:induction false} PowBaseMonotone(a: nat, b: nat, e: nat)
    requires a <= b
    ensures Pow(a, e) <= Pow(b, e)
    ensures a < b && e > 0 ==> Pow(a, e) < Pow(b, e)
  {
    if e > 0 {
      PowBaseMonotone(a, b, e - 1);
      PowPositive(b, e - 1);
      var x, y := Pow(a, e - 1), Pow(b, e - 1);
      MulMonotone(a, x, b, y);
    }
  }

  lemma MulMonotone(a: nat, x: nat, b: nat, y: nat)
    requires a <= b && x <= y
    ensures a * x <= b * y
    ensures a < b && y > 0 ==> a * x < b * y
  {
    assert a * x <= a * y;
    assert a * y <= b * y;
    if a < b && y > 0 {
      assert a * y < b * y;
    }
  }

  /** Every detected category adds its theoretical size: with all four present
      the charset has 26 + 26 + 10 + 24 = 86 characters, and no password can
      reach more. */
  lemma CharsetOfAllFour(pw: string)
    requires Has(pw, UPPERCASE) && Has(pw, LOWERCASE) && Has(pw, DIGITS) && Has(pw, SPECIAL)
    ensures CharsetSize(pw) == 86
  {
  }

  /** For a fixed composition the entropy, and so the tier, never decreases as
      the password gets longer. */
  lemma {:induction false} EntropyGrowsWithLength(p: string, q: string)
    requires CharsetSize(p) == CharsetSize(q)
    requires |p| <= |q|
    ensures CalculateEntropy(p).Keyspace() <= CalculateEntropy(q).Keyspace()
    ensures EvaluateStrength(CalculateEntropy(p)).Rank() <= EvaluateStrength(CalculateEntropy(q)).Rank()
  {
    var size := CharsetSize(p);
    if size > 0 && |p| < |q| {
      assert size >= 10;
      PowIncreasing(size, |p|, |q|);
    }
    TierMonotone(CalculateEntropy(p), CalculateEntropy(q));
  }

  /** Twelve characters covering all four categories: 12 * log2(86) is about 77.1
      bits, between 60 and 80, so the tier is Strong. */
  lemma TwelveMixedIsStrong(pw: string)
    requires |pw| == 12
    requires Has(pw, UPPERCASE) && Has(pw, LOWERCASE) && Has(pw, DIGITS) && Has(pw, SPECIAL)
    ensures EvaluateStrength(CalculateEntropy(pw)) == Strong
  {
    CharsetOfAllFour(pw);
    assert CalculateEntropy(pw).Keyspace() == Pow(86, 12);
    // 2^60 = 32^12 < 86^12
    PowMul(2, 5, 12);
    assert Pow(2, 5) == 32;
    PowBaseMonotone(32, 86, 12);
    // 86^12 = (86^3)^4 < (2^20)^4 = 2^80
    PowMul(86, 3, 4);
    assert Pow(86, 3) == 636056;
    PowMul(2, 20, 4);
    PowMul(2, 10, 2);
    assert Pow(2, 10) == 1024;
    assert Pow(1024, 2) == 1048576;
    PowBaseMonotone(636056, 1048576, 4);
  }

  /** Eight digits: 8 * log2(10) is about 26.6 bits, below 28, so the tier is
      Very Weak. */
  lemma EightDigitsIsVeryWeak(pw: string)
    requires |pw| == 8
    requires forall i :: 0 <= i < |pw| ==> pw[i] in DIGITS
    ensures EvaluateStrength(CalculateEntropy(pw)) == VeryWeak
  {
    assert pw[0] in DIGITS;
    forall i | 0 <= i < |pw|
      ensures pw[i] !in UPPERCASE && pw[i] !in LOWERCASE && pw[i] !in SPECIAL
    {
      CategoriesDisjoint(pw[i]);
    }
    assert CharsetSize(pw) == 10;
    assert CalculateEntropy(pw).Keyspace() == Pow(10, 8);
    assert Pow(10, 8) == 100000000;
    PowAdd(2, 10, 18);
    PowAdd(2, 10, 8);
    assert Pow(2, 10) == 1024;
    assert Pow(2, 8) == 256;
  }

  /** The two classifications agree at the extremes: a Very Weak password
      (below 2^28 candidates) is cracked instantly, and an Extremely Strong one
      (2^100 or more) takes longer than 10^9 years. */
  lemma TierAndCrackTimeAgree(e: Entropy)
    ensures EvaluateStrength(e) == VeryWeak ==> EstimateCrackTime(e) == Instant
    ensures EvaluateStrength(e) == ExtremelyStrong ==> EstimateCrackTime(e) == AgeOfUniverse
  {
    CrackTimeIsFirstBoundExceeded(e);
    PowersAgainstCrackBounds();
  }

  /** 2^28 is below 10^12, and 2^100 is at least 10^9 years at 10^12 guesses per second. */
  lemma PowersAgainstCrackBounds()
    ensures Pow(2, 28) < ATTEMPTS_PER_SECOND
    ensures Pow(2, 100) >= YEAR * 1_000_000_000 * ATTEMPTS_PER_SECOND
  {
    // 2^28 = (2^10)^2 * 2^8
    PowAdd(2, 20, 8);
    PowMul(2, 10, 2);
    assert Pow(2, 10) == 1024 && Pow(1024, 2) == 1048576 && Pow(2, 8) == 256;
    // 2^100 = 1024^10 >= 1000^10 = 10^30
    PowMul(2, 10, 10);
    PowBaseMonotone(1000, 1024, 10);
    PowMul(10, 3, 10);
    PowAdd(10, 15, 15);
    assert Pow(10, 3) == 1000;
    assert Pow(10, 15) == 1_000_000_000_000_000 by {
      PowAdd(10, 5, 10);
      assert Pow(10, 5) == 100000;
      assert Pow(10, 10) == 10_000_000_000;
    }
  }

  // ---------------------------------------------------------------------------
  // Analysis record.

  /** `analyzePassword` / `analyze_password`: the password, its length, entropy,
      strength tier, crack time and (as the Python variant adds) which
      categories it contains. */
  datatype Analysis = Analysis(password: string, length: nat, entropy: Entropy, tier: Tier,
                               crackTime: CrackTime, hasUppercase: bool, hasLowercase: bool,
                               hasDigits: bool, hasSpecial: bool)

  function AnalyzePassword(pw: string): (a: Analysis)
    ensures a.password == pw && a.length == |pw|
    ensures a.entropy == CalculateEntropy(pw)
    ensures a.hasUppercase <==> exists i :: 0 <= i < |pw| && pw[i] in UPPERCASE
    ensures a.hasLowercase <==> exists i :: 0 <= i < |pw| && pw[i] in LOWERCASE
    ensures a.hasDigits <==> exists i :: 0 <= i < |pw| && pw[i] in DIGITS
    ensures a.hasSpecial <==> exists i :: 0 <= i < |pw| && pw[i] in SPECIAL
    ensures a.entropy.charsetSize == (if a.hasUppercase then 26 else 0) + (if a.hasLowercase then 26 else 0)
                                     + (if a.hasDigits then 10 else 0) + (if a.hasSpecial then 24 else 0)
    ensures a.tier.Rank() == Bucket(a.entropy.Keyspace(), TierBounds())
    ensures a.crackTime.Rank() == Bucket(a.entropy.Keyspace(), CrackBounds())
    ensures a.tier == VeryWeak ==> a.crackTime == Instant
  {
    var e := CalculateEntropy(pw);
    TierIsFirstBoundExceeded(e);
    CrackTimeIsFirstBoundExceeded(e);
    TierAndCrackTimeAgree(e);
    Analysis(pw, |pw|, e, EvaluateStrength(e), EstimateCrackTime(e),
             Has(pw, UPPERCASE), Has(pw, LOWERCASE), Has(pw, DIGITS), Has(pw, SPECIAL))
  }
}

