/** The platforms' cryptographically secure random sources, reduced to the
    contracts the generators rely on: an index drawn from a range, a character
    drawn from a non-empty string, and a permutation. Which value is drawn is
    left open (the bodies choose an arbitrary admissible value), so everything
    proved about a caller holds for every outcome of the random source. */
module SecureRandom {

  /** `crypto.randomInt(0, n)`: an index in `[0, n)`. */
  method RandomIndex(n: nat) returns (r: nat)
    requires n > 0
    ensures r < n
  {
    r :| r < n;
  }

  /** `secrets.choice(s)` / `s.randomElement()!`: one character of a non-empty string. */
  method RandomChoice(s: string) returns (c: char)
    requires s != []
    ensures c in s
  {
    var i := RandomIndex(|s|);
    c := s[i];
  }

  /** `random.SystemRandom().shuffle(xs)` / `xs.shuffle()`: the library shuffle of a
      list, which rearranges it into some permutation of itself. */
  method Shuffle(xs: seq<char>) returns (r: seq<char>)
    ensures multiset(r) == multiset(xs)
  {
    r :| multiset(r) == multiset(xs);
  }
}
