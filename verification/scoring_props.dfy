/**
 * What the score means: the bounds the result display relies on, when a guess wins,
 * that no secret position is claimed twice, and the per-digit reading of the cow
 * count. Also the two worked examples of the scoring rule.
 */
module ScoringProperties {
  import opened Codes
  import opened Scoring

  /** Number of marked positions in a flag sequence. */
  function CountMarked(used: seq<bool>): (c: nat)
    ensures c <= |used|
  {
    if used == [] then 0
    else CountMarked(used[..|used| - 1]) + if used[|used| - 1] then 1 else 0
  }

  /** Marking one unmarked position adds exactly one to the count. */
  lemma {:induction false} MarkOne(used: seq<bool>, j: nat)
    requires j < |used| && !used[j]
    ensures CountMarked(used[j := true]) == CountMarked(used) + 1
  {
    var n := |used|;
    if j == n - 1 {
      assert used[j := true][..n - 1] == used[..n - 1];
    } else {
      assert used[j := true][..n - 1] == used[..n - 1][j := true];
      MarkOne(used[..n - 1], j);
    }
  }

  /** Pass one marks exactly as many positions as there are bulls. */
  lemma {:induction false} MarkedBullFlags(guess: string, secret: string, k: nat)
    requires k <= |secret|
    ensures CountMarked(BullFlags(guess, secret)[..k]) == BullsUpTo(guess, secret, k)
  {
    if k > 0 {
      var flags := BullFlags(guess, secret);
      assert flags[..k][..k - 1] == flags[..k - 1];
      MarkedBullFlags(guess, secret, k - 1);
    }
  }

  /**
   * Each secret position is claimed at most once: after pass two has handled the
   * first i guess positions, the marked secret positions number exactly the bulls
   * plus the cows counted so far, so every bull and every cow owns its own position.
   */
  lemma {:induction false} ClaimsAreDistinct(guess: string, secret: string, i: nat)
    requires i <= |secret|
    ensures CountMarked(UsedAfter(guess, secret, i)) == Bulls(guess, secret) + CowsAfter(guess, secret, i)
  {
    if i == 0 {
      MarkedBullFlags(guess, secret, |secret|);
      assert BullFlags(guess, secret)[..|secret|] == BullFlags(guess, secret);
    } else {
      ClaimsAreDistinct(guess, secret, i - 1);
      PassTwoStep(guess, secret, i - 1, i);
      var u := UsedAfter(guess, secret, i - 1);
      var j := FirstFree(guess, i - 1, secret, u, 0);
      if !IsBull(guess, secret, i - 1) && j != -1 {
        MarkOne(u, j);
      }
    }
  }

  /**
   * A score never exceeds the code length, so the count of wrong digits shown next to
   * a guess (length minus bulls minus cows) is never negative.
   */
  lemma ScoreBounds(guess: string, secret: string)
    ensures Bulls(guess, secret) + Cows(guess, secret) <= |secret|
  {
    ClaimsAreDistinct(guess, secret, |secret|);
    GreedyCountsByFrequency(guess, secret);
  }

  /** The first k positions are all bulls exactly when k bulls were counted there. */
  lemma {:induction false} AllBullsUpTo(guess: string, secret: string, k: nat)
    requires k <= |secret|
    ensures BullsUpTo(guess, secret, k) <= k
    ensures BullsUpTo(guess, secret, k) == k <==> forall j :: 0 <= j < k ==> IsBull(guess, secret, j)
  {
    if k > 0 {
      AllBullsUpTo(guess, secret, k - 1);
    }
  }

  /** A guess of the code's length wins (all bulls) exactly when it equals the code. */
  lemma WinIffEqual(guess: string, secret: string)
    requires |guess| == |secret|
    ensures Bulls(guess, secret) == |secret| <==> guess == secret
  {
    AllBullsUpTo(guess, secret, |secret|);
    if Bulls(guess, secret) == |secret| {
      forall j | 0 <= j < |secret|
        ensures guess[j] == secret[j]
      {
        assert IsBull(guess, secret, j);
      }
    }
  }

  /** The sum, over the digits in ds, of the smaller of each digit's two counts. */
  function SumOfMins(a: multiset<char>, b: multiset<char>, ds: string): nat {
    if ds == [] then 0
    else (if a[ds[0]] <= b[ds[0]] then a[ds[0]] else b[ds[0]]) + SumOfMins(a, b, ds[1..])
  }

  /** The counts, over the distinct characters ds, of a multiset drawn from ds. */
  function CountOver(m: multiset<char>, ds: string): nat {
    if ds == [] then 0 else m[ds[0]] + CountOver(m, ds[1..])
  }

  /** Adding one occurrence of a character of ds adds one to the count over ds. */
  lemma {:induction false} CountOverAdd(m: multiset<char>, x: char, ds: string)
    requires Distinct(ds)
    ensures CountOver(m + multiset{x}, ds) == CountOver(m, ds) + if x in ds then 1 else 0
  {
    if ds != [] {
      assert Distinct(ds[1..]);
      assert x in ds <==> x == ds[0] || x in ds[1..];
      assert ds[0] !in ds[1..];
      CountOverAdd(m, x, ds[1..]);
    }
  }

  /** Counting a multiset over distinct characters that cover it gives its size. */
  lemma {:induction false} CountOverSize(m: multiset<char>, ds: string)
    requires Distinct(ds)
    requires forall x :: x in m ==> x in ds
    ensures CountOver(m, ds) == |m|
    decreases |m|
  {
    if m == multiset{} {
      EmptyCount(ds);
    } else {
      var x :| x in m;
      var rest := m - multiset{x};
      assert m == rest + multiset{x};
      CountOverSize(rest, ds);
      CountOverAdd(rest, x, ds);
    }
  }

  /** The empty multiset counts zero over any characters. */
  lemma {:induction false} EmptyCount(ds: string)
    ensures CountOver(multiset{}, ds) == 0
  {
    if ds != [] {
      EmptyCount(ds[1..]);
    }
  }

  /** Counting the intersection over ds is summing the per-character minimums. */
  lemma {:induction false} CountOverIntersection(a: multiset<char>, b: multiset<char>, ds: string)
    ensures CountOver(a * b, ds) == SumOfMins(a, b, ds)
  {
    if ds != [] {
      CountOverIntersection(a, b, ds[1..]);
    }
  }

  /** The guess digits left after the bulls come from the guess. */
  lemma {:induction false} GuessLeftFrom(guess: string, secret: string, k: nat)
    requires k <= |secret|
    ensures forall x :: x in GuessLeftUpTo(guess, secret, k) ==> x in guess
  {
    if k > 0 {
      GuessLeftFrom(guess, secret, k - 1);
    }
  }

  /**
   * For digit strings, the cow count is the sum over the ten digits of the smaller of
   * the digit's two counts among the positions that are not bulls.
   */
  lemma CowsPerDigit(guess: string, secret: string)
    requires AllDigits(guess)
    ensures Cows(guess, secret) == SumOfMins(GuessLeft(guess, secret), SecretLeft(guess, secret), Digits)
  {
    var both := GuessLeft(guess, secret) * SecretLeft(guess, secret);
    GuessLeftFrom(guess, secret, |secret|);
    forall x | x in both
      ensures x in Digits
    {
      var k :| 0 <= k < |guess| && guess[k] == x;
      DigitsAreDigits(x);
    }
    DigitsDistinct();
    CountOverSize(both, Digits);
    CountOverIntersection(GuessLeft(guess, secret), SecretLeft(guess, secret), Digits);
  }

  /** Secret 1234, guess 1243: the 1 and 2 are bulls, the 4 and 3 are cows. */
  lemma SwappedPairExample()
    ensures Bulls("1243", "1234") == 2 && Cows("1243", "1234") == 2
  {
    var g, s := "1243", "1234";
    SwappedPairLeft(g, s);
    assert GuessLeft(g, s) * SecretLeft(g, s) == multiset{'3', '4'};
  }

  /** The positions of secret 1234 and guess 1243 that are not bulls. */
  lemma SwappedPairLeft(g: string, s: string)
    requires g == "1243" && s == "1234"
    ensures Bulls(g, s) == 2
    ensures GuessLeft(g, s) == multiset{'4', '3'}
    ensures SecretLeft(g, s) == multiset{'3', '4'}
  {
    assert IsBull(g, s, 0) && IsBull(g, s, 1) && !IsBull(g, s, 2) && !IsBull(g, s, 3);
    assert BullsUpTo(g, s, 1) == 1 && BullsUpTo(g, s, 2) == 2 && BullsUpTo(g, s, 3) == 2;
    assert GuessLeftUpTo(g, s, 1) == multiset{} && SecretLeftUpTo(g, s, 1) == multiset{};
    assert GuessLeftUpTo(g, s, 2) == multiset{} && SecretLeftUpTo(g, s, 2) == multiset{};
    assert GuessLeftUpTo(g, s, 3) == multiset{'4'} && SecretLeftUpTo(g, s, 3) == multiset{'3'};
  }

  /**
   * Secret 1123, guess 1111: the two leading 1s are bulls, and the other 1s of the
   * guess find no free 1 in the secret, so there are no cows.
   */
  lemma RepeatedDigitExample()
    ensures Bulls("1111", "1123") == 2 && Cows("1111", "1123") == 0
  {
    var g, s := "1111", "1123";
    RepeatedDigitLeft(g, s);
    assert GuessLeft(g, s) * SecretLeft(g, s) == multiset{};
  }

  /** The positions of secret 1123 and guess 1111 that are not bulls. */
  lemma RepeatedDigitLeft(g: string, s: string)
    requires g == "1111" && s == "1123"
    ensures Bulls(g, s) == 2
    ensures GuessLeft(g, s) == multiset{'1', '1'}
    ensures SecretLeft(g, s) == multiset{'2', '3'}
  {
    assert IsBull(g, s, 0) && IsBull(g, s, 1) && !IsBull(g, s, 2) && !IsBull(g, s, 3);
    assert BullsUpTo(g, s, 1) == 1 && BullsUpTo(g, s, 2) == 2 && BullsUpTo(g, s, 3) == 2;
    assert GuessLeftUpTo(g, s, 1) == multiset{} && SecretLeftUpTo(g, s, 1) == multiset{};
    assert GuessLeftUpTo(g, s, 2) == multiset{} && SecretLeftUpTo(g, s, 2) == multiset{};
    assert GuessLeftUpTo(g, s, 3) == multiset{'1'} && SecretLeftUpTo(g, s, 3) == multiset{'2'};
  }
}
