/**
 * The scoring engine. A bull is a secret position whose digit the guess has at the
 * same position. A cow pairs a guess digit that is not a bull with a secret position
 * that is neither a bull nor already paired, so no secret position is counted twice.
 *
 * The reference definition counts cows by frequency: the digits left over on each
 * side once the bulls are removed, intersected as multisets (for every digit, the
 * smaller of its two counts). The method below follows the two-pass algorithm with
 * its "used" flags and is proved to agree with that definition.
 */
module Scoring {
  import opened Codes

  /**
   * Secret position i is a bull. A guess shorter than the secret has nothing at i,
   * and nothing matches no digit.
   */
  predicate IsBull(guess: string, secret: string, i: nat)
    requires i < |secret|
  {
    Matches(guess, i, secret, i)
  }

  /** Bulls among the first k secret positions. */
  function BullsUpTo(guess: string, secret: string, k: nat): nat
    requires k <= |secret|
  {
    if k == 0 then 0
    else BullsUpTo(guess, secret, k - 1) + if IsBull(guess, secret, k - 1) then 1 else 0
  }

  /** Guess digits at the first k positions that are not bulls. */
  function GuessLeftUpTo(guess: string, secret: string, k: nat): multiset<char>
    requires k <= |secret|
  {
    if k == 0 then multiset{}
    else
      GuessLeftUpTo(guess, secret, k - 1)
      + if k - 1 < |guess| && !IsBull(guess, secret, k - 1) then multiset{guess[k - 1]} else multiset{}
  }

  /** Secret digits at the first k positions that are not bulls. */
  function SecretLeftUpTo(guess: string, secret: string, k: nat): multiset<char>
    requires k <= |secret|
  {
    if k == 0 then multiset{}
    else
      SecretLeftUpTo(guess, secret, k - 1)
      + if !IsBull(guess, secret, k - 1) then multiset{secret[k - 1]} else multiset{}
  }

  function Bulls(guess: string, secret: string): nat {
    BullsUpTo(guess, secret, |secret|)
  }

  function GuessLeft(guess: string, secret: string): multiset<char> {
    GuessLeftUpTo(guess, secret, |secret|)
  }

  function SecretLeft(guess: string, secret: string): multiset<char> {
    SecretLeftUpTo(guess, secret, |secret|)
  }

  /** Cows by frequency: digits left on both sides, each counted min(in guess, in secret) times. */
  function Cows(guess: string, secret: string): nat {
    |GuessLeft(guess, secret) * SecretLeft(guess, secret)|
  }

  /** Secret digits at the first k positions whose "used" flag is still clear. */
  function FreeUpTo(secret: string, used: seq<bool>, k: nat): multiset<char>
    requires |used| == |secret| && k <= |secret|
  {
    if k == 0 then multiset{}
    else FreeUpTo(secret, used, k - 1) + if used[k - 1] then multiset{} else multiset{secret[k - 1]}
  }

  // ---------------------------------------------------------------------------
  // The greedy pairing, as functions: which secret positions pass two marks, and
  // how many cows it counts, after handling the first i guess positions.

  /** Guess position i and secret position j hold the same digit. */
  predicate Matches(guess: string, i: nat, secret: string, j: nat)
    requires j < |secret|
  {
    i < |guess| && guess[i] == secret[j]
  }

  /** The flags after pass one: exactly the bull positions are marked. */
  function BullFlags(guess: string, secret: string): (used: seq<bool>)
    ensures |used| == |secret|
    ensures forall k :: 0 <= k < |secret| ==> used[k] == IsBull(guess, secret, k)
  {
    seq(|secret|, k requires 0 <= k < |secret| => IsBull(guess, secret, k))
  }

  /**
   * The lowest secret position at or after `from` that is unmarked and holds the digit
   * of guess position i, or -1 when there is none.
   */
  function FirstFree(guess: string, i: nat, secret: string, used: seq<bool>, from: nat): (j: int)
    requires |used| == |secret| && from <= |secret|
    ensures j == -1 || (from <= j < |secret| && !used[j] && Matches(guess, i, secret, j))
    ensures forall k :: from <= k < |secret| && (j == -1 || k < j) ==> used[k] || !Matches(guess, i, secret, k)
    decreases |secret| - from
  {
    if from == |secret| then -1
    else if !used[from] && Matches(guess, i, secret, from) then from
    else FirstFree(guess, i, secret, used, from + 1)
  }

  /** The secret flags after pass two has handled guess positions 0..i-1. */
  function UsedAfter(guess: string, secret: string, i: nat): (used: seq<bool>)
    requires i <= |secret|
    ensures |used| == |secret|
  {
    if i == 0 then BullFlags(guess, secret)
    else
      var u := UsedAfter(guess, secret, i - 1);
      var j := FirstFree(guess, i - 1, secret, u, 0);
      if IsBull(guess, secret, i - 1) || j == -1 then u else u[j := true]
  }

  /** The cows pass two has counted after handling guess positions 0..i-1. */
  function CowsAfter(guess: string, secret: string, i: nat): nat
    requires i <= |secret|
  {
    if i == 0 then 0
    else
      var j := FirstFree(guess, i - 1, secret, UsedAfter(guess, secret, i - 1), 0);
      CowsAfter(guess, secret, i - 1) + if IsBull(guess, secret, i - 1) || j == -1 then 0 else 1
  }

  /** One step of the greedy pairing, unfolded: guess position i, then position i + 1. */
  lemma PassTwoStep(guess: string, secret: string, i: nat, next: nat)
    requires i < |secret| && next == i + 1
    ensures var u, j := UsedAfter(guess, secret, i), FirstFree(guess, i, secret, UsedAfter(guess, secret, i), 0);
      && UsedAfter(guess, secret, next) == (if IsBull(guess, secret, i) || j == -1 then u else u[j := true])
      && CowsAfter(guess, secret, next) == CowsAfter(guess, secret, i) + (if IsBull(guess, secret, i) || j == -1 then 0 else 1)
  {
  }

  // ---------------------------------------------------------------------------
  // The algorithm.

  /**
   * calculateBullsAndCows. Pass one marks every bull in both flag arrays. Pass two
   * takes each unmarked guess position in turn and claims the first unmarked secret
   * position, in ascending order, holding the same digit.
   */
  method CalculateBullsAndCows(guess: string, secret: string) returns (bulls: nat, cows: nat)
    ensures bulls == Bulls(guess, secret)
    ensures cows == Cows(guess, secret)
  {
    var secretUsed := new bool[|secret|](_ => false);
    var guessUsed := new bool[|secret|](_ => false);
    bulls := MarkBulls(guess, secret, secretUsed, guessUsed);
    cows := MarkCows(guess, secret, secretUsed, guessUsed);
  }

  /** Pass one: counts the bulls and flags their positions in both arrays. */
  method MarkBulls(guess: string, secret: string, secretUsed: array<bool>, guessUsed: array<bool>)
    returns (bulls: nat)
    requires secretUsed != guessUsed
    requires secretUsed.Length == guessUsed.Length == |secret|
    requires forall k :: 0 <= k < |secret| ==> !secretUsed[k] && !guessUsed[k]
    modifies secretUsed, guessUsed
    ensures bulls == Bulls(guess, secret)
    ensures secretUsed[..] == BullFlags(guess, secret)
    ensures guessUsed[..] == BullFlags(guess, secret)
  {
    bulls := 0;
    var i := 0;
    while i < |secret|
      invariant 0 <= i <= |secret|
      invariant bulls == BullsUpTo(guess, secret, i)
      invariant forall k :: 0 <= k < i ==> secretUsed[k] == IsBull(guess, secret, k) && guessUsed[k] == IsBull(guess, secret, k)
      invariant forall k :: i <= k < |secret| ==> !secretUsed[k] && !guessUsed[k]
    {
      if i < |guess| && guess[i] == secret[i] {
        bulls := bulls + 1;
        secretUsed[i] := true;
        guessUsed[i] := true;
      }
      i := i + 1;
    }
  }

  /**
   * Pass two: every guess position that is not a bull claims the first free secret
   * position holding its digit, and each claim is a cow.
   */
  method MarkCows(guess: string, secret: string, secretUsed: array<bool>, guessUsed: array<bool>)
    returns (cows: nat)
    requires secretUsed != guessUsed
    requires secretUsed.Length == guessUsed.Length == |secret|
    requires secretUsed[..] == BullFlags(guess, secret)
    requires guessUsed[..] == BullFlags(guess, secret)
    modifies secretUsed
    ensures cows == Cows(guess, secret)
  {
    cows := 0;
    var i := 0;
    while i < |secret|
      invariant 0 <= i <= |secret|
      invariant guessUsed[..] == BullFlags(guess, secret)
      invariant secretUsed[..] == UsedAfter(guess, secret, i)
      invariant cows == CowsAfter(guess, secret, i)
    {
      PassTwoStep(guess, secret, i, i + 1);
      if !guessUsed[i] {
        assert !IsBull(guess, secret, i);
        var claimed := ClaimFirstMatch(guess, i, secret, secretUsed);
        if claimed != -1 {
          cows := cows + 1;
        }
      } else {
        assert IsBull(guess, secret, i);
      }
      i := i + 1;
    }
    GreedyCountsByFrequency(guess, secret);
  }

  /**
   * The inner scan of pass two: the first secret position, in ascending order, that is
   * unmarked and holds guess[i] is marked and returned; -1 when there is none.
   */
  method ClaimFirstMatch(guess: string, i: nat, secret: string, secretUsed: array<bool>) returns (claimed: int)
    requires secretUsed.Length == |secret|
    modifies secretUsed
    ensures claimed == FirstFree(guess, i, secret, old(secretUsed[..]), 0)
    ensures claimed == -1 ==> secretUsed[..] == old(secretUsed[..])
    ensures claimed != -1 ==> secretUsed[..] == old(secretUsed[..])[claimed := true]
  {
    ghost var used := secretUsed[..];
    var j := 0;
    while j < secretUsed.Length
      invariant 0 <= j <= secretUsed.Length
      invariant secretUsed[..] == used
      invariant FirstFree(guess, i, secret, used, j) == FirstFree(guess, i, secret, used, 0)
    {
      if !secretUsed[j] && i < |guess| && guess[i] == secret[j] {
        secretUsed[j] := true;
        return j;
      }
      j := j + 1;
    }
    return -1;
  }

  // ---------------------------------------------------------------------------
  // Lemmas the algorithm's proof uses.

  /** After pass one the free secret digits are exactly those not taken by bulls. */
  lemma {:induction false} FreeOfBullFlags(guess: string, secret: string, used: seq<bool>, k: nat)
    requires |used| == |secret| && k <= |secret|
    requires forall j :: 0 <= j < k ==> used[j] == IsBull(guess, secret, j)
    ensures FreeUpTo(secret, used, k) == SecretLeftUpTo(guess, secret, k)
  {
    if k > 0 {
      FreeOfBullFlags(guess, secret, used, k - 1);
    }
  }

  /** Flags that agree on the first k positions free the same digits there. */
  lemma {:induction false} FreeSamePrefix(secret: string, u: seq<bool>, v: seq<bool>, k: nat)
    requires |u| == |secret| && |v| == |secret| && k <= |secret|
    requires forall j :: 0 <= j < k ==> u[j] == v[j]
    ensures FreeUpTo(secret, u, k) == FreeUpTo(secret, v, k)
  {
    if k > 0 {
      FreeSamePrefix(secret, u, v, k - 1);
    }
  }

  /** Claiming a free position j removes exactly one copy of its digit from the free digits. */
  lemma {:induction false} FreeClaim(secret: string, used: seq<bool>, j: nat, k: nat)
    requires |used| == |secret| && j < k <= |secret| && !used[j]
    ensures FreeUpTo(secret, used[j := true], k) + multiset{secret[j]} == FreeUpTo(secret, used, k)
  {
    if k - 1 == j {
      FreeSamePrefix(secret, used, used[j := true], j);
    } else {
      FreeClaim(secret, used, j, k - 1);
    }
  }

  /** A digit that no free position holds is not among the free digits. */
  lemma {:induction false} FreeWithout(secret: string, used: seq<bool>, x: char, k: nat)
    requires |used| == |secret| && k <= |secret|
    requires forall j :: 0 <= j < k ==> used[j] || secret[j] != x
    ensures x !in FreeUpTo(secret, used, k)
  {
    if k > 0 {
      FreeWithout(secret, used, x, k - 1);
    }
  }

  /**
   * The greedy pairing counts cows by frequency: once every guess position is handled,
   * the cows counted are the size of the intersection of the non-bull digits.
   */
  lemma GreedyCountsByFrequency(guess: string, secret: string)
    ensures CowsAfter(guess, secret, |secret|) == Cows(guess, secret)
  {
    GreedyInvariant(guess, secret, |secret|);
  }

  /**
   * After i guess positions the unmarked secret digits are the non-bull secret digits
   * minus the non-bull guess digits seen, and the cows counted are the size of their
   * intersection.
   */
  lemma {:induction false} GreedyInvariant(guess: string, secret: string, i: nat)
    requires i <= |secret|
    ensures CowsSoFar(guess, secret, UsedAfter(guess, secret, i), i, CowsAfter(guess, secret, i))
  {
    if i == 0 {
      CowsAtStart(guess, secret, BullFlags(guess, secret));
    } else {
      GreedyInvariant(guess, secret, i - 1);
      GreedyStep(guess, secret, i - 1, i);
    }
  }

  /** One guess position of pass two keeps the invariant of GreedyInvariant. */
  lemma GreedyStep(guess: string, secret: string, i: nat, next: nat)
    requires i < |secret| && next == i + 1
    requires CowsSoFar(guess, secret, UsedAfter(guess, secret, i), i, CowsAfter(guess, secret, i))
    ensures CowsSoFar(guess, secret, UsedAfter(guess, secret, next), next, CowsAfter(guess, secret, next))
  {
    PassTwoStep(guess, secret, i, next);
    var u := UsedAfter(guess, secret, i);
    var c := CowsAfter(guess, secret, i);
    var j := FirstFree(guess, i, secret, u, 0);
    if IsBull(guess, secret, i) {
      BullSkipped(guess, secret, i, next, u, c);
    } else if j == -1 {
      CowMissed(guess, secret, i, next, u, c);
    } else {
      CowClaimed(guess, secret, i, next, u, j, c);
    }
  }

  /**
   * What pass two knows after the first i guess positions: the free secret digits are
   * those left after bulls minus the guess digits seen so far, and cows counts how
   * many of those guess digits found a partner.
   */
  ghost predicate CowsSoFar(guess: string, secret: string, used: seq<bool>, i: nat, cows: nat)
    requires |used| == |secret| && i <= |secret|
  {
    && FreeUpTo(secret, used, |secret|) == SecretLeft(guess, secret) - GuessLeftUpTo(guess, secret, i)
    && cows == |GuessLeftUpTo(guess, secret, i) * SecretLeft(guess, secret)|
  }

  lemma CowsAtStart(guess: string, secret: string, used: seq<bool>)
    requires |used| == |secret|
    requires forall j :: 0 <= j < |secret| ==> used[j] == IsBull(guess, secret, j)
    ensures CowsSoFar(guess, secret, used, 0, 0)
  {
    FreeOfBullFlags(guess, secret, used, |secret|);
    var left := SecretLeft(guess, secret);
    assert left - multiset{} == left;
    assert multiset{} * left == multiset{};
  }

  /** A bull position of the guess adds nothing to the guess digits left over. */
  lemma BullSkipped(guess: string, secret: string, i: nat, next: nat, used: seq<bool>, cows: nat)
    requires i < |secret| && next == i + 1 && |used| == |secret| && IsBull(guess, secret, i)
    requires CowsSoFar(guess, secret, used, i, cows)
    ensures CowsSoFar(guess, secret, used, next, cows)
  {
    assert GuessLeftUpTo(guess, secret, i + 1) == GuessLeftUpTo(guess, secret, i) + multiset{};
  }

  /** Pass two at a guess position that finds no free secret position with its digit. */
  lemma CowMissed(guess: string, secret: string, i: nat, next: nat, used: seq<bool>, cows: nat)
    requires i < |secret| && next == i + 1 && |used| == |secret| && !IsBull(guess, secret, i)
    requires forall k :: 0 <= k < |secret| ==> used[k] || !(i < |guess| && guess[i] == secret[k])
    requires CowsSoFar(guess, secret, used, i, cows)
    ensures CowsSoFar(guess, secret, used, next, cows)
  {
    var p, left := GuessLeftUpTo(guess, secret, i), SecretLeft(guess, secret);
    if i < |guess| {
      assert GuessLeftUpTo(guess, secret, i + 1) == p + multiset{guess[i]};
      FreeWithout(secret, used, guess[i], |secret|);
      CowStepMissed(p, left, guess[i]);
    } else {
      assert GuessLeftUpTo(guess, secret, i + 1) == p + multiset{};
    }
  }

  /** Pass two at a guess position that claims free secret position j. */
  lemma CowClaimed(guess: string, secret: string, i: nat, next: nat, used: seq<bool>, j: nat, cows: nat)
    requires i < |secret| && next == i + 1 && |used| == |secret| && !IsBull(guess, secret, i)
    requires j < |secret| && !used[j] && i < |guess| && guess[i] == secret[j]
    requires CowsSoFar(guess, secret, used, i, cows)
    ensures CowsSoFar(guess, secret, used[j := true], next, cows + 1)
  {
    var p, left := GuessLeftUpTo(guess, secret, i), SecretLeft(guess, secret);
    assert GuessLeftUpTo(guess, secret, i + 1) == p + multiset{guess[i]};
    FreeClaim(secret, used, j, |secret|);
    CowStepClaimed(p, left, guess[i], FreeUpTo(secret, used[j := true], |secret|));
  }

  /** A guess digit with no free match leaves both the free digits and the cow count as they were. */
  lemma CowStepMissed(p: multiset<char>, left: multiset<char>, x: char)
    requires x !in left - p
    ensures left - (p + multiset{x}) == left - p
    ensures (p + multiset{x}) * left == p * left
  {
  }

  /** A guess digit that claims a free match removes it and adds one cow. */
  lemma CowStepClaimed(p: multiset<char>, left: multiset<char>, x: char, free: multiset<char>)
    requires free + multiset{x} == left - p
    ensures free == left - (p + multiset{x})
    ensures |(p + multiset{x}) * left| == |p * left| + 1
  {
    forall c ensures free[c] == (left - (p + multiset{x}))[c] {
      assert free[c] + (if c == x then 1 else 0) == (left - p)[c];
    }
    assert (p + multiset{x}) * left == p * left + multiset{x};
  }
}
