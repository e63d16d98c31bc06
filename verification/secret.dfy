/**
 * The secret generator. The random source is an injected sequence of indices:
 * `draws[k]` stands for `Math.floor(Math.random() * n)` at step k, so it lies in
 * [0, n) where n is the number of choices at that step.
 */
module SecretCode {
  import opened Codes

  /** Each draw is a valid index into a pool that starts with `size` entries and loses one per step. */
  predicate PoolDraws(size: int, draws: seq<int>) {
    forall k :: 0 <= k < |draws| ==> 0 <= draws[k] < size - k
  }

  /** The oracle supplies one index per code position, in range for the branch the generator takes. */
  predicate DrawsOk(length: nat, repeats: bool, draws: seq<int>) {
    && |draws| == length
    && (repeats ==> forall k :: 0 <= k < |draws| ==> 0 <= draws[k] < 10)
    && (!repeats ==> PoolDraws(10, draws))
  }

  /** What removing entry i leaves of a sequence: every other entry, and nothing new. */
  lemma RemoveAt(pool: string, i: int)
    requires 0 <= i < |pool|
    ensures |pool[..i] + pool[i + 1..]| == |pool| - 1
    ensures forall c :: c in pool[..i] + pool[i + 1..] ==> c in pool
    ensures Distinct(pool) ==> Distinct(pool[..i] + pool[i + 1..]) && pool[i] !in pool[..i] + pool[i + 1..]
  {
  }

  /**
   * Drawing without replacement: each index picks an entry of the current pool,
   * which is then spliced out before the next draw.
   */
  function DrawFromPool(pool: string, draws: seq<int>): (code: string)
    requires PoolDraws(|pool|, draws)
    ensures |code| == |draws|
    ensures forall c :: c in code ==> c in pool
    ensures Distinct(pool) ==> Distinct(code)
    decreases |draws|
  {
    if draws == [] then ""
    else
      var i := draws[0];
      var rest := pool[..i] + pool[i + 1..];
      RemoveAt(pool, i);
      assert PoolDraws(|rest|, draws[1..]) by {
        forall k | 0 <= k < |draws[1..]| ensures 0 <= draws[1..][k] < |rest| - k {
          assert draws[1..][k] == draws[k + 1];
        }
      }
      [pool[i]] + DrawFromPool(rest, draws[1..])
  }

  /**
   * generateSecretCode: with repeats, one independent digit per draw; without,
   * digits drawn from the pool 0..9, each pick removed from the pool.
   */
  method GenerateSecretCode(length: nat, repeats: bool, draws: seq<int>) returns (code: string)
    requires DrawsOk(length, repeats, draws)
    ensures |code| == length && AllDigits(code)
    ensures repeats ==> forall k :: 0 <= k < length ==> code[k] == Digits[draws[k]]
    ensures !repeats ==> code == DrawFromPool(Digits, draws) && Distinct(code)
  {
    if repeats {
      code := "";
      for i := 0 to length
        invariant |code| == i
        invariant forall k :: 0 <= k < i ==> code[k] == Digits[draws[k]] && IsDigit(code[k])
      {
        code := code + [DigitChar(draws[i])];
      }
    } else {
      code := DrawDistinct(draws);
      DrawnFromDigits(draws);
    }
  }

  /**
   * The pool branch of the generator: each draw takes the character at the drawn index
   * out of the pool and appends it to the code.
   */
  method DrawDistinct(draws: seq<int>) returns (code: string)
    requires PoolDraws(|Digits|, draws)
    ensures code == DrawFromPool(Digits, draws)
  {
    code := "";
    var pool := Digits;
    for i := 0 to |draws|
      invariant PoolDraws(|pool|, draws[i..])
      invariant code + DrawFromPool(pool, draws[i..]) == DrawFromPool(Digits, draws)
    {
      var idx := draws[i];
      assert draws[i..][0] == idx && draws[i..][1..] == draws[i + 1..];
      DrawStep(pool, draws[i..]);
      ghost var tail := DrawFromPool(pool[..idx] + pool[idx + 1..], draws[i + 1..]);
      assert (code + [pool[idx]]) + tail == code + ([pool[idx]] + tail);
      code := code + [pool[idx]];
      pool := pool[..idx] + pool[idx + 1..];
    }
    assert draws[|draws|..] == [];
  }

  /** One draw: the drawn character leads, and the rest is drawn from what remains. */
  lemma DrawStep(pool: string, draws: seq<int>)
    requires |draws| > 0 && PoolDraws(|pool|, draws)
    ensures 0 <= draws[0] < |pool|
    ensures PoolDraws(|pool| - 1, draws[1..])
    ensures DrawFromPool(pool, draws)
      == [pool[draws[0]]] + DrawFromPool(pool[..draws[0]] + pool[draws[0] + 1..], draws[1..])
  {
  }

  /** A code drawn from the digit pool is all digits, and no digit appears twice. */
  lemma DrawnFromDigits(draws: seq<int>)
    requires PoolDraws(|Digits|, draws)
    ensures AllDigits(DrawFromPool(Digits, draws))
    ensures Distinct(DrawFromPool(Digits, draws))
  {
    var code := DrawFromPool(Digits, draws);
    DigitsDistinct();
    forall k | 0 <= k < |code| ensures IsDigit(code[k]) {
      assert code[k] in Digits;
      DigitsAreDigits(code[k]);
    }
  }
}
