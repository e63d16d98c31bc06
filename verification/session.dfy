/**
 * The game session: the configuration (code length, difficulty, repeats, attempt and
 * hint budgets) and the state of the current round (secret code, attempts left, hints
 * used, whether a round is in play, and the scored guesses so far). initGame starts a
 * round, submitGuess validates and scores a guess, useHint reveals one digit, and
 * endGame closes the round.
 */
module Game {
  import opened Codes
  import opened Balance
  import opened Scoring
  import opened SecretCode
  import opened ScoringProperties

  /** One line of the guess history: the guess and its score. */
  datatype GuessRecord = GuessRecord(guess: string, bulls: nat, cows: nat)

  /** What a scored guess leads to. */
  datatype Outcome = Continue | Won | Lost

  /** The answer to a submitted guess. */
  datatype SubmitResult =
    | Ignored                                          // no round in play
    | WrongLength                                      // "Enter <length> digits"
    | NotDigits                                        // "Numbers only"
    | Scored(record: GuessRecord, outcome: Outcome)

  /** A revealed digit: the code holds `digit` at `position` (counted from 0). */
  datatype Hint = Hint(position: nat, digit: char)

  datatype Option<T> = None | Some(value: T)

  /** What the result screen shows when a round ends. */
  datatype Summary = Summary(code: string, guessesMade: int, hintsUsed: nat, won: bool)

  /** A guess passes the digit check: one or more characters, each 0-9. */
  predicate IsNumeric(s: string) {
    |s| > 0 && AllDigits(s)
  }

  /** A history line holds a valid guess and its score against the code. */
  predicate ScoredAgainst(r: GuessRecord, code: string) {
    |r.guess| == |code| && IsNumeric(r.guess)
    && r.bulls == Bulls(r.guess, code) && r.cows == Cows(r.guess, code)
  }

  /**
   * A history of a round: every line is scored against the code, and only the last
   * line can be a win.
   */
  predicate HistoryScored(history: seq<GuessRecord>, code: string) {
    && (forall k :: 0 <= k < |history| ==> ScoredAgainst(history[k], code))
    && (|history| > 0 ==> NoWin(history[..|history| - 1], code))
  }

  /** No line of the history is a win. */
  predicate NoWin(history: seq<GuessRecord>, code: string) {
    forall k :: 0 <= k < |history| ==> history[k].bulls < |code|
  }

  /**
   * Adding a scored line to a history without a win keeps it a history of the round,
   * and the result is still without a win exactly when the new line is not one.
   */
  lemma AppendRecord(history: seq<GuessRecord>, record: GuessRecord, code: string)
    requires HistoryScored(history, code) && NoWin(history, code)
    requires ScoredAgainst(record, code)
    ensures HistoryScored(history + [record], code)
    ensures NoWin(history + [record], code) <==> record.bulls != |code|
  {
    ScoreBounds(record.guess, code);
    var h := history + [record];
    assert forall k :: 0 <= k < |history| ==> h[k] == history[k];
    assert h[|history|] == record;
  }

  /** The red "wrong" count shown beside a history line. */
  function WrongDigits(length: nat, r: GuessRecord): int {
    length - (r.bulls + r.cows)
  }

  class Session {
    // Configuration.
    const length: nat
    const difficulty: Difficulty
    const repeats: bool
    const maxHints: nat
    var maxAttempts: int

    // State.
    var code: string
    var attempts: int
    var hintsUsed: nat
    var gameActive: bool
    var history: seq<GuessRecord>

    /**
     * The session invariant. Before the first round the code is empty and nothing is in
     * play. Once a round has started: the code fits the configuration, every attempt
     * spent is one line of history, every line is a scored valid guess, and only the
     * last line can be a win. A round in play has attempts left and no win yet.
     */
    ghost predicate Valid()
      reads this
    {
      && Consistent()
      && (gameActive ==> attempts > 0 && NoWin(history, code))
    }

    /** Everything in Valid() except what a round in play needs. */
    ghost predicate Consistent()
      reads this
    {
      && SupportedLength(length)
      && hintsUsed <= maxHints
      && (code == "" ==> !gameActive && attempts == 0 && history == [])
      && (code != "" ==>
        && |code| == length && AllDigits(code) && (!repeats ==> Distinct(code))
        && maxAttempts == MaxAttempts(length, difficulty, repeats)
        && 0 <= attempts <= maxAttempts
        && attempts + |history| == maxAttempts
        && HistoryScored(history, code))
    }

    /** The configuration and state literals a page load starts from. */
    constructor(length: nat, difficulty: Difficulty, repeats: bool)
      requires SupportedLength(length)
      ensures this.length == length && this.difficulty == difficulty && this.repeats == repeats
      ensures maxAttempts == 8 && maxHints == 3
      ensures code == "" && attempts == 0 && hintsUsed == 0 && !gameActive && history == []
      ensures Valid()
    {
      this.length := length;
      this.difficulty := difficulty;
      this.repeats := repeats;
      maxAttempts := 8;
      maxHints := 3;
      code := "";
      attempts := 0;
      hintsUsed := 0;
      gameActive := false;
      history := [];
    }

    /**
     * initGame: fixes the attempt budget from the balance table, refills attempts,
     * clears hints and history, and draws a new code. `draws` stands for the random
     * indices the generator picks.
     */
    method InitGame(draws: seq<int>)
      requires Valid()
      requires DrawsOk(length, repeats, draws)
      modifies this
      ensures Valid()
      ensures maxAttempts == MaxAttempts(length, difficulty, repeats)
      ensures attempts == maxAttempts && hintsUsed == 0 && gameActive && history == []
      ensures |code| == length && AllDigits(code)
      ensures repeats ==> forall k :: 0 <= k < length ==> code[k] == Digits[draws[k]]
      ensures !repeats ==> code == DrawFromPool(Digits, draws) && Distinct(code)
    {
      maxAttempts := MaxAttempts(length, difficulty, repeats);
      attempts := maxAttempts;
      hintsUsed := 0;
      gameActive := true;
      code := GenerateSecretCode(length, repeats, draws);
      history := [];
    }

    /**
     * submitGuess: ignored when no round is in play; rejected without cost when the
     * guess has the wrong length or is not all digits. Otherwise the guess is scored,
     * one attempt is spent, the line is added to the history, and the round is won when
     * every position is a bull, else lost when no attempt is left.
     */
    method SubmitGuess(guess: string) returns (result: SubmitResult)
      requires Valid()
      modifies this`attempts, this`gameActive, this`history
      ensures Valid()
      ensures !old(gameActive) ==> result == Ignored
      ensures old(gameActive) && |guess| != length ==> result == WrongLength
      ensures old(gameActive) && |guess| == length && !IsNumeric(guess) ==> result == NotDigits
      ensures !result.Scored? ==> attempts == old(attempts) && gameActive == old(gameActive) && history == old(history)
      ensures old(gameActive) && |guess| == length && IsNumeric(guess) ==>
        var record := GuessRecord(guess, Bulls(guess, code), Cows(guess, code));
        && attempts == old(attempts) - 1
        && history == old(history) + [record]
        && result == Scored(record, if record.bulls == length then Won else if attempts <= 0 then Lost else Continue)
        && gameActive == (result.outcome == Continue)
    {
      if !gameActive {
        return Ignored;
      }
      if |guess| != length {
        return WrongLength;
      }
      if !IsNumeric(guess) {
        return NotDigits;
      }
      var bulls, cows := CalculateBullsAndCows(guess, code);
      attempts := attempts - 1;
      var record := GuessRecord(guess, bulls, cows);
      AppendRecord(history, record, code);
      history := history + [record];
      if bulls == length {
        var _ := EndGame(true);
        result := Scored(record, Won);
      } else if attempts <= 0 {
        var _ := EndGame(false);
        result := Scored(record, Lost);
      } else {
        result := Scored(record, Continue);
      }
    }

    /**
     * useHint: nothing happens when no round is in play or every hint is spent.
     * Otherwise the digit at position `idx` is revealed and one hint is spent. `idx`
     * stands for the random position the page picks, in 0 .. length - 1.
     */
    method UseHint(idx: int) returns (hint: Option<Hint>)
      requires Valid()
      requires 0 <= idx < length
      modifies this`hintsUsed
      ensures Valid()
      ensures !old(gameActive) || old(hintsUsed) >= maxHints ==> hint == None && hintsUsed == old(hintsUsed)
      ensures old(gameActive) && old(hintsUsed) < maxHints ==>
        && hint == Some(Hint(idx, code[idx]))
        && IsDigit(code[idx])
        && hintsUsed == old(hintsUsed) + 1
    {
      if !gameActive || hintsUsed >= maxHints {
        return None;
      }
      hint := Some(Hint(idx, code[idx]));
      hintsUsed := hintsUsed + 1;
    }

    /** Guesses made so far in the round: the budget minus the attempts left. */
    function GuessesMade(): (n: int)
      reads this
      requires Consistent()
      ensures code != "" ==> n == |history| && 0 <= n <= maxAttempts
    {
      maxAttempts - attempts
    }

    /**
     * endGame: the round is no longer in play; the result screen shows the code, the
     * guesses made and the hints used.
     */
    method EndGame(win: bool) returns (summary: Summary)
      requires Consistent()
      modifies this`gameActive
      ensures Valid() && !gameActive
      ensures summary == Summary(code, GuessesMade(), hintsUsed, win)
    {
      gameActive := false;
      summary := Summary(code, maxAttempts - attempts, hintsUsed, win);
    }

    /** Every history line scores at most `length`, so its red count is never negative. */
    lemma WrongNeverNegative(k: nat)
      requires Valid() && k < |history|
      ensures 0 <= WrongDigits(length, history[k]) <= length
    {
      ScoreBounds(history[k].guess, code);
    }

    /** A round is won exactly when the last guess equals the code. */
    lemma WonIffCracked()
      requires Valid() && history != []
      ensures history[|history| - 1].bulls == length <==> history[|history| - 1].guess == code
    {
      var r := history[|history| - 1];
      WinIffEqual(r.guess, code);
    }
  }
}
