# Guess the Code: a Dafny model of the game core

Guess the Code is a Bulls and Cows game for the browser. The player picks a code length (3, 4
or 5 digits), a difficulty and whether digits may repeat. The game then draws a secret code and
gives the player a fixed number of attempts. Each guess is scored:

- a **bull** is a right digit in the right place;
- a **cow** is a right digit in the wrong place, and no secret digit is counted twice;
- the remaining digits of the guess are shown as **wrong**.

A few hints each reveal one digit of the code.

This project models the core of `script.js` and proves what the code promises:

- `codes.dfy` (module `Codes`): digit characters, the pool `"0123456789"`, all-digit and
  pairwise-distinct strings.
- `balance.dfy` (module `Balance`): the balance table and the attempt budget
  (`balanceMatrix`, `calculateMaxAttempts`).
- `secret.dfy` (module `SecretCode`): `generateSecretCode`.
  - Each random draw is a parameter, an index sequence `draws`.
  - With repeats, every draw picks a digit 0-9.
  - Without repeats, every draw picks an index into the shrinking pool.
  - The pool loop is the method `DrawDistinct`, specified by the function `DrawFromPool`.
- `scoring.dfy` (module `Scoring`): `calculateBullsAndCows` as a method over two flag arrays.
  - Pass one is `MarkBulls`; pass two is `MarkCows`.
  - The inner scan that claims the first free matching secret position is `ClaimFirstMatch`.
    It returns at the match where the source breaks out of its loop, and the caller counts the cow.
  - The method is proved against a reference definition: bulls are positions with equal
    digits, and cows are the size of the multiset intersection of the non-bull digits on each side.
  - Between the two stand the functions `UsedAfter`, `CowsAfter` and `FirstFree`, which describe
    the greedy pairing step by step. `GreedyCountsByFrequency` proves that the greedy pairing
    counts exactly the reference cows.
- `scoring_props.dfy` (module `ScoringProperties`): what a score means. It covers the bound
  used by the "wrong" count, when a guess wins, that every claimed secret position is claimed
  once, the per-digit reading of cows, and two worked examples.
- `session.dfy` (module `Game`): the `config` and `state` objects as the class `Session`. Its
  methods are `initGame`, `submitGuess`, `useHint` and `endGame`.
  - The guess history lives in the page's DOM in the source (`logGuess`). Here it is a
    sequence of `GuessRecord` values.
  - `Valid()` is the session invariant:
    - attempts stay in `0 .. maxAttempts`;
    - spent attempts equal the number of history lines;
    - every line is a valid guess scored against the code;
    - only the last line can be a win;
    - a round in play has attempts left and no win.

## Model

| member | source | states |
|---|---|---|
| Codes.DigitChar | script.js:287 | a random number 0-9 appended to the code string becomes that digit's character, which is a digit |
| Codes.DigitsDistinct | script.js:289 | the initial pool holds ten pairwise distinct digits |
| Balance.BaseAttempts | script.js:52-56 | every balance table entry for a supported length and a difficulty lies between 4 and 14 |
| Balance.EasyColumn | script.js:53-55 | table observation: the easy column is 8, 10 and 14 for lengths 3, 4 and 5; with HarderGivesFewer this fixes the whole table |
| Balance.MaxAttempts | script.js:167-171 | the attempt budget is the table entry plus 2 when repeats are allowed, between 4 and 16 |
| Balance.RepeatsBonus | script.js:169 | allowing repeats adds exactly two attempts |
| Balance.HarderGivesFewer | script.js:52-56 | table observation: each step up in difficulty removes two attempts at every length |
| Balance.LongerGivesMore | script.js:52-56 | table observation: a longer code never gets fewer attempts at the same difficulty |
| Balance.DefaultBudget | script.js:167-171 | 4 digits at medium gives 8 attempts, or 10 with repeats |
| SecretCode.RemoveAt | script.js:293 | removing one element shortens the pool by one, keeps only pool elements, and keeps a distinct pool distinct without the removed element |
| SecretCode.DrawFromPool | script.js:289-294 | drawing by shrinking-pool indices yields one character per draw, all from the pool, pairwise distinct when the pool is |
| SecretCode.DrawnFromDigits | script.js:289-294 | a code drawn from the digit pool is all digits and has no repeated digit |
| SecretCode.DrawDistinct | script.js:289-294 | the pool loop builds exactly the code the draw specification gives |
| SecretCode.GenerateSecretCode | script.js:284-298 | the code has exactly `length` digit characters; with repeats each position is the drawn digit; without repeats the code is the pool draw and its digits are pairwise distinct |
| Scoring.FirstFree | script.js:325-331 | the claimed secret position is unflagged and holds the guess digit, and no lower unflagged position does; -1 only when none does |
| Scoring.ClaimFirstMatch | script.js:325-332 | the inner scan claims exactly the lowest free matching secret position and flags it, or changes nothing |
| Scoring.MarkBulls | script.js:313-319 | pass one counts the bulls and flags exactly the bull positions in both arrays |
| Scoring.MarkCows | script.js:321-333 | pass two counts exactly the reference cows |
| Scoring.CalculateBullsAndCows | script.js:301-336 | bulls are the positions where guess and secret agree; cows are the size of the multiset intersection of the non-bull digits |
| Scoring.GreedyCountsByFrequency | script.js:321-333 | the greedy first-free pairing counts the same cows as the frequency definition |
| Scoring.GreedyInvariant | script.js:321-333 | during pass two the free secret digits are the non-bull secret digits minus the non-bull guess digits seen, and the cows are their intersection so far |
| Scoring.GreedyStep | script.js:321-333 | one guess position of pass two keeps that invariant |
| ScoringProperties.MarkOne | script.js:329 | flagging an unflagged position adds exactly one flag |
| ScoringProperties.MarkedBullFlags | script.js:313-319 | pass one flags as many secret positions as there are bulls |
| ScoringProperties.ClaimsAreDistinct | script.js:313-333 | the flagged secret positions number exactly bulls plus cows, so each secret position is claimed at most once |
| ScoringProperties.ScoreBounds | script.js:124 | bulls plus cows never exceed the code length, so the wrong count is never negative |
| ScoringProperties.AllBullsUpTo | script.js:313-319 | k positions hold k bulls exactly when every one of them is a bull |
| ScoringProperties.WinIffEqual | script.js:219 | a guess of the code's length scores all bulls exactly when it equals the code |
| ScoringProperties.CowsPerDigit | script.js:321-333 | for digit guesses, cows are the sum over the ten digits of the smaller of the digit's two non-bull counts |
| ScoringProperties.SwappedPairExample | script.js:301-336 | secret 1234 and guess 1243 score 2 bulls and 2 cows |
| ScoringProperties.RepeatedDigitExample | script.js:301-336 | secret 1123 and guess 1111 score 2 bulls and 0 cows, with no double counting |
| Game.AppendRecord | script.js:213-219 | appending a scored guess to a history without a win keeps it a valid history, and it stays without a win exactly when the guess is not all bulls |
| Game.Session.constructor | script.js:36-49 | the configuration and state literals: 8 attempts budget, 3 hints, empty code, nothing in play |
| Game.Session.InitGame | script.js:173-178 | budget from the balance table, attempts refilled, hints and history cleared, a round in play, and a fresh code of `length` digits (distinct without repeats) |
| Game.Session.SubmitGuess | script.js:197-227 | ignored with no round in play; wrong length and non-digit guesses (`IsNumeric`, the `/^\d+$/` test at script.js:208) change nothing; otherwise one attempt is spent, the scored line is appended, a win is checked before a loss, and either ends the round |
| Game.Session.UseHint | script.js:229-235 | nothing happens with no round in play or no hints left; otherwise the digit at the drawn position is revealed and one hint is spent, never more than the hint budget |
| Game.Session.GuessesMade | script.js:343 | the guesses-made figure (budget minus attempts left) equals the history length |
| Game.Session.EndGame | script.js:338-344 | the round is no longer in play and the summary shows the code, the guesses made and the hints used |
| Game.Session.WrongNeverNegative | script.js:124 | every history line's wrong count (`WrongDigits`, length minus bulls minus cows) lies between 0 and the code length |
| Game.Session.WonIffCracked | script.js:219-220 | the last line is a win exactly when its guess equals the code |

## Left out

- Audio, rendering, screens, the digit input boxes (`handleInput`, `handleKeyDown`), toasts, confetti
  and the `setTimeout` calls are presentation only.
- Reading the guess out of the input boxes is left out: `SubmitGuess` takes the guess string as a
  parameter.
- `Math.random`: each random choice is a parameter.
  - `GenerateSecretCode` takes the drawn indices, required in range.
  - `UseHint` takes the drawn position, required to be in `0 .. length - 1`.
- The restart confirmation dialog is left out; a confirmed restart is a call to `InitGame`.
- `console.log` of the code and the displayed text (feedback messages, hints left, the
  critical-state styling when two or fewer attempts remain) are left out.
- The settings controls `setLength`, `setDiff` and `toggleRepeats` are left out. The configuration
  is fixed when a `Session` is constructed, so a configuration change in the middle of a round
  is not modelled.
- Balance.BaseAttempts: requires a length of 3, 4 or 5, the only lengths the settings offer; for
  other lengths the source would read a missing table row.
- Game.Session.SubmitGuess: the length check counts characters, while JavaScript's `length`
  counts UTF-16 code units; the two agree for the digit strings the game accepts. On rejected
  input the kind of rejection can differ: at length 4, the guess "12" followed by an emoji
  outside the Basic Multilingual Plane is 4 code units, so the source answers "Numbers only",
  while the model counts 3 characters and answers `WrongLength`. The state is unchanged either way.
- SecretCode.GenerateSecretCode: without repeats, the in-range draws it requires exist only for
  lengths up to 10. For a longer code the source would not fail: indexing the empty pool gives
  `undefined`, and the string concatenation appends the text "undefined" to the code. The
  settings offer only lengths 3 to 5, so this cannot arise in play.
- The hint button's disabled state after the last hint is presentation; the model instead ignores
  hint requests once the budget is spent, as `useHint` does.
