/** The attempt budget: the balancing matrix and the bonus for codes with repeated digits. */
module Balance {

  datatype Difficulty = Easy | Medium | Hard

  /** Code lengths the balancing matrix has a row for. */
  predicate SupportedLength(n: int) {
    3 <= n <= 5
  }

  /** The balancing matrix: base attempts per code length and difficulty. */
  function BaseAttempts(length: int, difficulty: Difficulty): (a: nat)
    requires SupportedLength(length)
    ensures 4 <= a <= 14
  {
    if length == 3 then
      match difficulty
      case Easy => 8
      case Medium => 6
      case Hard => 4
    else if length == 4 then
      match difficulty
      case Easy => 10
      case Medium => 8
      case Hard => 6
    else
      match difficulty
      case Easy => 14
      case Medium => 12
      case Hard => 10
  }

  /** Attempts a game starts with: the matrix entry, plus two when repeated digits are allowed. */
  function MaxAttempts(length: int, difficulty: Difficulty, repeats: bool): (m: nat)
    requires SupportedLength(length)
    ensures 4 <= m <= 16
  {
    BaseAttempts(length, difficulty) + if repeats then 2 else 0
  }

  /** Allowing repeats adds exactly two attempts, whatever the row and column. */
  lemma RepeatsBonus(length: int, difficulty: Difficulty)
    requires SupportedLength(length)
    ensures MaxAttempts(length, difficulty, true) == MaxAttempts(length, difficulty, false) + 2
  {
  }

  /** A harder difficulty never gives more attempts: each step up in difficulty removes two. */
  lemma HarderGivesFewer(length: int)
    requires SupportedLength(length)
    ensures BaseAttempts(length, Easy) == BaseAttempts(length, Medium) + 2
    ensures BaseAttempts(length, Medium) == BaseAttempts(length, Hard) + 2
  {
  }

  /** The easy column; with HarderGivesFewer it fixes every entry of the matrix. */
  lemma EasyColumn()
    ensures BaseAttempts(3, Easy) == 8 && BaseAttempts(4, Easy) == 10 && BaseAttempts(5, Easy) == 14
  {
  }

  /** A longer code never gives fewer attempts at the same difficulty. */
  lemma LongerGivesMore(shorter: int, longer: int, difficulty: Difficulty)
    requires SupportedLength(shorter) && SupportedLength(longer) && shorter <= longer
    ensures BaseAttempts(shorter, difficulty) <= BaseAttempts(longer, difficulty)
  {
  }

  /** The default settings: four digits at medium difficulty. */
  lemma DefaultBudget()
    ensures MaxAttempts(4, Medium, false) == 8
    ensures MaxAttempts(4, Medium, true) == 10
  {
  }
}
