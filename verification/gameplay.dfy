/** The timed single-player page (`Gameplay.jsx`): a puzzle drawn from the
    slice of the puzzle list that belongs to the chosen time limit, a
    countdown, and a running trophy total that a correct answer raises by
    the scoring table's points and a wrong one lowers by the penalty,
    never below 0.  React state is a class whose fields the handlers
    reassign; the timer effect, which re-derives `gameActive` whenever
    `remainingSeconds` or `isCorrect` changes, is folded into the handlers
    that change them. */
module Gameplay {
  import opened Wrappers
  import opened Text
  import opened JsNumber
  import opened ClientCheck
  import PuzzleData

  // ---------------------------------------------------------------------
  // Scoring table
  // ---------------------------------------------------------------------

  datatype ScoringRule = ScoringRule(attempts: map<int, int>, penalty: int, defaultPoints: int)

  const DefaultTimeLimit: int := 120

  /** `SCORING_RULES[key] || SCORING_RULES['default']`, the key being the
      time limit in seconds written as a string. */
  function RulesFor(timeLimit: int): (rules: ScoringRule)
    ensures rules.penalty < 0 && rules.defaultPoints == 0
    ensures 1 in rules.attempts && rules.attempts[1] >= 5
    ensures forall a :: a in rules.attempts ==> 1 <= a <= 4 && rules.attempts[a] > 0
  {
    if timeLimit == 120 then ScoringRule(map[1 := 6, 2 := 4, 3 := 3, 4 := 1], -1, 0)
    else if timeLimit == 85 then ScoringRule(map[1 := 7, 2 := 4, 3 := 2], -2, 0)
    else if timeLimit == 45 then ScoringRule(map[1 := 9, 2 := 5, 3 := 3], -5, 0)
    else ScoringRule(map[1 := 5, 2 := 3, 3 := 1], -1, 0)
  }

  /** `calculateScore(key, attempt)`: the table's points for that attempt,
      or the default of 0 for an attempt the table does not list. */
  function CalculateScore(timeLimit: int, attempt: int): (points: int)
    ensures points >= 0
    ensures attempt == 1 ==> points >= 5
    ensures attempt < 1 || attempt > 4 ==> points == 0
    ensures attempt == 4 && timeLimit != 120 ==> points == 0
    ensures timeLimit == 120 && 1 <= attempt <= 4 ==> points == [6, 4, 3, 1][attempt - 1]
    ensures timeLimit == 85 && 1 <= attempt <= 3 ==> points == [7, 4, 2][attempt - 1]
    ensures timeLimit == 45 && 1 <= attempt <= 3 ==> points == [9, 5, 3][attempt - 1]
    ensures timeLimit != 120 && timeLimit != 85 && timeLimit != 45 && 1 <= attempt <= 3 ==>
      points == [5, 3, 1][attempt - 1]
  {
    var rules := RulesFor(timeLimit);
    if attempt in rules.attempts then rules.attempts[attempt] else rules.defaultPoints
  }

  /** A later attempt never scores more than an earlier one. */
  lemma ScoreNonIncreasing(timeLimit: int, earlier: int, later: int)
    requires 1 <= earlier <= later
    ensures CalculateScore(timeLimit, later) <= CalculateScore(timeLimit, earlier)
  {
  }

  /** `getPenalty(key)`: always a loss, of 1 to 5 trophies. */
  function Penalty(timeLimit: int): (p: int)
    ensures -5 <= p <= -1
    ensures p == if timeLimit == 85 then -2 else if timeLimit == 45 then -5 else -1
  {
    RulesFor(timeLimit).penalty
  }

  // ---------------------------------------------------------------------
  // Clock
  // ---------------------------------------------------------------------

  /** `formatTime(s)`: whole minutes, a colon, and the seconds left over,
      each padded to two digits.  Reading the text back gives `s`. */
  function FormatTime(totalSeconds: nat): (r: string)
    ensures |r| >= 5 && r[|r| - 3] == ':'
    ensures AllDigits(r[..|r| - 3]) && AllDigits(r[|r| - 2..])
    ensures DigitsValue(r[|r| - 2..]) < 60
    ensures 60 * DigitsValue(r[..|r| - 3]) + DigitsValue(r[|r| - 2..]) == totalSeconds
  {
    var minutes, seconds := Pad2(totalSeconds / 60), Pad2(totalSeconds % 60);
    var r := minutes + ":" + seconds;
    assert r[..|r| - 3] == minutes && r[|r| - 2..] == seconds;
    r
  }

  // ---------------------------------------------------------------------
  // The puzzle list of a time limit
  // ---------------------------------------------------------------------

  /** `puzzlesLevel1` and `puzzlesLevel2`: a third of the list each, the
      first two slices taking the remainder, and everything in the first
      slice when the list has fewer than three puzzles. */
  function SliceSizes(total: nat): (sizes: (nat, nat))
    ensures sizes.0 + sizes.1 <= total
    ensures total < 3 ==> sizes == (total, 0)
    ensures total >= 3 ==>
      var third := total - sizes.0 - sizes.1;
      1 <= third <= sizes.1 <= sizes.0 <= third + 1
  {
    var approx := Max(1, total / 3);
    var first := Min(total, approx + if total % 3 > 0 then 1 else 0);
    var second := Min(total - first, approx + if total % 3 > 1 then 1 else 0);
    (first, second)
  }

  /** `LEVEL_PUZZLES[key]`: the 120-second slice, the 85-second slice and
      the 45-second slice, in that order; nothing for any other key. */
  function LevelSlice(all: seq<string>, timeLimit: int): (slice: Option<seq<string>>)
    ensures slice.Some? <==> timeLimit == 120 || timeLimit == 85 || timeLimit == 45
    ensures slice.Some? ==> forall p :: p in slice.value ==> p in all
  {
    var sizes := SliceSizes(|all|);
    if timeLimit == 120 then Some(all[..sizes.0])
    else if timeLimit == 85 then Some(all[sizes.0..sizes.0 + sizes.1])
    else if timeLimit == 45 then Some(all[sizes.0 + sizes.1..])
    else None
  }

  /** The three slices, joined in order, are the whole list. */
  lemma SlicesPartition(all: seq<string>)
    ensures LevelSlice(all, 120).value + LevelSlice(all, 85).value + LevelSlice(all, 45).value == all
  {
    var sizes := SliceSizes(|all|);
    assert all[..sizes.0] + all[sizes.0..sizes.0 + sizes.1] == all[..sizes.0 + sizes.1];
    assert all[..sizes.0 + sizes.1] + all[sizes.0 + sizes.1..] == all;
  }

  const DefaultPuzzles: seq<string> := ["123456"]

  /** `currentPuzzleList`: the time limit's slice, or the fallback list
      when there is no slice or it is empty. */
  function PuzzleList(all: seq<string>, timeLimit: int): (list: seq<string>)
    ensures list != []
    ensures forall p :: p in list ==> p in all || p in DefaultPuzzles
    ensures |all| >= 3 && (timeLimit == 120 || timeLimit == 85 || timeLimit == 45) ==>
      list == LevelSlice(all, timeLimit).value
    ensures LevelSlice(all, timeLimit).Some? && LevelSlice(all, timeLimit).value != [] ==>
      list == LevelSlice(all, timeLimit).value
    ensures LevelSlice(all, timeLimit).None? || LevelSlice(all, timeLimit).value == [] ==>
      list == DefaultPuzzles
  {
    var slice := LevelSlice(all, timeLimit);
    if slice.Some? && slice.value != [] then slice.value else DefaultPuzzles
  }

  lemma DefaultPuzzlesAreDigits()
    ensures forall p :: p in DefaultPuzzles ==> AllDigits(p)
  {
    assert forall k :: 0 <= k < 6 ==> IsDigit("123456"[k]);
  }

  // ---------------------------------------------------------------------
  // The page
  // ---------------------------------------------------------------------

  datatype Message =
    | NoMessage
    | TimeUp
    | DigitOrderError(penalty: int)
    | InsertOperators
    | Correct(points: int)
    | NotHundred(value: real, penalty: int)
    | InvalidExpression(penalty: int)

  /** Every piece of the page's state a handler may change. */
  datatype BoardView = BoardView(
    number: string,
    expression: string,
    result: Option<real>,
    message: Message,
    isCorrect: bool,
    showHint: bool,
    attempts: int,
    lastPuzzleScore: int,
    totalTrophies: int,
    gameActive: bool,
    remainingSeconds: int)

  class TimedBoard {
    const timeLimit: int
    const puzzles: seq<string>
    var number: string
    var expression: string
    var result: Option<real>
    var message: Message
    var isCorrect: bool
    var showHint: bool
    var attempts: int
    var lastPuzzleScore: int
    var totalTrophies: int
    var gameActive: bool
    var remainingSeconds: int

    predicate PuzzlesReady()
      reads this
    {
      puzzles != [] && forall p :: p in puzzles ==> AllDigits(p)
    }

    /** A drawn puzzle of digits; a solved puzzle is never still active;
        with a positive limit the game is active exactly while time is left
        and the puzzle unsolved, and the countdown stays between 0 and the
        limit; with any other limit there is no countdown at all. */
    predicate Valid()
      reads this
    {
      PuzzlesReady() && number in puzzles && attempts >= 0 && lastPuzzleScore >= 0
      && (gameActive ==> !isCorrect)
      && (remainingSeconds > 0 && !isCorrect ==> gameActive)
      && (timeLimit > 0 ==> 0 <= remainingSeconds <= timeLimit && (gameActive ==> remainingSeconds > 0))
      && (timeLimit <= 0 ==> remainingSeconds == timeLimit)
      && (isCorrect ==> result.Some? && NearHundred(result.value))
    }

    function View(): BoardView
      reads this
    {
      BoardView(number, expression, result, message, isCorrect, showHint, attempts,
                lastPuzzleScore, totalTrophies, gameActive, remainingSeconds)
    }

    /** The page after mounting: the time limit from the route (`parseInt`
        of it, with 120 for a missing or zero value), the saved trophy
        total, and a first puzzle drawn with `pick`. */
    constructor (timeLimitParam: Option<int>, savedTrophies: Option<int>, pick: nat)
      ensures Valid()
      ensures timeLimit == if timeLimitParam.Some? && timeLimitParam.value != 0 then timeLimitParam.value else DefaultTimeLimit
      ensures puzzles == PuzzleList(PuzzleData.AllSolvableNumbers, timeLimit)
      ensures number == puzzles[pick % |puzzles|] && expression == number
      ensures attempts == 0 && !isCorrect && gameActive && remainingSeconds == timeLimit
      ensures totalTrophies == savedTrophies.GetOr(0)
    {
      timeLimit := if timeLimitParam.Some? && timeLimitParam.value != 0 then timeLimitParam.value else DefaultTimeLimit;
      PuzzleData.AllSolvableNumbersFacts();
      DefaultPuzzlesAreDigits();
      puzzles := PuzzleList(PuzzleData.AllSolvableNumbers, if timeLimitParam.Some? && timeLimitParam.value != 0 then timeLimitParam.value else DefaultTimeLimit);
      number := "";
      expression := "";
      result := None;
      message := NoMessage;
      isCorrect := false;
      showHint := false;
      attempts := 0;
      lastPuzzleScore := 0;
      totalTrophies := savedTrophies.GetOr(0);
      gameActive := true;
      remainingSeconds := if timeLimitParam.Some? && timeLimitParam.value != 0 then timeLimitParam.value else DefaultTimeLimit;
      new;
      GenerateNewNumber(pick);
    }

    /** `generateNewNumber`: a fresh puzzle (`pick` stands for the random
        index), the expression reset to its digits, and the countdown back
        at the limit.  If that changed the countdown or `isCorrect`, the
        timer effect re-runs and leaves the game active only with time
        left. */
    method GenerateNewNumber(pick: nat)
      requires PuzzlesReady() && lastPuzzleScore >= 0
      modifies this
      ensures Valid()
      ensures number == puzzles[pick % |puzzles|]
      ensures View() == old(View()).(number := number, expression := number, result := None,
        message := NoMessage, isCorrect := false, attempts := 0, showHint := false,
        lastPuzzleScore := 0, remainingSeconds := timeLimit,
        gameActive := if old(remainingSeconds) != timeLimit || old(isCorrect) then timeLimit > 0 else true)
    {
      var rerun := remainingSeconds != timeLimit || isCorrect;
      number := puzzles[pick % |puzzles|];
      expression := number;
      result := None;
      message := NoMessage;
      isCorrect := false;
      attempts := 0;
      showHint := false;
      lastPuzzleScore := 0;
      remainingSeconds := timeLimit;
      gameActive := if rerun then timeLimit > 0 else true;
    }

    /** One tick of the countdown; the interval exists only while time is
        left and the puzzle is unsolved.  The last second ends the game
        with no points for the puzzle. */
    method Tick()
      requires Valid()
      modifies this
      ensures Valid()
      ensures remainingSeconds >= 0 || remainingSeconds == old(remainingSeconds)
      ensures !(old(remainingSeconds) > 0 && !old(isCorrect)) ==> View() == old(View())
      ensures old(remainingSeconds) > 1 && !old(isCorrect) ==>
        View() == old(View()).(remainingSeconds := old(remainingSeconds) - 1)
      ensures old(remainingSeconds) == 1 && !old(isCorrect) ==>
        View() == old(View()).(remainingSeconds := 0, message := TimeUp, gameActive := false, lastPuzzleScore := 0)
    {
      if remainingSeconds > 0 && !isCorrect {
        if remainingSeconds <= 1 {
          remainingSeconds := 0;
          message := TimeUp;
          isCorrect := false;
          gameActive := false;
          lastPuzzleScore := 0;
        } else {
          remainingSeconds := remainingSeconds - 1;
        }
      }
    }

    /** `insertOperator(op)` with the input's selection `[start, end)`:
        the selection is replaced by the operator and the caret goes after
        it; nothing happens once the game is over. */
    method InsertOperator(op: string, start: nat, end: nat) returns (caret: Option<nat>)
      requires start <= end <= |expression|
      modifies this
      ensures old(gameActive) ==>
        && caret == Some(start + |op|)
        && View() == old(View()).(expression := old(expression)[..start] + op + old(expression)[end..])
      ensures !old(gameActive) ==> caret == None && View() == old(View())
    {
      if !gameActive {
        return None;
      }
      expression := expression[..start] + op + expression[end..];
      caret := Some(start + |op|);
    }

    /** `clearOperators`: back to the bare digits, which the check then
        answers with "insert operators" and no penalty. */
    method ClearOperators()
      requires Valid()
      modifies this
      ensures Valid()
      ensures old(gameActive) ==> View() == old(View()).(expression := number)
      ensures !old(gameActive) ==> View() == old(View())
      ensures old(gameActive) ==> Judge(TimedPage, expression, number) == BareNumber
    {
      if gameActive {
        expression := number;
        ClearedIsBare(TimedPage, number);
      }
    }

    /** Typing in the input, accepted only while the game is active. */
    method HandleExpressionChange(value: string)
      modifies this
      ensures old(gameActive) ==> View() == old(View()).(expression := value)
      ensures !old(gameActive) ==> View() == old(View())
    {
      if gameActive {
        expression := value;
      }
    }

    method ToggleGeneralHint()
      modifies this
      ensures View() == old(View()).(showHint := !old(showHint))
    {
      showHint := !showHint;
    }

    /** `checkExpression`: counts the attempt, then follows the verdict.
        A digit error, a rejected or failing expression and a wrong value
        cost the penalty; the bare number costs nothing; a value within
        1e-6 of 100 earns the table's points for this attempt and ends the
        game.  The total never drops below 0. */
    method CheckExpression()
      requires Valid()
      modifies this
      ensures Valid()
      ensures !old(gameActive) ==> View() == old(View())
      ensures old(gameActive) ==>
        var p := Penalty(timeLimit);
        var before := old(View()).(attempts := old(attempts) + 1);
        match Judge(TimedPage, old(expression), old(number))
        case DigitsMisused =>
          View() == before.(message := DigitOrderError(p), result := None,
                            totalTrophies := Max(0, old(totalTrophies) + p))
        case BareNumber =>
          View() == before.(message := InsertOperators, result := None)
        case Invalid =>
          View() == before.(message := InvalidExpression(p), result := None,
                            totalTrophies := Max(0, old(totalTrophies) + p))
        case Off(v) =>
          View() == before.(message := NotHundred(v, p), result := Some(v),
                            totalTrophies := Max(0, old(totalTrophies) + p))
        case Hundred(v) =>
          var points := CalculateScore(timeLimit, old(attempts) + 1);
          View() == before.(message := Correct(points), result := Some(v), isCorrect := true,
                            gameActive := false, lastPuzzleScore := points,
                            totalTrophies := Max(0, old(totalTrophies) + points))
    {
      if !gameActive {
        return;
      }
      attempts := attempts + 1;
      ApplyVerdict(Judge(TimedPage, expression, number));
    }

    /** The outcome of a counted attempt with verdict `verdict`. */
    method ApplyVerdict(verdict: Verdict)
      requires Valid() && gameActive
      requires verdict.Hundred? ==> NearHundred(verdict.value)
      modifies this
      ensures Valid()
      ensures
        var p := Penalty(timeLimit);
        match verdict
        case DigitsMisused =>
          View() == old(View()).(message := DigitOrderError(p), result := None,
                                 totalTrophies := Max(0, old(totalTrophies) + p))
        case BareNumber =>
          View() == old(View()).(message := InsertOperators, result := None)
        case Invalid =>
          View() == old(View()).(message := InvalidExpression(p), result := None,
                                 totalTrophies := Max(0, old(totalTrophies) + p))
        case Off(v) =>
          View() == old(View()).(message := NotHundred(v, p), result := Some(v),
                                 totalTrophies := Max(0, old(totalTrophies) + p))
        case Hundred(v) =>
          var points := CalculateScore(timeLimit, old(attempts));
          View() == old(View()).(message := Correct(points), result := Some(v), isCorrect := true,
                                 gameActive := false, lastPuzzleScore := points,
                                 totalTrophies := Max(0, old(totalTrophies) + points))
    {
      var p := Penalty(timeLimit);
      match verdict
      case DigitsMisused =>
        message := DigitOrderError(p);
        isCorrect := false;
        result := None;
        totalTrophies := Max(0, totalTrophies + p);
      case BareNumber =>
        message := InsertOperators;
        isCorrect := false;
        result := None;
      case Invalid =>
        message := InvalidExpression(p);
        isCorrect := false;
        result := None;
        totalTrophies := Max(0, totalTrophies + p);
      case Off(v) =>
        result := Some(v);
        message := NotHundred(v, p);
        isCorrect := false;
        totalTrophies := Max(0, totalTrophies + p);
      case Hundred(v) =>
        result := Some(v);
        var points := CalculateScore(timeLimit, attempts);
        lastPuzzleScore := points;
        totalTrophies := Max(0, totalTrophies + points);
        message := Correct(points);
        isCorrect := true;
        gameActive := false;
    }
  }
}
