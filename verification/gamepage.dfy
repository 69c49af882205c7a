/** The practice page (`Gamepage.jsx`): a puzzle from a short fixed list,
    a clock that counts up until the puzzle is solved, and the same answer
    check as the timed page without scoring.  React state is a class whose
    fields the handlers reassign; the interval is the `timerRunning`
    flag. */
module Gamepage {
  import opened Wrappers
  import opened Text
  import opened ClientCheck
  import PuzzleData

  // ---------------------------------------------------------------------
  // Clock
  // ---------------------------------------------------------------------

  /** `formatTime(s)`: hours, minutes and seconds, each padded to two
      digits and separated by colons.  Reading the text back gives `s`. */
  function FormatClock(totalSeconds: nat): (r: string)
    ensures |r| >= 8 && r[|r| - 6] == ':' && r[|r| - 3] == ':'
    ensures AllDigits(r[..|r| - 6]) && AllDigits(r[|r| - 5..|r| - 3]) && AllDigits(r[|r| - 2..])
    ensures DigitsValue(r[|r| - 5..|r| - 3]) < 60 && DigitsValue(r[|r| - 2..]) < 60
    ensures 3600 * DigitsValue(r[..|r| - 6]) + 60 * DigitsValue(r[|r| - 5..|r| - 3])
            + DigitsValue(r[|r| - 2..]) == totalSeconds
  {
    var hours := Pad2(totalSeconds / 3600);
    var minutes := Pad2((totalSeconds % 3600) / 60);
    var seconds := Pad2(totalSeconds % 60);
    ClockFields(hours, minutes, seconds);
    ClockArithmetic(totalSeconds);
    hours + ":" + minutes + ":" + seconds
  }

  /** Where the three fields sit in `h:mm:ss`. */
  lemma ClockFields(h: string, m: string, s: string)
    requires |m| == 2 && |s| == 2
    ensures var r := h + ":" + m + ":" + s;
      |r| == |h| + 6 && r[|r| - 6] == ':' && r[|r| - 3] == ':'
      && r[..|r| - 6] == h && r[|r| - 5..|r| - 3] == m && r[|r| - 2..] == s
  {
  }

  lemma ClockArithmetic(n: nat)
    ensures (n % 3600) / 60 < 60 && n % 60 < 60
    ensures 3600 * (n / 3600) + 60 * ((n % 3600) / 60) + n % 60 == n
  {
    var q, r := n / 3600, n % 3600;
    var m, sec := r / 60, r % 60;
    assert n == 3600 * q + r;
    assert r == 60 * m + sec && 0 <= sec < 60;
    var k := 60 * q + m;
    assert n == 60 * k + sec;
    assert n / 60 == k;
  }

  // ---------------------------------------------------------------------
  // The puzzle list
  // ---------------------------------------------------------------------

  const SolvableSixDigitNumbers: seq<string> := [
    "481295", "345161", "112688", "729153", "655182", "247513", "199273", "841567"]

  /** The module-level fallback: an empty list gets `"123456"` pushed. */
  function WithFallback(list: seq<string>): (r: seq<string>)
    ensures r != []
    ensures list != [] ==> r == list
  {
    if list == [] then ["123456"] else list
  }

  const PuzzleList: seq<string> := WithFallback(SolvableSixDigitNumbers)

  lemma ListedAreSixDigits()
    ensures forall i :: 0 <= i < |SolvableSixDigitNumbers| ==> PuzzleData.SixDigits(SolvableSixDigitNumbers[i])
  {
  }

  /** Every puzzle the page can draw is a string of digits. */
  lemma PuzzleListIsDigits()
    ensures PuzzleList == SolvableSixDigitNumbers
    ensures forall p :: p in PuzzleList ==> AllDigits(p)
  {
    ListedAreSixDigits();
    PuzzleData.JoinSixDigits(SolvableSixDigitNumbers, []);
    assert SolvableSixDigitNumbers + [] == SolvableSixDigitNumbers;
  }

  // ---------------------------------------------------------------------
  // The page
  // ---------------------------------------------------------------------

  datatype Message =
    | NoMessage
    | DigitOrderError
    | InsertOperators
    | Solved(time: string)
    | NotHundred(value: real)
    | InvalidExpression

  /** Every piece of the page's state a handler may change. */
  datatype BoardView = BoardView(
    number: string,
    expression: string,
    result: Option<real>,
    message: Message,
    isCorrect: bool,
    showHint: bool,
    attempts: int,
    elapsedSeconds: int,
    timerRunning: bool)

  class PracticeBoard {
    /** The module-level list, after the fallback. */
    const puzzles: seq<string>
    var number: string
    var expression: string
    var result: Option<real>
    var message: Message
    var isCorrect: bool
    var showHint: bool
    var attempts: int
    var elapsedSeconds: int
    var timerRunning: bool

    predicate PuzzlesReady()
      reads this
    {
      puzzles != [] && forall p :: p in puzzles ==> AllDigits(p)
    }

    /** A drawn puzzle of digits, counters that never go negative, and a
        correct flag that only a value within the tolerance of 100 sets. */
    predicate Valid()
      reads this
    {
      PuzzlesReady() && number in puzzles && attempts >= 0 && elapsedSeconds >= 0
      && (isCorrect ==> result.Some? && NearHundred(result.value))
    }

    function View(): BoardView
      reads this
    {
      BoardView(number, expression, result, message, isCorrect, showHint, attempts,
                elapsedSeconds, timerRunning)
    }

    /** The page after mounting: the first puzzle drawn with `pick`. */
    constructor (pick: nat)
      ensures Valid() && puzzles == PuzzleList
      ensures number == PuzzleList[pick % |PuzzleList|] && expression == number
      ensures attempts == 0 && elapsedSeconds == 0 && timerRunning && !isCorrect
    {
      PuzzleListIsDigits();
      puzzles := PuzzleList;
      number := "";
      expression := "";
      result := None;
      message := NoMessage;
      isCorrect := false;
      showHint := false;
      attempts := 0;
      elapsedSeconds := 0;
      timerRunning := true;
      new;
      GenerateNewNumber(pick);
    }

    /** One second of the running clock. */
    method Tick()
      modifies this
      ensures timerRunning ==> View() == old(View()).(elapsedSeconds := old(elapsedSeconds) + 1)
      ensures !timerRunning ==> View() == old(View())
    {
      if timerRunning {
        elapsedSeconds := elapsedSeconds + 1;
      }
    }

    /** `generateNewNumber`: a fresh puzzle (`pick` stands for the random
        index), the expression reset to its digits, no attempts, and the
        clock restarted from 0. */
    method GenerateNewNumber(pick: nat)
      requires PuzzlesReady()
      modifies this
      ensures Valid()
      ensures number == puzzles[pick % |puzzles|]
      ensures View() == BoardView(number, number, None, NoMessage, false, false, 0, 0, true)
    {
      number := puzzles[pick % |puzzles|];
      expression := number;
      result := None;
      message := NoMessage;
      isCorrect := false;
      attempts := 0;
      showHint := false;
      elapsedSeconds := 0;
      timerRunning := true;
    }

    /** `insertOperator(op)` with the input's selection `[start, end)`:
        the selection is replaced and the caret goes after the operator. */
    method InsertOperator(op: string, start: nat, end: nat) returns (caret: nat)
      requires start <= end <= |expression|
      modifies this
      ensures caret == start + |op|
      ensures View() == old(View()).(expression := old(expression)[..start] + op + old(expression)[end..])
    {
      expression := expression[..start] + op + expression[end..];
      caret := start + |op|;
    }

    /** `clearOperators`: back to the bare digits, with the message, the
        result and the correct flag cleared; the check then answers with
        "insert operators". */
    method ClearOperators()
      requires Valid()
      modifies this
      ensures Valid()
      ensures View() == old(View()).(expression := number, message := NoMessage, isCorrect := false, result := None)
      ensures Judge(PracticePage, expression, number) == BareNumber
    {
      ClearedIsBare(PracticePage, number);
      expression, message, isCorrect, result := number, NoMessage, false, None;
    }

    method HandleExpressionChange(value: string)
      modifies this
      ensures View() == old(View()).(expression := value)
    {
      expression := value;
    }

    method ToggleGeneralHint()
      modifies this
      ensures View() == old(View()).(showHint := !old(showHint))
    {
      showHint := !showHint;
    }

    /** `checkExpression`: always counts the attempt; a value within 1e-6 of
        100 stops the clock and reports the time taken, anything else
        leaves the puzzle unsolved. */
    method CheckExpression()
      requires Valid()
      modifies this
      ensures Valid()
      ensures
        var before := old(View()).(attempts := old(attempts) + 1, isCorrect := false);
        match Judge(PracticePage, old(expression), old(number))
        case DigitsMisused => View() == before.(message := DigitOrderError, result := None)
        case BareNumber => View() == before.(message := InsertOperators, result := None)
        case Invalid => View() == before.(message := InvalidExpression, result := None)
        case Off(v) => View() == before.(message := NotHundred(v), result := Some(v))
        case Hundred(v) =>
          View() == before.(message := Solved(FormatClock(old(elapsedSeconds))), result := Some(v),
                            isCorrect := true, timerRunning := false)
    {
      attempts := attempts + 1;
      ApplyVerdict(Judge(PracticePage, expression, number), FormatClock(elapsedSeconds));
    }

    /** The outcome of a counted attempt with verdict `verdict`; `time` is
        the clock's reading, shown when the answer is right. */
    method ApplyVerdict(verdict: Verdict, time: string)
      requires Valid()
      requires verdict.Hundred? ==> NearHundred(verdict.value)
      modifies this
      ensures Valid()
      ensures
        var before := old(View()).(isCorrect := false);
        match verdict
        case DigitsMisused => View() == before.(message := DigitOrderError, result := None)
        case BareNumber => View() == before.(message := InsertOperators, result := None)
        case Invalid => View() == before.(message := InvalidExpression, result := None)
        case Off(v) => View() == before.(message := NotHundred(v), result := Some(v))
        case Hundred(v) =>
          View() == before.(message := Solved(time), result := Some(v),
                            isCorrect := true, timerRunning := false)
    {
      match verdict
      case DigitsMisused =>
        message := DigitOrderError;
        isCorrect := false;
        result := None;
      case BareNumber =>
        message := InsertOperators;
        isCorrect := false;
        result := None;
      case Invalid =>
        message := InvalidExpression;
        isCorrect := false;
        result := None;
      case Off(v) =>
        result := Some(v);
        message := NotHundred(v);
        isCorrect := false;
      case Hundred(v) =>
        result := Some(v);
        timerRunning := false;
        message := Solved(time);
        isCorrect := true;
    }
  }
}
