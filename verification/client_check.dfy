/** The answer check that the two browser pages (`Gameplay.jsx`, the timed
    game, and `Gamepage.jsx`, the practice game) run before and instead of
    asking the server: the digits-only projection that enforces the
    original digit order, the sanitizer, the regular-expression pre-filter,
    and evaluation of what survives inside `return (…)`. */
module ClientCheck {
  import opened Wrappers
  import opened Text
  import Arith
  import Puzzle

  // ---------------------------------------------------------------------
  // Digits, in order
  // ---------------------------------------------------------------------

  /** `checkDigitOrderAndContent(expr)`: deleting every non-digit leaves
      exactly the puzzle number. */
  predicate DigitsInOrder(expr: string, number: string) {
    DigitsOnly(expr) == number
  }

  /** The page's check is stricter than the server's `validateNumbers`:
      an expression that passes it uses exactly the puzzle's digits 1-9,
      in order, so the server accepts its digits too. */
  lemma DigitsInOrderPassesServer(expr: string, numbers: seq<int>)
    requires forall i :: 0 <= i < |numbers| ==> 1 <= numbers[i] <= 9
    requires DigitsInOrder(expr, Puzzle.DigitString(numbers))
    ensures Puzzle.UsedDigits(expr) == numbers
    ensures Puzzle.ValidateNumbers(numbers, expr)
  {
    Puzzle.NonZeroDigitsOfDigitString(numbers);
  }

  /** The converse fails: the server ignores order, the pages do not. */
  lemma ServerIgnoresOrder()
    ensures Puzzle.ValidateNumbers([1, 2], "2+1")
    ensures !DigitsInOrder("2+1", "12")
  {
    ReversedDigits();
    SortTwo();
  }

  /** The digits of `2+1`, in the order they are written. */
  lemma ReversedDigits()
    ensures DigitsOnly("2+1") == "21" && Puzzle.UsedDigits("2+1") == [2, 1]
  {
    var e := "2+1";
    assert e[1..][1..] == "1" && e[1..] == "+1";
    assert DigitsOnly(e) == "21";
    assert "21"[1..] == "1";
  }

  lemma SortTwo()
    ensures Puzzle.SortInts([2, 1]) == [1, 2] && Puzzle.SortInts([1, 2]) == [1, 2]
  {
    assert [2, 1][1..] == [1];
    assert [1, 2][1..] == [2];
    assert Puzzle.SortInts([1]) == [1] by {
      assert [1][1..] == [];
    }
    assert Puzzle.SortInts([2]) == [2] by {
      assert [2][1..] == [];
    }
  }

  // ---------------------------------------------------------------------
  // Sanitizer
  // ---------------------------------------------------------------------

  /** The characters the sanitizer keeps: digits, `.`, the four operators,
      parentheses, and `^` when `caret` is set. */
  predicate Kept(c: char, caret: bool) {
    IsDigit(c) || c == '.' || c == '+' || c == '-' || c == '*' || c == '/' || c == '(' || c == ')'
    || (caret && c == '^')
  }

  /** `s.replace(/[^0-9.+\-*\/()^]/g, '')` (with `caret`) or
      `s.replace(/[^0-9.+\-*\/()]/g, '')` (without). */
  function Strip(s: string, caret: bool): (r: string)
    ensures |r| <= |s|
    ensures forall i :: 0 <= i < |r| ==> Kept(r[i], caret)
  {
    if s == [] then []
    else if Kept(s[0], caret) then [s[0]] + Strip(s[1..], caret)
    else Strip(s[1..], caret)
  }

  /** The timed page strips first, keeping `^`, then writes `^` as `**`. */
  function GameplaySanitize(s: string): string {
    Puzzle.CaretToStars(Strip(s, true))
  }

  /** The practice page writes `^` as `**` first, then strips. */
  function GamepageSanitize(s: string): string {
    Strip(Puzzle.CaretToStars(s), false)
  }

  /** The two orders give the same text. */
  lemma {:induction false} SanitizersAgree(s: string)
    ensures GameplaySanitize(s) == GamepageSanitize(s)
  {
    if s != [] {
      SanitizersAgree(s[1..]);
      var rest := Puzzle.CaretToStars(s[1..]);
      if s[0] == '^' {
        var u := "**" + rest;
        assert Puzzle.CaretToStars(s) == u;
        assert u[1..] == "*" + rest && u[1..][1..] == rest;
        assert Strip(u, false) == "**" + Strip(rest, false);
      } else {
        assert Puzzle.CaretToStars(s) == [s[0]] + rest;
        assert ([s[0]] + rest)[1..] == rest;
        if Kept(s[0], true) {
          assert Strip(s, true) == [s[0]] + Strip(s[1..], true);
        }
      }
    }
  }

  /** `^` survives the timed page's strip. */
  lemma {:induction false} StripKeepsCaret(s: string)
    requires '^' in s
    ensures '^' in Strip(s, true)
  {
    if s[0] != '^' {
      assert '^' in s[1..];
      StripKeepsCaret(s[1..]);
    }
  }

  // ---------------------------------------------------------------------
  // Pre-filter
  // ---------------------------------------------------------------------

  predicate IsOperatorChar(c: char) { c == '+' || c == '-' || c == '*' || c == '/' }

  /** `/([+\-*\/]){2,}/`: two operator characters in a row. */
  predicate DoubleOperator(t: string) {
    exists i :: 0 <= i < |t| - 1 && IsOperatorChar(t[i]) && IsOperatorChar(t[i + 1])
  }

  /** `/^[*\/^]/`. */
  predicate BadStart(t: string) {
    t != [] && (t[0] == '*' || t[0] == '/' || t[0] == '^')
  }

  /** `/[+\-*\/^]$/`. */
  predicate BadEnd(t: string) {
    t != [] && (IsOperatorChar(t[|t| - 1]) || t[|t| - 1] == '^')
  }

  /** `a` directly followed by `b` somewhere in `t` (`/\(\)/`, `/\)\(/`). */
  predicate HasPair(t: string, a: char, b: char) {
    exists i :: 0 <= i < |t| - 1 && t[i] == a && t[i + 1] == b
  }

  /** `/\d\(/`. */
  predicate DigitThenOpen(t: string) {
    exists i :: 0 <= i < |t| - 1 && IsDigit(t[i]) && t[i + 1] == '('
  }

  /** `/\)\d/`. */
  predicate CloseThenDigitAt(t: string) {
    exists i :: 0 <= i < |t| - 1 && t[i] == ')' && IsDigit(t[i + 1])
  }

  /** The "invalid mathematical syntax" test on the sanitized text; only the
      timed page has the `)(` rule. */
  predicate SyntaxRejected(t: string, closeOpenRule: bool) {
    t == [] || DoubleOperator(t) || BadStart(t) || BadEnd(t) || HasPair(t, '(', ')')
    || DigitThenOpen(t) || CloseThenDigitAt(t) || (closeOpenRule && HasPair(t, ')', '('))
  }

  /** Writing `^` as `**` puts two operators in a row. */
  lemma {:induction false} CaretMakesDoubleOperator(u: string)
    requires '^' in u
    ensures DoubleOperator(Puzzle.CaretToStars(u))
  {
    var r := Puzzle.CaretToStars(u);
    if u[0] == '^' {
      assert r == "**" + Puzzle.CaretToStars(u[1..]);
      assert IsOperatorChar(r[0]) && IsOperatorChar(r[1]);
    } else {
      assert '^' in u[1..];
      CaretMakesDoubleOperator(u[1..]);
      var t := Puzzle.CaretToStars(u[1..]);
      var i :| 0 <= i < |t| - 1 && IsOperatorChar(t[i]) && IsOperatorChar(t[i + 1]);
      assert r == [u[0]] + t;
      assert r[i + 1] == t[i] && r[i + 2] == t[i + 1];
    }
  }

  // ---------------------------------------------------------------------
  // Evaluation and the verdict
  // ---------------------------------------------------------------------

  /** `Function("'use strict'; return (" + t + ")")()`: the text is
      evaluated inside a pair of parentheses, so `50)+(50` is `100`. */
  function ClientValue(t: string): Option<real> {
    Arith.Evaluate("(" + t + ")")
  }

  const Tolerance: real := 0.000001

  predicate NearHundred(v: real) {
    Puzzle.Abs(v - 100.0) < Tolerance
  }

  /** The two pages: `Gameplay.jsx` (timed) and `Gamepage.jsx` (practice). */
  datatype Page = TimedPage | PracticePage

  function Sanitize(page: Page, s: string): string {
    if page == TimedPage then GameplaySanitize(s) else GamepageSanitize(s)
  }

  /** Which branch of `checkExpression` an answer takes. */
  datatype Verdict =
    | DigitsMisused           // digits not exactly the number, in order
    | BareNumber              // no operator inserted
    | Invalid                 // rejected by the pre-filter, or no finite value
    | Off(value: real)        // a value, not within the tolerance of 100
    | Hundred(value: real)    // a value within the tolerance of 100

  /** The decision `checkExpression` makes, in its order: digits, then the
      bare number, then the pre-filter, then the value. */
  function Judge(page: Page, expression: string, number: string): (v: Verdict)
    ensures v == DigitsMisused <==> !DigitsInOrder(expression, number)
    ensures v == BareNumber <==> DigitsInOrder(expression, number) && expression == number
    ensures v.Off? || v.Hundred? ==>
      DigitsInOrder(expression, number) && expression != number
      && ClientValue(Sanitize(page, expression)) == Some(v.value)
    ensures v.Off? || v.Hundred? ==> !SyntaxRejected(Sanitize(page, expression), page == TimedPage)
    ensures v == Invalid <==>
      && DigitsInOrder(expression, number) && expression != number
      && (SyntaxRejected(Sanitize(page, expression), page == TimedPage)
          || ClientValue(Sanitize(page, expression)).None?)
    ensures v.Hundred? ==> NearHundred(v.value)
    ensures v.Off? ==> !NearHundred(v.value)
  {
    if !DigitsInOrder(expression, number) then DigitsMisused
    else if expression == number then BareNumber
    else
      var t := Sanitize(page, expression);
      if SyntaxRejected(t, page == TimedPage) then Invalid
      else match ClientValue(t)
        case None => Invalid
        case Some(v) => if NearHundred(v) then Hundred(v) else Off(v)
  }

  /** An expression with `^` never gets a value on either page: `^`
      becomes `**`, which the double-operator rule rejects. */
  lemma CaretNeverEvaluated(page: Page, expression: string, number: string)
    requires '^' in expression
    ensures Judge(page, expression, number) in {DigitsMisused, BareNumber, Invalid}
  {
    StripKeepsCaret(expression);
    CaretMakesDoubleOperator(Strip(expression, true));
    SanitizersAgree(expression);
  }

  /** The practice page's missing `)(` rule makes no difference: whatever
      it lets through with `)(` has no value, so both pages reach the same
      verdict on every answer. */
  lemma PagesAgree(expression: string, number: string)
    ensures Judge(TimedPage, expression, number) == Judge(PracticePage, expression, number)
  {
    SanitizersAgree(expression);
    var t := GameplaySanitize(expression);
    if HasPair(t, ')', '(') {
      var i :| 0 <= i < |t| - 1 && t[i] == ')' && t[i + 1] == '(';
      var w := "(" + t + ")";
      assert w[i + 1] == ')' && w[i + 2] == '(';
      Arith.CloseThenOperandAt(w, i + 1);
      Arith.CloseThenOperandHasNoValue(w);
    }
  }

  /** Clearing the operators leaves an answer that is only the number. */
  lemma ClearedIsBare(page: Page, number: string)
    requires AllDigits(number)
    ensures Judge(page, number, number) == BareNumber
  {
    DigitsOnlyOfDigits(number);
  }

  /** A page accepts only answers whose digits the server accepts too. */
  lemma HundredPassesServerDigits(page: Page, expression: string, numbers: seq<int>)
    requires forall i :: 0 <= i < |numbers| ==> 1 <= numbers[i] <= 9
    requires Judge(page, expression, Puzzle.DigitString(numbers)).Hundred?
    ensures Puzzle.ValidateNumbers(numbers, expression)
  {
    DigitsInOrderPassesServer(expression, numbers);
  }

  /** Inserting text without digits at the caret keeps the digit check. */
  lemma InsertKeepsDigits(expression: string, inserted: string, at: nat)
    requires at <= |expression| && DigitsOnly(inserted) == []
    ensures DigitsOnly(expression[..at] + inserted + expression[at..]) == DigitsOnly(expression)
  {
    DigitsOnlyAppend(expression[..at] + inserted, expression[at..]);
    DigitsOnlyAppend(expression[..at], inserted);
    DigitsOnlyAppend(expression[..at], expression[at..]);
    assert expression[..at] + expression[at..] == expression;
  }
}
