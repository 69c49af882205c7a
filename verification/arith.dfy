/** The subset of JavaScript arithmetic that the puzzle's expressions are
    written in, with the meaning `eval` (and `Function`) give it: decimal
    integer literals, binary `+ - * /`, right-associative `**`, unary `+`
    and `-`, and parentheses.  Evaluation is exact over `real`; a division
    by zero, which JavaScript turns into a non-finite value, is a failure.
    Anything outside this grammar is a failure too, as a `SyntaxError`
    caught by the callers is. */
module Arith {
  import opened Wrappers
  import opened Text

  datatype Token = Num(value: nat) | Plus | Minus | Star | Slash | StarStar | LParen | RParen

  datatype BinOp = Add | Sub | Mul | Div | Pow

  datatype Expr =
    | Lit(n: nat)
    | Neg(operand: Expr)
    | Pos(operand: Expr)
    | Bin(op: BinOp, left: Expr, right: Expr)

  // ---------------------------------------------------------------------
  // Tokens
  // ---------------------------------------------------------------------

  /** Length of the run of decimal digits that starts `s`. */
  function DigitRun(s: string): (k: nat)
    ensures k <= |s| && AllDigits(s[..k])
    ensures k < |s| ==> !IsDigit(s[k])
  {
    if s != [] && IsDigit(s[0]) then
      var k := 1 + DigitRun(s[1..]);
      assert s[..k] == [s[0]] + s[1..][..k - 1];
      k
    else 0
  }

  function Cons(t: Token, rest: Option<seq<Token>>): Option<seq<Token>> {
    match rest
    case None => None
    case Some(ts) => Some([t] + ts)
  }

  /** The JavaScript scanner restricted to arithmetic, longest match first:
      `**` is one token, `++` and `--` are update operators that no
      arithmetic expression accepts, a slash followed by a slash or a star opens
      a comment (not part of this model), a literal with a leading zero is a strict-mode
      syntax error, and white space separates tokens. */
  function Tokenize(s: string): Option<seq<Token>>
    decreases |s|
  {
    if s == [] then Some([])
    else if IsSpace(s[0]) then Tokenize(s[1..])
    else if IsDigit(s[0]) then
      var k := DigitRun(s);
      if s[0] == '0' && k > 1 then None
      else Cons(Num(DigitsValue(s[..k])), Tokenize(s[k..]))
    else if s[0] == '*' then
      if |s| > 1 && s[1] == '*' then Cons(StarStar, Tokenize(s[2..])) else Cons(Star, Tokenize(s[1..]))
    else if s[0] == '+' then
      if |s| > 1 && s[1] == '+' then None else Cons(Plus, Tokenize(s[1..]))
    else if s[0] == '-' then
      if |s| > 1 && s[1] == '-' then None else Cons(Minus, Tokenize(s[1..]))
    else if s[0] == '/' then
      if |s| > 1 && (s[1] == '/' || s[1] == '*') then None else Cons(Slash, Tokenize(s[1..]))
    else if s[0] == '(' then Cons(LParen, Tokenize(s[1..]))
    else if s[0] == ')' then Cons(RParen, Tokenize(s[1..]))
    else None
  }

  // ---------------------------------------------------------------------
  // Grammar (precedence climbing as in ECMAScript):
  //   Expr   := Term (('+' | '-') Term)*
  //   Term   := Factor (('*' | '/') Factor)*
  //   Factor := Unary                      when it starts with a sign
  //           | Primary ['**' Factor]      right-associative
  //   Unary  := ('+' | '-') Unary | Primary
  //   Primary:= Num | '(' Expr ')'
  // A signed operand directly followed by `**` is left unconsumed, so the
  // whole parse fails, as JavaScript's early error does.
  // ---------------------------------------------------------------------

  type Parsed = Option<(Expr, seq<Token>)>

  function ParseExpr(ts: seq<Token>): (r: Parsed)
    ensures r.Some? ==> |r.value.1| < |ts|
    decreases |ts|, 4
  {
    match ParseTerm(ts)
    case None => None
    case Some((t, rest)) => ParseExprTail(t, rest)
  }

  function ParseExprTail(acc: Expr, ts: seq<Token>): (r: Parsed)
    ensures r.Some? ==> |r.value.1| <= |ts|
    decreases |ts|, 5
  {
    if ts != [] && (ts[0] == Plus || ts[0] == Minus) then
      match ParseTerm(ts[1..])
      case None => None
      case Some((t, rest)) => ParseExprTail(Bin(if ts[0] == Plus then Add else Sub, acc, t), rest)
    else Some((acc, ts))
  }

  function ParseTerm(ts: seq<Token>): (r: Parsed)
    ensures r.Some? ==> |r.value.1| < |ts|
    decreases |ts|, 3
  {
    match ParseFactor(ts)
    case None => None
    case Some((f, rest)) => ParseTermTail(f, rest)
  }

  function ParseTermTail(acc: Expr, ts: seq<Token>): (r: Parsed)
    ensures r.Some? ==> |r.value.1| <= |ts|
    decreases |ts|, 5
  {
    if ts != [] && (ts[0] == Star || ts[0] == Slash) then
      match ParseFactor(ts[1..])
      case None => None
      case Some((f, rest)) => ParseTermTail(Bin(if ts[0] == Star then Mul else Div, acc, f), rest)
    else Some((acc, ts))
  }

  function ParseFactor(ts: seq<Token>): (r: Parsed)
    ensures r.Some? ==> |r.value.1| < |ts|
    decreases |ts|, 2
  {
    if ts == [] then None
    else if ts[0] == Plus || ts[0] == Minus then ParseUnary(ts)
    else
      match ParsePrimary(ts)
      case None => None
      case Some((b, rest)) =>
        if rest != [] && rest[0] == StarStar then
          match ParseFactor(rest[1..])
          case None => None
          case Some((e, rest2)) => Some((Bin(Pow, b, e), rest2))
        else Some((b, rest))
  }

  function ParseUnary(ts: seq<Token>): (r: Parsed)
    ensures r.Some? ==> |r.value.1| < |ts|
    decreases |ts|, 1
  {
    if ts == [] then None
    else if ts[0] == Minus || ts[0] == Plus then
      match ParseUnary(ts[1..])
      case None => None
      case Some((u, rest)) => Some((if ts[0] == Minus then Neg(u) else Pos(u), rest))
    else ParsePrimary(ts)
  }

  function ParsePrimary(ts: seq<Token>): (r: Parsed)
    ensures r.Some? ==> |r.value.1| < |ts|
    decreases |ts|, 0
  {
    if ts == [] then None
    else if ts[0].Num? then Some((Lit(ts[0].value), ts[1..]))
    else if ts[0] == LParen then
      match ParseExpr(ts[1..])
      case None => None
      case Some((e, rest)) =>
        if rest != [] && rest[0] == RParen then Some((e, rest[1..])) else None
    else None
  }

  /** A whole token sequence as one expression. */
  function Parse(ts: seq<Token>): Option<Expr> {
    match ParseExpr(ts)
    case None => None
    case Some((e, rest)) => if rest == [] then Some(e) else None
  }

  // ---------------------------------------------------------------------
  // Values
  // ---------------------------------------------------------------------

  function Power(x: real, n: nat): (r: real)
    ensures x != 0.0 ==> r != 0.0
  {
    if n == 0 then 1.0 else x * Power(x, n - 1)
  }

  /** One operator on two finite values; `None` where JavaScript produces
      a non-finite value.  Exponents are restricted to integers. */
  function Apply(op: BinOp, a: real, b: real): Option<real> {
    match op
    case Add => Some(a + b)
    case Sub => Some(a - b)
    case Mul => Some(a * b)
    case Div => if b == 0.0 then None else Some(a / b)
    case Pow =>
      if b != b.Floor as real then None
      else if b >= 0.0 then Some(Power(a, b.Floor as nat))
      else if a == 0.0 then None
      else Some(1.0 / Power(a, (-b.Floor) as nat))
  }

  function Eval(e: Expr): Option<real> {
    match e
    case Lit(n) => Some(n as real)
    case Neg(x) => (match Eval(x) case None => None case Some(v) => Some(-v))
    case Pos(x) => Eval(x)
    case Bin(op, l, r) =>
      match Eval(l)
      case None => None
      case Some(a) =>
        match Eval(r)
        case None => None
        case Some(b) => Apply(op, a, b)
  }

  /** Scan, parse and evaluate a JavaScript arithmetic source text. */
  function Evaluate(s: string): Option<real> {
    match Tokenize(s)
    case None => None
    case Some(ts) =>
      match Parse(ts)
      case None => None
      case Some(e) => Eval(e)
  }

  // ---------------------------------------------------------------------
  // Juxtaposition: no two operands stand side by side in a parsed text
  // ---------------------------------------------------------------------

  predicate EndsOperand(t: Token) { t.Num? || t == RParen }

  predicate StartsOperand(t: Token) { t.Num? || t == LParen }

  predicate NoJuxtaposition(ts: seq<Token>) {
    forall i :: 0 <= i < |ts| - 1 ==> !(EndsOperand(ts[i]) && StartsOperand(ts[i + 1]))
  }

  lemma JoinNoJuxtaposition(a: seq<Token>, b: seq<Token>)
    requires NoJuxtaposition(a) && NoJuxtaposition(b)
    requires a != [] && b != [] ==> !(EndsOperand(a[|a| - 1]) && StartsOperand(b[0]))
    ensures NoJuxtaposition(a + b)
  {
    var c := a + b;
    forall i | 0 <= i < |c| - 1
      ensures !(EndsOperand(c[i]) && StartsOperand(c[i + 1]))
    {
      if i + 1 < |a| {
        assert c[i] == a[i] && c[i + 1] == a[i + 1];
      } else if i >= |a| {
        assert c[i] == b[i - |a|] && c[i + 1] == b[i - |a| + 1];
      }
    }
  }

  /** What a successful parse consumed: a non-empty prefix without
      juxtaposed operands that ends with an operand. */
  predicate Consumed(ts: seq<Token>, rest: seq<Token>) {
    |rest| < |ts| && rest == ts[|ts| - |rest|..]
    && NoJuxtaposition(ts[..|ts| - |rest|])
    && EndsOperand(ts[|ts| - |rest| - 1])
  }

  /** What a loop over binary operators consumed: nothing, or a prefix as
      above that starts with an operator token. */
  predicate TailConsumed(ts: seq<Token>, rest: seq<Token>) {
    rest == ts
    || (Consumed(ts, rest) && !StartsOperand(ts[0]) && !EndsOperand(ts[0]))
  }

  /** Glue: an operator token followed by a consumed prefix. */
  lemma OperatorThenConsumed(ts: seq<Token>, rest: seq<Token>)
    requires ts != [] && !StartsOperand(ts[0]) && !EndsOperand(ts[0])
    requires Consumed(ts[1..], rest)
    ensures Consumed(ts, rest) && !StartsOperand(ts[0]) && !EndsOperand(ts[0])
  {
    var k := |ts| - |rest|;
    assert ts[..k] == [ts[0]] + ts[1..][..k - 1];
    JoinNoJuxtaposition([ts[0]], ts[1..][..k - 1]);
  }

  /** Glue: a consumed prefix followed by a tail. */
  lemma ConsumedThenTail(ts: seq<Token>, mid: seq<Token>, rest: seq<Token>)
    requires Consumed(ts, mid) && TailConsumed(mid, rest)
    ensures Consumed(ts, rest)
  {
    if |rest| < |mid| {
      var k1, k := |ts| - |mid|, |ts| - |rest|;
      assert ts[..k] == ts[..k1] + mid[..|mid| - |rest|];
      JoinNoJuxtaposition(ts[..k1], mid[..|mid| - |rest|]);
      assert ts[k - 1] == mid[|mid| - |rest| - 1];
    }
  }

  lemma {:induction false} ExprConsumed(ts: seq<Token>)
    ensures ParseExpr(ts).Some? ==> Consumed(ts, ParseExpr(ts).value.1)
    decreases |ts|, 4
  {
    TermConsumed(ts);
    if ParseTerm(ts).Some? {
      var (t, mid) := ParseTerm(ts).value;
      ExprTailConsumed(t, mid);
      if ParseExpr(ts).Some? {
        ConsumedThenTail(ts, mid, ParseExpr(ts).value.1);
      }
    }
  }

  lemma {:induction false} ExprTailConsumed(acc: Expr, ts: seq<Token>)
    ensures ParseExprTail(acc, ts).Some? ==> TailConsumed(ts, ParseExprTail(acc, ts).value.1)
    decreases |ts|, 5
  {
    if ts != [] && (ts[0] == Plus || ts[0] == Minus) {
      TermConsumed(ts[1..]);
      if ParseTerm(ts[1..]).Some? {
        var (t, mid) := ParseTerm(ts[1..]).value;
        OperatorThenConsumed(ts, mid);
        var acc' := Bin(if ts[0] == Plus then Add else Sub, acc, t);
        ExprTailConsumed(acc', mid);
        if ParseExprTail(acc', mid).Some? {
          ConsumedThenTail(ts, mid, ParseExprTail(acc', mid).value.1);
        }
      }
    }
  }

  lemma {:induction false} TermConsumed(ts: seq<Token>)
    ensures ParseTerm(ts).Some? ==> Consumed(ts, ParseTerm(ts).value.1)
    decreases |ts|, 3
  {
    FactorConsumed(ts);
    if ParseFactor(ts).Some? {
      var (f, mid) := ParseFactor(ts).value;
      TermTailConsumed(f, mid);
      if ParseTerm(ts).Some? {
        ConsumedThenTail(ts, mid, ParseTerm(ts).value.1);
      }
    }
  }

  lemma {:induction false} TermTailConsumed(acc: Expr, ts: seq<Token>)
    ensures ParseTermTail(acc, ts).Some? ==> TailConsumed(ts, ParseTermTail(acc, ts).value.1)
    decreases |ts|, 5
  {
    if ts != [] && (ts[0] == Star || ts[0] == Slash) {
      FactorConsumed(ts[1..]);
      if ParseFactor(ts[1..]).Some? {
        var (f, mid) := ParseFactor(ts[1..]).value;
        OperatorThenConsumed(ts, mid);
        var acc' := Bin(if ts[0] == Star then Mul else Div, acc, f);
        TermTailConsumed(acc', mid);
        if ParseTermTail(acc', mid).Some? {
          ConsumedThenTail(ts, mid, ParseTermTail(acc', mid).value.1);
        }
      }
    }
  }

  lemma {:induction false} FactorConsumed(ts: seq<Token>)
    ensures ParseFactor(ts).Some? ==> Consumed(ts, ParseFactor(ts).value.1)
    decreases |ts|, 2
  {
    if ts == [] {
    } else if ts[0] == Plus || ts[0] == Minus {
      UnaryConsumed(ts);
    } else {
      PrimaryConsumed(ts);
      if ParsePrimary(ts).Some? {
        var (b, rest) := ParsePrimary(ts).value;
        if rest != [] && rest[0] == StarStar {
          FactorConsumed(rest[1..]);
          if ParseFactor(rest[1..]).Some? {
            var rest2 := ParseFactor(rest[1..]).value.1;
            OperatorThenConsumed(rest, rest2);
            ConsumedThenTail(ts, rest, rest2);
          }
        }
      }
    }
  }

  lemma {:induction false} UnaryConsumed(ts: seq<Token>)
    ensures ParseUnary(ts).Some? ==> Consumed(ts, ParseUnary(ts).value.1)
    decreases |ts|, 1
  {
    if ts == [] {
    } else if ts[0] == Minus || ts[0] == Plus {
      UnaryConsumed(ts[1..]);
      if ParseUnary(ts[1..]).Some? {
        OperatorThenConsumed(ts, ParseUnary(ts[1..]).value.1);
      }
    } else {
      PrimaryConsumed(ts);
    }
  }

  lemma {:induction false} PrimaryConsumed(ts: seq<Token>)
    ensures ParsePrimary(ts).Some? ==> Consumed(ts, ParsePrimary(ts).value.1)
    decreases |ts|, 0
  {
    if ts != [] && ts[0] == LParen {
      ExprConsumed(ts[1..]);
      if ParseExpr(ts[1..]).Some? {
        var (e, rest) := ParseExpr(ts[1..]).value;
        if rest != [] && rest[0] == RParen {
          var k := |ts| - |rest|;
          // ts[..k + 1] is '(' + inner + ')'
          var inner := ts[1..][..|ts| - 1 - |rest|];
          assert ts[..k + 1] == [LParen] + inner + [RParen];
          JoinNoJuxtaposition([LParen], inner);
          JoinNoJuxtaposition([LParen] + inner, [RParen]);
        }
      }
    }
  }

  /** A token sequence that parses has no operand directly followed by
      another operand: `(1)2`, `2(3)` and `1 2` are all rejected. */
  lemma ParsedHasNoJuxtaposition(ts: seq<Token>)
    requires Parse(ts).Some?
    ensures NoJuxtaposition(ts)
  {
    ExprConsumed(ts);
    assert ts[..|ts|] == ts;
  }

  // ---------------------------------------------------------------------
  // A closing parenthesis directly followed by an operand never evaluates
  // ---------------------------------------------------------------------

  /** `s` contains `)` immediately followed by a decimal digit. */
  predicate CloseThenDigit(s: string) {
    |s| >= 2 && ((s[0] == ')' && IsDigit(s[1])) || CloseThenDigit(s[1..]))
  }

  /** `s` contains `)` immediately followed by the first character of an
      operand: a decimal digit or `(`. */
  predicate CloseThenOperand(s: string) {
    |s| >= 2 && ((s[0] == ')' && (IsDigit(s[1]) || s[1] == '(')) || CloseThenOperand(s[1..]))
  }

  lemma {:induction false} CloseThenDigitSkip(s: string, j: nat)
    requires CloseThenDigit(s) && j <= |s|
    requires forall i :: 0 <= i < j ==> s[i] != ')'
    ensures CloseThenDigit(s[j..])
  {
    if j > 0 {
      CloseThenDigitSkip(s[1..], j - 1);
      assert s[1..][j - 1..] == s[j..];
    }
  }

  lemma {:induction false} CloseThenOperandSkip(s: string, j: nat)
    requires CloseThenOperand(s) && j <= |s|
    requires forall i :: 0 <= i < j ==> s[i] != ')'
    ensures CloseThenOperand(s[j..])
  {
    if j > 0 {
      CloseThenOperandSkip(s[1..], j - 1);
      assert s[1..][j - 1..] == s[j..];
    }
  }

  lemma {:induction false} CloseThenDigitIsOperand(s: string)
    requires CloseThenDigit(s)
    ensures CloseThenOperand(s)
  {
    if !(s[0] == ')' && IsDigit(s[1])) {
      CloseThenDigitIsOperand(s[1..]);
    }
  }

  /** The pair at position `i` is found by the scan. */
  lemma {:induction false} CloseThenOperandAt(s: string, i: nat)
    requires i + 1 < |s| && s[i] == ')' && (IsDigit(s[i + 1]) || s[i + 1] == '(')
    ensures CloseThenOperand(s)
  {
    if i > 0 {
      CloseThenOperandAt(s[1..], i - 1);
    }
  }

  lemma ConsKeepsJuxtaposition(t: Token, ts: seq<Token>)
    requires !NoJuxtaposition(ts)
    ensures !NoJuxtaposition([t] + ts)
  {
    var i :| 0 <= i < |ts| - 1 && EndsOperand(ts[i]) && StartsOperand(ts[i + 1]);
    assert ([t] + ts)[i + 1] == ts[i] && ([t] + ts)[i + 2] == ts[i + 1];
  }

  /** Scanning `)` then a digit or `(` yields a `)` token directly followed
      by a token that starts an operand. */
  lemma {:induction false} CloseThenOperandTokens(s: string)
    requires CloseThenOperand(s) && Tokenize(s).Some?
    ensures !NoJuxtaposition(Tokenize(s).value)
    decreases |s|
  {
    if IsSpace(s[0]) {
      CloseThenOperandTokens(s[1..]);
    } else if IsDigit(s[0]) {
      var k := DigitRun(s);
      assert forall i :: 0 <= i < k ==> IsDigit(s[..k][i]);
      CloseThenOperandSkip(s, k);
      CloseThenOperandTokens(s[k..]);
      ConsKeepsJuxtaposition(Num(DigitsValue(s[..k])), Tokenize(s[k..]).value);
    } else if s[0] == '*' && |s| > 1 && s[1] == '*' {
      CloseThenOperandSkip(s, 2);
      CloseThenOperandTokens(s[2..]);
      ConsKeepsJuxtaposition(StarStar, Tokenize(s[2..]).value);
    } else if s[0] == ')' && (IsDigit(s[1]) || s[1] == '(') {
      var tail := Tokenize(s[1..]).value;
      assert StartsOperand(tail[0]);
      assert ([RParen] + tail)[0] == RParen && ([RParen] + tail)[1] == tail[0];
    } else {
      CloseThenOperandTokens(s[1..]);
      var t := if s[0] == '*' then Star else if s[0] == '+' then Plus else if s[0] == '-' then Minus
               else if s[0] == '/' then Slash else if s[0] == '(' then LParen else RParen;
      ConsKeepsJuxtaposition(t, Tokenize(s[1..]).value);
    }
  }

  /** A text with `)` directly followed by a digit or by `(` -- such as
      `(1)2` or `(1)(2)` -- has no value: it either fails to scan or fails
      to parse. */
  lemma CloseThenOperandHasNoValue(s: string)
    requires CloseThenOperand(s)
    ensures Evaluate(s) == None
  {
    if Tokenize(s).Some? {
      CloseThenOperandTokens(s);
      if Parse(Tokenize(s).value).Some? {
        ParsedHasNoJuxtaposition(Tokenize(s).value);
      }
    }
  }

  lemma CloseThenDigitHasNoValue(s: string)
    requires CloseThenDigit(s)
    ensures Evaluate(s) == None
  {
    CloseThenDigitIsOperand(s);
    CloseThenOperandHasNoValue(s);
  }

  // ---------------------------------------------------------------------
  // Worked examples
  // ---------------------------------------------------------------------

  predicate IsArithOperator(c: char) { c == '+' || c == '-' || c == '*' || c == '/' }
  /** A character that is a token on its own. */
  predicate SingleChar(c: char) { IsDigit(c) || IsArithOperator(c) || c == '(' || c == ')' }
  /** A text of one-character tokens where no two digits and no two
      operators stand next to each other, so that every character is
      scanned as a token of its own. */
  predicate Separated(s: string) {
    && (forall i :: 0 <= i < |s| ==> SingleChar(s[i]))
    && (forall i :: 0 <= i < |s| - 1 ==> !(IsDigit(s[i]) && IsDigit(s[i + 1])))
    && (forall i :: 0 <= i < |s| - 1 ==> !(IsArithOperator(s[i]) && IsArithOperator(s[i + 1])))
  }
  function CharToken(c: char): Token
    requires SingleChar(c)
  {
    if IsDigit(c) then Num(DigitValue(c))
    else if c == '+' then Plus else if c == '-' then Minus else if c == '*' then Star
    else if c == '/' then Slash else if c == '(' then LParen else RParen
  }
  function SingleTokens(s: string): (ts: seq<Token>)
    requires forall i :: 0 <= i < |s| ==> SingleChar(s[i])
    ensures |ts| == |s| && forall i :: 0 <= i < |s| ==> ts[i] == CharToken(s[i])
  {
    if s == [] then [] else [CharToken(s[0])] + SingleTokens(s[1..])
  }
  /** Such a text scans character by character. */
  lemma {:induction false} TokenizeSeparated(s: string)
    requires Separated(s)
    ensures Tokenize(s) == Some(SingleTokens(s))
  {
    if s != [] {
      TokenizeSeparated(s[1..]);
      if IsDigit(s[0]) {
        assert DigitRun(s) == 1 by {
          if |s| > 1 { assert s[1..][0] == s[1]; }
        }
        assert s[..1] == [s[0]];
        assert DigitsValue([s[0]]) == DigitValue(s[0]) by { assert [s[0]][..0] == []; }
      }
    }
  }

  lemma TokensHundred(s: string)
    requires s == "5*5*4"
    ensures Tokenize(s) == Some([Num(5), Star, Num(5), Star, Num(4)])
  {
    TokenizeSeparated(s);
    var ts := SingleTokens(s);
    assert ts[0] == CharToken(s[0]) == Num(5);
    assert ts[1] == CharToken(s[1]) == Star;
    assert ts[2] == CharToken(s[2]) == Num(5);
    assert ts[3] == CharToken(s[3]) == Star;
    assert ts[4] == CharToken(s[4]) == Num(4);
    assert ts == [Num(5), Star, Num(5), Star, Num(4)];
  }

  /** `5*5*4` is worth 100, so the search has something to find. */
  lemma EvaluateHundred(s: string)
    requires s == "5*5*4"
    ensures Evaluate(s) == Some(100.0)
  {
    TokensHundred(s);
    ParseHundred();
    EvalHundred();
  }


  lemma ParseHundred()
    ensures Parse([Num(5), Star, Num(5), Star, Num(4)]) == Some(Bin(Mul, Bin(Mul, Lit(5), Lit(5)), Lit(4)))
  {
  }

  lemma EvalHundred()
    ensures Eval(Bin(Mul, Bin(Mul, Lit(5), Lit(5)), Lit(4))) == Some(100.0)
  {
    assert Eval(Bin(Mul, Lit(5), Lit(5))) == Some(25.0);
  }

  lemma TokensPrecedence(s: string)
    requires s == "1+2*3"
    ensures Tokenize(s) == Some([Num(1), Plus, Num(2), Star, Num(3)])
  {
    TokenizeSeparated(s);
    var ts := SingleTokens(s);
    assert ts[0] == CharToken(s[0]) == Num(1);
    assert ts[1] == CharToken(s[1]) == Plus;
    assert ts[2] == CharToken(s[2]) == Num(2);
    assert ts[3] == CharToken(s[3]) == Star;
    assert ts[4] == CharToken(s[4]) == Num(3);
    assert ts == [Num(1), Plus, Num(2), Star, Num(3)];
  }

  /** `*` binds tighter than `+`: `1+2*3` is 7, not 9. */
  lemma EvaluatePrecedence(s: string)
    requires s == "1+2*3"
    ensures Evaluate(s) == Some(7.0)
  {
    TokensPrecedence(s);
    ParsePrecedence();
    EvalPrecedence();
  }


  lemma ParsePrecedence()
    ensures Parse([Num(1), Plus, Num(2), Star, Num(3)]) == Some(Bin(Add, Lit(1), Bin(Mul, Lit(2), Lit(3))))
  {
  }

  lemma EvalPrecedence()
    ensures Eval(Bin(Add, Lit(1), Bin(Mul, Lit(2), Lit(3)))) == Some(7.0)
  {
    assert Eval(Bin(Mul, Lit(2), Lit(3))) == Some(6.0);
  }

  lemma TokensDivZero(s: string)
    requires s == "1/0"
    ensures Tokenize(s) == Some([Num(1), Slash, Num(0)])
  {
    TokenizeSeparated(s);
    var ts := SingleTokens(s);
    assert ts[0] == CharToken(s[0]) == Num(1);
    assert ts[1] == CharToken(s[1]) == Slash;
    assert ts[2] == CharToken(s[2]) == Num(0);
    assert ts == [Num(1), Slash, Num(0)];
  }

  /** A division by zero has no value. */
  lemma EvaluateDivZero(s: string)
    requires s == "1/0"
    ensures Evaluate(s) == None
  {
    TokensDivZero(s);
    ParseDivZero();
    EvalDivZero();
  }


  lemma ParseDivZero()
    ensures Parse([Num(1), Slash, Num(0)]) == Some(Bin(Div, Lit(1), Lit(0)))
  {
  }

  lemma EvalDivZero()
    ensures Eval(Bin(Div, Lit(1), Lit(0))) == None
  {
  }

  lemma TokensJuxtaposed(s: string)
    requires s == "(1)2"
    ensures Tokenize(s) == Some([LParen, Num(1), RParen, Num(2)])
  {
    TokenizeSeparated(s);
    var ts := SingleTokens(s);
    assert ts[0] == CharToken(s[0]) == LParen;
    assert ts[1] == CharToken(s[1]) == Num(1);
    assert ts[2] == CharToken(s[2]) == RParen;
    assert ts[3] == CharToken(s[3]) == Num(2);
    assert ts == [LParen, Num(1), RParen, Num(2)];
  }

  /** A parenthesised operand followed by a digit has no value. */
  lemma EvaluateJuxtaposed(s: string)
    requires s == "(1)2"
    ensures Evaluate(s) == None
  {
    TokensJuxtaposed(s);
    ParseJuxtaposed();
  }
  lemma ParseJuxtaposed()
    ensures Parse([LParen, Num(1), RParen, Num(2)]) == None
  {}

  /** `**` groups to the right: `2**3**2` is `2**(3**2)`, ... */
  lemma PowerRightAssociative()
    ensures Parse([Num(2), StarStar, Num(3), StarStar, Num(2)]) == Some(Bin(Pow, Lit(2), Bin(Pow, Lit(3), Lit(2))))
  {
  }

  /** ... which is 512, not `(2**3)**2` = 64. */
  lemma PowerRightValue()
    ensures Eval(Bin(Pow, Lit(2), Bin(Pow, Lit(3), Lit(2)))) == Some(512.0)
    ensures Eval(Bin(Pow, Bin(Pow, Lit(2), Lit(3)), Lit(2))) == Some(64.0)
  {
    assert Eval(Bin(Pow, Lit(3), Lit(2))) == Some(9.0);
    assert Eval(Bin(Pow, Lit(2), Lit(3))) == Some(8.0);
  }

  lemma SolutionSeparated(s: string)
    requires s == "5*5*4*1*1*1"
    ensures Separated(s)
  {
  }

  lemma TokensSolution(s: string)
    requires s == "5*5*4*1*1*1"
    ensures Tokenize(s) == Some([Num(5), Star, Num(5), Star, Num(4), Star,
                                       Num(1), Star, Num(1), Star, Num(1)])
  {
    SolutionSeparated(s);
    TokenizeSeparated(s);
    var ts := SingleTokens(s);
    assert ts[0] == CharToken(s[0]) == Num(5);
    assert ts[1] == CharToken(s[1]) == Star;
    assert ts[2] == CharToken(s[2]) == Num(5);
    assert ts[3] == CharToken(s[3]) == Star;
    assert ts[4] == CharToken(s[4]) == Num(4);
    assert ts[5] == CharToken(s[5]) == Star;
    assert ts[6] == CharToken(s[6]) == Num(1);
    assert ts[7] == CharToken(s[7]) == Star;
    assert ts[8] == CharToken(s[8]) == Num(1);
    assert ts[9] == CharToken(s[9]) == Star;
    assert ts[10] == CharToken(s[10]) == Num(1);
    assert ts == [Num(5), Star, Num(5), Star, Num(4), Star,
                  Num(1), Star, Num(1), Star, Num(1)];
  }

  /** One `* d` more in a product chain. */
  lemma TermTailStep(acc: Expr, d: nat, rest: seq<Token>)
    requires rest == [] || rest[0] != StarStar
    ensures ParseTermTail(acc, [Star, Num(d)] + rest)
         == ParseTermTail(Bin(Mul, acc, Lit(d)), rest)
  {
    var ts := [Star, Num(d)] + rest;
    assert ts[1..] == [Num(d)] + rest;
    assert ([Num(d)] + rest)[1..] == rest;
    assert ParsePrimary(ts[1..]) == Some((Lit(d), rest));
  }

  /** `5*5*4*1*1*1` as the parser groups it: products to the left. */
  function SolutionTree(): Expr {
    var m := (a, b) => Bin(Mul, a, b);
    m(m(m(m(m(Lit(5), Lit(5)), Lit(4)), Lit(1)), Lit(1)), Lit(1))
  }

  lemma TermTailSolution(ts: seq<Token>)
    requires ts == [Star, Num(5), Star, Num(4), Star,
                    Num(1), Star, Num(1), Star, Num(1)]
    ensures ParseTermTail(Lit(5), ts) == Some((SolutionTree(), []))
  {
    var l5, l4, l1 := Lit(5), Lit(4), Lit(1);
    var e1 := Bin(Mul, l5, l5);
    var e2 := Bin(Mul, e1, l4);
    var e3 := Bin(Mul, e2, l1);
    var e4 := Bin(Mul, e3, l1);
    assert ts == [Star, Num(5)] + ts[2..];
    assert ts[2..] == [Star, Num(4)] + ts[4..];
    assert ts[4..] == [Star, Num(1)] + ts[6..];
    assert ts[6..] == [Star, Num(1)] + ts[8..];
    assert ts[8..] == [Star, Num(1)] + [];
    TermTailStep(l5, 5, ts[2..]);
    TermTailStep(e1, 4, ts[4..]);
    TermTailStep(e2, 1, ts[6..]);
    TermTailStep(e3, 1, ts[8..]);
    TermTailStep(e4, 1, []);
  }

  lemma ParseSolution(ts: seq<Token>)
    requires ts == [Num(5), Star, Num(5), Star, Num(4), Star,
                    Num(1), Star, Num(1), Star, Num(1)]
    ensures Parse(ts) == Some(SolutionTree())
  {
    TermTailSolution(ts[1..]);
    assert ts[1..][0] == Star;
    assert ParsePrimary(ts) == Some((Lit(5), ts[1..]));
    assert ParseFactor(ts) == Some((Lit(5), ts[1..]));
    assert ParseTerm(ts) == Some((SolutionTree(), []));
    assert ParseExprTail(SolutionTree(), []) == Some((SolutionTree(), []));
    assert ParseExpr(ts) == Some((SolutionTree(), []));
  }

  lemma EvalSolution()
    ensures Eval(SolutionTree()) == Some(100.0)
  {
    assert Eval(Bin(Mul, Bin(Mul, Lit(5), Lit(5)), Lit(4))) == Some(100.0);
  }

  /** `5*5*4*1*1*1`, a solution the puzzle search finds, is worth 100. */
  lemma EvaluateSolution(s: string)
    requires s == "5*5*4*1*1*1"
    ensures Evaluate(s) == Some(100.0)
  {
    TokensSolution(s);
    ParseSolution(Tokenize(s).value);
    EvalSolution();
  }
}
