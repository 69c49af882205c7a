/** The "make 100 from six digits" engine, `MathPuzzleGame`: the operator
    palette of a level, the candidate operator sequences, the permutations
    of the digits (Heap's algorithm), the rendering of one candidate as a
    text, the two answer checks, and one pass of the search for a solution. */
module Puzzle {
  import opened Wrappers
  import opened Text
  import Arith

  /** The operator tokens of the palette: `+ - * /`, the parenthesising
      marker `()` and exponentiation `**`. */
  datatype Op = Add | Sub | Mul | Div | Paren | Pow

  function OpText(o: Op): string {
    match o
    case Add => "+"
    case Sub => "-"
    case Mul => "*"
    case Div => "/"
    case Paren => "()"
    case Pow => "**"
  }

  // ---------------------------------------------------------------------
  // Palette and operator sequences
  // ---------------------------------------------------------------------

  /** The operators a level may use. */
  function AllowedOperations(level: int): (ops: seq<Op>)
    ensures |ops| == if level <= 10 then 4 else if level <= 20 then 5 else 6
    ensures ops[..4] == [Add, Sub, Mul, Div]
    ensures (Paren in ops) <==> level > 10
    ensures (Pow in ops) <==> level > 20
  {
    if level <= 10 then [Add, Sub, Mul, Div]
    else if level <= 20 then [Add, Sub, Mul, Div, Paren]
    else [Add, Sub, Mul, Div, Paren, Pow]
  }

  /** Each band's palette is contained in the next one's. */
  lemma PaletteMonotone(lower: int, higher: int)
    requires lower <= higher
    ensures forall o :: o in AllowedOperations(lower) ==> o in AllowedOperations(higher)
  {
  }

  /** Every sequence of `acc` extended by every operator of `palette`, in
      the order of `acc.flatMap(d => palette.map(e => [...d, e]))`. */
  function Extend(acc: seq<seq<Op>>, palette: seq<Op>): seq<seq<Op>> {
    if acc == [] then []
    else seq(|palette|, i requires 0 <= i < |palette| => acc[0] + [palette[i]]) + Extend(acc[1..], palette)
  }

  /** The `length`-fold Cartesian product of the palette, first position
      most significant (`getOperationCombinations`). */
  function Combinations(palette: seq<Op>, length: nat): seq<seq<Op>>
    requires length >= 1
  {
    if length == 1 then seq(|palette|, i requires 0 <= i < |palette| => [palette[i]])
    else Extend(Combinations(palette, length - 1), palette)
  }

  function IntPow(k: nat, n: nat): nat {
    if n == 0 then 1 else k * IntPow(k, n - 1)
  }

  lemma {:induction false} ExtendCount(acc: seq<seq<Op>>, palette: seq<Op>)
    ensures |Extend(acc, palette)| == |acc| * |palette|
  {
    if acc != [] {
      ExtendCount(acc[1..], palette);
      MulSucc(|acc| - 1, |palette|);
    }
  }

  lemma {:induction false} ExtendMember(acc: seq<seq<Op>>, palette: seq<Op>, x: seq<Op>)
    ensures x in Extend(acc, palette) <==> |x| >= 1 && x[..|x| - 1] in acc && x[|x| - 1] in palette
  {
    if acc != [] {
      ExtendMember(acc[1..], palette, x);
      var head := seq(|palette|, i requires 0 <= i < |palette| => acc[0] + [palette[i]]);
      assert Extend(acc, palette) == head + Extend(acc[1..], palette);
      if x in head {
        var i :| 0 <= i < |palette| && head[i] == x;
        assert x[..|x| - 1] == acc[0];
      }
      if |x| >= 1 && x[..|x| - 1] == acc[0] && x[|x| - 1] in palette {
        var i :| 0 <= i < |palette| && palette[i] == x[|x| - 1];
        assert head[i] == x;
      }
      assert x in Extend(acc, palette) <==> x in head || x in Extend(acc[1..], palette);
      assert |x| >= 1 ==> (x[..|x| - 1] in acc <==> x[..|x| - 1] == acc[0] || x[..|x| - 1] in acc[1..]);
    }
  }

  /** Every element of `c` is one of the palette's operators. */
  predicate OverPalette(c: seq<Op>, palette: seq<Op>) {
    forall k :: 0 <= k < |c| ==> c[k] in palette
  }

  lemma OverPaletteSnoc(c: seq<Op>, palette: seq<Op>)
    requires |c| >= 1
    ensures OverPalette(c, palette) <==> OverPalette(c[..|c| - 1], palette) && c[|c| - 1] in palette
  {
    if OverPalette(c[..|c| - 1], palette) && c[|c| - 1] in palette {
      forall k | 0 <= k < |c| ensures c[k] in palette {
        if k < |c| - 1 { assert c[k] == c[..|c| - 1][k]; }
      }
    }
  }

  /** There are k^length operator sequences. */
  lemma {:induction false} CombinationsCount(palette: seq<Op>, length: nat)
    requires length >= 1
    ensures |Combinations(palette, length)| == IntPow(|palette|, length)
  {
    if length > 1 {
      CombinationsCount(palette, length - 1);
      ExtendCount(Combinations(palette, length - 1), palette);
    }
  }

  lemma SingletonMember(palette: seq<Op>, c: seq<Op>)
    ensures c in Combinations(palette, 1) <==> |c| == 1 && OverPalette(c, palette)
  {
    var cs := Combinations(palette, 1);
    if c in cs {
      var i :| 0 <= i < |cs| && cs[i] == c;
      assert c == [palette[i]];
    }
    if |c| == 1 && OverPalette(c, palette) {
      assert c[0] in palette;
      var i :| 0 <= i < |palette| && palette[i] == c[0];
      assert cs[i] == c;
    }
  }

  /** Each operator sequence has the requested length and draws every
      element from the palette, and every such sequence is among them. */
  lemma {:induction false} CombinationsMembers(palette: seq<Op>, length: nat)
    requires length >= 1
    ensures forall c {:trigger c in Combinations(palette, length)} :: c in Combinations(palette, length) <==> |c| == length && OverPalette(c, palette)
  {
    var cs := Combinations(palette, length);
    if length == 1 {
      forall c ensures c in cs <==> |c| == 1 && OverPalette(c, palette) {
        SingletonMember(palette, c);
      }
    } else {
      var prev := Combinations(palette, length - 1);
      CombinationsMembers(palette, length - 1);
      forall c ensures c in cs <==> |c| == length && OverPalette(c, palette) {
        ExtendMember(prev, palette, c);
        if |c| >= 1 {
          OverPaletteSnoc(c, palette);
        }
      }
    }
  }

  // ---------------------------------------------------------------------
  // Permutations: Heap's algorithm
  // ---------------------------------------------------------------------

  function Swap(s: seq<int>, i: nat, j: nat): (r: seq<int>)
    requires i < |s| && j < |s|
    ensures |r| == |s|
  {
    seq(|s|, k requires 0 <= k < |s| => if k == j then s[i] else if k == i then s[j] else s[k])
  }

  /** What `permute(arr, n)` yields, in order, and the contents it leaves
      in `arr`; `n <= 1` yields a copy of the whole array.  The measure
      names the array length (which every round keeps) beside `n`, so that
      a known `n` alone does not unroll all n! rounds. */
  function HeapRun(s: seq<int>, n: nat): (r: (seq<seq<int>>, seq<int>))
    requires n <= |s|
    ensures |r.1| == |s|
    decreases n, |s|, 1, 0
  {
    if n <= 1 then ([s], s) else HeapLoop(s, n, 0)
  }

  /** Rounds i, i+1, ..., n-1 of the loop in `permute(arr, n)`. */
  function HeapLoop(s: seq<int>, n: nat, i: nat): (r: (seq<seq<int>>, seq<int>))
    requires 2 <= n <= |s| && i <= n
    ensures |r.1| == |s|
    decreases n, |s|, 0, n - i
  {
    if i == n then ([], s)
    else
      var inner := HeapRun(s, n - 1);
      var rest := HeapLoop(Swap(inner.1, n - 1, if n % 2 == 1 then 0 else i), n, i + 1);
      (inner.0 + rest.0, rest.1)
  }

  function Factorial(n: nat): (f: nat)
    ensures f >= 1
  {
    if n == 0 then 1 else n * Factorial(n - 1)
  }

  /** The generator yields exactly n! arrays. */
  lemma {:induction false} HeapRunCount(s: seq<int>, n: nat)
    requires n <= |s|
    ensures |HeapRun(s, n).0| == Factorial(n)
    decreases n, 1, 0
  {
    if n > 1 {
      HeapLoopCount(s, n, 0);
    }
  }

  lemma {:induction false} HeapLoopCount(s: seq<int>, n: nat, i: nat)
    requires 2 <= n <= |s| && i <= n
    ensures |HeapLoop(s, n, i).0| == (n - i) * Factorial(n - 1)
    decreases n, 0, n - i
  {
    if i < n {
      var inner := HeapRun(s, n - 1);
      HeapRunCount(s, n - 1);
      var rest := HeapLoop(Swap(inner.1, n - 1, if n % 2 == 1 then 0 else i), n, i + 1);
      HeapLoopCount(Swap(inner.1, n - 1, if n % 2 == 1 then 0 else i), n, i + 1);
      assert HeapLoop(s, n, i).0 == inner.0 + rest.0;
      MulSucc(n - (i + 1), Factorial(n - 1));
    }
  }

  lemma MulSucc(a: nat, b: nat)
    ensures (a + 1) * b == b + a * b
  {
  }

  lemma SwapRearranges(s: seq<int>, i: nat, j: nat)
    requires i < |s| && j < |s|
    ensures IsRearrangement(Swap(s, i, j), s)
  {
    assert Swap(s, i, j) == s[i := s[j]][j := s[i]];
  }

  lemma HeapLoopUnfold(s: seq<int>, n: nat, i: nat)
    requires 2 <= n <= |s| && i < n
    ensures var after := Swap(HeapRun(s, n - 1).1, n - 1, if n % 2 == 1 then 0 else i);
      HeapLoop(s, n, i).0 == HeapRun(s, n - 1).0 + HeapLoop(after, n, i + 1).0
      && HeapLoop(s, n, i).1 == HeapLoop(after, n, i + 1).1
  {
  }

  /** One round of the loop in `permute`, as the array version takes it:
      the arrays yielded so far plus what the rest of the loop yields from
      the new array state are still everything the loop yields. */
  lemma HeapLoopStep(start: seq<int>, before: seq<int>, n: nat, i: nat,
                     done: seq<seq<int>>, ys: seq<seq<int>>, after: seq<int>)
    requires 2 <= n <= |before| && i < n && |start| == |before|
    requires ys == HeapRun(before, n - 1).0
    requires after == Swap(HeapRun(before, n - 1).1, n - 1, if n % 2 == 1 then 0 else i)
    requires HeapLoop(start, n, 0).0 == done + HeapLoop(before, n, i).0
    requires HeapLoop(start, n, 0).1 == HeapLoop(before, n, i).1
    ensures HeapLoop(start, n, 0).0 == (done + ys) + HeapLoop(after, n, i + 1).0
    ensures HeapLoop(start, n, 0).1 == HeapLoop(after, n, i + 1).1
  {
    HeapLoopUnfold(before, n, i);
  }

  /** `y` holds the elements of `s`, each as often, in some order. */
  predicate IsRearrangement(y: seq<int>, s: seq<int>) {
    |y| == |s| && multiset(y) == multiset(s)
  }

  /** Every array in `ys` rearranges `s`. */
  predicate AllRearrange(ys: seq<seq<int>>, s: seq<int>) {
    forall y :: y in ys ==> IsRearrangement(y, s)
  }

  /** Arrays that rearrange `s`, followed by arrays that rearrange a
      rearrangement `t` of `s`, all rearrange `s`. */
  lemma ConcatRearranges(a: seq<seq<int>>, b: seq<seq<int>>, t: seq<int>, s: seq<int>)
    requires AllRearrange(a, s) && AllRearrange(b, t) && IsRearrangement(t, s)
    ensures AllRearrange(a + b, s)
  {
    forall y | y in a + b ensures IsRearrangement(y, s) {
      if y !in a {
        assert y in b;
      }
    }
  }

  /** The array `permute` leaves behind is a rearrangement of the input. */
  lemma {:induction false} HeapRunLeaves(s: seq<int>, n: nat)
    requires n <= |s|
    ensures IsRearrangement(HeapRun(s, n).1, s)
    decreases n, 1, 0
  {
    if n > 1 {
      HeapLoopLeaves(s, n, 0);
    }
  }

  lemma {:induction false} HeapLoopLeaves(s: seq<int>, n: nat, i: nat)
    requires 2 <= n <= |s| && i <= n
    ensures IsRearrangement(HeapLoop(s, n, i).1, s)
    decreases n, 0, n - i
  {
    if i < n {
      var j: nat := if n % 2 == 1 then 0 else i;
      var inner := HeapRun(s, n - 1);
      HeapRunLeaves(s, n - 1);
      var t := Swap(inner.1, n - 1, j);
      SwapRearranges(inner.1, n - 1, j);
      HeapLoopLeaves(t, n, i + 1);
      HeapLoopUnfold(s, n, i);
    }
  }

  /** Every array `permute` yields is a rearrangement of the input. */
  lemma {:induction false} HeapRunYields(s: seq<int>, n: nat)
    requires n <= |s|
    ensures AllRearrange(HeapRun(s, n).0, s)
    decreases n, 1, 0
  {
    if n > 1 {
      HeapLoopYields(s, n, 0);
    }
  }

  lemma {:induction false} HeapLoopYields(s: seq<int>, n: nat, i: nat)
    requires 2 <= n <= |s| && i <= n
    ensures AllRearrange(HeapLoop(s, n, i).0, s)
    decreases n, 0, n - i
  {
    if i < n {
      var j: nat := if n % 2 == 1 then 0 else i;
      var inner := HeapRun(s, n - 1);
      HeapRunYields(s, n - 1);
      HeapRunLeaves(s, n - 1);
      var t := Swap(inner.1, n - 1, j);
      SwapRearranges(inner.1, n - 1, j);
      HeapLoopYields(t, n, i + 1);
      HeapLoopUnfold(s, n, i);
      ConcatRearranges(inner.0, HeapLoop(t, n, i + 1).0, t, s);
    }
  }

  // ---------------------------------------------------------------------
  // Digits and the rendering of a candidate
  // ---------------------------------------------------------------------

  /** Six digits, each 1 to 9, as the generator draws them. */
  predicate IsPuzzleDigits(numbers: seq<int>) {
    |numbers| == 6 && forall i :: 0 <= i < |numbers| ==> 1 <= numbers[i] <= 9
  }

  /** The decimal rendering of a sequence of single digits. */
  function DigitString(numbers: seq<int>): (r: string)
    requires forall i :: 0 <= i < |numbers| ==> 0 <= numbers[i] <= 9
    ensures |r| == |numbers| && AllDigits(r)
    ensures forall i :: 0 <= i < |numbers| ==> r[i] == DigitChar(numbers[i])
  {
    if numbers == [] then [] else DigitString(numbers[..|numbers| - 1]) + [DigitChar(numbers[|numbers| - 1])]
  }

  /** The text accumulated after the first `i` rounds of the loop in
      `buildExpression`: append the digit, then either wrap everything so
      far in parentheses (the `()` marker, above level 5) or append the
      operator's text. */
  function Prefix(level: int, numbers: seq<int>, operations: seq<Op>, i: nat): string
    requires IsPuzzleDigits(numbers) && |operations| == 5 && i <= 5
    decreases i, |numbers|, 0
  {
    if i == 0 then ""
    else
      var e := Step(level, numbers, operations, i - 1);
      if level > 5 && operations[i - 1] == Paren then "(" + e + ")" else e + OpText(operations[i - 1])
  }

  /** The text right after the digit of round `i` has been appended.  As
      with `HeapRun`, the measure names `numbers` so that a known round
      number does not unroll every round. */
  function Step(level: int, numbers: seq<int>, operations: seq<Op>, i: nat): string
    requires IsPuzzleDigits(numbers) && |operations| == 5 && i <= 5
    decreases i, |numbers|, 1
  {
    Prefix(level, numbers, operations, i) + [DigitChar(numbers[i])]
  }

  /** One round of the loop in `buildExpression` without the `()` marker. */
  lemma PrefixSucc(level: int, numbers: seq<int>, operations: seq<Op>, i: nat)
    requires IsPuzzleDigits(numbers) && |operations| == 5 && i < 5
    requires !(level > 5 && operations[i] == Paren)
    ensures Prefix(level, numbers, operations, i + 1)
         == Prefix(level, numbers, operations, i) + [DigitChar(numbers[i])] + OpText(operations[i])
  {
  }

  /** `s.replace(/\*\*\/g, '^')`: every `**`, scanning left to right. */
  function StarsToCaret(s: string): string {
    if |s| >= 2 && s[0] == '*' && s[1] == '*' then "^" + StarsToCaret(s[2..])
    else if s == [] then []
    else [s[0]] + StarsToCaret(s[1..])
  }

  /** `s.replace(/\^/g, '**')`. */
  function CaretToStars(s: string): string {
    if s == [] then []
    else if s[0] == '^' then "**" + CaretToStars(s[1..])
    else [s[0]] + CaretToStars(s[1..])
  }

  predicate Allowed(c: char) {
    IsDigit(c) || c == '+' || c == '-' || c == '*' || c == '/' || c == '(' || c == ')' || c == '^'
  }

  /** `s.replace(/[^0-9+\-*\/()^]/g, '')`. */
  function StripDisallowed(s: string): string {
    if s == [] then []
    else if Allowed(s[0]) then [s[0]] + StripDisallowed(s[1..])
    else StripDisallowed(s[1..])
  }

  /** `buildExpression(numbers, operations)` on a level. */
  function Build(level: int, numbers: seq<int>, operations: seq<Op>): string
    requires IsPuzzleDigits(numbers) && |operations| == 5
  {
    StripDisallowed(StarsToCaret(Step(level, numbers, operations, |operations|)))
  }

  predicate NoDoubleStar(s: string) {
    forall i :: 0 <= i < |s| - 1 ==> !(s[i] == '*' && s[i + 1] == '*')
  }

  predicate AllAllowed(s: string) {
    forall i :: 0 <= i < |s| ==> Allowed(s[i])
  }

  lemma {:induction false} StripAllowed(s: string)
    requires AllAllowed(s)
    ensures StripDisallowed(s) == s
  {
    if s != [] {
      StripAllowed(s[1..]);
    }
  }

  lemma StarsToCaretFacts(s: string)
    ensures NoDoubleStar(StarsToCaret(s))
    ensures DigitsOnly(StarsToCaret(s)) == DigitsOnly(s)
    ensures AllAllowed(s) ==> AllAllowed(StarsToCaret(s))
    ensures s != [] && s[0] != '*' ==> StarsToCaret(s) != [] && StarsToCaret(s)[0] == s[0]
    ensures Arith.CloseThenDigit(s) ==> Arith.CloseThenDigit(StarsToCaret(s))
  {
    StarsToCaretNoDoubleStar(s);
    StarsToCaretDigits(s);
    if AllAllowed(s) {
      StarsToCaretAllowed(s);
    }
    if Arith.CloseThenDigit(s) {
      StarsToCaretCloseThenDigit(s);
    }
  }

  lemma StarsToCaretHead(s: string)
    requires s != [] && s[0] != '*'
    ensures StarsToCaret(s) == [s[0]] + StarsToCaret(s[1..])
  {
  }

  lemma {:induction false} StarsToCaretNoDoubleStar(s: string)
    ensures NoDoubleStar(StarsToCaret(s))
    decreases |s|
  {
    var r := StarsToCaret(s);
    if |s| >= 2 && s[0] == '*' && s[1] == '*' {
      var t := StarsToCaret(s[2..]);
      StarsToCaretNoDoubleStar(s[2..]);
      assert r == "^" + t;
      forall i | 0 <= i < |r| - 1 ensures !(r[i] == '*' && r[i + 1] == '*') {
        if i > 0 { assert r[i] == t[i - 1] && r[i + 1] == t[i]; }
      }
    } else if s != [] {
      var t := StarsToCaret(s[1..]);
      StarsToCaretNoDoubleStar(s[1..]);
      assert r == [s[0]] + t;
      if |s| >= 2 && s[1] != '*' {
        StarsToCaretHead(s[1..]);
        assert t[0] == s[1];
      }
      forall i | 0 <= i < |r| - 1 ensures !(r[i] == '*' && r[i + 1] == '*') {
        if i > 0 { assert r[i] == t[i - 1] && r[i + 1] == t[i]; }
      }
    }
  }

  lemma {:induction false} StarsToCaretDigits(s: string)
    ensures DigitsOnly(StarsToCaret(s)) == DigitsOnly(s)
    decreases |s|
  {
    if |s| >= 2 && s[0] == '*' && s[1] == '*' {
      StarsToCaretDigits(s[2..]);
      assert StarsToCaret(s) == "^" + StarsToCaret(s[2..]);
      DigitsOnlyAppend("^", StarsToCaret(s[2..]));
      assert DigitsOnly(s) == DigitsOnly(s[1..]) == DigitsOnly(s[2..]);
    } else if s != [] {
      StarsToCaretDigits(s[1..]);
      assert StarsToCaret(s) == [s[0]] + StarsToCaret(s[1..]);
      DigitsOnlyAppend([s[0]], StarsToCaret(s[1..]));
      DigitsOnlyAppend([s[0]], s[1..]);
      assert s == [s[0]] + s[1..];
    }
  }

  lemma {:induction false} StarsToCaretAllowed(s: string)
    requires AllAllowed(s)
    ensures AllAllowed(StarsToCaret(s))
    decreases |s|
  {
    var r := StarsToCaret(s);
    if |s| >= 2 && s[0] == '*' && s[1] == '*' {
      var t := StarsToCaret(s[2..]);
      assert AllAllowed(s[2..]) by {
        forall i | 0 <= i < |s[2..]| ensures Allowed(s[2..][i]) { assert s[2..][i] == s[i + 2]; }
      }
      StarsToCaretAllowed(s[2..]);
      assert r == "^" + t;
      forall i | 0 <= i < |r| ensures Allowed(r[i]) { if i > 0 { assert r[i] == t[i - 1]; } }
    } else if s != [] {
      var t := StarsToCaret(s[1..]);
      assert AllAllowed(s[1..]) by {
        forall i | 0 <= i < |s[1..]| ensures Allowed(s[1..][i]) { assert s[1..][i] == s[i + 1]; }
      }
      StarsToCaretAllowed(s[1..]);
      assert r == [s[0]] + t;
      forall i | 0 <= i < |r| ensures Allowed(r[i]) { if i > 0 { assert r[i] == t[i - 1]; } }
    }
  }

  lemma {:induction false} StarsToCaretCloseThenDigit(s: string)
    requires Arith.CloseThenDigit(s)
    ensures Arith.CloseThenDigit(StarsToCaret(s))
    decreases |s|
  {
    var r := StarsToCaret(s);
    if s[0] == '*' && s[1] == '*' {
      Arith.CloseThenDigitSkip(s, 2);
      StarsToCaretCloseThenDigit(s[2..]);
      assert r == "^" + StarsToCaret(s[2..]);
      assert r[1..] == StarsToCaret(s[2..]);
    } else {
      var t := StarsToCaret(s[1..]);
      assert r == [s[0]] + t && r[1..] == t;
      if s[0] == ')' && IsDigit(s[1]) {
        StarsToCaretHead(s[1..]);
        assert r[1] == s[1];
      } else {
        StarsToCaretCloseThenDigit(s[1..]);
      }
    }
  }

  lemma {:induction false} CaretToStarsKeepsCloseThenDigit(s: string)
    requires Arith.CloseThenDigit(s)
    ensures Arith.CloseThenDigit(CaretToStars(s))
  {
    var r := CaretToStars(s);
    if s[0] == ')' && IsDigit(s[1]) {
      assert r == [')'] + CaretToStars(s[1..]);
      assert CaretToStars(s[1..])[0] == s[1];
    } else {
      CaretToStarsKeepsCloseThenDigit(s[1..]);
      if s[0] == '^' {
        assert r == "**" + CaretToStars(s[1..]);
        assert r[1..] == "*" + CaretToStars(s[1..]);
        assert r[1..][1..] == CaretToStars(s[1..]);
      } else {
        assert r[1..] == CaretToStars(s[1..]);
      }
    }
  }

  /** A text without `**` is left alone by the rewrite to `^`. */
  lemma {:induction false} StarsToCaretIdentity(s: string)
    requires NoDoubleStar(s)
    ensures StarsToCaret(s) == s
  {
    if s != [] {
      assert NoDoubleStar(s[1..]) by {
        forall i | 0 <= i < |s[1..]| - 1 ensures !(s[1..][i] == '*' && s[1..][i + 1] == '*') {
          assert s[1..][i] == s[i + 1] && s[1..][i + 1] == s[i + 2];
        }
      }
      StarsToCaretIdentity(s[1..]);
      assert !(|s| >= 2 && s[0] == '*' && s[1] == '*');
    }
  }

  /** Round trip: on a text without `^`, rewriting `**` to `^` and back
      gives the text again. */
  lemma {:induction false} CaretStarsRoundTrip(s: string)
    requires forall i :: 0 <= i < |s| ==> s[i] != '^'
    ensures CaretToStars(StarsToCaret(s)) == s
    decreases |s|
  {
    if |s| >= 2 && s[0] == '*' && s[1] == '*' {
      CaretStarsRoundTrip(s[2..]);
      var t := StarsToCaret(s[2..]);
      assert ("^" + t)[1..] == t;
      assert CaretToStars("^" + t) == "**" + CaretToStars(t);
      assert s == "**" + s[2..];
    } else if s != [] {
      CaretStarsRoundTrip(s[1..]);
      var t := StarsToCaret(s[1..]);
      assert ([s[0]] + t)[1..] == t;
      assert CaretToStars([s[0]] + t) == [s[0]] + CaretToStars(t);
      assert s == [s[0]] + s[1..];
    }
  }

  lemma OpTextFacts(o: Op)
    ensures DigitsOnly(OpText(o)) == [] && AllAllowed(OpText(o))
  {
    match o
    case Add =>
    case Sub =>
    case Mul =>
    case Div =>
    case Paren =>
      assert DigitsOnly(OpText(o)) == DigitsOnly(OpText(o)[1..]);
    case Pow =>
      assert DigitsOnly(OpText(o)) == DigitsOnly(OpText(o)[1..]);
  }

  lemma AllAllowedConcat(a: string, b: string)
    requires AllAllowed(a) && AllAllowed(b)
    ensures AllAllowed(a + b)
  {
    forall i | 0 <= i < |a + b| ensures Allowed((a + b)[i]) {
      if i >= |a| { assert (a + b)[i] == b[i - |a|]; }
    }
  }

  /** Every round's text is made of allowed characters only. */
  lemma {:induction false} PrefixAllowed(level: int, numbers: seq<int>, operations: seq<Op>, i: nat)
    requires IsPuzzleDigits(numbers) && |operations| == 5 && i <= 5
    ensures AllAllowed(Prefix(level, numbers, operations, i))
  {
    if i > 0 {
      PrefixAllowed(level, numbers, operations, i - 1);
      var e := Step(level, numbers, operations, i - 1);
      AllAllowedConcat(Prefix(level, numbers, operations, i - 1), [DigitChar(numbers[i - 1])]);
      if level > 5 && operations[i - 1] == Paren {
        AllAllowedConcat("(", e);
        AllAllowedConcat("(" + e, ")");
      } else {
        OpTextFacts(operations[i - 1]);
        AllAllowedConcat(e, OpText(operations[i - 1]));
      }
    }
  }

  /** The digits of the text before round `i` are the first `i` digits. */
  lemma {:induction false} PrefixDigits(level: int, numbers: seq<int>, operations: seq<Op>, i: nat)
    requires IsPuzzleDigits(numbers) && |operations| == 5 && i <= 5
    ensures DigitsOnly(Prefix(level, numbers, operations, i)) == DigitString(numbers[..i])
  {
    if i > 0 {
      PrefixDigits(level, numbers, operations, i - 1);
      RoundDigits(level, numbers, operations, i - 1);
      DigitStringSnoc(numbers, i);
    }
  }

  /** Round `i` adds exactly the digit `numbers[i]` to the digits so far. */
  lemma RoundDigits(level: int, numbers: seq<int>, operations: seq<Op>, i: nat)
    requires IsPuzzleDigits(numbers) && |operations| == 5 && i < 5
    ensures DigitsOnly(Prefix(level, numbers, operations, i + 1))
         == DigitsOnly(Prefix(level, numbers, operations, i)) + [DigitChar(numbers[i])]
  {
    var p := Prefix(level, numbers, operations, i);
    var d := [DigitChar(numbers[i])];
    var e := Step(level, numbers, operations, i);
    assert e == p + d;
    DigitsOnlyAppend(p, d);
    if level > 5 && operations[i] == Paren {
      assert Prefix(level, numbers, operations, i + 1) == "(" + e + ")";
      DigitsOnlyAppend("(", e);
      DigitsOnlyAppend("(" + e, ")");
    } else {
      assert Prefix(level, numbers, operations, i + 1) == e + OpText(operations[i]);
      OpTextFacts(operations[i]);
      DigitsOnlyAppend(e, OpText(operations[i]));
    }
  }

  lemma DigitStringSnoc(numbers: seq<int>, i: nat)
    requires 0 < i <= |numbers| && forall k :: 0 <= k < |numbers| ==> 0 <= numbers[k] <= 9
    ensures DigitString(numbers[..i]) == DigitString(numbers[..i - 1]) + [DigitChar(numbers[i - 1])]
  {
    assert numbers[..i][..i - 1] == numbers[..i - 1];
  }

  /** The rendered candidate, with its non-digits removed, is the digit
      sequence in the given order; it is made only of the allowed
      characters and never contains `**` (exponentiation reads `^`). */
  lemma BuildFacts(level: int, numbers: seq<int>, operations: seq<Op>)
    requires IsPuzzleDigits(numbers) && |operations| == 5
    ensures DigitsOnly(Build(level, numbers, operations)) == DigitString(numbers)
    ensures AllAllowed(Build(level, numbers, operations))
    ensures NoDoubleStar(Build(level, numbers, operations))
  {
    var raw := Step(level, numbers, operations, |operations|);
    PrefixDigits(level, numbers, operations, |operations|);
    PrefixAllowed(level, numbers, operations, |operations|);
    var p := Prefix(level, numbers, operations, |operations|);
    DigitsOnlyAppend(p, [DigitChar(numbers[5])]);
    assert numbers[..5] + [numbers[5]] == numbers;
    assert DigitString(numbers) == DigitString(numbers[..5]) + [DigitChar(numbers[5])] by {
      assert numbers[..|numbers| - 1] == numbers[..5];
    }
    assert AllAllowed(raw);
    StarsToCaretFacts(raw);
    StripAllowed(StarsToCaret(raw));
  }

  lemma CloseThenDigitAppend(a: string, b: string)
    requires Arith.CloseThenDigit(a)
    ensures Arith.CloseThenDigit(a + b)
  {
    if !(a[0] == ')' && IsDigit(a[1])) {
      CloseThenDigitAppend(a[1..], b);
      assert (a + b)[1..] == a[1..] + b;
    }
  }

  lemma CloseThenDigitPrepend(a: string, b: string)
    requires Arith.CloseThenDigit(b)
    ensures Arith.CloseThenDigit(a + b)
  {
    if a == [] {
      assert a + b == b;
    } else {
      CloseThenDigitPrepend(a[1..], b);
      assert (a + b)[1..] == a[1..] + b;
    }
  }

  lemma EndsWithCloseThenDigit(a: string, d: char)
    requires a != [] && a[|a| - 1] == ')' && IsDigit(d)
    ensures Arith.CloseThenDigit(a + [d])
  {
    if |a| > 1 {
      EndsWithCloseThenDigit(a[1..], d);
      assert (a + [d])[1..] == a[1..] + [d];
    }
  }

  /** Once round `p` wraps the prefix, every later text has `)` directly
      followed by the next digit. */
  lemma {:induction false} StepAfterParen(level: int, numbers: seq<int>, operations: seq<Op>, p: nat, i: nat)
    requires IsPuzzleDigits(numbers) && |operations| == 5
    requires p < i <= 5 && level > 5 && operations[p] == Paren
    ensures Arith.CloseThenDigit(Step(level, numbers, operations, i))
  {
    var d := DigitChar(numbers[i]);
    var pre := Prefix(level, numbers, operations, i);
    if i == p + 1 {
      EndsWithCloseThenDigit(pre, d);
    } else {
      StepAfterParen(level, numbers, operations, p, i - 1);
      var e := Step(level, numbers, operations, i - 1);
      if operations[i - 1] == Paren {
        CloseThenDigitPrepend("(", e);
        CloseThenDigitAppend("(" + e, ")");
      } else {
        CloseThenDigitAppend(e, OpText(operations[i - 1]));
      }
      CloseThenDigitAppend(pre, [d]);
    }
  }

  // ---------------------------------------------------------------------
  // Checking an answer
  // ---------------------------------------------------------------------

  /** The digits 1 to 9 of an expression as numbers, in order
      (`(e.match(/[1-9]/g) || []).map(Number)`). */
  function UsedDigits(e: string): (r: seq<int>)
    ensures forall i :: 0 <= i < |r| ==> 1 <= r[i] <= 9
  {
    NonZeroDigits(DigitsOnly(e))
  }

  function NonZeroDigits(s: string): (r: seq<int>)
    requires AllDigits(s)
    ensures forall i :: 0 <= i < |r| ==> 1 <= r[i] <= 9
  {
    if s == [] then []
    else if s[0] == '0' then NonZeroDigits(s[1..])
    else [DigitValue(s[0]) as int] + NonZeroDigits(s[1..])
  }

  lemma {:induction false} NonZeroDigitsOfDigitString(numbers: seq<int>)
    requires forall i :: 0 <= i < |numbers| ==> 1 <= numbers[i] <= 9
    ensures NonZeroDigits(DigitString(numbers)) == numbers
  {
    if numbers != [] {
      var s := DigitString(numbers);
      assert s[1..] == DigitString(numbers[1..]);
      NonZeroDigitsOfDigitString(numbers[1..]);
    }
  }

  /** One step of the ascending sort (`[...xs].sort((a, b) => a - b)`):
      `x` goes before the first element it does not exceed. */
  function Insert(x: int, s: seq<int>): (r: seq<int>)
    ensures multiset(r) == multiset(s) + multiset{x}
  {
    if s == [] || x <= s[0] then [x] + s
    else
      assert s == [s[0]] + s[1..];
      [s[0]] + Insert(x, s[1..])
  }

  predicate Sorted(s: seq<int>) {
    forall i, j :: 0 <= i < j < |s| ==> s[i] <= s[j]
  }

  /** A bound below `x` and every element of `s` is below every element
      of the insertion. */
  lemma InsertBounded(x: int, s: seq<int>, b: int)
    requires b <= x && forall i :: 0 <= i < |s| ==> b <= s[i]
    ensures forall i :: 0 <= i < |Insert(x, s)| ==> b <= Insert(x, s)[i]
  {
    var t := Insert(x, s);
    forall i | 0 <= i < |t| ensures b <= t[i] {
      assert t[i] in multiset(t);
      if t[i] != x {
        assert t[i] in multiset(s);
        var k :| 0 <= k < |s| && s[k] == t[i];
      }
    }
  }

  lemma {:induction false} InsertSorted(x: int, s: seq<int>)
    requires Sorted(s)
    ensures Sorted(Insert(x, s))
  {
    if s != [] && x > s[0] {
      var t := Insert(x, s[1..]);
      InsertSorted(x, s[1..]);
      InsertBounded(x, s[1..], s[0]);
      assert Insert(x, s) == [s[0]] + t;
    }
  }


  function SortInts(s: seq<int>): (r: seq<int>)
    ensures Sorted(r) && multiset(r) == multiset(s)
  {
    if s == [] then []
    else
      var rest := SortInts(s[1..]);
      InsertSorted(s[0], rest);
      assert s == [s[0]] + s[1..];
      Insert(s[0], rest)
  }

  /** Two sorted sequences with the same elements are equal. */
  lemma {:induction false} SortedUnique(a: seq<int>, b: seq<int>)
    requires Sorted(a) && Sorted(b) && multiset(a) == multiset(b)
    ensures a == b
    decreases |a|
  {
    if a == [] {
      assert |b| == |multiset(b)| == 0;
    } else {
      assert |b| == |multiset(b)| == |a|;
      SortedHeadIsMin(a, b[0]);
      SortedHeadIsMin(b, a[0]);
      var a', b' := a[1..], b[1..];
      assert a == [a[0]] + a' && b == [b[0]] + b';
      assert a[0] == b[0];
      assert multiset(a') == multiset(a) - multiset{a[0]};
      assert multiset(b') == multiset(b) - multiset{b[0]};
      SortedUnique(a', b');
    }
  }

  /** The head of a non-empty sorted sequence is its least element. */
  lemma SortedHeadIsMin(s: seq<int>, x: int)
    requires Sorted(s) && s != [] && x in multiset(s)
    ensures s[0] <= x
  {
    assert x in s;
    var k :| 0 <= k < |s| && s[k] == x;
    if k > 0 { assert s[0] <= s[k]; }
  }

  /** `validateNumbers`: the sorted digits 1-9 of the expression equal the
      sorted puzzle numbers.  Comparing sorted lists is comparing
      multisets: order is irrelevant and zeros are ignored. */
  function ValidateNumbers(currentNumbers: seq<int>, e: string): (ok: bool)
    ensures ok <==> multiset(UsedDigits(e)) == multiset(currentNumbers)
  {
    var used, puzzle := SortInts(UsedDigits(e)), SortInts(currentNumbers);
    if multiset(UsedDigits(e)) == multiset(currentNumbers) then
      SortedUnique(used, puzzle);
      used == puzzle
    else
      used == puzzle
  }

  function Abs(x: real): real { if x < 0.0 then -x else x }

  /** `validateExpression`: `^` read as `**`, evaluated, and within 1e-4
      of 100; any failure is `false`. */
  function ValidateExpression(e: string): bool {
    match Arith.Evaluate(CaretToStars(e))
    case None => false
    case Some(v) => Abs(v - 100.0) < 0.0001
  }

  /** `checkAnswer`: the answer uses exactly the puzzle's digits, in any
      order, and is worth 100. */
  function CheckAnswer(currentNumbers: seq<int>, e: string): (ok: bool)
    ensures ok <==> multiset(UsedDigits(e)) == multiset(currentNumbers) && ValidateExpression(e)
  {
    ValidateNumbers(currentNumbers, e) && ValidateExpression(e)
  }

  /** A candidate is rendered with `^` and checked with `**`: for a text
      without `^`, the check of its rendering is the check of the text
      itself. */
  lemma ValidateRendered(s: string)
    requires forall i :: 0 <= i < |s| ==> s[i] != '^'
    ensures ValidateExpression(StarsToCaret(s)) <==>
      Arith.Evaluate(s).Some? && Abs(Arith.Evaluate(s).value - 100.0) < 0.0001
  {
    CaretStarsRoundTrip(s);
  }

  /** A candidate that uses the `()` marker above level 5 renders as
      `(…)d` and can never evaluate. */
  lemma ParenCandidateNeverValid(level: int, numbers: seq<int>, operations: seq<Op>)
    requires IsPuzzleDigits(numbers) && |operations| == 5
    requires level > 5 && Paren in operations
    ensures !ValidateExpression(Build(level, numbers, operations))
  {
    var p :| 0 <= p < 5 && operations[p] == Paren;
    var raw := Step(level, numbers, operations, |operations|);
    StepAfterParen(level, numbers, operations, p, |operations|);
    StarsToCaretFacts(raw);
    PrefixDigits(level, numbers, operations, |operations|);
    PrefixAllowed(level, numbers, operations, |operations|);
    assert AllAllowed(raw);
    StripAllowed(StarsToCaret(raw));
    CaretToStarsKeepsCloseThenDigit(Build(level, numbers, operations));
    Arith.CloseThenDigitHasNoValue(CaretToStars(Build(level, numbers, operations)));
  }

  // ---------------------------------------------------------------------
  // One pass of the search
  // ---------------------------------------------------------------------

  /** A rearrangement of puzzle digits is puzzle digits. */
  lemma RearrangedPuzzleDigits(p: seq<int>, drawn: seq<int>)
    requires IsPuzzleDigits(drawn) && IsRearrangement(p, drawn)
    ensures IsPuzzleDigits(p)
  {
    forall i | 0 <= i < |p| ensures 1 <= p[i] <= 9 {
      assert p[i] in multiset(drawn);
      var k :| 0 <= k < |drawn| && drawn[k] == p[i];
    }
  }

  /** The candidate built from `numbers` and `operations` is worth 100. */
  predicate Hits(level: int, numbers: seq<int>, operations: seq<Op>) {
    IsPuzzleDigits(numbers) && |operations| == 5 && ValidateExpression(Build(level, numbers, operations))
  }

  /** What the search looks for: a test on a (permutation, operator
      sequence) pair. */
  type Criterion = (seq<int>, seq<Op>) -> bool

  /** The level's test, as the search applies it. */
  function HitAt(level: int): Criterion {
    (numbers: seq<int>, operations: seq<Op>) => Hits(level, numbers, operations)
  }

  /** The first operator sequence, in enumeration order, that passes `hit`
      together with `numbers`. */
  function FirstOps(hit: Criterion, numbers: seq<int>, combos: seq<seq<Op>>): (r: Option<seq<Op>>)
    ensures r.Some? ==> r.value in combos && hit(numbers, r.value)
  {
    if combos == [] then None
    else if hit(numbers, combos[0]) then Some(combos[0])
    else FirstOps(hit, numbers, combos[1..])
  }

  /** The first (permutation, operator sequence) pair, permutations outer,
      that passes `hit`. */
  function FirstSolution(hit: Criterion, perms: seq<seq<int>>, combos: seq<seq<Op>>): (r: Option<(seq<int>, seq<Op>)>)
    ensures r.Some? ==> r.value.0 in perms && r.value.1 in combos && hit(r.value.0, r.value.1)
  {
    if perms == [] then None
    else
      match FirstOps(hit, perms[0], combos)
      case Some(ops) => Some((perms[0], ops))
      case None => FirstSolution(hit, perms[1..], combos)
  }

  /** The permutations `permute` yields for the drawn digits, in order. */
  function Yields(drawn: seq<int>): seq<seq<int>> {
    HeapRun(drawn, |drawn|).0
  }

  /** Every yielded permutation is a rearrangement of the drawn digits. */
  lemma YieldsRearrange(drawn: seq<int>, p: seq<int>)
    requires p in Yields(drawn)
    ensures IsRearrangement(p, drawn)
  {
    HeapRunYields(drawn, |drawn|);
  }

  /** `getOperationCombinations(5)` for a level. */
  function Combos(level: int): (combos: seq<seq<Op>>)
    ensures forall c {:trigger c in combos} :: c in combos <==> |c| == 5 && OverPalette(c, AllowedOperations(level))
  {
    CombinationsMembers(AllowedOperations(level), 5);
    Combinations(AllowedOperations(level), 5)
  }

  /** One pass of `generateNumbersWithSolution` over the drawn digits: the
      permutations in generator order, each against every operator
      sequence of the level's palette; the result is the winning
      permutation and its candidate text. */
  function Search(level: int, drawn: seq<int>): Option<(seq<int>, string)> {
    var found := FirstSolution(HitAt(level), Yields(drawn), Combos(level));
    if found.None? then None else Some((found.value.0, Build(level, found.value.0, found.value.1)))
  }

  /** When the operator search returns nothing, no operator sequence
      tried passes. */
  lemma {:induction false} FirstOpsNone(hit: Criterion, numbers: seq<int>, combos: seq<seq<Op>>)
    requires FirstOps(hit, numbers, combos).None?
    ensures forall c :: c in combos ==> !hit(numbers, c)
  {
    if combos != [] {
      FirstOpsNone(hit, numbers, combos[1..]);
      forall c | c in combos ensures !hit(numbers, c) {
        if c != combos[0] {
          assert c in combos[1..];
        }
      }
    }
  }

  /** When the search returns nothing, no pair passes. */
  lemma {:induction false} FirstSolutionNone(hit: Criterion, perms: seq<seq<int>>, combos: seq<seq<Op>>)
    requires FirstSolution(hit, perms, combos).None?
    ensures forall p, c :: p in perms && c in combos ==> !hit(p, c)
  {
    if perms != [] {
      FirstOpsNone(hit, perms[0], combos);
      FirstSolutionNone(hit, perms[1..], combos);
      forall p, c | p in perms && c in combos ensures !hit(p, c) {
        if p != perms[0] {
          assert p in perms[1..];
        }
      }
    }
  }

  /** No operator sequence before index `k` passes with `numbers`. */
  predicate OpsMissBefore(hit: Criterion, numbers: seq<int>, combos: seq<seq<Op>>, k: int) {
    forall j {:trigger hit(numbers, combos[j])} :: 0 <= j < k && j < |combos| ==> !hit(numbers, combos[j])
  }

  /** No permutation before index `i` passes with any operator sequence. */
  predicate PermsMissBefore(hit: Criterion, perms: seq<seq<int>>, combos: seq<seq<Op>>, i: int) {
    forall p, j {:trigger hit(perms[p], combos[j])} ::
      0 <= p < i && p < |perms| && 0 <= j < |combos| ==> !hit(perms[p], combos[j])
  }

  lemma OpsMissStep(hit: Criterion, numbers: seq<int>, combos: seq<seq<Op>>, k: nat)
    requires k < |combos| && OpsMissBefore(hit, numbers, combos, k) && !hit(numbers, combos[k])
    ensures OpsMissBefore(hit, numbers, combos, k + 1)
  {
    forall j | 0 <= j < k + 1 ensures !hit(numbers, combos[j]) {
      if j < k { } else { assert j == k; }
    }
  }

  lemma PermsMissStep(hit: Criterion, perms: seq<seq<int>>, combos: seq<seq<Op>>, i: nat)
    requires i < |perms| && PermsMissBefore(hit, perms, combos, i)
    requires OpsMissBefore(hit, perms[i], combos, |combos|)
    ensures PermsMissBefore(hit, perms, combos, i + 1)
  {
    forall p, j | 0 <= p < i + 1 && 0 <= j < |combos| ensures !hit(perms[p], combos[j]) {
      if p < i { } else { assert perms[p] == perms[i]; }
    }
  }

  lemma OpsMissTail(hit: Criterion, numbers: seq<int>, combos: seq<seq<Op>>, k: nat)
    requires 1 <= k <= |combos| && OpsMissBefore(hit, numbers, combos, k)
    ensures !hit(numbers, combos[0]) && OpsMissBefore(hit, numbers, combos[1..], k - 1)
  {
    forall j | 0 <= j < k - 1 ensures !hit(numbers, combos[1..][j]) {
      assert combos[1..][j] == combos[j + 1];
    }
  }

  lemma PermsMissTail(hit: Criterion, perms: seq<seq<int>>, combos: seq<seq<Op>>, i: nat)
    requires 1 <= i <= |perms| && PermsMissBefore(hit, perms, combos, i)
    ensures OpsMissBefore(hit, perms[0], combos, |combos|) && PermsMissBefore(hit, perms[1..], combos, i - 1)
  {
    forall p, j | 0 <= p < i - 1 && 0 <= j < |combos| ensures !hit(perms[1..][p], combos[j]) {
      assert perms[1..][p] == perms[p + 1];
    }
  }

  /** Conversely, the operator search returns the first sequence that
      passes when every earlier one fails. */
  lemma {:induction false} FirstOpsAt(hit: Criterion, numbers: seq<int>, combos: seq<seq<Op>>, k: nat)
    requires k < |combos| && hit(numbers, combos[k]) && OpsMissBefore(hit, numbers, combos, k)
    ensures FirstOps(hit, numbers, combos) == Some(combos[k])
  {
    if k > 0 {
      OpsMissTail(hit, numbers, combos, k);
      assert combos[1..][k - 1] == combos[k];
      FirstOpsAt(hit, numbers, combos[1..], k - 1);
    }
  }

  /** ... and returns nothing when every sequence fails. */
  lemma {:induction false} FirstOpsMissAll(hit: Criterion, numbers: seq<int>, combos: seq<seq<Op>>)
    requires OpsMissBefore(hit, numbers, combos, |combos|)
    ensures FirstOps(hit, numbers, combos).None?
  {
    if combos != [] {
      OpsMissTail(hit, numbers, combos, |combos|);
      FirstOpsMissAll(hit, numbers, combos[1..]);
    }
  }

  /** The search returns the first passing pair in enumeration order:
      permutation `i` with operator sequence `k`, when every earlier
      operator sequence fails with permutation `i` and every earlier
      permutation fails with all of them. */
  lemma {:induction false} FirstSolutionAt(hit: Criterion, perms: seq<seq<int>>, combos: seq<seq<Op>>, i: nat, k: nat)
    requires i < |perms| && k < |combos| && hit(perms[i], combos[k])
    requires OpsMissBefore(hit, perms[i], combos, k) && PermsMissBefore(hit, perms, combos, i)
    ensures FirstSolution(hit, perms, combos) == Some((perms[i], combos[k]))
  {
    if i == 0 {
      FirstOpsAt(hit, perms[0], combos, k);
    } else {
      PermsMissTail(hit, perms, combos, i);
      FirstOpsMissAll(hit, perms[0], combos);
      assert perms[1..][i - 1] == perms[i];
      FirstSolutionAt(hit, perms[1..], combos, i - 1, k);
    }
  }

  /** ... and returns nothing when every pair fails. */
  lemma {:induction false} FirstSolutionMissAll(hit: Criterion, perms: seq<seq<int>>, combos: seq<seq<Op>>)
    requires PermsMissBefore(hit, perms, combos, |perms|)
    ensures FirstSolution(hit, perms, combos).None?
  {
    if perms != [] {
      PermsMissTail(hit, perms, combos, |perms|);
      FirstOpsMissAll(hit, perms[0], combos);
      FirstSolutionMissAll(hit, perms[1..], combos);
    }
  }

  /** A candidate worth 100 passes `checkAnswer` against its own digits
      and against any rearrangement of them. */
  lemma CandidateChecks(level: int, numbers: seq<int>, operations: seq<Op>, drawn: seq<int>)
    requires Hits(level, numbers, operations) && IsRearrangement(numbers, drawn)
    ensures DigitsOnly(Build(level, numbers, operations)) == DigitString(numbers)
    ensures UsedDigits(Build(level, numbers, operations)) == numbers
    ensures CheckAnswer(numbers, Build(level, numbers, operations))
    ensures CheckAnswer(drawn, Build(level, numbers, operations))
  {
    var e := Build(level, numbers, operations);
    BuildFacts(level, numbers, operations);
    NonZeroDigitsOfDigitString(numbers);
  }

  /** Round trip: when a pass finds a solution, the digits it leaves are a
      rearrangement of the drawn ones, the solution uses exactly those
      digits in that order, and `checkAnswer` accepts it -- against the
      digits left behind and against the drawn ones alike. */
  lemma SearchRoundTrip(level: int, drawn: seq<int>, numbers: seq<int>, solution: string)
    requires Search(level, drawn) == Some((numbers, solution))
    ensures IsPuzzleDigits(numbers) && IsRearrangement(numbers, drawn)
    ensures UsedDigits(solution) == numbers
    ensures CheckAnswer(numbers, solution) && CheckAnswer(drawn, solution)
  {
    var found := FirstSolution(HitAt(level), Yields(drawn), Combos(level));
    assert numbers == found.value.0 && solution == Build(level, numbers, found.value.1);
    YieldsRearrange(drawn, numbers);
    CandidateChecks(level, numbers, found.value.1, drawn);
  }

  /** A pass that finds nothing has tried every permutation the generator
      yields against every operator sequence of the palette. */
  lemma SearchExhaustive(level: int, drawn: seq<int>)
    requires Search(level, drawn).None?
    ensures forall p, c {:trigger Hits(level, p, c)} :: p in Yields(drawn) && c in Combos(level) ==> !Hits(level, p, c)
  {
    var hit, perms, combos := HitAt(level), Yields(drawn), Combos(level);
    assert FirstSolution(hit, perms, combos).None?;
    FirstSolutionNone(hit, perms, combos);
    forall p, c | p in perms && c in combos ensures !Hits(level, p, c) {
      assert !hit(p, c);
    }
  }

  // ---------------------------------------------------------------------
  // A drawing with a solution
  // ---------------------------------------------------------------------

  lemma StepWitness(numbers: seq<int>, operations: seq<Op>)
    requires numbers == [5, 5, 4, 1, 1, 1] && operations == [Mul, Mul, Mul, Mul, Mul]
    ensures IsPuzzleDigits(numbers)
    ensures Step(1, numbers, operations, 5) == "5*5*4*1*1*1"
  {
    var d := [DigitChar(5), DigitChar(5), DigitChar(4), DigitChar(1), DigitChar(1), DigitChar(1)];
    assert d == "554111";
    var p0 := Prefix(1, numbers, operations, 0);
    var p1 := Prefix(1, numbers, operations, 1);
    var p2 := Prefix(1, numbers, operations, 2);
    var p3 := Prefix(1, numbers, operations, 3);
    var p4 := Prefix(1, numbers, operations, 4);
    var p5 := Prefix(1, numbers, operations, 5);
    PrefixSucc(1, numbers, operations, 0);
    assert p1 == p0 + [d[0]] + "*";
    PrefixSucc(1, numbers, operations, 1);
    assert p2 == p1 + [d[1]] + "*";
    PrefixSucc(1, numbers, operations, 2);
    assert p3 == p2 + [d[2]] + "*";
    PrefixSucc(1, numbers, operations, 3);
    assert p4 == p3 + [d[3]] + "*";
    PrefixSucc(1, numbers, operations, 4);
    assert p5 == p4 + [d[4]] + "*";
    var raw := Step(1, numbers, operations, 5);
    assert raw == p5 + [d[5]];
  }

  /** At level 1, the digits 5 5 4 1 1 1 with five `*` build `5*5*4*1*1*1`. */
  lemma BuildWitness(numbers: seq<int>, operations: seq<Op>)
    requires numbers == [5, 5, 4, 1, 1, 1] && operations == [Mul, Mul, Mul, Mul, Mul]
    ensures IsPuzzleDigits(numbers)
    ensures Build(1, numbers, operations) == "5*5*4*1*1*1"
  {
    StepWitness(numbers, operations);
    var raw := Step(1, numbers, operations, 5);
    StarsToCaretIdentity(raw);
    StripAllowed(raw);
  }

  /** ... and that candidate is worth 100. */
  lemma HitsWitness(numbers: seq<int>, operations: seq<Op>)
    requires numbers == [5, 5, 4, 1, 1, 1] && operations == [Mul, Mul, Mul, Mul, Mul]
    ensures Hits(1, numbers, operations)
  {
    BuildWitness(numbers, operations);
    var e := Build(1, numbers, operations);
    StarsToCaretIdentity(e);
    CaretStarsRoundTrip(e);
    Arith.EvaluateSolution(e);
  }

  /** The first permutation `permute` yields is the array as it stands. */
  lemma {:induction false} HeapRunFirst(s: seq<int>, n: nat)
    requires n <= |s|
    ensures HeapRun(s, n).0 != [] && HeapRun(s, n).0[0] == s
  {
    if n > 1 {
      HeapRunFirst(s, n - 1);
    }
  }

  /** So a pass over the drawn digits 5 5 4 1 1 1 at level 1 finds a
      solution: the search is not empty. */
  lemma SearchFinds(drawn: seq<int>)
    requires drawn == [5, 5, 4, 1, 1, 1]
    ensures Search(1, drawn).Some?
  {
    var ops := [Mul, Mul, Mul, Mul, Mul];
    HitsWitness(drawn, ops);
    HeapRunFirst(drawn, |drawn|);
    assert drawn in Yields(drawn);
    assert OverPalette(ops, AllowedOperations(1));
    assert ops in Combos(1);
    if Search(1, drawn).None? {
      SearchExhaustive(1, drawn);
    }
  }

  // ---------------------------------------------------------------------
  // The engine object
  // ---------------------------------------------------------------------

  class MathPuzzleGame {
    const level: int
    const allowedOperations: seq<Op> := AllowedOperations(level)
    var currentNumbers: array<int>
    var solution: string

    constructor (level: int)
      ensures this.level == level && allowedOperations == AllowedOperations(level)
      ensures currentNumbers.Length == 0 && solution == ""
    {
      this.level := level;
      currentNumbers := new int[0];
      solution := "";
    }

    /** `permute(arr, n)`: Heap's algorithm swapping `a` in place; returns
        the copies it yields, in order. */
    method Permute(a: array<int>, n: nat) returns (yielded: seq<seq<int>>)
      requires n <= a.Length
      modifies a
      ensures yielded == HeapRun(old(a[..]), n).0 && a[..] == HeapRun(old(a[..]), n).1
      decreases n
    {
      if n <= 1 {
        yielded := [a[..]];
        return;
      }
      yielded := [];
      ghost var start := a[..];
      for i := 0 to n
        invariant HeapLoop(start, n, 0).0 == yielded + HeapLoop(a[..], n, i).0
        invariant HeapLoop(start, n, 0).1 == HeapLoop(a[..], n, i).1
      {
        ghost var before := a[..];
        ghost var done := yielded;
        var ys := Permute(a, n - 1);
        yielded := yielded + ys;
        SwapElements(a, n - 1, if n % 2 == 1 then 0 else i);
        HeapLoopStep(start, before, n, i, done, ys, a[..]);
      }
    }

    /** Overwrites `a` with `s`, the state the abandoned generator leaves
        the array in when it has just yielded `s`. */
    static method CopyInto(a: array<int>, s: seq<int>)
      requires |s| == a.Length
      modifies a
      ensures a[..] == s
    {
      forall i | 0 <= i < a.Length {
        a[i] := s[i];
      }
    }

    /** `[arr[i], arr[j]] = [arr[j], arr[i]]`; `i` and `j` may coincide. */
    static method SwapElements(a: array<int>, i: nat, j: nat)
      requires i < a.Length && j < a.Length
      modifies a
      ensures a[..] == Swap(old(a[..]), i, j)
    {
      var t := a[i];
      a[i] := a[j];
      a[j] := t;
    }

    /** `getOperationCombinations(length)` over this level's palette. */
    function GetOperationCombinations(length: nat): (cs: seq<seq<Op>>)
      requires length >= 1
      ensures |cs| == IntPow(|allowedOperations|, length)
      ensures forall c {:trigger c in cs} :: c in cs <==> |c| == length && OverPalette(c, allowedOperations)
    {
      CombinationsCount(allowedOperations, length);
      CombinationsMembers(allowedOperations, length);
      Combinations(allowedOperations, length)
    }

    /** `buildExpression(numbers, operations)`. */
    method BuildExpression(numbers: seq<int>, operations: seq<Op>) returns (expr: string)
      requires IsPuzzleDigits(numbers) && |operations| == 5
      ensures expr == Build(level, numbers, operations)
    {
      expr := "";
      for i := 0 to 5
        invariant expr == Prefix(level, numbers, operations, i)
      {
        expr := expr + [DigitChar(numbers[i])];
        if level > 5 && operations[i] == Paren {
          expr := "(" + expr + ")";
        } else {
          expr := expr + OpText(operations[i]);
        }
      }
      expr := expr + [DigitChar(numbers[5])];
      expr := StripDisallowed(StarsToCaret(expr));
    }

    /** One pass of `generateNumbersWithSolution` on the drawn digits.  The
        generator permutes `currentNumbers` itself and is abandoned right
        after yielding the permutation that succeeds, so `currentNumbers`
        then holds that permutation. */
    method GenerateNumbersWithSolution(drawn: seq<int>) returns (found: bool)
      requires IsPuzzleDigits(drawn)
      modifies this
      ensures found == Search(level, drawn).Some?
      ensures found ==> (currentNumbers[..], solution) == Search(level, drawn).value
      ensures found ==> CheckAnswer(currentNumbers[..], solution) && IsPuzzleDigits(currentNumbers[..])
      ensures !found ==> solution == old(solution)
      ensures fresh(currentNumbers)
    {
      var arr := new int[6](i requires 0 <= i < 6 => drawn[i]);
      assert arr[..] == drawn;
      var perms := Permute(arr, arr.Length);
      assert perms == Yields(drawn);
      var combos := GetOperationCombinations(5);
      assert combos == Combos(level);
      currentNumbers := arr;
      var pi := 0;
      while pi < |perms|
        invariant 0 <= pi <= |perms|
        invariant currentNumbers == arr && solution == old(solution)
        invariant PermsMissBefore(HitAt(level), perms, combos, pi)
      {
        var nums := perms[pi];
        YieldsRearrange(drawn, nums);
        RearrangedPuzzleDigits(nums, drawn);
        var ci := 0;
        while ci < |combos|
          invariant 0 <= ci <= |combos|
          invariant currentNumbers == arr && solution == old(solution)
          invariant OpsMissBefore(HitAt(level), nums, combos, ci)
        {
          assert combos[ci] in combos;
          var expression := BuildExpression(nums, combos[ci]);
          if ValidateExpression(expression) {
            FirstSolutionAt(HitAt(level), perms, combos, pi, ci);
            CopyInto(arr, nums);
            solution := expression;
            found := true;
            SearchRoundTrip(level, drawn, nums, expression);
            return;
          }
          OpsMissStep(HitAt(level), nums, combos, ci);
          ci := ci + 1;
        }
        PermsMissStep(HitAt(level), perms, combos, pi);
        pi := pi + 1;
      }
      FirstSolutionMissAll(HitAt(level), perms, combos);
      found := false;
    }
  }
}
