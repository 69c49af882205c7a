/** The puzzle list the timed page draws from (`puzzleData.js`): two
    hand-written lists of six-digit strings, joined, with repeats removed
    (`new Set`, which keeps first occurrences in order) and then sorted
    with JavaScript's default comparison.  That comparison orders strings
    by their UTF-16 code units; `LexLeq` compares characters, which is the
    same order on the digit strings the lists hold. */
module PuzzleData {
  import opened Text

  const OriginalSolvableNumbers: seq<string> := [
    "114735", "115748", "121354", "124864", "126248",
    "126844", "127832", "142555", "142863", "145155",
    "145525", "152288", "159224", "159343", "162736",
    "165824", "175435", "181188", "195232", "196848",
    "325648", "369497", "462864", "481295", "528848"]

  const AdditionalCleanedNumbers: seq<string> := [
    "786244", "827344", "853216", "853412", "862152",
    "873124", "875113", "893122", "895111", "915244"]

  predicate NoRepeats(s: seq<string>) {
    forall i, j :: 0 <= i < j < |s| ==> s[i] != s[j]
  }

  /** `Array.from(new Set(s))`: each string once, where it first occurs. */
  function Dedup(s: seq<string>): (r: seq<string>)
    ensures NoRepeats(r) && |r| <= |s|
    ensures forall x :: x in r <==> x in s
  {
    if s == [] then []
    else
      var r := Dedup(s[..|s| - 1]);
      assert s == s[..|s| - 1] + [s[|s| - 1]];
      if s[|s| - 1] in r then r else r + [s[|s| - 1]]
  }

  /** The default `sort` order: code unit by code unit, a proper prefix
      first. */
  predicate LexLeq(a: string, b: string) {
    a == [] || (b != [] && (a[0] < b[0] || (a[0] == b[0] && LexLeq(a[1..], b[1..]))))
  }

  lemma {:induction false} LexTotal(a: string, b: string)
    ensures LexLeq(a, b) || LexLeq(b, a)
  {
    if a != [] && b != [] && a[0] == b[0] {
      LexTotal(a[1..], b[1..]);
    }
  }

  predicate SortedLex(s: seq<string>) {
    forall i :: 0 <= i < |s| - 1 ==> LexLeq(s[i], s[i + 1])
  }

  /** One step of the sort: `x` goes before the first element it does not
      exceed. */
  function InsertLex(x: string, s: seq<string>): (r: seq<string>)
    requires SortedLex(s)
    ensures SortedLex(r) && multiset(r) == multiset(s) + multiset{x}
    ensures r[0] == x || (s != [] && r[0] == s[0])
  {
    if s == [] || LexLeq(x, s[0]) then [x] + s
    else
      LexTotal(x, s[0]);
      var t := InsertLex(x, s[1..]);
      assert s == [s[0]] + s[1..];
      [s[0]] + t
  }

  /** `[...].sort()`. */
  function SortLex(s: seq<string>): (r: seq<string>)
    ensures SortedLex(r) && multiset(r) == multiset(s)
  {
    if s == [] then []
    else
      assert s == [s[0]] + s[1..];
      InsertLex(s[0], SortLex(s[1..]))
  }

  /** No string repeats exactly when every string is counted at most once. */
  lemma {:induction false} NoRepeatsByCount(s: seq<string>)
    ensures NoRepeats(s) <==> forall x :: multiset(s)[x] <= 1
  {
    if s != [] {
      var rest := s[1..];
      NoRepeatsByCount(rest);
      assert s == [s[0]] + rest;
      if NoRepeats(s) {
        assert NoRepeats(rest) by {
          forall i, j | 0 <= i < j < |rest| ensures rest[i] != rest[j] {
            assert rest[i] == s[i + 1] && rest[j] == s[j + 1];
          }
        }
        assert s[0] !in rest;
      }
      if forall x :: multiset(s)[x] <= 1 {
        assert forall x :: multiset(rest)[x] <= 1 by {
          forall x ensures multiset(rest)[x] <= 1 {
            assert multiset(s)[x] == multiset{s[0]}[x] + multiset(rest)[x];
          }
        }
        assert multiset(s)[s[0]] == 1 + multiset(rest)[s[0]];
        assert s[0] !in multiset(rest);
        forall i, j | 0 <= i < j < |s| ensures s[i] != s[j] {
          if i == 0 {
            assert s[j] == rest[j - 1];
          } else {
            assert s[i] == rest[i - 1] && s[j] == rest[j - 1];
          }
        }
      }
    }
  }

  /** Sorting keeps the strings and so keeps them unique. */
  lemma SortKeepsNoRepeats(s: seq<string>)
    requires NoRepeats(s)
    ensures NoRepeats(SortLex(s))
  {
    NoRepeatsByCount(s);
    NoRepeatsByCount(SortLex(s));
  }

  /** `Array.from(new Set(list)).sort()`. */
  function UniqueSorted(list: seq<string>): (r: seq<string>)
    ensures NoRepeats(r) && SortedLex(r) && |r| <= |list|
    ensures forall x :: x in r <==> x in list
  {
    var d := Dedup(list);
    SortKeepsNoRepeats(d);
    var r := SortLex(d);
    assert forall x :: x in r <==> x in multiset(d);
    assert |r| == |multiset(r)| == |d|;
    r
  }

  /** `ALL_SOLVABLE_NUMBERS`. */
  const AllSolvableNumbers: seq<string> := UniqueSorted(OriginalSolvableNumbers + AdditionalCleanedNumbers)

  /** A six-digit puzzle string, spelled out digit by digit. */
  predicate SixDigits(p: string) {
    |p| == 6 && IsDigit(p[0]) && IsDigit(p[1]) && IsDigit(p[2])
    && IsDigit(p[3]) && IsDigit(p[4]) && IsDigit(p[5])
  }

  lemma OriginalHeadSixDigits()
    ensures forall i :: 0 <= i < 13 ==> SixDigits(OriginalSolvableNumbers[i])
  {
  }

  lemma OriginalTailSixDigits()
    ensures forall i :: 13 <= i < |OriginalSolvableNumbers| ==> SixDigits(OriginalSolvableNumbers[i])
  {
  }

  lemma AdditionalSixDigits()
    ensures forall i :: 0 <= i < |AdditionalCleanedNumbers| ==> SixDigits(AdditionalCleanedNumbers[i])
  {
  }

  lemma SixDigitsAreDigits(p: string)
    requires SixDigits(p)
    ensures AllDigits(p)
  {
    forall k | 0 <= k < |p| ensures IsDigit(p[k]) {
      assert k in {0, 1, 2, 3, 4, 5};
    }
  }

  /** Joining two lists of six-digit strings gives one. */
  lemma JoinSixDigits(a: seq<string>, b: seq<string>)
    requires forall i :: 0 <= i < |a| ==> SixDigits(a[i])
    requires forall i :: 0 <= i < |b| ==> SixDigits(b[i])
    ensures forall x :: x in a + b ==> SixDigits(x) && AllDigits(x)
  {
    forall x | x in a + b ensures SixDigits(x) && AllDigits(x) {
      var i :| 0 <= i < |a + b| && (a + b)[i] == x;
      if i >= |a| {
        assert x == b[i - |a|];
      }
      SixDigitsAreDigits(x);
    }
  }

  /** The exported list: no repeats, ascending, exactly the strings of the
      two source lists, no longer than both together, each one a six-digit
      puzzle. */
  lemma AllSolvableNumbersFacts()
    ensures NoRepeats(AllSolvableNumbers) && SortedLex(AllSolvableNumbers)
    ensures forall x :: x in AllSolvableNumbers <==> x in OriginalSolvableNumbers || x in AdditionalCleanedNumbers
    ensures |AllSolvableNumbers| <= |OriginalSolvableNumbers| + |AdditionalCleanedNumbers|
    ensures forall x :: x in AllSolvableNumbers ==> SixDigits(x) && AllDigits(x)
  {
    OriginalHeadSixDigits();
    OriginalTailSixDigits();
    AdditionalSixDigits();
    JoinSixDigits(OriginalSolvableNumbers, AdditionalCleanedNumbers);
  }
}
