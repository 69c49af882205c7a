/** The leaderboard page (`Leaderboard.jsx`): players whose name contains
    the search text (ignoring case), ordered by score, at most fifty of
    them, with medals for the first three rows. */
module Leaderboard {
  import opened Text

  /** A row of the table; the avatar URL is not modelled. */
  datatype Player = Player(id: int, name: string, score: int)

  /** `slice(0, 50)`. */
  const Limit: nat := 50

  // ---------------------------------------------------------------------
  // Filter
  // ---------------------------------------------------------------------

  /** `p.name.toLowerCase().includes(search.toLowerCase())`. */
  predicate Matches(p: Player, search: string) {
    Includes(Lower(p.name), Lower(search))
  }

  /** `players.filter(...)`: the matching players, in their original
      order. */
  function FilterMatching(players: seq<Player>, search: string): (r: seq<Player>)
    ensures |r| <= |players|
    ensures forall p :: p in r <==> p in players && Matches(p, search)
  {
    if players == [] then []
    else if Matches(players[0], search) then [players[0]] + FilterMatching(players[1..], search)
    else FilterMatching(players[1..], search)
  }

  /** The filter keeps each matching player as often as it occurs and drops
      every other one. */
  lemma {:induction false} FilterCounts(players: seq<Player>, search: string, p: Player)
    ensures multiset(FilterMatching(players, search))[p] == if Matches(p, search) then multiset(players)[p] else 0
  {
    if players != [] {
      FilterCounts(players[1..], search, p);
      var rest := FilterMatching(players[1..], search);
      assert players == [players[0]] + players[1..];
      assert multiset(players) == multiset{players[0]} + multiset(players[1..]);
      if Matches(players[0], search) {
        assert FilterMatching(players, search) == [players[0]] + rest;
        assert multiset(FilterMatching(players, search)) == multiset{players[0]} + multiset(rest);
      } else {
        assert FilterMatching(players, search) == rest;
      }
    }
  }

  // ---------------------------------------------------------------------
  // Sort
  // ---------------------------------------------------------------------

  /** Where `a` may stand before `b`: the comparator `a.score - b.score`
      (ascending) or `b.score - a.score` (descending) is not positive. */
  predicate RanksBefore(a: Player, b: Player, sortAsc: bool) {
    if sortAsc then a.score <= b.score else a.score >= b.score
  }

  predicate OrderedByScore(s: seq<Player>, sortAsc: bool) {
    forall i, j :: 0 <= i < j < |s| ==> RanksBefore(s[i], s[j], sortAsc)
  }

  /** One step of a stable sort: `x` goes after every element it does not
      rank strictly before. */
  function InsertByScore(x: Player, s: seq<Player>, sortAsc: bool): (r: seq<Player>)
    requires OrderedByScore(s, sortAsc)
    ensures OrderedByScore(r, sortAsc)
    ensures |r| == |s| + 1 && forall y :: y in r <==> y == x || y in s
  {
    if s == [] then [x]
    else if !RanksBefore(s[0], x, sortAsc) then
      assert forall j :: 0 <= j < |s| ==> RanksBefore(x, s[j], sortAsc) by {
        forall j | 0 <= j < |s| ensures RanksBefore(x, s[j], sortAsc) {
          if j > 0 { assert RanksBefore(s[0], s[j], sortAsc); }
        }
      }
      [x] + s
    else
      OrderedTail(s, sortAsc);
      var t := InsertByScore(x, s[1..], sortAsc);
      assert s == [s[0]] + s[1..];
      forall j | 0 <= j < |t| ensures RanksBefore(s[0], t[j], sortAsc) {
        assert t[j] in t;
        if t[j] != x {
          var k :| 0 <= k < |s[1..]| && s[1..][k] == t[j];
          assert s[k + 1] == t[j];
        }
      }
      [s[0]] + t
  }

  /** Inserting adds exactly one copy of `x`. */
  lemma {:induction false} InsertCounts(x: Player, s: seq<Player>, sortAsc: bool)
    requires OrderedByScore(s, sortAsc)
    ensures multiset(InsertByScore(x, s, sortAsc)) == multiset(s) + multiset{x}
  {
    if s != [] && RanksBefore(s[0], x, sortAsc) {
      OrderedTail(s, sortAsc);
      InsertCounts(x, s[1..], sortAsc);
      assert s == [s[0]] + s[1..];
    }
  }

  /** `sort((a, b) => sortAsc ? a.score - b.score : b.score - a.score)`:
      the players ordered by score. */
  function SortByScore(s: seq<Player>, sortAsc: bool): (r: seq<Player>)
    ensures OrderedByScore(r, sortAsc)
  {
    if s == [] then []
    else
      assert s == s[..|s| - 1] + [s[|s| - 1]];
      InsertByScore(s[|s| - 1], SortByScore(s[..|s| - 1], sortAsc), sortAsc)
  }

  /** The sort is a permutation. */
  lemma {:induction false} SortPermutes(s: seq<Player>, sortAsc: bool)
    ensures multiset(SortByScore(s, sortAsc)) == multiset(s)
  {
    if s != [] {
      var init, last := s[..|s| - 1], s[|s| - 1];
      var t := SortByScore(init, sortAsc);
      SortPermutes(init, sortAsc);
      InsertCounts(last, t, sortAsc);
      assert SortByScore(s, sortAsc) == InsertByScore(last, t, sortAsc);
      assert s == init + [last];
      assert multiset(s) == multiset(init) + multiset{last};
    }
  }

  lemma OrderedTail(s: seq<Player>, sortAsc: bool)
    requires OrderedByScore(s, sortAsc) && s != []
    ensures OrderedByScore(s[1..], sortAsc)
  {
    forall i, j | 0 <= i < j < |s[1..]| ensures RanksBefore(s[1..][i], s[1..][j], sortAsc) {
      assert s[1..][i] == s[i + 1] && s[1..][j] == s[j + 1];
    }
  }

  /** The players with score `v`, in order. */
  function WithScore(s: seq<Player>, v: int): seq<Player> {
    if s == [] then []
    else if s[0].score == v then [s[0]] + WithScore(s[1..], v)
    else WithScore(s[1..], v)
  }

  lemma {:induction false} WithScoreAppend(a: seq<Player>, b: seq<Player>, v: int)
    ensures WithScore(a + b, v) == WithScore(a, v) + WithScore(b, v)
  {
    if a == [] {
      assert a + b == b;
    } else {
      WithScoreAppend(a[1..], b, v);
      assert (a + b)[0] == a[0] && (a + b)[1..] == a[1..] + b;
      if a[0].score == v {
        calc {
          WithScore(a + b, v);
          [a[0]] + WithScore(a[1..] + b, v);
          [a[0]] + (WithScore(a[1..], v) + WithScore(b, v));
          ([a[0]] + WithScore(a[1..], v)) + WithScore(b, v);
        }
      }
    }
  }

  /** The inserted player comes after every player with the same score. */
  lemma {:induction false} InsertKeepsTies(x: Player, s: seq<Player>, sortAsc: bool, v: int)
    requires OrderedByScore(s, sortAsc)
    ensures WithScore(InsertByScore(x, s, sortAsc), v) == WithScore(s, v) + (if x.score == v then [x] else [])
  {
    var r := InsertByScore(x, s, sortAsc);
    var tie := if x.score == v then [x] else [];
    if s == [] {
      assert r == [x] + [];
      WithScoreCons(x, [], v);
    } else if !RanksBefore(s[0], x, sortAsc) {
      NoneWithScore(s, sortAsc, x.score);
      assert r == [x] + s;
      WithScoreCons(x, s, v);
    } else {
      OrderedTail(s, sortAsc);
      var t := InsertByScore(x, s[1..], sortAsc);
      assert r == [s[0]] + t;
      InsertKeepsTies(x, s[1..], sortAsc, v);
      WithScoreCons(s[0], t, v);
      WithScoreCons(s[0], s[1..], v);
      assert s == [s[0]] + s[1..];
      var head := if s[0].score == v then [s[0]] else [];
      assert WithScore(r, v) == head + (WithScore(s[1..], v) + tie);
      assert WithScore(s, v) == head + WithScore(s[1..], v);
    }
  }

  lemma WithScoreCons(a: Player, t: seq<Player>, v: int)
    ensures WithScore([a] + t, v) == (if a.score == v then [a] else []) + WithScore(t, v)
  {
    assert ([a] + t)[0] == a && ([a] + t)[1..] == t;
  }

  /** In an ordered list whose head ranks strictly after score `v`, no
      player has score `v`. */
  lemma {:induction false} NoneWithScore(s: seq<Player>, sortAsc: bool, v: int)
    requires OrderedByScore(s, sortAsc) && s != []
    requires if sortAsc then s[0].score > v else s[0].score < v
    ensures WithScore(s, v) == []
  {
    if |s| > 1 {
      assert RanksBefore(s[0], s[1], sortAsc);
      OrderedTail(s, sortAsc);
      NoneWithScore(s[1..], sortAsc, v);
    }
  }

  /** The sort is stable: players with equal scores keep their relative
      order. */
  lemma {:induction false} SortIsStable(s: seq<Player>, sortAsc: bool, v: int)
    ensures WithScore(SortByScore(s, sortAsc), v) == WithScore(s, v)
  {
    if s != [] {
      var init, last := s[..|s| - 1], s[|s| - 1];
      SortIsStable(init, sortAsc, v);
      InsertKeepsTies(last, SortByScore(init, sortAsc), sortAsc, v);
      assert s == init + [last];
      WithScoreAppend(init, [last], v);
      assert [last][1..] == [];
    }
  }

  // ---------------------------------------------------------------------
  // The table
  // ---------------------------------------------------------------------

  lemma PrefixOfOrdered(s: seq<Player>, k: nat, sortAsc: bool)
    requires OrderedByScore(s, sortAsc) && k <= |s|
    ensures OrderedByScore(s[..k], sortAsc)
  {
  }

  /** Whatever a prefix of an ordered list leaves out ranks no better than
      what it keeps. */
  lemma PrefixKeepsBest(s: seq<Player>, k: nat, sortAsc: bool)
    requires OrderedByScore(s, sortAsc) && k <= |s|
    ensures forall p, i :: p in multiset(s) - multiset(s[..k]) && 0 <= i < k ==> RanksBefore(s[i], p, sortAsc)
  {
    assert s == s[..k] + s[k..];
    assert multiset(s) == multiset(s[..k]) + multiset(s[k..]);
    forall p, i | p in multiset(s) - multiset(s[..k]) && 0 <= i < k ensures RanksBefore(s[i], p, sortAsc) {
      assert p in multiset(s[k..]);
      var j :| 0 <= j < |s[k..]| && s[k..][j] == p;
      assert s[k + j] == p;
    }
  }

  /** `filteredPlayers`: filter, sort, then keep the first fifty.  At most
      fifty players, each one of `players` and matching the search, ordered
      by score. */
  function FilteredPlayers(players: seq<Player>, search: string, sortAsc: bool): (r: seq<Player>)
    ensures |r| <= Limit
    ensures forall i :: 0 <= i < |r| ==> r[i] in players && Matches(r[i], search)
    ensures OrderedByScore(r, sortAsc)
  {
    var matching := FilterMatching(players, search);
    var sorted := SortByScore(matching, sortAsc);
    var k := if |sorted| < Limit then |sorted| else Limit;
    PrefixOfOrdered(sorted, k, sortAsc);
    SortPermutes(matching, sortAsc);
    assert |sorted| == |multiset(sorted)| == |matching|;
    forall i | 0 <= i < k ensures sorted[i] in matching {
      assert sorted[i] in multiset(sorted);
    }
    sorted[..k]
  }

  /** When no more than fifty match, every match is listed, as often as it
      occurs in the filtered list. */
  lemma FilteredPlayersAllWhenFew(players: seq<Player>, search: string, sortAsc: bool)
    requires |FilterMatching(players, search)| <= Limit
    ensures multiset(FilteredPlayers(players, search, sortAsc)) == multiset(FilterMatching(players, search))
  {
    var sorted := SortByScore(FilterMatching(players, search), sortAsc);
    SortPermutes(FilterMatching(players, search), sortAsc);
    assert |sorted| == |multiset(sorted)| == |FilterMatching(players, search)|;
    assert sorted[..|sorted|] == sorted;
  }

  /** When more than fifty match, exactly fifty are listed, and no
      left-out match ranks strictly before a listed player. */
  lemma FilteredPlayersBest(players: seq<Player>, search: string, sortAsc: bool)
    ensures var r := FilteredPlayers(players, search, sortAsc);
      var matching := FilterMatching(players, search);
      (|matching| > Limit ==> |r| == Limit)
      && (forall p, i :: p in multiset(matching) - multiset(r) && 0 <= i < |r| ==> RanksBefore(r[i], p, sortAsc))
  {
    var matching := FilterMatching(players, search);
    var sorted := SortByScore(matching, sortAsc);
    var k := if |sorted| < Limit then |sorted| else Limit;
    SortPermutes(matching, sortAsc);
    PrefixKeepsBest(sorted, k, sortAsc);
  }

  /** When no more than fifty match, every matching player is listed. */
  lemma EveryMatchListed(players: seq<Player>, search: string, sortAsc: bool, p: Player)
    requires |FilterMatching(players, search)| <= Limit
    requires p in players && Matches(p, search)
    ensures p in FilteredPlayers(players, search, sortAsc)
  {
    FilteredPlayersAllWhenFew(players, search, sortAsc);
    assert p in FilterMatching(players, search);
    assert p in multiset(FilterMatching(players, search));
  }

  /** The search ignores case on both sides. */
  lemma SearchIgnoresCase(p: Player, search: string)
    ensures Matches(p, search) <==> Matches(p, Lower(search))
  {
    LowerIdempotent(search);
  }

  lemma {:induction false} LowerIdempotent(s: string)
    ensures Lower(Lower(s)) == Lower(s)
  {
    if s != [] {
      LowerIdempotent(s[1..]);
    }
  }

  // ---------------------------------------------------------------------
  // Rank labels and the sort toggle
  // ---------------------------------------------------------------------

  /** The first column: a medal for the first three rows, then the
      one-based position. */
  datatype RankLabel = Gold | Silver | Bronze | Place(position: nat)

  const Medals: seq<RankLabel> := [Gold, Silver, Bronze]

  function RankOf(index: nat): (r: RankLabel)
    ensures r.Place? <==> index >= |Medals|
    ensures r.Place? ==> r.position == index + 1 && r.position > |Medals|
  {
    if index < |Medals| then Medals[index] else Place(index + 1)
  }

  /** Different rows never share a label. */
  lemma RanksDistinct(i: nat, j: nat)
    requires i != j
    ensures RankOf(i) != RankOf(j)
  {
  }

  /** `handleSortToggle`. */
  function ToggleSort(sortAsc: bool): (r: bool)
    ensures r != sortAsc
  {
    !sortAsc
  }

  lemma ToggleTwice(sortAsc: bool)
    ensures ToggleSort(ToggleSort(sortAsc)) == sortAsc
  {
  }

  /** Toggling the order reverses the comparison between rows with
      different scores. */
  lemma ToggleReversesOrder(a: Player, b: Player, sortAsc: bool)
    requires a.score != b.score
    ensures RanksBefore(a, b, sortAsc) <==> !RanksBefore(a, b, ToggleSort(sortAsc))
  {
  }
}
