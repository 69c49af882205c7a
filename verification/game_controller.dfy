/** The level-progression handlers of `backend/controllers/gameController.js`
    as transitions on a loaded session.  A `null` session is the
    `findOne` that found nothing; every reply the handler sends becomes a
    `Reply` value, and the random draw a fresh level is generated from is
    the parameter `drawn`. */
module GameController {
  import opened Wrappers
  import opened Text
  import opened JsNumber
  import opened Models
  import Arith
  import Puzzle

  // ---------------------------------------------------------------------
  // Scoring
  // ---------------------------------------------------------------------

  /** Points for solving `level` on attempt number `attempts`: 100 plus 20
      per level on the first attempt, 10 fewer per further attempt, never
      below 10. */
  function PointsEarned(level: int, attempts: int): (p: int)
    ensures p >= 10
    ensures p >= 100 + 20 * level - 10 * (attempts - 1)
    ensures attempts == 1 && level >= -4 ==> p == 100 + 20 * level
    ensures p > 10 ==> p == 100 + 20 * level - 10 * (attempts - 1)
  {
    var basePoints := 100 + level * 20;
    Max(basePoints - (attempts - 1) * 10, 10)
  }

  /** A later attempt never earns more points. */
  lemma PointsNonIncreasing(level: int, a: int, b: int)
    requires a <= b
    ensures PointsEarned(level, b) <= PointsEarned(level, a)
  {
  }

  /** Trophies for solving on attempt number `attempts`: 7 on the first,
      then 4, 3, 2, 1 and 0 from the sixth attempt on. */
  function TrophiesAwarded(attempts: int): (t: int)
    ensures attempts >= 1 ==> 0 <= t <= 7 && (t == 7 <==> attempts == 1)
    ensures attempts >= 6 ==> t == 0
    ensures 2 <= attempts <= 5 ==> t == 6 - attempts
  {
    if attempts == 1 then 7 else Max(5 - (attempts - 1), 0)
  }

  /** `Math.max(3 - (attempts % 3), 0)` with JavaScript's remainder. */
  function AttemptsRemaining(attempts: int): (r: int)
    ensures r >= 1
    ensures attempts >= 0 ==> r <= 3 && (r == 3 <==> attempts % 3 == 0)
    ensures attempts >= 0 ==> r == 3 - attempts % 3
  {
    Max(3 - Rem(attempts, 3), 0)
  }

  // ---------------------------------------------------------------------
  // Hint tokens
  // ---------------------------------------------------------------------

  predicate IsOperatorChar(c: char) { c in "+-*/()" }

  /** A part of a solution the hint may show: a run of digits, or one
      operator or parenthesis. */
  predicate IsHintToken(t: string) {
    (t != [] && AllDigits(t)) || (|t| == 1 && IsOperatorChar(t[0]))
  }

  /** `s.match(/(\d+|\+|\-|\*|\/|\(|\))/g)`, with no match as `[]`:
      maximal digit runs and single operator characters, left to right;
      every other character is skipped. */
  function HintParts(s: string): (parts: seq<string>)
    ensures forall i :: 0 <= i < |parts| ==> IsHintToken(parts[i])
    decreases |s|
  {
    if s == [] then []
    else if IsDigit(s[0]) then
      var n := Arith.DigitRun(s);
      [s[..n]] + HintParts(s[n..])
    else if IsOperatorChar(s[0]) then [[s[0]]] + HintParts(s[1..])
    else HintParts(s[1..])
  }

  /** The characters of `s` a hint can come from. */
  function TokenChars(s: string): (r: string)
    ensures |r| <= |s|
  {
    if s == [] then []
    else if IsDigit(s[0]) || IsOperatorChar(s[0]) then [s[0]] + TokenChars(s[1..])
    else TokenChars(s[1..])
  }

  function Concat(parts: seq<string>): string {
    if parts == [] then [] else parts[0] + Concat(parts[1..])
  }

  lemma {:induction false} TokenCharsAppend(a: string, b: string)
    ensures TokenChars(a + b) == TokenChars(a) + TokenChars(b)
  {
    if a == [] {
      assert a + b == b;
    } else {
      assert (a + b)[1..] == a[1..] + b;
      TokenCharsAppend(a[1..], b);
    }
  }

  lemma {:induction false} TokenCharsOfDigits(s: string)
    requires AllDigits(s)
    ensures TokenChars(s) == s
  {
    if s != [] {
      TokenCharsOfDigits(s[1..]);
    }
  }

  /** The hint parts, laid end to end, are exactly the token characters of
      the solution: nothing is invented, reordered or lost. */
  lemma {:induction false} HintPartsCover(s: string)
    ensures Concat(HintParts(s)) == TokenChars(s)
    decreases |s|
  {
    if s != [] {
      if IsDigit(s[0]) {
        var n := Arith.DigitRun(s);
        HintPartsCover(s[n..]);
        assert s == s[..n] + s[n..];
        TokenCharsAppend(s[..n], s[n..]);
        TokenCharsOfDigits(s[..n]);
        assert HintParts(s) == [s[..n]] + HintParts(s[n..]);
      } else if IsOperatorChar(s[0]) {
        HintPartsCover(s[1..]);
        assert HintParts(s) == [[s[0]]] + HintParts(s[1..]);
      } else {
        HintPartsCover(s[1..]);
      }
    }
  }

  /** So the match comes back empty (`null` in the source) exactly when the
      solution has no digit, operator or parenthesis. */
  lemma HintPartsEmpty(s: string)
    ensures HintParts(s) == [] <==> TokenChars(s) == []
  {
    HintPartsCover(s);
    var parts := HintParts(s);
    if parts != [] {
      assert IsHintToken(parts[0]);
      assert Concat(parts) == parts[0] + Concat(parts[1..]);
    }
  }

  // ---------------------------------------------------------------------
  // Replies
  // ---------------------------------------------------------------------

  datatype Summary = Summary(currentLevel: int, unlockedLevels: seq<int>, totalScore: int, totalTrophies: int)

  /** `currentLevelScoreDetails`. */
  datatype Details = Details(currentLevel: int, bestScore: int, attemptsMade: int)

  datatype Reply =
    | SessionNotFound                       // 404
    | WrongLevel(currentLevel: int)         // 403, the level gate
    | LevelNotFound                         // 404, no stored level data
    | HintAlreadyUsed                       // 400
    | ServerError                           // 500, an exception in the handler
    | Started(summary: Summary, isPaused: bool)
    | LevelData(numbers: seq<int>, attempts: int, bestScore: int, solved: bool, currentLevel: int)
    | Solved(pointsEarned: int, trophiesAwarded: int, summary: Summary)
    | FailedLevel(solution: string, details: Details)
    | Retry(totalTrophies: int, attemptsRemaining: int, details: Details)
    | Hint(part: string, pointsDeducted: int, remainingScorePotential: int, details: Details)
    | QuitDone(solution: string, details: Details, solved: bool, quit: bool)
    | Paused
    | Resumed(summary: Summary)

  function SummaryOf(v: SessionView): Summary {
    Summary(v.currentLevel, v.unlockedLevels, v.score, v.trophies)
  }

  // ---------------------------------------------------------------------
  // Generating a level
  // ---------------------------------------------------------------------

  /** The draw on which the source's restart loop stops: six digits 1-9
      for which one pass of the search finds a solution. */
  predicate Solvable(level: int, drawn: seq<int>) {
    Puzzle.IsPuzzleDigits(drawn) && Puzzle.Search(level, drawn).Some?
  }

  /** The level state stored for a freshly generated level. */
  function FreshLevel(level: int, drawn: seq<int>): LevelState
    requires Solvable(level, drawn)
  {
    var found := Puzzle.Search(level, drawn).value;
    LevelState(found.0, found.1, 0, false, false, 0, false)
  }

  /** A freshly generated level is winnable: its stored solution passes
      `checkAnswer` against its stored digits, which are the drawn ones
      rearranged. */
  lemma FreshLevelWinnable(level: int, drawn: seq<int>)
    requires Solvable(level, drawn)
    ensures Puzzle.IsPuzzleDigits(FreshLevel(level, drawn).numbers)
    ensures Puzzle.IsRearrangement(FreshLevel(level, drawn).numbers, drawn)
    ensures Puzzle.CheckAnswer(FreshLevel(level, drawn).numbers, FreshLevel(level, drawn).solution)
    ensures FreshLevel(level, drawn).solution != ""
  {
    var found := Puzzle.Search(level, drawn).value;
    Puzzle.SearchRoundTrip(level, drawn, found.0, found.1);
    assert Puzzle.UsedDigits(found.1) == found.0;
  }

  /** `new MathPuzzleGame(level)` followed by `generateNumbersWithSolution()`
      on the draw, packed as the level state the handlers store. */
  method GenerateLevel(level: int, drawn: seq<int>) returns (state: LevelState)
    requires Solvable(level, drawn)
    ensures state == FreshLevel(level, drawn)
  {
    var game := new Puzzle.MathPuzzleGame(level);
    var found := game.GenerateNumbersWithSolution(drawn);
    state := LevelState(game.currentNumbers[..], game.solution, 0, false, false, 0, false);
  }

  /** The state of `level`: the stored one, or the one generated when the
      handler finds none. */
  function StoredOrFresh(states: map<int, LevelState>, level: int, drawn: seq<int>): LevelState
    requires level in states || Solvable(level, drawn)
  {
    if level in states then states[level] else FreshLevel(level, drawn)
  }

  // ---------------------------------------------------------------------
  // Handlers
  // ---------------------------------------------------------------------

  /** `startGame`: the stored session, or a new one at level 1. */
  method StartGame(userId: string, stored: GameSession?) returns (session: GameSession, reply: Reply)
    requires stored != null ==> stored.Valid()
    ensures session.Valid()
    ensures stored != null ==> session == stored
    ensures stored == null ==>
      && fresh(session) && session.userId == userId
      && session.View() == SessionView(1, [1], 0, 0, map[], false, Idle, None, None)
    ensures reply == Started(SummaryOf(session.View()), session.isPaused)
  {
    if stored == null {
      session := new GameSession(userId);
    } else {
      session := stored;
    }
    reply := Started(SummaryOf(session.View()), session.isPaused);
  }

  /** `getLevel`: refuses a level above the player's, generates the level
      on first request, and answers with its stored state. */
  method GetLevel(session: GameSession?, level: int, drawn: seq<int>) returns (reply: Reply)
    requires session != null ==> session.Valid()
    requires session != null && level <= session.currentLevel && level !in session.levelStates
      ==> Solvable(level, drawn)
    modifies session
    ensures session == null ==> reply == SessionNotFound
    ensures session != null ==> session.Valid()
    ensures session != null && level > old(session.currentLevel) ==>
      reply == WrongLevel(session.currentLevel) && session.View() == old(session.View())
    ensures session != null && level <= old(session.currentLevel) ==>
      var state := StoredOrFresh(old(session.levelStates), level, drawn);
      && session.View() == old(session.View()).(levelStates := old(session.levelStates)[level := state])
      && reply == LevelData(state.numbers, state.attempts, state.bestScore, state.solved, session.currentLevel)
  {
    if session == null {
      reply := SessionNotFound;
      return;
    }
    if level > session.currentLevel {
      reply := WrongLevel(session.currentLevel);
      return;
    }
    EnsureLevel(session, level, drawn);
    var data := session.levelStates[level];
    reply := LevelData(data.numbers, data.attempts, data.bestScore, data.solved, session.currentLevel);
  }

  /** The "generate level data if missing" step shared by `getLevel` and
      `submitAnswer`: afterwards `level` has a state, the stored one if
      there was one. */
  method EnsureLevel(session: GameSession, level: int, drawn: seq<int>)
    requires session.Valid()
    requires level !in session.levelStates ==> Solvable(level, drawn)
    modifies session
    ensures session.Valid() && level in session.levelStates
    ensures session.View() == old(session.View()).(levelStates :=
      old(session.levelStates)[level := StoredOrFresh(old(session.levelStates), level, drawn)])
  {
    if level !in session.levelStates {
      var state := GenerateLevel(level, drawn);
      StoreLevel(session, level, state);
    }
  }

  /** Stores `state` as the state of `level`. */
  method StoreLevel(session: GameSession, level: int, state: LevelState)
    requires session.Valid() && state.attempts >= 0 && state.bestScore >= 0
    modifies session
    ensures session.Valid() && level in session.levelStates
    ensures session.View() == old(session.View()).(levelStates := old(session.levelStates)[level := state])
  {
    session.levelStates := session.levelStates[level := state];
  }

  /** The progression step of a correct answer: the next level is
      unlocked and becomes current, the points and trophies are added, and
      the level's updated state is stored. */
  method CompleteLevel(session: GameSession, state: LevelState, points: nat, trophies: nat)
    requires session.Valid() && state.attempts >= 0 && state.bestScore >= 0
    modifies session
    ensures session.Valid()
    ensures session.View() == old(session.View()).(
      currentLevel := old(session.currentLevel) + 1,
      unlockedLevels := UnlockedUpTo(old(session.currentLevel) + 1),
      score := old(session.score) + points,
      trophies := old(session.trophies) + trophies,
      levelStates := old(session.levelStates)[old(session.currentLevel) := state])
  {
    var level := session.currentLevel;
    var nextLevel := level + 1;
    session.currentLevel := nextLevel;
    session.unlockedLevels := UnlockedUpTo(nextLevel);
    session.score := session.score + points;
    session.trophies := session.trophies + trophies;
    session.levelStates := session.levelStates[level := state];
  }

  /** What an attempt on the current level does to a session whose view
      was `v`, when the level's state was `before` and the attempt was
      judged `correct`: `w` is the new view and `reply` the answer.  The
      attempt is counted; a correct one scores `PointsEarned` and
      `TrophiesAwarded`, keeps the best score, marks the level solved and
      unlocks the next level; a wrong third (or later) one marks the level
      failed and reveals the solution; an earlier wrong one costs a trophy
      (never going below 0).  Nothing else changes. */
  predicate Scored(v: SessionView, before: LevelState, correct: bool, w: SessionView, reply: Reply)
    requires v.currentLevel >= 0
  {
    var level := v.currentLevel;
    var attempts := before.attempts + 1;
    var points := PointsEarned(level, attempts);
    var trophies := TrophiesAwarded(attempts);
    && (correct ==>
          && w == v.(currentLevel := level + 1,
                     unlockedLevels := UnlockedUpTo(level + 1),
                     score := v.score + points,
                     trophies := v.trophies + trophies,
                     levelStates := v.levelStates[level :=
                       before.(attempts := attempts, bestScore := Max(before.bestScore, points), solved := true)])
          && reply == Solved(points, trophies, SummaryOf(w)))
    && (!correct && attempts >= 3 ==>
          && w == v.(levelStates := v.levelStates[level := before.(attempts := attempts, solved := false)])
          && reply == FailedLevel(before.solution, Details(level, before.bestScore, attempts)))
    && (!correct && attempts < 3 ==>
          && w == v.(trophies := Max(v.trophies - 1, 0),
                     levelStates := v.levelStates[level := before.(attempts := attempts)])
          && reply == Retry(w.trophies, 3 - attempts, Details(level, before.bestScore, attempts)))
  }

  /** What every scored attempt guarantees: the level advances exactly
      when the answer is correct, and then the reply is `Solved`; the
      attempt is counted on the current level and on no other; the level
      is marked solved when the answer is right and failed after a third
      wrong one; the score never drops and the trophies stay non-negative. */
  lemma ScoredFacts(v: SessionView, before: LevelState, correct: bool, w: SessionView, reply: Reply)
    requires v.currentLevel >= 0 && v.trophies >= 0
    requires Scored(v, before, correct, w, reply)
    ensures w.currentLevel == if correct then v.currentLevel + 1 else v.currentLevel
    ensures reply.Solved? <==> correct
    ensures reply.FailedLevel? <==> !correct && before.attempts + 1 >= 3
    ensures w.levelStates.Keys == v.levelStates.Keys + {v.currentLevel}
    ensures forall l :: l in v.levelStates && l != v.currentLevel ==> w.levelStates[l] == v.levelStates[l]
    ensures w.levelStates[v.currentLevel].attempts == before.attempts + 1
    ensures w.levelStates[v.currentLevel].numbers == before.numbers
    ensures correct ==> w.levelStates[v.currentLevel].solved
    ensures !correct && before.attempts + 1 >= 3 ==> !w.levelStates[v.currentLevel].solved
    ensures v.score <= w.score && 0 <= w.trophies
    ensures !correct ==> w.trophies <= v.trophies
  {
  }

  /** The scoring half of `submitAnswer`, once the attempt on the current
      level, whose state was `before`, has been judged `correct` or not. */
  method ScoreAttempt(session: GameSession, before: LevelState, correct: bool) returns (reply: Reply)
    requires session.Valid() && before.attempts >= 0 && before.bestScore >= 0
    modifies session
    ensures session.Valid()
    ensures Scored(old(session.View()), before, correct, session.View(), reply)
  {
    if correct {
      reply := ScoreSolved(session, before);
    } else if before.attempts + 1 >= 3 {
      reply := ScoreFailed(session, before);
    } else {
      reply := ScoreRetry(session, before);
    }
  }

  /** A correct answer: points, trophies and the next level. */
  method ScoreSolved(session: GameSession, before: LevelState) returns (reply: Reply)
    requires session.Valid() && before.attempts >= 0 && before.bestScore >= 0
    modifies session
    ensures session.Valid()
    ensures Scored(old(session.View()), before, true, session.View(), reply)
  {
    var level := session.currentLevel;
    var state := before.(attempts := before.attempts + 1);
    var points := PointsEarned(level, state.attempts);
    var trophies := TrophiesAwarded(state.attempts);
    state := state.(bestScore := Max(state.bestScore, points), solved := true);
    CompleteLevel(session, state, points, trophies);
    reply := Solved(points, trophies, SummaryOf(session.View()));
  }

  /** A wrong third (or later) attempt: the level is failed. */
  method ScoreFailed(session: GameSession, before: LevelState) returns (reply: Reply)
    requires session.Valid() && before.attempts >= 2 && before.bestScore >= 0
    modifies session
    ensures session.Valid()
    ensures Scored(old(session.View()), before, false, session.View(), reply)
  {
    var state := before.(attempts := before.attempts + 1, solved := false);
    session.levelStates := session.levelStates[session.currentLevel := state];
    reply := FailedLevel(state.solution, Details(session.currentLevel, state.bestScore, state.attempts));
  }

  /** An earlier wrong attempt: a trophy is lost, never going below 0. */
  method ScoreRetry(session: GameSession, before: LevelState) returns (reply: Reply)
    requires session.Valid() && 0 <= before.attempts < 2 && before.bestScore >= 0
    modifies session
    ensures session.Valid()
    ensures Scored(old(session.View()), before, false, session.View(), reply)
  {
    var state := before.(attempts := before.attempts + 1);
    session.trophies := Max(session.trophies - 1, 0);
    session.levelStates := session.levelStates[session.currentLevel := state];
    reply := Retry(session.trophies, AttemptsRemaining(state.attempts),
                   Details(session.currentLevel, state.bestScore, state.attempts));
  }


  /** `submitAnswer`: only the player's current level is accepted; the
      attempt is counted, and a correct answer scores and unlocks the next
      level, a wrong third (or later) attempt fails the level and reveals
      the solution, and any other wrong answer costs a trophy.  The
      outcome is `ScoreAttempt`'s, judged by `checkAnswer` against the
      level's stored digits. */
  method SubmitAnswer(session: GameSession?, level: int, expression: string, drawn: seq<int>)
    returns (reply: Reply)
    requires session != null ==> session.Valid()
    requires session != null && level == session.currentLevel && level !in session.levelStates
      ==> Solvable(level, drawn)
    modifies session
    ensures session == null ==> reply == SessionNotFound
    ensures session != null ==> session.Valid()
    ensures session != null && level != old(session.currentLevel) ==>
      reply == WrongLevel(session.currentLevel) && session.View() == old(session.View())
    ensures session != null && level == old(session.currentLevel) ==>
      var before := StoredOrFresh(old(session.levelStates), level, drawn);
      Scored(old(session.View()), before, Puzzle.CheckAnswer(before.numbers, expression), session.View(), reply)
  {
    if session == null {
      reply := SessionNotFound;
      return;
    }
    if level != session.currentLevel {
      reply := WrongLevel(session.currentLevel);
      return;
    }
    // the level's state, generated when missing; the handler stores it
    // first, but the state stored after scoring replaces it
    var before;
    if level in session.levelStates {
      before := session.levelStates[level];
    } else {
      before := GenerateLevel(level, drawn);
    }
    var correct := Puzzle.CheckAnswer(before.numbers, expression);
    reply := ScoreAttempt(session, before, correct);
  }

  /** `getHint`: once per level, on the current level only, shows one part
      of the stored solution (the part the random `pick` lands on) and
      deducts up to 20 points without taking the score below 0. */
  method GetHint(session: GameSession?, level: int, pick: nat) returns (reply: Reply)
    requires session != null ==> session.Valid()
    modifies session
    ensures session != null ==> session.Valid()
    ensures session == null ==> reply == SessionNotFound
    ensures session != null && level != old(session.currentLevel) ==>
      reply == WrongLevel(session.currentLevel) && session.View() == old(session.View())
    ensures (session != null && level == old(session.currentLevel)
      && (level !in old(session.levelStates) || old(session.levelStates)[level].solution == "")) ==>
      reply == LevelNotFound && session.View() == old(session.View())
    ensures (session != null && level == old(session.currentLevel)
      && level in old(session.levelStates) && old(session.levelStates)[level].solution != "") ==>
      var before := old(session.levelStates)[level];
      var parts := HintParts(before.solution);
      && (before.hintUsed ==> reply == HintAlreadyUsed && session.View() == old(session.View()))
      && (!before.hintUsed && parts == [] ==> reply == ServerError && session.View() == old(session.View()))
      && (!before.hintUsed && parts != [] ==>
            var deduction := Min(20, old(session.score));
            && session.View() == old(session.View()).(
                 score := old(session.score) - deduction,
                 levelStates := old(session.levelStates)[level := before.(hintUsed := true)])
            && reply.Hint? && reply.part in parts && IsHintToken(reply.part)
            && reply == Hint(reply.part, deduction, session.score, Details(level, before.bestScore, before.attempts)))
  {
    if session == null {
      reply := SessionNotFound;
      return;
    }
    if level != session.currentLevel {
      reply := WrongLevel(session.currentLevel);
      return;
    }
    if level !in session.levelStates || session.levelStates[level].solution == "" {
      reply := LevelNotFound;
      return;
    }
    var state := session.levelStates[level];
    if state.hintUsed {
      reply := HintAlreadyUsed;
      return;
    }
    var parts := HintParts(state.solution);
    if parts == [] {
      // `solutionParts` is null and reading its length throws
      reply := ServerError;
      return;
    }
    var part := parts[pick % |parts|];
    var deduction := Min(20, session.score);
    session.score := session.score - deduction;
    state := state.(hintUsed := true);
    session.levelStates := session.levelStates[level := state];
    reply := Hint(part, deduction, session.score, Details(session.currentLevel, state.bestScore, state.attempts));
  }

  /** `quitLevel`: marks the current level as quit and reveals its
      solution. */
  method QuitLevel(session: GameSession?, level: int) returns (reply: Reply)
    requires session != null ==> session.Valid()
    modifies session
    ensures session != null ==> session.Valid()
    ensures session == null ==> reply == SessionNotFound
    ensures session != null && level != old(session.currentLevel) ==>
      reply == WrongLevel(session.currentLevel) && session.View() == old(session.View())
    ensures (session != null && level == old(session.currentLevel)
      && (level !in old(session.levelStates) || old(session.levelStates)[level].solution == "")) ==>
      reply == LevelNotFound && session.View() == old(session.View())
    ensures (session != null && level == old(session.currentLevel)
      && level in old(session.levelStates) && old(session.levelStates)[level].solution != "") ==>
      var before := old(session.levelStates)[level];
      && session.View() == old(session.View()).(levelStates := old(session.levelStates)[level := before.(quit := true)])
      && reply == QuitDone(before.solution, Details(level, before.bestScore, before.attempts), before.solved, true)
  {
    if session == null {
      reply := SessionNotFound;
      return;
    }
    if level != session.currentLevel {
      reply := WrongLevel(session.currentLevel);
      return;
    }
    if level !in session.levelStates || session.levelStates[level].solution == "" {
      reply := LevelNotFound;
      return;
    }
    var state := session.levelStates[level];
    state := state.(quit := true);
    session.levelStates := session.levelStates[level := state];
    reply := QuitDone(state.solution, Details(session.currentLevel, state.bestScore, state.attempts), state.solved, state.quit);
  }

  /** `pauseGame`. */
  method PauseGame(session: GameSession?) returns (reply: Reply)
    requires session != null ==> session.Valid()
    modifies session
    ensures session == null ==> reply == SessionNotFound
    ensures session != null ==>
      session.Valid() && reply == Paused && session.View() == old(session.View()).(isPaused := true)
  {
    if session == null {
      reply := SessionNotFound;
      return;
    }
    session.isPaused := true;
    reply := Paused;
  }

  /** `resumeGame`. */
  method ResumeGame(session: GameSession?) returns (reply: Reply)
    requires session != null ==> session.Valid()
    modifies session
    ensures session == null ==> reply == SessionNotFound
    ensures session != null ==>
      && session.Valid() && session.View() == old(session.View()).(isPaused := false)
      && reply == Resumed(SummaryOf(session.View()))
  {
    if session == null {
      reply := SessionNotFound;
      return;
    }
    session.isPaused := false;
    reply := Resumed(SummaryOf(session.View()));
  }
}
