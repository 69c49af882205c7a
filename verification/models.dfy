/** The stored records: a player's game session (`models/GameSession.js`)
    and a battle (`models/Battle.js`).  Both are updated in place by the
    controllers, so both are classes; a level's state is a value kept in
    the session's map from level to state. */
module Models {
  import opened Wrappers

  /** What the session remembers about one level. */
  datatype LevelState = LevelState(
    numbers: seq<int>,
    solution: string,
    attempts: int,
    solved: bool,
    quit: bool,
    bestScore: int,
    hintUsed: bool)

  /** No level has a negative attempt count or best score. */
  predicate LevelsValid(states: map<int, LevelState>) {
    forall k :: k in states ==> states[k].attempts >= 0 && states[k].bestScore >= 0
  }

  /** A player's place in the battle matchmaking. */
  datatype BattleStatus = Idle | Waiting | InBattle

  /** Everything a session holds that a handler may change. */
  datatype SessionView = SessionView(
    currentLevel: int,
    unlockedLevels: seq<int>,
    score: int,
    trophies: int,
    levelStates: map<int, LevelState>,
    isPaused: bool,
    battleStatus: BattleStatus,
    battleId: Option<string>,
    opponentId: Option<string>)

  /** `[1, 2, ..., n]`, the levels open to a player on level `n`. */
  function UnlockedUpTo(n: nat): (r: seq<int>)
    ensures |r| == n
    ensures forall i :: 0 <= i < n ==> r[i] == i + 1
  {
    if n == 0 then [] else UnlockedUpTo(n - 1) + [n]
  }

  class GameSession {
    const userId: string
    var currentLevel: int
    var unlockedLevels: seq<int>
    var score: int
    var trophies: int
    var levelStates: map<int, LevelState>
    var isPaused: bool
    var battleStatus: BattleStatus
    var battleId: Option<string>
    var opponentId: Option<string>

    /** What every session keeps: a level of at least 1 with exactly the
        levels up to it unlocked, and totals that never drop below 0. */
    predicate Valid()
      reads this
    {
      currentLevel >= 1 && unlockedLevels == UnlockedUpTo(currentLevel)
      && score >= 0 && trophies >= 0 && LevelsValid(levelStates)
    }

    function View(): SessionView
      reads this
    {
      SessionView(currentLevel, unlockedLevels, score, trophies, levelStates, isPaused,
                  battleStatus, battleId, opponentId)
    }

    /** `new GameSession({ userId, currentLevel: 1, unlockedLevels: [1], ... })`. */
    constructor (userId: string)
      ensures Valid()
      ensures this.userId == userId && currentLevel == 1 && unlockedLevels == [1]
      ensures score == 0 && trophies == 0 && levelStates == map[] && !isPaused
      ensures battleStatus == Idle && battleId == None && opponentId == None
    {
      this.userId := userId;
      currentLevel := 1;
      unlockedLevels := [1];
      score := 0;
      trophies := 0;
      levelStates := map[];
      isPaused := false;
      battleStatus := Idle;
      battleId := None;
      opponentId := None;
    }
  }

  predicate NoDuplicates(s: seq<string>) {
    forall i, j :: 0 <= i < j < |s| ==> s[i] != s[j]
  }

  datatype BattleState = Pending | Active | Completed | Canceled

  datatype BattleResult = Win | Draw

  /** Everything a battle holds that a handler may change. */
  datatype BattleView = BattleView(
    startTime: int,
    status: BattleState,
    result: Option<BattleResult>,
    winner: Option<string>,
    player1Attempts: int,
    player2Attempts: int,
    spectators: seq<string>)

  class Battle {
    const battleId: string
    const player1: string
    const player2: string
    const numbers: seq<int>
    const solution: string
    var startTime: int
    const timeLimit: int
    var status: BattleState
    var result: Option<BattleResult>
    var winner: Option<string>
    var player1Attempts: int
    var player2Attempts: int
    const isPublic: bool
    var spectators: seq<string>

    /** No user watches twice; attempts are never negative. */
    predicate Valid()
      reads this
    {
      NoDuplicates(spectators) && player1Attempts >= 0 && player2Attempts >= 0
    }

    function View(): BattleView
      reads this
    {
      BattleView(startTime, status, result, winner, player1Attempts, player2Attempts, spectators)
    }

    /** `new Battle({...})` with the schema's defaults for what is not given:
        no result, no winner, no attempts, public, no spectators. */
    constructor (battleId: string, player1: string, player2: string, numbers: seq<int>,
                 solution: string, startTime: int, timeLimit: int, status: BattleState)
      ensures Valid()
      ensures this.battleId == battleId && this.player1 == player1 && this.player2 == player2
      ensures this.numbers == numbers && this.solution == solution
      ensures this.startTime == startTime && this.timeLimit == timeLimit && this.status == status
      ensures result == None && winner == None && player1Attempts == 0 && player2Attempts == 0
      ensures isPublic && spectators == []
    {
      this.battleId := battleId;
      this.player1 := player1;
      this.player2 := player2;
      this.numbers := numbers;
      this.solution := solution;
      this.startTime := startTime;
      this.timeLimit := timeLimit;
      this.status := status;
      result := None;
      winner := None;
      player1Attempts := 0;
      player2Attempts := 0;
      isPublic := true;
      spectators := [];
    }
  }
}
