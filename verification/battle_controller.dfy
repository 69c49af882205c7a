/** The battle handlers of `backend/controllers/battleController.js` as
    transitions on loaded records.  A `null` record is a `findOne` that
    found nothing; the sessions a handler loads by user id are passed in
    together with what the lookup guarantees about them (their user ids,
    and that one user has one session).  The clock (`Date.now()`, in
    milliseconds), the new battle id and the random draw are parameters. */
module BattleController {
  import opened Wrappers
  import opened JsNumber
  import opened Models
  import Puzzle
  import GameController

  datatype BattleReply =
    | SessionNotFound                          // 404
    | FriendNotFound                           // 404
    | BattleNotFound                           // 404
    | NotAuthorized                            // 403
    | PrivateBattle                            // 403
    | NotWaiting                               // 400
    | NotPending(status: BattleState)          // 400
    | NotActive(status: BattleState)           // 400
    | ServerError                              // 500, an exception in the handler
    | AlreadyInBattle(currentBattle: Option<string>)
    | Matched(battleId: string, opponentId: string, numbers: seq<int>, timeLimit: int)
    | WaitingForOpponent
    | BattleEnded(result: Option<BattleResult>, winner: Option<string>)
    | TimeExpired
    | Won(pointsEarned: int, trophiesEarned: int)
    | Incorrect(attemptsRemaining: int)
    | Status(status: BattleState, result: Option<BattleResult>, winner: Option<string>,
             opponentAttempts: int, timeRemaining: real)
    | SearchCanceled
    | Invited(battleId: string, numbers: seq<int>)
    | BattleStarted(battleId: string, numbers: seq<int>, timeLimit: int)
    | Spectating(player1: string, player2: string, numbers: seq<int>, player1Attempts: int,
                 player2Attempts: int, timeRemaining: real, status: BattleState)

  /** Seconds left: `Math.max(0, timeLimit - (now - startTime) / 1000)`. */
  function TimeRemaining(timeLimit: int, startTime: int, now: int): (r: real)
    ensures r >= 0.0
    ensures r >= timeLimit as real - (now - startTime) as real / 1000.0
    ensures r > 0.0 ==> r == timeLimit as real - (now - startTime) as real / 1000.0
  {
    var left := timeLimit as real - (now - startTime) as real / 1000.0;
    if 0.0 >= left then 0.0 else left
  }

  /** The submit handler's time-out test `now - startTime > timeLimit * 1000`
      holds exactly when no time remains and the deadline has passed. */
  lemma TimedOutMeansNoTimeLeft(timeLimit: int, startTime: int, now: int)
    ensures now - startTime > timeLimit * 1000 ==> TimeRemaining(timeLimit, startTime, now) == 0.0
    ensures TimeRemaining(timeLimit, startTime, now) > 0.0 ==> now - startTime < timeLimit * 1000
  {
    var elapsed := (now - startTime) as real;
    assert elapsed / 1000.0 * 1000.0 == elapsed;
  }

  /** `3 - (attempts % 3)` with JavaScript's remainder. */
  function BattleAttemptsRemaining(attempts: int): (r: int)
    ensures attempts >= 0 ==> 1 <= r <= 3 && (r == 3 <==> attempts % 3 == 0)
    ensures attempts >= 0 ==> r == 3 - attempts % 3
    ensures attempts < 0 ==> r >= 3
  {
    3 - Rem(attempts, 3)
  }

  /** The user ids of the sessions loaded for a battle agree with the
      battle, and one user id has one session. */
  predicate Players(battle: Battle, userId: string, player1: GameSession?, player2: GameSession?,
                    submitter: GameSession?)
  {
    && (player1 != null ==> player1.userId == battle.player1)
    && (player2 != null ==> player2.userId == battle.player2)
    && (submitter != null ==> submitter.userId == userId)
    && (userId == battle.player1 ==> submitter == player1)
    && (userId == battle.player2 ==> submitter == player2)
    && (battle.player1 == battle.player2 ==> player1 == player2)
  }

  predicate ValidOrNull(s: GameSession?)
    reads s
  {
    s != null ==> s.Valid()
  }

  /** `session.battleStatus = { status, battleId, opponentId }`. */
  method SetBattleStatus(session: GameSession, status: BattleStatus, battleId: Option<string>,
                         opponentId: Option<string>)
    requires session.Valid()
    modifies session
    ensures session.Valid()
    ensures session.View() == old(session.View()).(battleStatus := status, battleId := battleId,
                                                   opponentId := opponentId)
  {
    session.battleStatus, session.battleId, session.opponentId := status, battleId, opponentId;
  }

  /** A player leaving a battle: the score grows by `scoreGain`, the
      trophies become `trophies`, and the session goes idle with no battle
      id (the opponent id stays). */
  method LeaveBattle(session: GameSession, scoreGain: nat, trophies: nat)
    requires session.Valid()
    modifies session
    ensures session.Valid()
    ensures session.View() == old(session.View()).(score := old(session.score) + scoreGain,
      trophies := trophies, battleStatus := Idle, battleId := None)
  {
    session.score := session.score + scoreGain;
    session.trophies := trophies;
    session.battleStatus, session.battleId := Idle, None;
  }

  // ---------------------------------------------------------------------
  // Matchmaking
  // ---------------------------------------------------------------------

  /** `findOpponent`: a player already in a battle gets that battle back;
      otherwise a waiting opponent (the query's result, `null` when no
      one waits) is matched into a new active 30-second battle on a puzzle
      of the lower of the two levels, and without one the player waits. */
  method FindOpponent(userId: string, session: GameSession?, opponent: GameSession?,
                      battleId: string, now: int, drawn: seq<int>)
    returns (reply: BattleReply, battle: Battle?)
    requires ValidOrNull(session) && ValidOrNull(opponent)
    requires session != null ==> session.userId == userId
    requires opponent != null ==> opponent.userId != userId && opponent.battleStatus == Waiting
    requires session != null && session.battleStatus != InBattle && opponent != null ==>
      GameController.Solvable(Min(session.currentLevel, opponent.currentLevel), drawn)
    modifies session, opponent
    ensures ValidOrNull(session) && ValidOrNull(opponent)
    ensures session == null ==> reply == SessionNotFound && battle == null
    ensures session != null && old(session.battleStatus) == InBattle ==>
      && reply == AlreadyInBattle(session.battleId) && battle == null
      && session.View() == old(session.View())
      && (opponent != null ==> opponent.View() == old(opponent.View()))
    ensures session != null && old(session.battleStatus) != InBattle && opponent == null ==>
      && reply == WaitingForOpponent && battle == null
      && session.View() == old(session.View()).(battleStatus := Waiting, battleId := None, opponentId := None)
    ensures session != null && old(session.battleStatus) != InBattle && opponent != null ==>
      var puzzle := GameController.FreshLevel(Min(old(session.currentLevel), old(opponent.currentLevel)), drawn);
      && battle != null && fresh(battle) && battle.Valid()
      && battle.battleId == battleId && battle.player1 == userId && battle.player2 == opponent.userId
      && battle.numbers == puzzle.numbers && battle.solution == puzzle.solution
      && battle.View() == BattleView(now, Active, None, None, 0, 0, [])
      && battle.timeLimit == 30 && battle.isPublic
      && session.View() == old(session.View()).(battleStatus := InBattle, battleId := Some(battleId),
                                                opponentId := Some(opponent.userId))
      && opponent.View() == old(opponent.View()).(battleStatus := InBattle, battleId := Some(battleId),
                                                  opponentId := Some(userId))
      && reply == Matched(battleId, opponent.userId, puzzle.numbers, 30)
  {
    battle := null;
    if session == null {
      reply := SessionNotFound;
      return;
    }
    if session.battleStatus == InBattle {
      reply := AlreadyInBattle(session.battleId);
      return;
    }
    if opponent != null {
      var puzzle := GameController.GenerateLevel(Min(session.currentLevel, opponent.currentLevel), drawn);
      battle := new Battle(battleId, userId, opponent.userId, puzzle.numbers, puzzle.solution, now, 30, Active);
      SetBattleStatus(session, InBattle, Some(battleId), Some(opponent.userId));
      SetBattleStatus(opponent, InBattle, Some(battleId), Some(userId));
      reply := Matched(battleId, opponent.userId, puzzle.numbers, 30);
    } else {
      SetBattleStatus(session, Waiting, None, None);
      reply := WaitingForOpponent;
    }
  }

  /** `cancelBattleSearch`: only a waiting player can stop waiting; only
      the status changes. */
  method CancelBattleSearch(session: GameSession?) returns (reply: BattleReply)
    requires ValidOrNull(session)
    modifies session
    ensures ValidOrNull(session)
    ensures session == null ==> reply == SessionNotFound
    ensures session != null && old(session.battleStatus) != Waiting ==>
      reply == NotWaiting && session.View() == old(session.View())
    ensures session != null && old(session.battleStatus) == Waiting ==>
      reply == SearchCanceled && session.View() == old(session.View()).(battleStatus := Idle)
  {
    if session == null {
      reply := SessionNotFound;
      return;
    }
    if session.battleStatus != Waiting {
      reply := NotWaiting;
      return;
    }
    session.battleStatus := Idle;
    reply := SearchCanceled;
  }

  // ---------------------------------------------------------------------
  // Playing a battle
  // ---------------------------------------------------------------------

  /** The time-out branch of `submitBattleAnswer`: the battle ends in a
      draw and both players' sessions go idle with no battle id. */
  method ExpireBattle(battle: Battle, player1: GameSession?, player2: GameSession?)
    requires battle.Valid() && ValidOrNull(player1) && ValidOrNull(player2)
    modifies battle, player1, player2
    ensures battle.Valid() && ValidOrNull(player1) && ValidOrNull(player2)
    ensures battle.View() == old(battle.View()).(status := Completed, result := Some(Draw), winner := None)
    ensures player1 != null ==> player1.View() == old(player1.View()).(battleStatus := Idle, battleId := None)
    ensures player2 != null ==> player2.View() == old(player2.View()).(battleStatus := Idle, battleId := None)
  {
    battle.status, battle.result, battle.winner := Completed, Some(Draw), None;
    if player1 != null {
      LeaveBattle(player1, 0, player1.trophies);
    }
    if player2 != null {
      LeaveBattle(player2, 0, player2.trophies);
    }
  }

  /** The winner's session after a won battle: 200 more points, 10 more
      trophies, idle with no battle id. */
  function WinnerView(v: SessionView): (w: SessionView)
    ensures w.score == v.score + 200 && w.trophies == v.trophies + 10
    ensures w.battleStatus == Idle && w.battleId == None
    ensures w.(score := v.score, trophies := v.trophies, battleStatus := v.battleStatus, battleId := v.battleId) == v
  {
    v.(score := v.score + 200, trophies := v.trophies + 10, battleStatus := Idle, battleId := None)
  }

  /** The loser's session after a lost battle: 5 trophies fewer but never
      below 0, idle with no battle id. */
  function LoserView(v: SessionView): (l: SessionView)
    ensures v.trophies >= 0 ==> 0 <= l.trophies <= v.trophies
    ensures v.trophies >= 5 ==> l.trophies == v.trophies - 5
    ensures l.battleStatus == Idle && l.battleId == None
    ensures l.(trophies := v.trophies, battleStatus := v.battleStatus, battleId := v.battleId) == v
  {
    v.(trophies := Max(v.trophies - 5, 0), battleStatus := Idle, battleId := None)
  }

  /** The winning branch of `submitBattleAnswer`, after the battle has been
      saved as won by the submitter: the winner gains 200 points and 10
      trophies, the loser loses up to 5 trophies, and both go idle.  A
      session that is not there makes the handler throw, leaving what was
      already saved. */
  method RewardWin(winner: GameSession?, loser: GameSession?) returns (reply: BattleReply)
    requires ValidOrNull(winner) && ValidOrNull(loser)
    modifies winner, loser
    ensures ValidOrNull(winner) && ValidOrNull(loser)
    ensures winner == null ==>
      reply == ServerError && (loser != null ==> loser.View() == old(loser.View()))
    ensures winner != null && loser == null ==>
      reply == ServerError && winner.View() == WinnerView(old(winner.View()))
    ensures winner != null && loser != null && winner != loser ==>
      && reply == Won(200, 10)
      && winner.View() == WinnerView(old(winner.View()))
      && loser.View() == LoserView(old(loser.View()))
    ensures winner != null && winner == loser ==>
      && reply == Won(200, 10)
      && winner.View() == LoserView(WinnerView(old(winner.View())))
      && winner.trophies == old(winner.trophies) + 5
  {
    if winner == null {
      reply := ServerError;
      return;
    }
    LeaveBattle(winner, 200, winner.trophies + 10);
    if loser == null {
      reply := ServerError;
      return;
    }
    LeaveBattle(loser, 0, Max(loser.trophies - 5, 0));
    reply := Won(200, 10);
  }

  /** `battle[playerField] += 1`: any user who is not player 1 counts as
      player 2.  Returns the new count. */
  method CountAttempt(battle: Battle, userId: string) returns (attempts: int)
    requires battle.Valid()
    modifies battle
    ensures battle.Valid()
    ensures userId == battle.player1 ==>
      battle.View() == old(battle.View()).(player1Attempts := old(battle.player1Attempts) + 1)
      && attempts == battle.player1Attempts
    ensures userId != battle.player1 ==>
      battle.View() == old(battle.View()).(player2Attempts := old(battle.player2Attempts) + 1)
      && attempts == battle.player2Attempts
  {
    if userId == battle.player1 {
      battle.player1Attempts := battle.player1Attempts + 1;
      attempts := battle.player1Attempts;
    } else {
      battle.player2Attempts := battle.player2Attempts + 1;
      attempts := battle.player2Attempts;
    }
  }

  /** The battle is over, won by `userId`. */
  method CloseAsWin(battle: Battle, userId: string)
    requires battle.Valid()
    modifies battle
    ensures battle.Valid()
    ensures battle.View() == old(battle.View()).(status := Completed, result := Some(Win), winner := Some(userId))
  {
    battle.status, battle.result, battle.winner := Completed, Some(Win), Some(userId);
  }

  /** A session's view, or a placeholder for a session that is not there. */
  function ViewOf(s: GameSession?): SessionView
    reads s
  {
    if s == null then SessionView(0, [], 0, 0, map[], false, Idle, None, None) else s.View()
  }

  /** What a win leaves the three loaded sessions as, given their views
      `p1`, `p2` and `sub` before: the submitter is rewarded as the winner
      and the other player (player 2 when the submitter is player 1,
      player 1 otherwise) as the loser; a missing winner or loser makes the
      handler throw after what it already saved, and a session that is
      neither is untouched. */
  predicate Rewarded(userId: string, player1Id: string, player1: GameSession?, player2: GameSession?,
                     submitter: GameSession?, p1: SessionView, p2: SessionView, sub: SessionView,
                     reply: BattleReply)
    reads player1, player2, submitter
  {
    var loser := if userId == player1Id then player2 else player1;
    var loserBefore := if userId == player1Id then p2 else p1;
    && (submitter == null ==>
          reply == ServerError && (loser != null ==> loser.View() == loserBefore))
    && (submitter != null && loser == null ==>
          reply == ServerError && submitter.View() == WinnerView(sub))
    && (submitter != null && loser != null && submitter != loser ==>
          reply == Won(200, 10) && submitter.View() == WinnerView(sub) && loser.View() == LoserView(loserBefore))
    && (submitter != null && submitter == loser ==>
          reply == Won(200, 10) && submitter.View() == LoserView(WinnerView(sub)))
    && (userId != player1Id && player2 != null && player2 != submitter && player2 != player1 ==>
          player2.View() == p2)
  }

  /** An attempt on an active battle in time, judged `correct` or not: it
      is counted for the submitter; a correct one wins the battle for the
      submitter and `RewardWin` settles the two sessions, and a wrong one
      only reports the attempts left in the round of three. */
  method PlayAttempt(battle: Battle, userId: string, correct: bool,
                     player1: GameSession?, player2: GameSession?, submitter: GameSession?)
    returns (reply: BattleReply)
    requires battle.Valid() && Players(battle, userId, player1, player2, submitter)
    requires ValidOrNull(player1) && ValidOrNull(player2) && ValidOrNull(submitter)
    modifies battle, player1, player2, submitter
    ensures battle.Valid() && ValidOrNull(player1) && ValidOrNull(player2) && ValidOrNull(submitter)
    ensures
      var isPlayer1 := userId == battle.player1;
      var counted := old(battle.View()).(
        player1Attempts := old(battle.player1Attempts) + (if isPlayer1 then 1 else 0),
        player2Attempts := old(battle.player2Attempts) + (if isPlayer1 then 0 else 1));
      && (correct ==>
            && battle.View() == counted.(status := Completed, result := Some(Win), winner := Some(userId))
            && (reply == Won(200, 10) || reply == ServerError))
      && (correct ==> Rewarded(userId, battle.player1, player1, player2, submitter,
                               old(ViewOf(player1)), old(ViewOf(player2)), old(ViewOf(submitter)), reply))
      && (!correct ==>
            && battle.View() == counted
            && reply == Incorrect(BattleAttemptsRemaining(
                 if isPlayer1 then battle.player1Attempts else battle.player2Attempts))
            && (player1 != null ==> player1.View() == old(player1.View()))
            && (player2 != null ==> player2.View() == old(player2.View()))
            && (submitter != null ==> submitter.View() == old(submitter.View())))
  {
    var attempts := CountAttempt(battle, userId);
    if correct {
      CloseAsWin(battle, userId);
      var loser := if userId == battle.player1 then player2 else player1;
      reply := RewardWin(submitter, loser);
      return;
    }
    reply := Incorrect(BattleAttemptsRemaining(attempts));
  }

  /** `submitBattleAnswer`: an ended battle answers with its outcome; past
      the time limit the battle is a draw; otherwise the attempt is
      `PlayAttempt`'s, judged by `checkAnswer` against the battle's digits. */
  method SubmitBattleAnswer(battle: Battle?, userId: string, expression: string, now: int,
                            player1: GameSession?, player2: GameSession?, submitter: GameSession?)
    returns (reply: BattleReply)
    requires battle != null ==> battle.Valid() && Players(battle, userId, player1, player2, submitter)
    requires ValidOrNull(player1) && ValidOrNull(player2) && ValidOrNull(submitter)
    modifies battle, player1, player2, submitter
    ensures battle != null ==> battle.Valid()
    ensures ValidOrNull(player1) && ValidOrNull(player2) && ValidOrNull(submitter)
    ensures battle == null ==> reply == BattleNotFound
    ensures battle != null && old(battle.status) != Active ==>
      && reply == BattleEnded(battle.result, battle.winner)
      && battle.View() == old(battle.View())
      && (player1 != null ==> player1.View() == old(player1.View()))
      && (player2 != null ==> player2.View() == old(player2.View()))
      && (submitter != null ==> submitter.View() == old(submitter.View()))
    ensures battle != null && old(battle.status) == Active && now - old(battle.startTime) > battle.timeLimit * 1000 ==>
      && reply == TimeExpired
      && battle.View() == old(battle.View()).(status := Completed, result := Some(Draw), winner := None)
      && (player1 != null ==> player1.View() == old(player1.View()).(battleStatus := Idle, battleId := None))
      && (player2 != null ==> player2.View() == old(player2.View()).(battleStatus := Idle, battleId := None))
      && (submitter != null && submitter != player1 && submitter != player2 ==>
            submitter.View() == old(submitter.View()))
    ensures battle != null && old(battle.status) == Active && now - old(battle.startTime) <= battle.timeLimit * 1000 ==>
      var correct := Puzzle.CheckAnswer(battle.numbers, expression);
      var isPlayer1 := userId == battle.player1;
      var counted := old(battle.View()).(
        player1Attempts := old(battle.player1Attempts) + (if isPlayer1 then 1 else 0),
        player2Attempts := old(battle.player2Attempts) + (if isPlayer1 then 0 else 1));
      && (correct ==>
            && battle.View() == counted.(status := Completed, result := Some(Win), winner := Some(userId))
            && Rewarded(userId, battle.player1, player1, player2, submitter,
                        old(ViewOf(player1)), old(ViewOf(player2)), old(ViewOf(submitter)), reply))
      && (!correct ==>
            && battle.View() == counted
            && reply == Incorrect(BattleAttemptsRemaining(
                 if isPlayer1 then battle.player1Attempts else battle.player2Attempts))
            && (player1 != null ==> player1.View() == old(player1.View()))
            && (player2 != null ==> player2.View() == old(player2.View()))
            && (submitter != null ==> submitter.View() == old(submitter.View())))
  {
    if battle == null {
      reply := BattleNotFound;
      return;
    }
    if battle.status != Active {
      reply := BattleEnded(battle.result, battle.winner);
      return;
    }
    if now - battle.startTime > battle.timeLimit * 1000 {
      ExpireBattle(battle, player1, player2);
      reply := TimeExpired;
      return;
    }
    var correct := Puzzle.CheckAnswer(battle.numbers, expression);
    reply := PlayAttempt(battle, userId, correct, player1, player2, submitter);
  }

  /** `checkBattleStatus`: the battle's outcome so far, the other player's
      attempt count and the seconds left; nothing changes. */
  method CheckBattleStatus(battle: Battle?, userId: string, now: int) returns (reply: BattleReply)
    ensures battle == null ==> reply == BattleNotFound
    ensures battle != null ==>
      && reply.Status? && reply.status == battle.status && reply.result == battle.result
      && reply.winner == battle.winner && reply.timeRemaining >= 0.0
      && reply.opponentAttempts == (if userId == battle.player1 then battle.player2Attempts else battle.player1Attempts)
      && reply.timeRemaining == TimeRemaining(battle.timeLimit, battle.startTime, now)
  {
    if battle == null {
      reply := BattleNotFound;
      return;
    }
    var opponentAttempts := if userId == battle.player1 then battle.player2Attempts else battle.player1Attempts;
    reply := Status(battle.status, battle.result, battle.winner, opponentAttempts,
                    TimeRemaining(battle.timeLimit, battle.startTime, now));
  }

  // ---------------------------------------------------------------------
  // Friendly battles and spectators
  // ---------------------------------------------------------------------

  /** `createFriendlyBattle`: a pending, public 60-second battle on a puzzle
      of the lower of the two levels, with the creator waiting for the
      friend. */
  method CreateFriendlyBattle(userId: string, friendId: string, creator: GameSession?, friend: GameSession?,
                              battleId: string, now: int, drawn: seq<int>)
    returns (reply: BattleReply, battle: Battle?)
    requires ValidOrNull(creator) && ValidOrNull(friend)
    requires creator != null ==> creator.userId == userId
    requires friend != null ==> friend.userId == friendId
    requires creator != null && friend != null ==>
      GameController.Solvable(Min(creator.currentLevel, friend.currentLevel), drawn)
    modifies creator
    ensures ValidOrNull(creator)
    ensures creator == null ==> reply == SessionNotFound && battle == null
    ensures creator != null && friend == null ==>
      reply == FriendNotFound && battle == null && creator.View() == old(creator.View())
    ensures creator != null && friend != null ==>
      var puzzle := GameController.FreshLevel(Min(old(creator.currentLevel), old(friend.currentLevel)), drawn);
      && battle != null && fresh(battle) && battle.Valid()
      && battle.battleId == battleId && battle.player1 == userId && battle.player2 == friendId
      && battle.numbers == puzzle.numbers && battle.solution == puzzle.solution
      && battle.View() == BattleView(now, Pending, None, None, 0, 0, [])
      && battle.timeLimit == 60 && battle.isPublic
      && creator.View() == old(creator.View()).(battleStatus := Waiting, battleId := Some(battleId),
                                                opponentId := Some(friendId))
      && reply == Invited(battleId, puzzle.numbers)
  {
    battle := null;
    if creator == null {
      reply := SessionNotFound;
      return;
    }
    if friend == null {
      reply := FriendNotFound;
      return;
    }
    var puzzle := GameController.GenerateLevel(Min(creator.currentLevel, friend.currentLevel), drawn);
    battle := new Battle(battleId, userId, friendId, puzzle.numbers, puzzle.solution, now, 60, Pending);
    SetBattleStatus(creator, Waiting, Some(battleId), Some(friendId));
    reply := Invited(battleId, puzzle.numbers);
  }

  /** `acceptBattleInvitation`: only the invited player, and only while the
      battle is pending; the battle starts now, the acceptor is in battle
      against player 1, and player 1's status (only) becomes in battle. */
  method AcceptBattleInvitation(battle: Battle?, userId: string, now: int,
                                player: GameSession?, host: GameSession?)
    returns (reply: BattleReply)
    requires battle != null ==> battle.Valid()
    requires ValidOrNull(player) && ValidOrNull(host)
    requires player != null ==> player.userId == userId
    requires battle != null && host != null ==> host.userId == battle.player1
    requires battle != null && userId == battle.player1 ==> player == host
    modifies battle, player, host
    ensures battle != null ==> battle.Valid()
    ensures ValidOrNull(player) && ValidOrNull(host)
    ensures battle == null ==> reply == BattleNotFound
    ensures battle != null && (battle.player2 != userId || old(battle.status) != Pending) ==>
      && reply == (if battle.player2 != userId then NotAuthorized else NotPending(battle.status))
      && battle.View() == old(battle.View())
      && (player != null ==> player.View() == old(player.View()))
      && (host != null ==> host.View() == old(host.View()))
    ensures battle != null && battle.player2 == userId && old(battle.status) == Pending ==>
      && battle.View() == old(battle.View()).(status := Active, startTime := now)
      && (player == null ==>
            && reply == ServerError
            && (host != null ==> host.View() == old(host.View())))
      && (player != null ==>
            && reply == BattleStarted(battle.battleId, battle.numbers, battle.timeLimit)
            && player.View() == old(player.View()).(battleStatus := InBattle, battleId := Some(battle.battleId),
                                                    opponentId := Some(battle.player1)))
      && (player != null && host != null && host != player ==>
            host.View() == old(host.View()).(battleStatus := InBattle))
  {
    if battle == null {
      reply := BattleNotFound;
      return;
    }
    if battle.player2 != userId {
      reply := NotAuthorized;
      return;
    }
    if battle.status != Pending {
      reply := NotPending(battle.status);
      return;
    }
    battle.status, battle.startTime := Active, now;
    if player == null {
      reply := ServerError;
      return;
    }
    SetBattleStatus(player, InBattle, Some(battle.battleId), Some(battle.player1));
    if host != null {
      SetBattleStatus(host, InBattle, host.battleId, host.opponentId);
    }
    reply := BattleStarted(battle.battleId, battle.numbers, battle.timeLimit);
  }

  /** The spectator list after `userId` joins: appended once, never twice. */
  function AddSpectator(spectators: seq<string>, userId: string): (r: seq<string>)
    ensures userId in r
    ensures forall u :: u in r <==> u in spectators || u == userId
    ensures userId in spectators ==> r == spectators
    ensures userId !in spectators ==> r == spectators + [userId]
  {
    if userId in spectators then spectators else spectators + [userId]
  }

  /** Joining keeps the list free of duplicates, and joining twice is
      joining once. */
  lemma AddSpectatorKeepsUnique(spectators: seq<string>, userId: string)
    requires NoDuplicates(spectators)
    ensures NoDuplicates(AddSpectator(spectators, userId))
    ensures AddSpectator(AddSpectator(spectators, userId), userId) == AddSpectator(spectators, userId)
  {
    var r := AddSpectator(spectators, userId);
    if userId !in spectators {
      forall i, j | 0 <= i < j < |r| ensures r[i] != r[j] {
        if j == |spectators| {
          assert r[i] == spectators[i];
        } else {
          assert r[i] == spectators[i] && r[j] == spectators[j];
        }
      }
    }
  }

  /** `joinAsBattleSpectator`: a public, active battle takes `userId` as a
      spectator once and answers with its state. */
  method JoinAsBattleSpectator(battle: Battle?, userId: string, now: int) returns (reply: BattleReply)
    requires battle != null ==> battle.Valid()
    modifies battle
    ensures battle != null ==> battle.Valid()
    ensures battle == null ==> reply == BattleNotFound
    ensures battle != null && !battle.isPublic ==> reply == PrivateBattle && battle.View() == old(battle.View())
    ensures battle != null && battle.isPublic && old(battle.status) != Active ==>
      reply == NotActive(battle.status) && battle.View() == old(battle.View())
    ensures battle != null && battle.isPublic && old(battle.status) == Active ==>
      && battle.View() == old(battle.View()).(spectators := AddSpectator(old(battle.spectators), userId))
      && reply == Spectating(battle.player1, battle.player2, battle.numbers, battle.player1Attempts,
                             battle.player2Attempts, TimeRemaining(battle.timeLimit, battle.startTime, now),
                             battle.status)
  {
    if battle == null {
      reply := BattleNotFound;
      return;
    }
    if !battle.isPublic {
      reply := PrivateBattle;
      return;
    }
    if battle.status != Active {
      reply := NotActive(battle.status);
      return;
    }
    if userId !in battle.spectators {
      AddSpectatorKeepsUnique(battle.spectators, userId);
      battle.spectators := battle.spectators + [userId];
    }
    reply := Spectating(battle.player1, battle.player2, battle.numbers, battle.player1Attempts,
                        battle.player2Attempts, TimeRemaining(battle.timeLimit, battle.startTime, now),
                        battle.status);
  }
}
