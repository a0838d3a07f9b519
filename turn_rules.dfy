// The turn bookkeeping of server/state.py: whose turn it is, how many moves
// and turns are left, when the turn ends, and the bonus turns a collected
// set of cards earns. Times are integer milliseconds.
module TurnRules {
  import opened Common

  const LeaderMovesPerTurn: int := 5
  const FollowerMovesPerTurn: int := 10

  /**
   * The turn state the server records and broadcasts. A game-over state
   * (`GameOverMessage`) is a turn state like any other, marked as the end of
   * the game.
   */
  datatype TurnState =
    | TurnUpdate(turn: Role, movesRemaining: int, turnsLeft: int, turnEnd: int,
                 gameStart: int, setsCollected: int, score: int)
    | GameOver(turn: Role, movesRemaining: int, turnsLeft: int, turnEnd: int,
               gameStart: int, setsCollected: int, score: int)

  /** `State.turn_duration`: a leader's turn lasts 60 s, any other 45 s. */
  function TurnDuration(role: Role): (ms: int)
    ensures ms > 0
  {
    if role == Leader then 60_000 else 45_000
  }

  /** `State.moves_per_turn`: 5 moves for a leader, 10 for anyone else. */
  function MovesPerTurn(role: Role): (moves: int)
    ensures moves > 0
  {
    if role == Leader then LeaderMovesPerTurn else FollowerMovesPerTurn
  }

  /** The role that plays after `role`: the leader after the follower, the follower after anyone else. */
  function Opposite(role: Role): Role
  {
    if role == Follower then Leader else Follower
  }

  /** Whether `end_turn_if_over` ends the turn at time `now`. */
  predicate TurnIsOver(ts: TurnState, now: int, force: bool)
  {
    now >= ts.turnEnd || force
  }

  /**
   * The turn state `end_turn_if_over(force)` records at time `now`: either
   * the turn goes on with one move fewer (never below zero), or it passes to
   * the other role with a fresh move allowance and one turn fewer.
   */
  function NextTurn(ts: TurnState, now: int, force: bool): (next: TurnState)
    ensures next.TurnUpdate?
    ensures next.movesRemaining >= 0
    ensures next.gameStart == ts.gameStart && next.setsCollected == ts.setsCollected
    ensures next.score == ts.score
    ensures TurnIsOver(ts, now, force) <==> next.turnsLeft == ts.turnsLeft - 1
    ensures !TurnIsOver(ts, now, force) <==> next.turnsLeft == ts.turnsLeft
    ensures TurnIsOver(ts, now, force) ==>
              next.turn == Opposite(ts.turn) && next.movesRemaining == MovesPerTurn(next.turn)
              && next.turnEnd == now + TurnDuration(next.turn)
    ensures !TurnIsOver(ts, now, force) ==>
              next.turn == ts.turn && next.turnEnd == ts.turnEnd
              && next.movesRemaining == (if ts.movesRemaining > 1 then ts.movesRemaining - 1 else 0)
  {
    var over := TurnIsOver(ts, now, force);
    var nextRole := if over then Opposite(ts.turn) else ts.turn;
    var moves := if over then MovesPerTurn(nextRole)
                 else if ts.movesRemaining - 1 > 0 then ts.movesRemaining - 1 else 0;
    var turnsLeft := if over then ts.turnsLeft - 1 else ts.turnsLeft;
    var turnEnd := if over then now + TurnDuration(nextRole) else ts.turnEnd;
    TurnUpdate(nextRole, moves, turnsLeft, turnEnd, ts.gameStart, ts.setsCollected, ts.score)
  }

  /** The turn state a fresh room starts with at time `now`. */
  function InitialTurn(now: int): (ts: TurnState)
    ensures ts.TurnUpdate? && ts.turn == Leader && ts.movesRemaining == LeaderMovesPerTurn
    ensures ts.turnsLeft == 6 && ts.setsCollected == 0 && ts.score == 0
  {
    TurnUpdate(Leader, LeaderMovesPerTurn, 6, now + TurnDuration(Leader), now, 0, 0)
  }

  /**
   * `GameOverMessage(game_start, sets_collected, score)` at time `now`: the
   * final state of a game that ended after `ts`, with no role to play, no
   * moves and no turns left.
   */
  function GameOverState(ts: TurnState, now: int): TurnState
  {
    GameOver(NoRole, 0, -1, now, ts.gameStart, ts.setsCollected, ts.score)
  }

  /** The turns a set earns, by the number of sets collected before it. */
  function BonusTurns(setsCollected: int): (added: int)
    ensures 0 <= added <= 5
    ensures setsCollected >= 5 ==> added == 0
  {
    if setsCollected == 0 then 5
    else if setsCollected == 1 || setsCollected == 2 then 4
    else if setsCollected == 3 || setsCollected == 4 then 3
    else 0
  }

  /** The turn state recorded when a valid set is collected. */
  function CollectSet(ts: TurnState): (next: TurnState)
    requires ts.TurnUpdate?
    ensures next.TurnUpdate?
    ensures next.setsCollected == ts.setsCollected + 1 && next.score == ts.score + 1
    ensures next.turnsLeft == ts.turnsLeft + BonusTurns(ts.setsCollected)
    ensures next.(turnsLeft := ts.turnsLeft, setsCollected := ts.setsCollected, score := ts.score) == ts
  {
    ts.(turnsLeft := ts.turnsLeft + BonusTurns(ts.setsCollected),
        setsCollected := ts.setsCollected + 1, score := ts.score + 1)
  }

  /** `k` sets collected one after another. */
  function CollectSets(ts: TurnState, k: nat): (next: TurnState)
    requires ts.TurnUpdate?
    ensures next.TurnUpdate?
    ensures next.setsCollected == ts.setsCollected + k && next.score == ts.score + k
    decreases k
  {
    if k == 0 then ts else CollectSet(CollectSets(ts, k - 1))
  }

  /** The bonus turns earned by the first `n` sets of a game. */
  function TotalBonus(n: nat): (total: int)
  {
    if n == 0 then 0 else TotalBonus(n - 1) + BonusTurns(n - 1)
  }

  /** Ending two turns in a row hands the turn back to the leader or follower who had it. */
  lemma TurnsAlternate(ts: TurnState, now1: int, now2: int)
    requires ts.turn != NoRole
    ensures NextTurn(ts, now1, true).turn != ts.turn
    ensures NextTurn(NextTurn(ts, now1, true), now2, true).turn == ts.turn
  {
  }

  /**
   * The first `n` sets of a game earn 5, 9, 13, 16 and 19 bonus turns; no
   * later set earns any more.
   */
  lemma {:induction false} TotalBonusValues(n: nat)
    ensures TotalBonus(n) == if n >= 5 then 19 else [0, 5, 9, 13, 16][n]
    ensures TotalBonus(n) <= 19
    decreases n
  {
    if n > 0 {
      TotalBonusValues(n - 1);
    }
  }

  /**
   * Collecting `k` sets from the start of a game adds exactly the bonus the
   * table grants the first `k` sets to the turns left.
   */
  lemma {:induction false} CollectSetsTurns(ts: TurnState, k: nat)
    requires ts.TurnUpdate? && ts.setsCollected == 0
    ensures CollectSets(ts, k).turnsLeft == ts.turnsLeft + TotalBonus(k)
    ensures CollectSets(ts, k).turn == ts.turn && CollectSets(ts, k).movesRemaining == ts.movesRemaining
    decreases k
  {
    if k > 0 {
      CollectSetsTurns(ts, k - 1);
    }
  }
}
