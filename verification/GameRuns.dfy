/** The stateful environment: construction checks, reset, step, and what holds in every reachable state. */
module GameRuns {
  import opened Wrappers
  import opened Board
  import opened GameRules
  import opened GameInvariants

  datatype GameConfig = GameConfig(
    seed: int,
    grid: Grid,
    initialLength: int,
    multiplier: int,
    rewards: Rewards,
    episodeId: int)

  datatype ConfigError =
    | GridNotPositive
    | LengthNotPositive
    | SnakeDoesNotFit
    | NoRoomForFood
    | MultiplierNotPositive
    | EpisodeNotPositive

  /** The constructor's checks, in order. */
  function CheckConfig(c: GameConfig): Option<ConfigError> {
    if c.grid.width <= 0 || c.grid.height <= 0 then Some(GridNotPositive)
    else if c.initialLength <= 0 then Some(LengthNotPositive)
    else if c.initialLength > c.grid.width then Some(SnakeDoesNotFit)
    else if c.initialLength >= Area(c.grid) then Some(NoRoomForFood)
    else if c.multiplier <= 0 then Some(MultiplierNotPositive)
    else if c.episodeId <= 0 then Some(EpisodeNotPositive)
    else None
  }

  /** What a configuration must satisfy, and which error comes first. */
  lemma ConfigIsRefusedExactly(c: GameConfig)
    ensures
      var e, positive := CheckConfig(c), 0 < c.grid.width && 0 < c.grid.height;
      && (e.None? <==>
            && positive && 0 < c.initialLength <= c.grid.width && c.initialLength < c.grid.width * c.grid.height
            && 0 < c.multiplier && 0 < c.episodeId)
      && (e == Some(GridNotPositive) <==> !positive)
      && (e == Some(LengthNotPositive) <==> positive && c.initialLength <= 0)
      && (e == Some(SnakeDoesNotFit) <==> positive && 0 < c.initialLength && c.grid.width < c.initialLength)
      && (e == Some(NoRoomForFood) ==> c.grid.width * c.grid.height <= c.initialLength <= c.grid.width)
      && (e == Some(EpisodeNotPositive) ==> 0 < c.multiplier && c.episodeId <= 0)
  {
    if 0 < c.grid.width && 0 < c.grid.height {
      CellsInIsProduct(c.grid.width, c.grid.height);
    }
  }

  predicate Accepted(c: GameConfig) {
    CheckConfig(c).None?
  }

  function StartHead(c: GameConfig): Position {
    Position(Max(c.grid.width / 2, c.initialLength - 1), c.grid.height / 2)
  }

  function StartBody(c: GameConfig): seq<Position>
    requires 1 <= c.initialLength
  {
    seq(c.initialLength - 1, i => Position(StartHead(c).x - (i + 1), StartHead(c).y))
  }

  function StartBoard(c: GameConfig, episodeId: int, food: Option<Position>): GameState
    requires 1 <= c.initialLength
  {
    GameState(StartHead(c), StartBody(c), Rightward, food, 0, 0, c.grid, c.seed, episodeId)
  }

  function StartFood(c: GameConfig, draw: nat): Option<Position>
    requires 1 <= c.initialLength
  {
    RandomFreePosition(draw, c.grid, Occupied([StartHead(c)] + StartBody(c)))
  }

  lemma StartSnakeIsSound(c: GameConfig, episodeId: int)
    requires Accepted(c)
    ensures SoundSnake(StartBoard(c, episodeId, None))
  {
    var cells := StartBoard(c, episodeId, None).Cells();
    forall i | 0 <= i < |cells| ensures cells[i] == Position(StartHead(c).x - i, StartHead(c).y) {
    }
  }

  /** Initial food always exists, so the "no free position" error cannot be reached. */
  lemma InitialFoodExists(c: GameConfig, draw: nat)
    requires Accepted(c)
    ensures StartFood(c, draw).Some?
  {
    StartSnakeIsSound(c, 0);
    FreeAroundSnake(StartBoard(c, 0, None));
  }

  function NewState(c: GameConfig, episodeId: int, draw: nat): (s: GameState)
    requires Accepted(c)
    ensures s.food.Some?
  {
    InitialFoodExists(c, draw);
    StartBoard(c, episodeId, StartFood(c, draw))
  }

  lemma NewStateIsSound(c: GameConfig, episodeId: int, draw: nat)
    requires Accepted(c)
    ensures Sound(NewState(c, episodeId, draw))
  {
    StartSnakeIsSound(c, episodeId);
    var s := NewState(c, episodeId, draw);
    assert s.Cells() == StartBoard(c, episodeId, None).Cells();
    DrawnPositionIsFree(draw, c.grid, Occupied([StartHead(c)] + StartBody(c)));
  }

  /**
   * A game starts on the middle row, in the middle column or as far right as the snake needs, heading right, with the
   * snake behind the head, no score, no moves, and food on a free cell.
   */
  lemma StartSpelledOut(c: GameConfig, episodeId: int, draw: nat, i: nat)
    requires Accepted(c)
    ensures
      var s := NewState(c, episodeId, draw);
      && s.head.y == c.grid.height / 2
      && (s.head.x == if c.grid.width / 2 < c.initialLength - 1 then c.initialLength - 1 else c.grid.width / 2)
      && |s.Cells()| == c.initialLength && s.direction == Rightward
      && (i < c.initialLength ==> s.Cells()[i] == Position(s.head.x - i, s.head.y))
      && s.score == 0 && s.moveCount == 0 && s.grid == c.grid && s.seed == c.seed && s.episodeId == episodeId
      && s.food.Some? && c.grid.Contains(s.food.value) && s.food.value !in s.Cells()
  {
    NewStateIsSound(c, episodeId, draw);
  }

  // ---- The environment as a value ----

  datatype Game = Game(config: GameConfig, state: GameState, done: bool, episodeId: int)

  function NewGame(c: GameConfig, draw: nat): Game
    requires Accepted(c)
  {
    Game(c, NewState(c, c.episodeId, draw), false, c.episodeId)
  }

  function ResetGame(g: Game, draw: nat): Game
    requires Accepted(g.config)
  {
    Game(g.config, NewState(g.config, g.episodeId + 1, draw), false, g.episodeId + 1)
  }

  /** The next episode: the same configuration and seed, the next number, a new board, and not done. */
  lemma ResetSpelledOut(g: Game, draw: nat)
    requires Accepted(g.config)
    ensures
      var next := ResetGame(g, draw);
      && next.config == g.config && !next.done && next.episodeId == g.episodeId + 1
      && next.state == NewState(g.config, g.episodeId + 1, draw)
      && next.state.episodeId == next.episodeId && next.state.score == 0 && next.state.moveCount == 0
  {
  }

  function StepReply(g: Game, index: int, draw: nat): Result<StepResult, GameError> {
    if g.done then Err(EpisodeDone)
    else Step(g.state, index, g.config.rewards, g.config.multiplier, draw)
  }

  function StepGame(g: Game, index: int, draw: nat): Game {
    match StepReply(g, index, draw)
    case Ok(r) => g.(state := r.newState, done := r.done)
    case Err(_) => g
  }

  datatype Call = DoStep(index: int, draw: nat) | DoReset(draw: nat)

  function Apply(g: Game, call: Call): (next: Game)
    requires Accepted(g.config)
    ensures next.config == g.config
  {
    match call
    case DoStep(index, draw) => StepGame(g, index, draw)
    case DoReset(draw) => ResetGame(g, draw)
  }

  function Play(g: Game, calls: seq<Call>): (last: Game)
    requires Accepted(g.config)
    ensures last.config == g.config
    decreases |calls|
  {
    if calls == [] then g else Play(Apply(g, calls[0]), calls[1..])
  }

  /** The largest number of moves an unfinished episode can have made. */
  function MoveLimit(c: GameConfig): int {
    Budget(c.multiplier, if Area(c.grid) < 1 then 0 else Area(c.grid) - 1)
  }

  ghost predicate SoundGame(g: Game) {
    && Accepted(g.config)
    && Sound(g.state)
    && g.state.grid == g.config.grid
    && LengthLaw(g.state, g.config.initialLength)
    && 0 <= g.state.score
    && (!g.done ==> g.state.food.Some?)
    && 0 <= g.state.moveCount <= MoveLimit(g.config) + (if g.done then 1 else 0)
  }

  lemma {:induction false} BudgetGrows(multiplier: int, less: nat, more: nat)
    requires 0 <= multiplier && less <= more
    ensures 0 <= Budget(multiplier, less) <= Budget(multiplier, more)
    decreases more
  {
    if less < more {
      BudgetGrows(multiplier, less, more - 1);
    } else if 0 < less {
      BudgetGrows(multiplier, less - 1, less - 1);
    }
  }

  lemma NewStateIsSoundGame(c: GameConfig, episodeId: int, draw: nat)
    requires Accepted(c)
    ensures SoundGame(Game(c, NewState(c, episodeId, draw), false, episodeId))
  {
    NewStateIsSound(c, episodeId, draw);
    BudgetGrows(c.multiplier, 0, Area(c.grid) - 1);
  }

  /** A move keeps the budget: the count stays within the limit of the board unless the episode ends. */
  lemma MoveKeepsLimit(g: Game, action: Action, draw: nat)
    requires SoundGame(g) && !g.done
    ensures
      var r := Move(g.state, action, g.config.rewards, g.config.multiplier, draw);
      && r.newState.moveCount == g.state.moveCount + 1
      && r.newState.moveCount <= MoveLimit(g.config) + (if r.done then 1 else 0)
  {
    MoveCases(g.state, action, g.config.rewards, g.config.multiplier, draw);
    FoodNeedsRoom(g.state);
    BudgetGrows(g.config.multiplier, g.state.Length(), Area(g.config.grid) - 1);
  }

  lemma StepKeepsSoundGame(g: Game, index: int, draw: nat)
    requires SoundGame(g)
    ensures SoundGame(StepGame(g, index, draw))
  {
    if StepReply(g, index, draw).Ok? {
      var action := NormalizeAction(index).value;
      var c := g.config;
      MoveKeepsSound(g.state, action, c.rewards, c.multiplier, draw);
      MoveKeepsLengthLaw(g.state, action, c.rewards, c.multiplier, draw, c.initialLength);
      MoveKeepsLimit(g, action, draw);
      MoveCases(g.state, action, c.rewards, c.multiplier, draw);
    }
  }

  lemma ApplyKeepsSoundGame(g: Game, call: Call)
    requires SoundGame(g)
    ensures SoundGame(Apply(g, call))
  {
    match call
    case DoStep(index, draw) => StepKeepsSoundGame(g, index, draw);
    case DoReset(draw) => NewStateIsSoundGame(g.config, g.episodeId + 1, draw);
  }

  /** Every state reachable from a sound one by any steps and resets is sound. */
  lemma {:induction false} ReachableGamesAreSound(g: Game, calls: seq<Call>)
    requires SoundGame(g)
    ensures SoundGame(Play(g, calls))
    decreases |calls|
  {
    if calls == [] {
      assert Play(g, calls) == g;
    } else {
      ApplyKeepsSoundGame(g, calls[0]);
      ReachableGamesAreSound(Apply(g, calls[0]), calls[1..]);
    }
  }

  /** From the constructor: any calls, any actions, any food choices. */
  lemma EveryPlayIsSound(c: GameConfig, draw: nat, calls: seq<Call>)
    requires Accepted(c)
    ensures SoundGame(Play(NewGame(c, draw), calls))
  {
    NewStateIsSoundGame(c, c.episodeId, draw);
    ReachableGamesAreSound(NewGame(c, draw), calls);
  }

  // ---- Episode length and score ----

  ghost predicate OnlyValidSteps(calls: seq<Call>) {
    forall i | 0 <= i < |calls| :: calls[i].DoStep? && 0 <= calls[i].index <= 2
  }

  /** While an episode lasts, its move count is the number of steps taken. */
  lemma {:induction false} StepsAreCounted(g: Game, calls: seq<Call>)
    requires SoundGame(g) && OnlyValidSteps(calls)
    ensures Play(g, calls).done || Play(g, calls).state.moveCount == g.state.moveCount + |calls|
    decreases |calls|
  {
    if calls != [] {
      var next := Apply(g, calls[0]);
      StepKeepsSoundGame(g, calls[0].index, calls[0].draw);
      assert OnlyValidSteps(calls[1..]);
      StepsAreCounted(next, calls[1..]);
      if g.done {
        DoneStays(next, calls[1..]);
      } else {
        MoveKeepsLimit(g, NormalizeAction(calls[0].index).value, calls[0].draw);
      }
    }
  }

  lemma {:induction false} DoneStays(g: Game, calls: seq<Call>)
    requires Accepted(g.config) && g.done && OnlyValidSteps(calls)
    ensures Play(g, calls) == g
    decreases |calls|
  {
    if calls != [] {
      assert OnlyValidSteps(calls[1..]);
      DoneStays(Apply(g, calls[0]), calls[1..]);
    }
  }

  lemma EpisodesEndWithinLimit(c: GameConfig, episodeId: int, draw: nat, calls: seq<Call>)
    requires Accepted(c) && OnlyValidSteps(calls) && MoveLimit(c) < |calls|
    ensures Play(Game(c, NewState(c, episodeId, draw), false, episodeId), calls).done
  {
    var g := Game(c, NewState(c, episodeId, draw), false, episodeId);
    NewStateIsSoundGame(c, episodeId, draw);
    StepsAreCounted(g, calls);
    ReachableGamesAreSound(g, calls);
  }

  lemma MoveLimitIsProduct(c: GameConfig)
    requires Accepted(c)
    ensures MoveLimit(c) == c.multiplier * (c.grid.width * c.grid.height - 1)
  {
    CellsInIsProduct(c.grid.width, c.grid.height);
    BudgetIsProduct(c.multiplier, Area(c.grid) - 1);
  }

  /** Every episode is over after `multiplier * (width * height - 1) + 1` steps, whatever the actions and the food. */
  lemma EpisodesEnd(c: GameConfig, episodeId: int, draw: nat, calls: seq<Call>)
    requires Accepted(c) && OnlyValidSteps(calls)
    requires |calls| >= c.multiplier * (c.grid.width * c.grid.height - 1) + 1
    ensures Play(Game(c, NewState(c, episodeId, draw), false, episodeId), calls).done
  {
    MoveLimitIsProduct(c);
    EpisodesEndWithinLimit(c, episodeId, draw, calls);
  }

  /** From two cells on, length is initial length plus score, and the score is at most what the board has room for. */
  lemma ScoreBound(g: Game)
    requires SoundGame(g) && 2 <= g.config.initialLength
    ensures g.state.Length() == g.config.initialLength + g.state.score
    ensures g.state.score <= g.config.grid.width * g.config.grid.height - g.config.initialLength
    ensures g.state.score == g.config.grid.width * g.config.grid.height - g.config.initialLength
       <==> forall p | g.config.grid.Contains(p) :: p in g.state.Cells()
  {
    FullBoard(g.state);
    CellsInIsProduct(g.config.grid.width, g.config.grid.height);
  }

  /** The maximal score is reached exactly by the move whose outcome is BOARD_FILLED. */
  lemma MaximalScoreIsBoardFilled(g: Game, index: int, draw: nat)
    requires SoundGame(g) && 2 <= g.config.initialLength && StepReply(g, index, draw).Ok?
    ensures
      var r := StepReply(g, index, draw).value;
      (r.outcome == BoardFilled)
      <==> (r.newState.score == g.config.grid.width * g.config.grid.height - g.config.initialLength)
  {
    var c := g.config;
    StepKeepsSoundGame(g, index, draw);
    ScoreBound(StepGame(g, index, draw));
    BoardFilledExactlyWhenCovered(g.state, NormalizeAction(index).value, c.rewards, c.multiplier, draw);
  }

  /** The one exception to the length law: a single cell that glides becomes two, without scoring. */
  lemma GlideGrowsOnlyASingleCell(s: GameState, action: Action, rewards: Rewards)
    requires s.food.Some?
    ensures
      var next := Glide(s, action, rewards).newState;
      && next.score == s.score
      && (next.Length() == s.Length() <==> s.body != [])
      && (s.body == [] ==> next.Length() == 2)
  {
  }
}
