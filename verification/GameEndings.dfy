/** When the next move can end a game, and games that are played to their end. */
module GameEndings {
  import opened Wrappers
  import opened Board
  import opened GameRules
  import opened GameInvariants
  import opened GameRuns
  import opened EpisodeRecord

  predicate Reaches(s: GameState, p: Position) {
    NewHead(s, Left) == p || NewHead(s, Straight) == p || NewHead(s, Right) == p
  }

  /** The move budget is spent, some action collides, or the last free cell has the food and is within reach. */
  predicate CanEndNext(g: Game) {
    var s := g.state;
    || !WithinBudget(s, g.config.multiplier)
    || WouldCollide(s, Left) || WouldCollide(s, Straight) || WouldCollide(s, Right)
    || (s.Length() + 1 == Area(s.grid) && s.food.Some? && Reaches(s, s.food.value))
  }

  lemma EatingEndsExactlyOnLastCell(s: GameState, action: Action, rewards: Rewards, multiplier: int, draw: nat)
    requires Sound(s) && s.food.Some? && WithinBudget(s, multiplier) && !WouldCollide(s, action)
    requires Some(NewHead(s, action)) == s.food
    ensures Move(s, action, rewards, multiplier, draw).done <==> s.Length() + 1 == Area(s.grid)
  {
    var r := Move(s, action, rewards, multiplier, draw);
    MoveCases(s, action, rewards, multiplier, draw);
    MoveKeepsSound(s, action, rewards, multiplier, draw);
    BoardFilledExactlyWhenCovered(s, action, rewards, multiplier, draw);
    FullBoard(r.newState);
  }

  /** An action ends the game exactly if the budget is spent, it collides, or it eats on the last free cell. */
  lemma ActionEndsExactly(s: GameState, action: Action, rewards: Rewards, multiplier: int, draw: nat)
    requires Sound(s) && s.food.Some?
    ensures Move(s, action, rewards, multiplier, draw).done
       <==> || !WithinBudget(s, multiplier)
            || WouldCollide(s, action)
            || (s.Length() + 1 == Area(s.grid) && Some(NewHead(s, action)) == s.food)
  {
    MoveCases(s, action, rewards, multiplier, draw);
    if WithinBudget(s, multiplier) && !WouldCollide(s, action) && Some(NewHead(s, action)) == s.food {
      EatingEndsExactlyOnLastCell(s, action, rewards, multiplier, draw);
    }
  }

  ghost predicate SomeActionEnds(g: Game) {
    exists action, draw: nat :: StepReply(g, action, draw).Ok? && StepReply(g, action, draw).value.done
  }

  /** Whether the next move can end the game can be read off its board. */
  lemma CanEndNextExactly(g: Game)
    requires SoundGame(g) && !g.done
    ensures CanEndNext(g) <==> SomeActionEnds(g)
  {
    var s, c := g.state, g.config;
    forall action, draw: nat | StepReply(g, action, draw).Ok?
      ensures StepReply(g, action, draw).value.done ==> CanEndNext(g)
    {
      ActionEndsExactly(s, NormalizeAction(action).value, c.rewards, c.multiplier, draw);
    }
    if CanEndNext(g) {
      var index := EndingAction(g);
      ActionEndsExactly(s, NormalizeAction(index).value, c.rewards, c.multiplier, 0);
      assert StepReply(g, index, 0).Ok? && StepReply(g, index, 0).value.done;
    }
  }

  /** One of the actions that end the game, if there is one. */
  function EndingAction(g: Game): (index: int)
    ensures 0 <= index <= 2
  {
    var s := g.state;
    var last := s.Length() + 1 == Area(s.grid);
    if WouldCollide(s, Left) || (last && Some(NewHead(s, Left)) == s.food) then 0
    else if WouldCollide(s, Straight) || (last && Some(NewHead(s, Straight)) == s.food) then 1
    else 2
  }

  // ---- Games that are played to their end ----

  lemma TurnCountsMove(log: Log)
    requires log.Turn? && log.Genuine()
    ensures log.board.moveCount == log.before.board.moveCount + 1
    ensures log.before.board.score <= log.board.score <= log.before.board.score + 1
  {
    GenuineBefore(log);
    var g := log.before.game;
    MoveCounters(
      g.state, NormalizeAction(log.move.action).value, g.config.rewards, g.config.multiplier, log.draw);
  }

  /** What a turn pays for its outcome. An empty move pays for coming closer to the food or for moving away. */
  predicate Pays(reward: real, outcome: Outcome, r: Rewards, before: Position, after: Position, food: Position) {
    reward == match outcome
              case Food => r.food
              case BoardFilled => r.food
              case Wall => r.wall
              case Snake => r.snake
              case MaxMoves => r.maxMoves
              case Empty =>
                if Abs(after.x - food.x) + Abs(after.y - food.y) < Abs(before.x - food.x) + Abs(before.y - food.y)
                then r.empty + r.closerToFood
                else r.empty + r.furtherFromFood
  }

  lemma TurnPays(log: Log)
    requires log.Turn? && log.Genuine()
    ensures log.before.board.food.Some?
    ensures Pays(
              log.move.reward, log.outcome, log.game.config.rewards,
              log.before.board.head, log.board.head, log.before.board.food.value)
  {
    var g := log.before.game;
    GenuineBefore(log);
    LogIsSound(log.before);
    var action := NormalizeAction(log.move.action).value;
    OutcomesExplained(g.state, action, g.config.rewards, g.config.multiplier, log.draw);
    MoveCases(g.state, action, g.config.rewards, g.config.multiplier, log.draw);
  }

  /** The turns before a turn of a game are of the same game. */
  lemma {:induction false} StartsAreGenuine(start: Log, log: Log)
    requires log.Genuine() && start.StartOf(log)
    ensures start.Genuine() && start.game.config == log.game.config
    decreases log
  {
    if start != log {
      GenuineTurnKeeps(log);
      StartsAreGenuine(start, log.before);
    }
  }

  /** The boards of a real game are a whole game, one board more than moves. */
  lemma {:induction false} GenuineIsWholeGame(log: Log)
    requires log.Genuine()
    ensures WholeGame(log.Boards()) && |log.Boards()| == |log.Moves()| + 1
    ensures log.board.moveCount == |log.Moves()|
    decreases log
  {
    GenuineBefore(log);
    if log.Turn? {
      GenuineIsWholeGame(log.before);
      TurnCountsMove(log);
      WholeGameAppend(log.before.Boards(), log.board);
    }
  }

  /** A game that goes straight ahead comes to its end, because its moves are bounded. */
  lemma {:induction false} GameCanBeFinished(log: Log, length: nat) returns (whole: Log)
    requires log.Genuine() && !log.game.done
    ensures whole.Genuine() && whole.Turn? && whole.game.done && log.StartOf(whole.before)
    ensures whole.game.config == log.game.config
    decreases MoveLimit(log.game.config) + 1 - log.board.moveCount
  {
    NextTurnIsGenuine(log, 1, 0, length);
    LogIsSound(log);
    whole := NextTurn(log, 1, 0, length);
    GenuineTurnKeeps(whole);
    if !whole.game.done {
      TurnCountsMove(whole);
      LogIsSound(whole);
      var longer := GameCanBeFinished(whole, length);
      StartOfBefore(whole, longer.before);
      whole := longer;
    }
  }

  lemma {:induction false} StartOfBefore(log: Log, longer: Log)
    requires log.Turn? && log.StartOf(longer)
    ensures log.before.StartOf(longer)
    decreases longer
  {
    if log != longer {
      StartOfBefore(log, longer.before);
    } else {
      assert log.before.StartOf(log.before);
    }
  }
}
