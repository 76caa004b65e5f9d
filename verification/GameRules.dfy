/** Snake mechanics: one move of an immutable state, and the collision test. */
module GameRules {
  import opened Wrappers
  import opened Board

  datatype Action = Left | Straight | Right

  datatype Outcome = Empty | Food | Wall | Snake | MaxMoves | BoardFilled

  datatype Rewards = Rewards(
    food: real,
    wall: real,
    snake: real,
    maxMoves: real,
    empty: real,
    closerToFood: real,
    furtherFromFood: real)

  datatype StepResult = StepResult(
    newState: GameState,
    reward: real,
    outcome: Outcome,
    done: bool)
  {
    /** The observation a step returns is always that of its new state. */
    function Observed(): seq<real> {
      Observation(newState)
    }

    predicate IsCollision() {
      outcome == Wall || outcome == Snake
    }
  }

  datatype GameError = InvalidMultiplier | CompletedState | InvalidAction | EpisodeDone

  function NormalizeAction(index: int): Result<Action, GameError> {
    if index == 0 then Ok(Left)
    else if index == 1 then Ok(Straight)
    else if index == 2 then Ok(Right)
    else Err(InvalidAction)
  }

  function NextDirection(d: Direction, action: Action): Direction {
    match action
    case Left => TurnLeft(d)
    case Right => TurnRight(d)
    case Straight => d
  }

  function FoodDistance(head: Position, food: Position): nat {
    Abs(head.x - food.x) + Abs(head.y - food.y)
  }

  function NewHead(s: GameState, action: Action): Position {
    Advance(s.head, NextDirection(s.direction, action))
  }

  /** The body cells that still block the move: the tail moves away unless the snake eats. */
  function Retained(s: GameState, newHead: Position): seq<Position> {
    if Some(newHead) == s.food then s.body else DropLast(s.body)
  }

  function Finish(s: GameState, reward: real, outcome: Outcome, done: bool): StepResult {
    StepResult(s, reward, outcome, done)
  }

  /** `multiplier * length`, as a sum so that proofs about moves meet no product of variables. */
  function Budget(multiplier: int, length: nat): int {
    if length == 0 then 0 else multiplier + Budget(multiplier, length - 1)
  }

  lemma {:induction false} BudgetIsProduct(multiplier: int, length: nat)
    ensures Budget(multiplier, length) == multiplier * length
  {
    if length > 0 {
      BudgetIsProduct(multiplier, length - 1);
    }
  }

  predicate WithinBudget(s: GameState, multiplier: int) {
    s.moveCount + 1 <= Budget(multiplier, s.Length())
  }

  /** A successful move onto the food. */
  function Eat(s: GameState, action: Action, rewards: Rewards, draw: nat): StepResult {
    var newHead := NewHead(s, action);
    var food := RandomFreePosition(draw, s.grid, Occupied([newHead] + s.Cells()));
    var next := s.(
      head := newHead,
      body := s.Cells(),
      direction := NextDirection(s.direction, action),
      food := food,
      score := s.score + 1,
      moveCount := s.moveCount + 1);
    Finish(next, rewards.food, if food.Some? then Food else BoardFilled, food.None?)
  }

  /** A successful move onto an empty cell. */
  function Glide(s: GameState, action: Action, rewards: Rewards): StepResult
    requires s.food.Some?
  {
    var newHead := NewHead(s, action);
    var next := s.(
      head := newHead,
      body := [s.head] + DropLast(s.body),
      direction := NextDirection(s.direction, action),
      moveCount := s.moveCount + 1);
    var closer := FoodDistance(newHead, s.food.value) < FoodDistance(s.head, s.food.value);
    Finish(next, rewards.empty + (if closer then rewards.closerToFood else rewards.furtherFromFood), Empty, false)
  }

  /** One move of a state that still has food; `draw` stands for the random generator. */
  function Move(s: GameState, action: Action, rewards: Rewards, multiplier: int, draw: nat): StepResult
    requires s.food.Some?
  {
    var newHead := NewHead(s, action);
    var stuck := s.(moveCount := s.moveCount + 1);
    if !WithinBudget(s, multiplier) then Finish(stuck, rewards.maxMoves, MaxMoves, true)
    else if !s.grid.Contains(newHead) then Finish(stuck, rewards.wall, Wall, true)
    else if newHead in Retained(s, newHead) then Finish(stuck, rewards.snake, Snake, true)
    else if Some(newHead) == s.food then Eat(s, action, rewards, draw)
    else Glide(s, action, rewards)
  }

  /** The public step, with the errors in the order the checks are made. */
  function Step(s: GameState, index: int, rewards: Rewards, multiplier: int, draw: nat): Result<StepResult, GameError> {
    if multiplier <= 0 then Err(InvalidMultiplier)
    else if s.food.None? then Err(CompletedState)
    else match NormalizeAction(index)
      case Err(e) => Err(e)
      case Ok(action) => Ok(Move(s, action, rewards, multiplier, draw))
  }

  /** When a step is refused, and with which error if several apply. */
  lemma StepIsRefusedExactly(s: GameState, index: int, rewards: Rewards, multiplier: int, draw: nat)
    ensures
      var r := Step(s, index, rewards, multiplier, draw);
      && (r == Err(InvalidMultiplier) <==> multiplier <= 0)
      && (r == Err(CompletedState) <==> 0 < multiplier && s.food.None?)
      && (r == Err(InvalidAction) <==> 0 < multiplier && s.food.Some? && index !in {0, 1, 2})
      && (r.Ok? <==> 0 < multiplier && s.food.Some? && index in {0, 1, 2})
  {
  }

  /** The three action indices turn left, keep straight, and turn right. */
  lemma IndicesTurn(s: GameState, index: int)
    requires index in {0, 1, 2}
    ensures NormalizeAction(index).Ok?
    ensures
      var d, head := s.direction, NewHead(s, NormalizeAction(index).value);
      && (index == 0 ==> head == Position(s.head.x + d.dy(), s.head.y - d.dx()))
      && (index == 1 ==> head == Position(s.head.x + d.dx(), s.head.y + d.dy()))
      && (index == 2 ==> head == Position(s.head.x - d.dy(), s.head.y + d.dx()))
  {
  }

  function WouldCollide(s: GameState, action: Action): bool {
    var newHead := NewHead(s, action);
    !s.grid.Contains(newHead) || newHead in Retained(s, newHead)
  }

  /** Whatever the state: the tail cell stops only a snake that eats, any other body cell stops every move onto it. */
  lemma BodyBlocksExactly(s: GameState, action: Action, rewards: Rewards, multiplier: int, draw: nat)
    requires s.food.Some? && WithinBudget(s, multiplier) && s.grid.Contains(NewHead(s, action))
    ensures
      var newHead, blocked := NewHead(s, action), Move(s, action, rewards, multiplier, draw).outcome == Snake;
      && (newHead in DropLast(s.body) ==> blocked)
      && (newHead !in s.body ==> !blocked)
      && (newHead in s.body && newHead !in DropLast(s.body) ==> (blocked <==> Some(newHead) == s.food))
  {
    assert NewHead(s, action) in DropLast(s.body) ==> NewHead(s, action) in s.body;
  }

  /** The look-ahead agrees with the step exactly when the budget is not what ends the episode. */
  lemma WouldCollideAgreesWithStep(s: GameState, action: Action, rewards: Rewards, multiplier: int, draw: nat)
    requires s.food.Some?
    ensures Move(s, action, rewards, multiplier, draw).IsCollision() == WouldCollide(s, action)
        <==> WithinBudget(s, multiplier) || !WouldCollide(s, action)
  {
    var result := Move(s, action, rewards, multiplier, draw);
    if !WithinBudget(s, multiplier) {
      assert result.outcome == MaxMoves;
    } else if WouldCollide(s, action) {
      assert result.IsCollision();
    } else if Some(NewHead(s, action)) == s.food {
      assert result == Eat(s, action, rewards, draw);
    } else {
      assert result == Glide(s, action, rewards);
    }
  }
}
