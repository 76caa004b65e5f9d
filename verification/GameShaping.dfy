/** Reward shaping: distances telescope, parity counts moves, and the observation shows what will pay. */
module GameShaping {
  import opened Wrappers
  import opened Board
  import opened GameRules
  import opened GameInvariants
  import opened GameRuns

  predicate Closer(s: GameState, action: Action)
    requires s.food.Some?
  {
    FoodDistance(NewHead(s, action), s.food.value) < FoodDistance(s.head, s.food.value)
  }

  /** A move changes the distance to any cell by exactly one. */
  lemma MoveChangesDistanceByOne(s: GameState, action: Action, food: Position)
    ensures Abs(FoodDistance(NewHead(s, action), food) - FoodDistance(s.head, food)) == 1
  {
  }

  /** Whether a move brings the head closer can be read off the two food signs of the observation before it. */
  lemma ObservationShowsCloserMoves(s: GameState, action: Action)
    requires s.food.Some?
    ensures
      var right, behind := Observation(s)[49], Observation(s)[50];
      Closer(s, action) <==>
        match action
        case Left => right == -1.0
        case Right => right == 1.0
        case Straight => behind == -1.0
  {
    assert Observation(s)[49] == Sign(FoodRight(s));
    assert Observation(s)[50] == Sign(FoodBehind(s));
    CloserSigns(s, action);
  }

  lemma CloserSigns(s: GameState, action: Action)
    requires s.food.Some?
    ensures Closer(s, action) <==>
      match action
      case Left => FoodRight(s) < 0
      case Right => FoodRight(s) > 0
      case Straight => FoodBehind(s) < 0
  {
  }

  // ---- What the view tells about the next move ----

  function LocalX(action: Action): int {
    match action case Left => -1 case Straight => 0 case Right => 1
  }

  function LocalY(action: Action): int {
    if action == Straight then -1 else 0
  }

  /** The cell that an action leads to is where the view has it: to the left, ahead, or to the right. */
  lemma ViewShowsNextCell(s: GameState, action: Action)
    ensures ViewPosition(s, LocalX(action), LocalY(action)) == NewHead(s, action)
  {
  }

  /** On a sound board every value of the view says exactly one thing about its cell. */
  lemma ViewIsUnambiguous(s: GameState, localX: int, localY: int)
    requires Sound(s) && (localX != 0 || localY != 0)
    ensures
      var value, p := ViewCell(s, localX, localY), ViewPosition(s, localX, localY);
      && (value == -0.5 <==> !s.grid.Contains(p))
      && (value == 0.5 <==> p in s.body)
      && (value == 1.0 <==> Some(p) == s.food)
  {
    assert forall q | q in s.body :: q in s.Cells();
  }

  /** Each of the 49 values of the view, by its index, says what is in the cell at its offset. */
  lemma ObservationSaysWhatIsThere(s: GameState, localX: int, localY: int, p: Position)
    requires Sound(s) && -3 <= localX <= 3 && -3 <= localY <= 3
    requires p.x == s.head.x + localX * -s.direction.dy() - localY * s.direction.dx()
    requires p.y == s.head.y + localX * s.direction.dx() - localY * s.direction.dy()
    ensures
      var value, centre := Observation(s)[7 * (localY + 3) + localX + 3], localX == 0 && localY == 0;
      var inside := 0 <= p.x < s.grid.width && 0 <= p.y < s.grid.height;
      && (value == -0.5 <==> !centre && !inside)
      && (value == 0.5 <==> !centre && p in s.body)
      && (value == 1.0 <==> !centre && Some(p) == s.food)
      && (value == 0.0 <==> centre || (inside && p !in s.body && Some(p) != s.food))
  {
    ViewIndex(s, 7, localX, localY);
    ViewPositionInCoordinates(s, localX, localY);
    assert p == ViewPosition(s, localX, localY);
    assert forall q | q in s.body :: q in s.Cells();
  }

  predicate SignOf(value: real, n: int) {
    (value == -1.0 <==> n < 0) && (value == 0.0 <==> n == 0) && (value == 1.0 <==> 0 < n)
  }

  /** The last two values are the signs of the food's offset to the right and to the back, both zero without food. */
  lemma ObservationPointsToFood(s: GameState)
    ensures s.food.None? ==> Observation(s)[49] == 0.0 && Observation(s)[50] == 0.0
    ensures s.food.Some? ==>
              var x, y := s.food.value.x - s.head.x, s.food.value.y - s.head.y;
              && SignOf(Observation(s)[49], x * -s.direction.dy() + y * s.direction.dx())
              && SignOf(Observation(s)[50], -(x * s.direction.dx() + y * s.direction.dy()))
  {
    if s.food.Some? {
      ReachIsProduct(s.food.value.x - s.head.x, s.food.value.y - s.head.y, TurnRight(s.direction));
      ReachIsProduct(s.food.value.x - s.head.x, s.food.value.y - s.head.y, s.direction);
    }
  }

  predicate IsTail(s: GameState, p: Position) {
    s.body != [] && p == s.body[|s.body| - 1]
  }

  /** From the observation alone: a wall shows, food shows, and what would be hit shows as body. */
  lemma ViewWarnsOfCollision(s: GameState, action: Action)
    requires Sound(s) && s.food.Some?
    ensures
      var value := Observation(s)[7 * (LocalY(action) + 3) + LocalX(action) + 3];
      && (value == -0.5 <==> !s.grid.Contains(NewHead(s, action)))
      && (value == 1.0 <==> Some(NewHead(s, action)) == s.food)
      && (WouldCollide(s, action) <==> value == -0.5 || (value == 0.5 && !IsTail(s, NewHead(s, action))))
  {
    var x, y := LocalX(action), LocalY(action);
    ViewIndex(s, 7, x, y);
    ViewShowsNextCell(s, action);
    ViewIsUnambiguous(s, x, y);
    if NewHead(s, action) in s.body {
      BodyWithoutTail(s, NewHead(s, action));
    }
  }

  lemma BodyWithoutTail(s: GameState, p: Position)
    requires Sound(s) && p in s.body
    ensures p in DropLast(s.body) <==> !IsTail(s, p)
  {
    var front, tail := DropLast(s.body), s.body[|s.body| - 1];
    assert s.body == front + [tail];
    forall i | 0 <= i < |front| ensures front[i] != tail {
      assert s.Cells()[i + 1] == front[i] && s.Cells()[|s.body|] == tail;
    }
  }

  // ---- A stretch of moves between two foods ----

  /** All the actions lead to empty cells. The random generator is not consulted on such moves. */
  ghost predicate AllEmpty(s: GameState, actions: seq<Action>, rewards: Rewards, multiplier: int)
    decreases |actions|
  {
    actions != [] ==>
      && s.food.Some?
      && Move(s, actions[0], rewards, multiplier, 0).outcome == Empty
      && AllEmpty(Glide(s, actions[0], rewards).newState, actions[1..], rewards, multiplier)
  }

  function AfterGlides(s: GameState, actions: seq<Action>, rewards: Rewards): GameState
    decreases |actions|
  {
    if actions == [] || s.food.None? then s
    else AfterGlides(Glide(s, actions[0], rewards).newState, actions[1..], rewards)
  }

  /** For each move of the stretch, whether it brought the head closer to the food. */
  function CloserFlags(s: GameState, actions: seq<Action>, rewards: Rewards): seq<bool>
    decreases |actions|
  {
    if actions == [] || s.food.None? then []
    else [Closer(s, actions[0])] + CloserFlags(Glide(s, actions[0], rewards).newState, actions[1..], rewards)
  }

  function Count(flags: seq<bool>): (n: nat)
    ensures n <= |flags|
  {
    if flags == [] then 0 else (if flags[0] then 1 else 0) + Count(flags[1..])
  }

  function StretchReward(s: GameState, actions: seq<Action>, rewards: Rewards, multiplier: int): real
    decreases |actions|
  {
    if actions == [] || s.food.None? then 0.0
    else
      var rest := StretchReward(Glide(s, actions[0], rewards).newState, actions[1..], rewards, multiplier);
      Move(s, actions[0], rewards, multiplier, 0).reward + rest
  }

  lemma EmptyMoveGlides(s: GameState, action: Action, rewards: Rewards, multiplier: int)
    requires s.food.Some?
    requires Move(s, action, rewards, multiplier, 0).outcome == Empty
    ensures Move(s, action, rewards, multiplier, 0) == Glide(s, action, rewards)
    ensures Glide(s, action, rewards).reward
         == rewards.empty + (if Closer(s, action) then rewards.closerToFood else rewards.furtherFromFood)
    ensures
      var next := Glide(s, action, rewards).newState;
      && next.food == s.food
      && next.head == NewHead(s, action)
      && next.moveCount == s.moveCount + 1
      && FoodDistance(next.head, s.food.value)
         == FoodDistance(s.head, s.food.value) + (if Closer(s, action) then -1 else 1)
  {
    MoveCases(s, action, rewards, multiplier, 0);
    MoveChangesDistanceByOne(s, action, s.food.value);
    HeadMovesToNeighbour(s, action);
  }

  /** Closer minus further moves telescope to the drop in distance. */
  lemma {:induction false} ShapingTelescopes(s: GameState, actions: seq<Action>, rewards: Rewards, multiplier: int)
    requires s.food.Some? && AllEmpty(s, actions, rewards, multiplier)
    ensures
      var last := AfterGlides(s, actions, rewards);
      var flags := CloserFlags(s, actions, rewards);
      && last.food == s.food
      && last.moveCount == s.moveCount + |actions|
      && |flags| == |actions|
      && Count(flags) - (|flags| - Count(flags))
           == FoodDistance(s.head, s.food.value) - FoodDistance(last.head, s.food.value)
    decreases |actions|
  {
    if actions != [] {
      var next := Glide(s, actions[0], rewards).newState;
      EmptyMoveGlides(s, actions[0], rewards, multiplier);
      ShapingTelescopes(next, actions[1..], rewards, multiplier);
      assert CloserFlags(s, actions, rewards)[1..] == CloserFlags(next, actions[1..], rewards);
    }
  }

  /** What a stretch with these flags pays. */
  function FlagReward(flags: seq<bool>, rewards: Rewards): real {
    if flags == [] then 0.0
    else
      rewards.empty
      + (if flags[0] then rewards.closerToFood else rewards.furtherFromFood)
      + FlagReward(flags[1..], rewards)
  }

  /** The flags pay the empty reward per move plus the shaping reward per closer and per further move. */
  lemma {:induction false} FlagRewardIsShaping(flags: seq<bool>, rewards: Rewards)
    ensures FlagReward(flags, rewards)
         == Repeat(|flags|, rewards.empty)
          + Repeat(Count(flags), rewards.closerToFood)
          + Repeat(|flags| - Count(flags), rewards.furtherFromFood)
  {
    if flags != [] {
      FlagRewardIsShaping(flags[1..], rewards);
    }
  }

  /** A stretch pays exactly what its flags say, so its reward is the empty reward plus the shaping. */
  lemma {:induction false} StretchPaysItsFlags(s: GameState, actions: seq<Action>, rewards: Rewards, multiplier: int)
    requires s.food.Some? && AllEmpty(s, actions, rewards, multiplier)
    ensures StretchReward(s, actions, rewards, multiplier) == FlagReward(CloserFlags(s, actions, rewards), rewards)
    decreases |actions|
  {
    if actions != [] {
      var next := Glide(s, actions[0], rewards).newState;
      EmptyMoveGlides(s, actions[0], rewards, multiplier);
      StretchPaysItsFlags(next, actions[1..], rewards, multiplier);
      assert CloserFlags(s, actions, rewards)[1..] == CloserFlags(next, actions[1..], rewards);
    }
  }

  lemma ParityOfStretch(n: nat, closer: nat, d: nat)
    requires closer <= n && 2 * closer == n + d - 1
    ensures d <= n + 1 && (n + 1) % 2 == d % 2
  {
  }

  /** Food is only ever eaten from a neighbouring cell. */
  lemma EatenFromNextCell(s: GameState, action: Action, rewards: Rewards, multiplier: int, draw: nat)
    requires s.food.Some?
    requires Move(s, action, rewards, multiplier, draw).outcome in {Food, BoardFilled}
    ensures FoodDistance(s.head, s.food.value) == 1
  {
    MoveCases(s, action, rewards, multiplier, draw);
    HeadMovesToNeighbour(s, action);
  }

  /** Food placed at distance d is eaten by move n only if n >= d and n has the parity of d. */
  lemma MovesToFood(s: GameState, actions: seq<Action>, last: Action, rewards: Rewards, multiplier: int, draw: nat)
    requires s.food.Some? && AllEmpty(s, actions, rewards, multiplier)
    requires
      var before := AfterGlides(s, actions, rewards);
      before.food == s.food && Move(before, last, rewards, multiplier, draw).outcome in {Food, BoardFilled}
    ensures
      var d := FoodDistance(s.head, s.food.value);
      var n := |actions| + 1;
      d <= n && n % 2 == d % 2
  {
    var before := AfterGlides(s, actions, rewards);
    ShapingTelescopes(s, actions, rewards, multiplier);
    EatenFromNextCell(before, last, rewards, multiplier, draw);
    ParityOfStretch(|actions|, Count(CloserFlags(s, actions, rewards)), FoodDistance(s.head, s.food.value));
  }

  // ---- Short snakes ----

  lemma NeighboursDifferInParity(p: Position, q: Position)
    requires FoodDistance(p, q) == 1
    ensures (p.x + p.y) % 2 != (q.x + q.y) % 2
  {
    assert q.x + q.y == p.x + p.y + 1 || q.x + q.y == p.x + p.y - 1;
  }

  /** The head never lands on the two cells that follow it: one lies behind, the other has the wrong parity. */
  lemma NearCellsAreSafe(s: GameState, action: Action, k: nat)
    requires Sound(s) && 1 <= k <= 2 && k < |s.Cells()|
    ensures NewHead(s, action) != s.Cells()[k]
  {
    var cells := s.Cells();
    HeadMovesToNeighbour(s, action);
    if k == 2 {
      NeighboursDifferInParity(NewHead(s, action), s.head);
      NeighboursDifferInParity(cells[0], cells[1]);
      NeighboursDifferInParity(cells[1], cells[2]);
    }
  }

  /** A sound snake of at most four cells cannot run into itself. */
  lemma ShortSnakesNeverCollide(s: GameState, action: Action, rewards: Rewards, multiplier: int, draw: nat)
    requires Sound(s) && s.food.Some? && s.Length() <= 4
    ensures Move(s, action, rewards, multiplier, draw).outcome != Snake
  {
    var newHead := NewHead(s, action);
    if Some(newHead) == s.food {
      EatingNeverCollides(s, action, rewards, multiplier, draw);
    } else {
      var retained := DropLast(s.body);
      forall k | 0 <= k < |retained| ensures retained[k] != newHead {
        assert retained[k] == s.Cells()[k + 1];
        NearCellsAreSafe(s, action, k + 1);
      }
    }
  }

  // ---- Four cells is the exact limit ----

  /** The two cells that a snake visits with two left turns from its start. */
  function Above(c: GameConfig): Position {
    Position(StartHead(c).x, StartHead(c).y - 1)
  }

  function AboveNeck(c: GameConfig): Position {
    Position(StartHead(c).x - 1, StartHead(c).y - 1)
  }

  /** A start with five cells or more, on at least two rows, whose food is not in the way. */
  predicate LongStart(c: GameConfig, draw: nat) {
    && Accepted(c) && 5 <= c.initialLength && 2 <= c.grid.height
    && StartFood(c, draw) != Some(Above(c)) && StartFood(c, draw) != Some(AboveNeck(c))
  }

  lemma BudgetCoversLength(multiplier: int, length: nat)
    requires 1 <= multiplier
    ensures length <= Budget(multiplier, length)
  {
    BudgetIsProduct(multiplier, length);
    assert length <= multiplier * length;
  }

  /** A left turn onto a free cell without food. */
  lemma LeftTurnGlides(g: Game, draw: nat)
    requires Accepted(g.config) && !g.done && g.state.food.Some? && g.state.moveCount < g.state.Length()
    requires g.state.grid.Contains(NewHead(g.state, Left)) && NewHead(g.state, Left) !in g.state.body
    requires g.state.food != Some(NewHead(g.state, Left))
    ensures Apply(g, DoStep(0, draw)) == g.(state := Glide(g.state, Left, g.config.rewards).newState)
  {
    BudgetCoversLength(g.config.multiplier, g.state.Length());
    var newHead := NewHead(g.state, Left);
    forall p | p in DropLast(g.state.body) ensures p != newHead {
      assert p in g.state.body;
    }
  }

  /** The first left turn: the head is above its start, followed by the snake as it lay. */
  lemma FirstLeftTurn(c: GameConfig, draw: nat, next: nat)
    requires LongStart(c, draw)
    ensures
      var g, start := Apply(NewGame(c, draw), DoStep(0, next)), StartHead(c);
      && g.config == c && !g.done && g.state.food == StartFood(c, draw)
      && g.state.score == 0 && g.state.moveCount == 1 && g.state.grid == c.grid
      && g.state.head == Above(c) && g.state.direction == Upward
      && g.state.body == [start] + DropLast(StartBody(c))
  {
    var g := NewGame(c, draw);
    assert NewHead(g.state, Left) == Above(c);
    LeftTurnGlides(g, next);
  }

  lemma SecondLeftTurn(g: Game, c: GameConfig, draw: nat, next: nat)
    requires LongStart(c, draw) && g.config == c && !g.done && g.state.food.Some?
    requires g.state.food == StartFood(c, draw) && g.state.score == 0 && g.state.moveCount == 1
    requires g.state.grid == c.grid && g.state.head == Above(c) && g.state.direction == Upward
    requires g.state.body == [StartHead(c)] + DropLast(StartBody(c))
    ensures
      var h := Apply(g, DoStep(0, next));
      && h.config == c && !h.done && h.state.food.Some?
      && h.state.score == 0 && h.state.moveCount == 2 && h.state.grid == c.grid
      && h.state.head == AboveNeck(c) && h.state.direction == Leftward
      && h.state.body == [Above(c)] + DropLast(g.state.body)
  {
    assert NewHead(g.state, Left) == AboveNeck(c);
    LeftTurnGlides(g, next);
  }

  lemma ThirdLeftTurn(g: Game, c: GameConfig, next: nat)
    requires Accepted(c) && g.config == c && 5 <= c.initialLength && !g.done && g.state.food.Some?
    requires g.state.moveCount == 2 && g.state.grid == c.grid
    requires g.state.head == AboveNeck(c) && g.state.direction == Leftward
    requires g.state.body == [Above(c)] + DropLast([StartHead(c)] + DropLast(StartBody(c)))
    requires g.state.food != Some(StartBody(c)[0])
    ensures StepReply(g, 0, next).Ok? && StepReply(g, 0, next).value.outcome == Snake
  {
    BudgetCoversLength(c.multiplier, g.state.Length());
    assert NewHead(g.state, Left) == StartBody(c)[0] == DropLast(g.state.body)[2];
  }

  /** From every such start two left turns curl the snake up, and the third one ends with it running into itself. */
  lemma FiveCellsCanCollide(c: GameConfig, draw: nat, next: nat)
    requires LongStart(c, draw)
    ensures
      var g := Play(NewGame(c, draw), [DoStep(0, next), DoStep(0, next)]);
      && !g.done && g.state.Length() == c.initialLength
      && StepReply(g, 0, next).Ok? && StepReply(g, 0, next).value.outcome == Snake
  {
    var g0, calls := NewGame(c, draw), [DoStep(0, next), DoStep(0, next)];
    FirstLeftTurn(c, draw, next);
    var g1 := Apply(g0, DoStep(0, next));
    SecondLeftTurn(g1, c, draw, next);
    var g2 := Apply(g1, DoStep(0, next));
    DrawnPositionIsFree(draw, c.grid, Occupied([StartHead(c)] + StartBody(c)));
    ThirdLeftTurn(g2, c, next);
    assert calls[1..] == [DoStep(0, next)] && calls[1..][1..] == [];
    assert Play(g0, calls) == Play(g1, calls[1..]) == Play(g2, []) == g2;
  }

  /** The constructor makes such a start wherever any third cell is free. */
  lemma LongStartExists(c: GameConfig, p: Position)
    requires Accepted(c) && 5 <= c.initialLength && 2 <= c.grid.height
    requires c.grid.Contains(p) && p !in [StartHead(c)] + StartBody(c) && p != Above(c) && p != AboveNeck(c)
    ensures exists draw: nat :: LongStart(c, draw)
  {
    var occupied := Occupied([StartHead(c)] + StartBody(c));
    EveryFreeCellCanBeDrawn(c.grid, occupied, p);
    var draw: nat :| RandomFreePosition(draw, c.grid, occupied) == Some(p);
    assert StartFood(c, draw) == Some(p);
    assert LongStart(c, draw);
  }
}
