/** What every move keeps: a self-avoiding chain on the board whose heading is head minus neck. */
module GameInvariants {
  import opened Wrappers
  import opened Board
  import opened GameRules

  /** Distinct board cells, each next to the one before. */
  ghost predicate SoundPath(grid: Grid, cells: seq<Position>) {
    && (forall p | p in cells :: grid.Contains(p))
    && Distinct(cells)
    && forall i, j | 0 <= i && j == i + 1 < |cells| :: FoodDistance(cells[i], cells[j]) == 1
  }

  ghost predicate SoundSnake(s: GameState) {
    && SoundPath(s.grid, s.Cells())
    && (s.body != [] ==> s.head == Advance(s.body[0], s.direction))
  }

  ghost predicate SoundFood(s: GameState) {
    s.food.Some? ==> s.grid.Contains(s.food.value) && s.food.value !in s.Cells()
  }

  ghost predicate Sound(s: GameState) {
    SoundSnake(s) && SoundFood(s)
  }

  lemma ExtendPath(grid: Grid, p: Position, cells: seq<Position>)
    requires SoundPath(grid, cells) && grid.Contains(p) && p !in cells
    requires cells != [] ==> FoodDistance(p, cells[0]) == 1
    ensures SoundPath(grid, [p] + cells)
  {
    var longer := [p] + cells;
    forall i, j | 0 <= i < j < |longer| ensures longer[i] != longer[j] {
      assert longer[j] == cells[j - 1];
    }
  }

  lemma ShortenPath(grid: Grid, cells: seq<Position>, n: nat)
    requires SoundPath(grid, cells) && n <= |cells|
    ensures SoundPath(grid, cells[..n])
  {
  }

  /** The snake is as long as it started plus what it ate; a one-cell snake gains one more cell by gliding. */
  ghost predicate LengthLaw(s: GameState, initialLength: int) {
    || s.Length() == initialLength + s.score
    || (initialLength == 1 && s.Length() == s.score + 2)
  }

  /** The five ways a move can go, each with the state it leads to. */
  lemma MoveCases(s: GameState, action: Action, rewards: Rewards, multiplier: int, draw: nat)
    requires s.food.Some?
    ensures
      var r := Move(s, action, rewards, multiplier, draw);
      || (r.outcome in {MaxMoves, Wall, Snake} && r.done && r.newState == s.(moveCount := s.moveCount + 1))
      || (!WouldCollide(s, action) && Some(NewHead(s, action)) == s.food && r == Eat(s, action, rewards, draw))
      || (!WouldCollide(s, action) && Some(NewHead(s, action)) != s.food && r == Glide(s, action, rewards))
  {
    var r := Move(s, action, rewards, multiplier, draw);
    if !WithinBudget(s, multiplier) {
      assert r.outcome == MaxMoves;
    } else if WouldCollide(s, action) {
      assert r.outcome == Wall || r.outcome == Snake;
    } else if Some(NewHead(s, action)) == s.food {
      assert r == Eat(s, action, rewards, draw);
    } else {
      assert r == Glide(s, action, rewards);
    }
  }

  /** Which outcome a move has, when it ends the episode, and what it pays. */
  lemma OutcomesExplained(s: GameState, action: Action, rewards: Rewards, multiplier: int, draw: nat)
    requires Sound(s) && s.food.Some?
    ensures
      var r, newHead := Move(s, action, rewards, multiplier, draw), NewHead(s, action);
      && (r.outcome == MaxMoves <==> s.moveCount >= multiplier * s.Length())
      && (r.outcome == Wall <==> WithinBudget(s, multiplier) && !s.grid.Contains(newHead))
      && (r.outcome == Snake <==> WithinBudget(s, multiplier) && newHead in DropLast(s.body))
      && (r.outcome in {Food, BoardFilled} <==> WithinBudget(s, multiplier) && Some(newHead) == s.food)
      && (r.done <==> r.outcome !in {Empty, Food})
      && (r.newState.score == s.score + 1 <==> r.outcome in {Food, BoardFilled})
      && r.reward == match r.outcome
                     case MaxMoves => rewards.maxMoves
                     case Wall => rewards.wall
                     case Snake => rewards.snake
                     case Food => rewards.food
                     case BoardFilled => rewards.food
                     case Empty =>
                       rewards.empty
                       + if FoodDistance(newHead, s.food.value) < FoodDistance(s.head, s.food.value)
                         then rewards.closerToFood else rewards.furtherFromFood
  {
    BudgetIsProduct(multiplier, s.Length());
    assert forall p | p in DropLast(s.body) :: p in s.Cells();
    assert forall p | p in s.body :: p in s.Cells();
  }

  /**
   * What a move leaves: a move that ends in a collision or out of budget changes only the count; any other one puts
   * the head on its new cell, with the whole snake behind it if it eats and without its tail cell if it does not.
   * The food stays where it is until it is eaten.
   */
  lemma MoveSpelledOut(s: GameState, action: Action, rewards: Rewards, multiplier: int, draw: nat)
    requires Sound(s) && s.food.Some?
    ensures
      var r, newHead := Move(s, action, rewards, multiplier, draw), NewHead(s, action);
      var t := r.newState;
      && t.moveCount == s.moveCount + 1 && t.grid == s.grid && t.seed == s.seed && t.episodeId == s.episodeId
      && match r.outcome
         case Empty =>
           && t.Cells() == [newHead, s.head] + DropLast(s.body)
           && t.food == s.food && t.score == s.score
         case Food =>
           && t.Cells() == [newHead] + s.Cells() && t.score == s.score + 1
           && t.food.Some? && s.grid.Contains(t.food.value) && t.food.value !in t.Cells()
         case BoardFilled =>
           t.Cells() == [newHead] + s.Cells() && t.score == s.score + 1 && t.food.None?
         case _ =>
           t.Cells() == s.Cells() && t.direction == s.direction && t.food == s.food && t.score == s.score
  {
    MoveCases(s, action, rewards, multiplier, draw);
    MoveKeepsSound(s, action, rewards, multiplier, draw);
  }

  /** The head moves to a neighbouring cell, and never back onto the neck. */
  lemma HeadMovesToNeighbour(s: GameState, action: Action)
    ensures FoodDistance(NewHead(s, action), s.head) == 1
    ensures forall neck: Position | Advance(neck, s.direction) == s.head :: NewHead(s, action) != neck
  {
  }

  lemma EatKeepsSound(s: GameState, action: Action, rewards: Rewards, draw: nat)
    requires Sound(s) && Some(NewHead(s, action)) == s.food
    ensures Sound(Eat(s, action, rewards, draw).newState)
    ensures Eat(s, action, rewards, draw).newState.Cells() == [s.food.value] + s.Cells()
  {
    var next := Eat(s, action, rewards, draw).newState;
    assert next.Cells() == [s.food.value] + s.Cells();
    HeadMovesToNeighbour(s, action);
    ExtendPath(s.grid, s.food.value, s.Cells());
    DrawnPositionIsFree(draw, s.grid, Occupied(next.Cells()));
  }

  /** A gliding snake keeps all of its cells if it has only one, otherwise all but the tail. */
  lemma KeptCells(s: GameState)
    ensures exists n | 0 < n <= s.Length() :: [s.head] + DropLast(s.body) == s.Cells()[..n]
  {
    if s.body == [] {
      assert [s.head] + DropLast(s.body) == s.Cells()[..1];
    } else {
      assert [s.head] + DropLast(s.body) == s.Cells()[..|s.body|];
    }
  }

  lemma GlideKeepsSound(s: GameState, action: Action, rewards: Rewards)
    requires Sound(s) && s.food.Some? && Some(NewHead(s, action)) != s.food && !WouldCollide(s, action)
    ensures Sound(Glide(s, action, rewards).newState)
  {
    var next := Glide(s, action, rewards).newState;
    var newHead := NewHead(s, action);
    KeptCells(s);
    var n :| 0 < n <= s.Length() && [s.head] + DropLast(s.body) == s.Cells()[..n];
    var kept := s.Cells()[..n];
    assert next.Cells() == [newHead] + kept;
    ShortenPath(s.grid, s.Cells(), n);
    HeadMovesToNeighbour(s, action);
    assert newHead !in kept;
    ExtendPath(s.grid, newHead, kept);
    assert s.food.value !in next.Cells();
  }

  /** Every move of a sound state leads to a sound state. */
  lemma MoveKeepsSound(s: GameState, action: Action, rewards: Rewards, multiplier: int, draw: nat)
    requires Sound(s) && s.food.Some?
    ensures Sound(Move(s, action, rewards, multiplier, draw).newState)
  {
    MoveCases(s, action, rewards, multiplier, draw);
    var r := Move(s, action, rewards, multiplier, draw);
    if r.outcome in {MaxMoves, Wall, Snake} {
      assert r.newState.Cells() == s.Cells();
    } else if Some(NewHead(s, action)) == s.food {
      EatKeepsSound(s, action, rewards, draw);
    } else {
      GlideKeepsSound(s, action, rewards);
    }
  }

  /** A move that reaches the food never hits the snake. */
  lemma EatingNeverCollides(s: GameState, action: Action, rewards: Rewards, multiplier: int, draw: nat)
    requires Sound(s) && s.food.Some? && Some(NewHead(s, action)) == s.food
    ensures !WouldCollide(s, action)
    ensures Move(s, action, rewards, multiplier, draw).outcome in {MaxMoves, Food, BoardFilled}
  {
    assert s.food.value !in s.Cells();
    MoveCases(s, action, rewards, multiplier, draw);
    WouldCollideAgreesWithStep(s, action, rewards, multiplier, draw);
  }

  /** The length law survives every move; from two cells on it is an equality. */
  lemma MoveKeepsLengthLaw(
    s: GameState, action: Action, rewards: Rewards, multiplier: int, draw: nat, initialLength: int)
    requires s.food.Some? && 1 <= initialLength && 0 <= s.score && LengthLaw(s, initialLength)
    ensures LengthLaw(Move(s, action, rewards, multiplier, draw).newState, initialLength)
  {
    MoveCases(s, action, rewards, multiplier, draw);
  }

  /** Every move counts once and scores at most once; the board and the episode stay the same. */
  lemma MoveCounters(s: GameState, action: Action, rewards: Rewards, multiplier: int, draw: nat)
    requires s.food.Some?
    ensures
      var next := Move(s, action, rewards, multiplier, draw).newState;
      && next.moveCount == s.moveCount + 1
      && s.score <= next.score <= s.score + 1
      && next.grid == s.grid && next.seed == s.seed && next.episodeId == s.episodeId
  {
    MoveCases(s, action, rewards, multiplier, draw);
  }

  // ---- The board bounds the snake ----

  lemma CellSet(s: GameState)
    requires SoundSnake(s)
    ensures |Occupied(s.Cells())| == s.Length()
  {
    DistinctCardinality(s.Cells());
  }

  /** A sound snake leaves exactly the rest of the board free, so it is never longer than the board. */
  lemma FreeAroundSnake(s: GameState)
    requires SoundSnake(s)
    ensures |FreeCells(s.grid, Occupied(s.Cells()))| == Area(s.grid) - s.Length()
  {
    CellSet(s);
    assert s.grid.Contains(s.Cells()[0]);
    FreeCellCount(s.grid, Occupied(s.Cells()));
  }

  /** Food on the board means a free cell: the snake is shorter than the board. */
  lemma FoodNeedsRoom(s: GameState)
    requires Sound(s) && s.food.Some?
    ensures s.Length() < Area(s.grid)
  {
    FreeAroundSnake(s);
    FreeCellsMember(s.grid, Occupied(s.Cells()), s.food.value);
  }

  /** The board is full exactly when the snake is as long as the board has cells. */
  lemma FullBoard(s: GameState)
    requires SoundSnake(s)
    ensures s.Length() <= Area(s.grid)
    ensures s.Length() == Area(s.grid) <==> forall p | s.grid.Contains(p) :: p in s.Cells()
  {
    FreeAroundSnake(s);
    var free := FreeCells(s.grid, Occupied(s.Cells()));
    if free == [] {
      forall p | s.grid.Contains(p) ensures p in s.Cells() {
        FreeCellsMember(s.grid, Occupied(s.Cells()), p);
      }
    } else {
      FreeCellsMember(s.grid, Occupied(s.Cells()), free[0]);
    }
  }

  /** BOARD_FILLED is reported exactly when the snake then covers the whole board. */
  lemma BoardFilledExactlyWhenCovered(s: GameState, action: Action, rewards: Rewards, multiplier: int, draw: nat)
    requires Sound(s) && s.food.Some?
    ensures
      var r := Move(s, action, rewards, multiplier, draw);
      && (r.outcome == BoardFilled <==> r.newState.food.None?)
      && (r.outcome == BoardFilled <==> forall p | s.grid.Contains(p) :: p in r.newState.Cells())
  {
    var r := Move(s, action, rewards, multiplier, draw);
    MoveCases(s, action, rewards, multiplier, draw);
    MoveKeepsSound(s, action, rewards, multiplier, draw);
    if r.newState.food.Some? {
      assert s.grid.Contains(r.newState.food.value);
      assert r.newState.food.value !in r.newState.Cells();
    } else {
      assert r == Eat(s, action, rewards, draw);
      assert r.newState.Cells() == [NewHead(s, action)] + s.Cells();
      DrawnPositionIsFree(draw, s.grid, Occupied(r.newState.Cells()));
    }
  }
}
