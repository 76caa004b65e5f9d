/** The engine has no preferred direction: turning or mirroring the board commutes with observing and moving. */
module GameSymmetry {
  import opened Wrappers
  import opened Board
  import opened GameRules
  import opened GameInvariants

  /** A clockwise quarter turn, which swaps the sides of the board, or a reflection in the vertical axis. */
  datatype Symmetry = QuarterTurn | Mirror

  function MapGrid(y: Symmetry, grid: Grid): Grid {
    if y.Mirror? then grid else Grid(grid.height, grid.width)
  }

  function MapPosition(y: Symmetry, grid: Grid, p: Position): Position {
    if y.Mirror? then Position(grid.width - 1 - p.x, p.y) else Position(grid.height - 1 - p.y, p.x)
  }

  function UnmapPosition(y: Symmetry, grid: Grid, p: Position): Position {
    if y.Mirror? then Position(grid.width - 1 - p.x, p.y) else Position(p.y, grid.height - 1 - p.x)
  }

  function MapDirection(y: Symmetry, d: Direction): Direction {
    if y.QuarterTurn? then TurnRight(d)
    else
      match d
      case Leftward => Rightward
      case Rightward => Leftward
      case Upward => Upward
      case Downward => Downward
  }

  /** A reflection exchanges left and right. */
  function MapAction(y: Symmetry, action: Action): Action {
    match action
    case Left => if y.Mirror? then Right else Left
    case Right => if y.Mirror? then Left else Right
    case Straight => Straight
  }

  function MapCells(y: Symmetry, grid: Grid, cells: seq<Position>): (mapped: seq<Position>)
    ensures |mapped| == |cells|
    ensures forall i | 0 <= i < |cells| :: mapped[i] == MapPosition(y, grid, cells[i])
  {
    seq(|cells|, i requires 0 <= i < |cells| => MapPosition(y, grid, cells[i]))
  }

  function MapFood(y: Symmetry, grid: Grid, food: Option<Position>): Option<Position> {
    match food
    case Some(p) => Some(MapPosition(y, grid, p))
    case None => None
  }

  function MapState(y: Symmetry, s: GameState): GameState {
    s.(head := MapPosition(y, s.grid, s.head),
       body := MapCells(y, s.grid, s.body),
       direction := MapDirection(y, s.direction),
       food := MapFood(y, s.grid, s.food),
       grid := MapGrid(y, s.grid))
  }

  function MapResult(y: Symmetry, r: StepResult): StepResult {
    r.(newState := MapState(y, r.newState))
  }

  // ---- The view ----

  function Reversed(row: seq<real>): (r: seq<real>)
    ensures |r| == |row|
    ensures forall i | 0 <= i < |row| :: r[i] == row[|row| - 1 - i]
  {
    seq(|row|, i requires 0 <= i < |row| => row[|row| - 1 - i])
  }

  /** Every row of the view read from right to left. */
  function ReversedRows(view: seq<real>, rows: nat): (r: seq<real>)
    requires |view| == 7 * rows
    ensures |r| == |view|
  {
    if rows == 0 then []
    else ReversedRows(view[..7 * (rows - 1)], rows - 1) + Reversed(view[7 * (rows - 1)..])
  }

  /** A turn leaves an observation alone; a reflection reverses the rows and the left-right food sign. */
  function MapObservation(y: Symmetry, o: seq<real>): seq<real>
    requires |o| == OBSERVATION_SIZE
  {
    if y.Mirror? then ReversedRows(o[..49], 7) + [0.0 - o[49], o[50]] else o
  }

  function MapLocalX(y: Symmetry, localX: int): int {
    if y.Mirror? then -localX else localX
  }

  lemma MappedMember(y: Symmetry, grid: Grid, cells: seq<Position>, p: Position)
    ensures p in cells <==> MapPosition(y, grid, p) in MapCells(y, grid, cells)
  {
    var mapped := MapCells(y, grid, cells);
    if MapPosition(y, grid, p) in mapped {
      var i :| 0 <= i < |mapped| && mapped[i] == MapPosition(y, grid, p);
      assert cells[i] == p;
    }
    if p in cells {
      var i :| 0 <= i < |cells| && cells[i] == p;
      assert mapped[i] == MapPosition(y, grid, p);
    }
  }

  lemma MappedViewPosition(y: Symmetry, s: GameState, localX: int, localY: int)
    ensures ViewPosition(MapState(y, s), localX, localY)
         == MapPosition(y, s.grid, ViewPosition(s, MapLocalX(y, localX), localY))
  {
  }

  lemma MappedCellValue(y: Symmetry, s: GameState, p: Position)
    ensures CellValue(MapState(y, s), MapPosition(y, s.grid, p)) == CellValue(s, p)
  {
    MappedMember(y, s.grid, s.body, p);
    if s.food.Some? && MapPosition(y, s.grid, p) == MapPosition(y, s.grid, s.food.value) {
      assert p == s.food.value;
    }
  }

  lemma MappedViewCell(y: Symmetry, s: GameState, localX: int, localY: int)
    ensures ViewCell(MapState(y, s), localX, localY) == ViewCell(s, MapLocalX(y, localX), localY)
  {
    MappedViewPosition(y, s, localX, localY);
    MappedCellValue(y, s, ViewPosition(s, MapLocalX(y, localX), localY));
  }

  lemma MappedViewRow(y: Symmetry, s: GameState, localY: int)
    ensures ViewRow(MapState(y, s), localY) == if y.Mirror? then Reversed(ViewRow(s, localY)) else ViewRow(s, localY)
  {
    var row, mapped := ViewRow(s, localY), ViewRow(MapState(y, s), localY);
    forall i | 0 <= i < 7 ensures mapped[i] == ViewCell(s, MapLocalX(y, i - 3), localY) {
      MappedViewCell(y, s, i - 3, localY);
    }
    if y.Mirror? {
      forall i | 0 <= i < 7 ensures mapped[i] == Reversed(row)[i] {
        assert row[6 - i] == ViewCell(s, 6 - i - 3, localY);
      }
    } else {
      forall i | 0 <= i < 7 ensures mapped[i] == row[i] {
        assert row[i] == ViewCell(s, i - 3, localY);
      }
    }
  }

  lemma {:induction false} MappedViewRows(y: Symmetry, s: GameState, rows: nat)
    ensures ViewRows(MapState(y, s), rows)
         == if y.Mirror? then ReversedRows(ViewRows(s, rows), rows) else ViewRows(s, rows)
  {
    if rows > 0 {
      MappedViewRows(y, s, rows - 1);
      MappedViewRow(y, s, rows - 4);
      assert ViewRows(s, rows)[..7 * (rows - 1)] == ViewRows(s, rows - 1);
      assert ViewRows(s, rows)[7 * (rows - 1)..] == ViewRow(s, rows - 4);
    }
  }

  lemma MappedFoodOffsets(y: Symmetry, s: GameState)
    requires s.food.Some?
    ensures FoodRight(MapState(y, s)) == MapLocalX(y, FoodRight(s))
    ensures FoodBehind(MapState(y, s)) == FoodBehind(s)
  {
  }

  lemma MappedFoodSigns(y: Symmetry, s: GameState)
    ensures
      var signs := FoodSigns(s);
      FoodSigns(MapState(y, s)) == if y.Mirror? then [0.0 - signs[0], signs[1]] else signs
  {
    if s.food.Some? {
      MappedFoodOffsets(y, s);
    }
  }

  /** Turning the board does not change the observation; mirroring the board mirrors it. */
  lemma ObservationCommutes(y: Symmetry, s: GameState)
    ensures Observation(MapState(y, s)) == MapObservation(y, Observation(s))
  {
    MappedViewRows(y, s, 7);
    MappedFoodSigns(y, s);
    assert Observation(s)[..49] == ViewRows(s, 7);
    assert Observation(s)[49] == FoodSigns(s)[0] && Observation(s)[50] == FoodSigns(s)[1];
  }

  // ---- The food ----

  lemma MappedFreeCell(y: Symmetry, grid: Grid, cells: seq<Position>, p: Position)
    ensures grid.Contains(p) && p !in cells
       <==> MapGrid(y, grid).Contains(MapPosition(y, grid, p)) && MapPosition(y, grid, p) !in MapCells(y, grid, cells)
    ensures UnmapPosition(y, grid, MapPosition(y, grid, p)) == p
    ensures MapPosition(y, grid, UnmapPosition(y, grid, p)) == p
  {
    MappedMember(y, grid, cells, p);
  }

  ghost predicate DrawsMatch(y: Symmetry, grid: Grid, cells: seq<Position>, draw: nat, mappedDraw: nat) {
    RandomFreePosition(mappedDraw, MapGrid(y, grid), Occupied(MapCells(y, grid, cells)))
      == MapFood(y, grid, RandomFreePosition(draw, grid, Occupied(cells)))
  }

  lemma NoFreeCellMaps(y: Symmetry, grid: Grid, cells: seq<Position>)
    ensures FreeCells(grid, Occupied(cells)) == []
       <==> FreeCells(MapGrid(y, grid), Occupied(MapCells(y, grid, cells))) == []
  {
    var free := FreeCells(grid, Occupied(cells));
    var mapped := FreeCells(MapGrid(y, grid), Occupied(MapCells(y, grid, cells)));
    if free != [] {
      var p := free[0];
      FreeCellsMember(grid, Occupied(cells), p);
      MappedFreeCell(y, grid, cells, p);
      FreeCellsMember(MapGrid(y, grid), Occupied(MapCells(y, grid, cells)), MapPosition(y, grid, p));
    }
    if mapped != [] {
      var p := UnmapPosition(y, grid, mapped[0]);
      FreeCellsMember(MapGrid(y, grid), Occupied(MapCells(y, grid, cells)), mapped[0]);
      MappedFreeCell(y, grid, cells, mapped[0]);
      MappedFreeCell(y, grid, cells, p);
      FreeCellsMember(grid, Occupied(cells), p);
    }
  }

  /** Every food the original board can get, the mapped board can get in the mapped place. */
  lemma FoodCanFollow(y: Symmetry, grid: Grid, cells: seq<Position>, draw: nat)
    ensures exists mappedDraw: nat :: DrawsMatch(y, grid, cells, draw, mappedDraw)
  {
    NoFreeCellMaps(y, grid, cells);
    DrawnPositionIsFree(draw, grid, Occupied(cells));
    match RandomFreePosition(draw, grid, Occupied(cells))
    case None =>
      assert DrawsMatch(y, grid, cells, draw, 0);
    case Some(p) =>
      MappedFreeCell(y, grid, cells, p);
      EveryFreeCellCanBeDrawn(MapGrid(y, grid), Occupied(MapCells(y, grid, cells)), MapPosition(y, grid, p));
      var mappedDraw: nat :|
        RandomFreePosition(mappedDraw, MapGrid(y, grid), Occupied(MapCells(y, grid, cells)))
          == Some(MapPosition(y, grid, p));
      assert DrawsMatch(y, grid, cells, draw, mappedDraw);
  }

  /** And the other way round. */
  lemma FoodCanLead(y: Symmetry, grid: Grid, cells: seq<Position>, mappedDraw: nat)
    ensures exists draw: nat :: DrawsMatch(y, grid, cells, draw, mappedDraw)
  {
    NoFreeCellMaps(y, grid, cells);
    DrawnPositionIsFree(mappedDraw, MapGrid(y, grid), Occupied(MapCells(y, grid, cells)));
    match RandomFreePosition(mappedDraw, MapGrid(y, grid), Occupied(MapCells(y, grid, cells)))
    case None =>
      assert DrawsMatch(y, grid, cells, 0, mappedDraw);
    case Some(q) =>
      var p := UnmapPosition(y, grid, q);
      MappedFreeCell(y, grid, cells, q);
      MappedFreeCell(y, grid, cells, p);
      EveryFreeCellCanBeDrawn(grid, Occupied(cells), p);
      var draw: nat :| RandomFreePosition(draw, grid, Occupied(cells)) == Some(p);
      assert DrawsMatch(y, grid, cells, draw, mappedDraw);
  }

  // ---- The move ----

  lemma MappedHead(y: Symmetry, s: GameState, action: Action)
    ensures NewHead(MapState(y, s), MapAction(y, action)) == MapPosition(y, s.grid, NewHead(s, action))
    ensures NextDirection(MapState(y, s).direction, MapAction(y, action))
         == MapDirection(y, NextDirection(s.direction, action))
    ensures MapGrid(y, s.grid).Contains(MapPosition(y, s.grid, NewHead(s, action)))
         == s.grid.Contains(NewHead(s, action))
  {
  }

  lemma MappedRetained(y: Symmetry, s: GameState, p: Position)
    ensures Retained(MapState(y, s), MapPosition(y, s.grid, p)) == MapCells(y, s.grid, Retained(s, p))
  {
    assert DropLast(MapCells(y, s.grid, s.body)) == MapCells(y, s.grid, DropLast(s.body));
    if s.food.Some? && MapPosition(y, s.grid, p) == MapPosition(y, s.grid, s.food.value) {
      assert p == s.food.value;
    }
  }

  lemma MappedDistance(y: Symmetry, grid: Grid, p: Position, q: Position)
    ensures FoodDistance(MapPosition(y, grid, p), MapPosition(y, grid, q)) == FoodDistance(p, q)
  {
  }

  lemma MappedGlide(y: Symmetry, s: GameState, action: Action, rewards: Rewards)
    requires s.food.Some?
    ensures Glide(MapState(y, s), MapAction(y, action), rewards) == MapResult(y, Glide(s, action, rewards))
  {
    MappedHead(y, s, action);
    MappedDistance(y, s.grid, s.head, s.food.value);
    MappedDistance(y, s.grid, NewHead(s, action), s.food.value);
    var mapped := Glide(MapState(y, s), MapAction(y, action), rewards).newState;
    var glided := Glide(s, action, rewards).newState;
    assert mapped.body == MapCells(y, s.grid, glided.body);
  }

  lemma MappedEat(y: Symmetry, s: GameState, action: Action, rewards: Rewards, draw: nat, mappedDraw: nat)
    requires DrawsMatch(y, s.grid, [NewHead(s, action)] + s.Cells(), draw, mappedDraw)
    ensures Eat(MapState(y, s), MapAction(y, action), rewards, mappedDraw)
         == MapResult(y, Eat(s, action, rewards, draw))
  {
    MappedHead(y, s, action);
    var cells := [NewHead(s, action)] + s.Cells();
    assert MapCells(y, s.grid, cells) == [NewHead(MapState(y, s), MapAction(y, action))] + MapState(y, s).Cells();
    assert MapState(y, s).Cells() == MapCells(y, s.grid, s.Cells());
  }

  /** With matching food draws the mapped move leads to the mapped result. */
  lemma MoveCommutes(
    y: Symmetry, s: GameState, action: Action, rewards: Rewards, multiplier: int, draw: nat, mappedDraw: nat)
    requires s.food.Some?
    requires DrawsMatch(y, s.grid, [NewHead(s, action)] + s.Cells(), draw, mappedDraw)
    ensures Move(MapState(y, s), MapAction(y, action), rewards, multiplier, mappedDraw)
         == MapResult(y, Move(s, action, rewards, multiplier, draw))
  {
    var newHead := NewHead(s, action);
    MappedHead(y, s, action);
    MappedRetained(y, s, newHead);
    MappedMember(y, s.grid, Retained(s, newHead), newHead);
    MappedGlide(y, s, action, rewards);
    MappedEat(y, s, action, rewards, draw, mappedDraw);
  }

  /** Some food draw makes the move end in `r`. */
  ghost predicate CanLeadTo(s: GameState, action: Action, rewards: Rewards, multiplier: int, r: StepResult)
    requires s.food.Some?
  {
    exists draw: nat :: Move(s, action, rewards, multiplier, draw) == r
  }

  lemma MapStateIsInjective(y: Symmetry, a: GameState, b: GameState)
    requires MapState(y, a) == MapState(y, b)
    ensures a == b
  {
    var m, n := MapCells(y, a.grid, a.body), MapCells(y, b.grid, b.body);
    assert a.grid == b.grid && |m| == |n|;
    forall i | 0 <= i < |a.body| ensures a.body[i] == b.body[i] {
      assert m[i] == n[i];
    }
  }

  /** The results a move can have, food placement included, are exactly carried over by every symmetry. */
  lemma MoveOutcomesCommute(y: Symmetry, s: GameState, action: Action, rewards: Rewards, multiplier: int, r: StepResult)
    requires s.food.Some?
    ensures CanLeadTo(s, action, rewards, multiplier, r)
       <==> CanLeadTo(MapState(y, s), MapAction(y, action), rewards, multiplier, MapResult(y, r))
  {
    var cells := [NewHead(s, action)] + s.Cells();
    if CanLeadTo(s, action, rewards, multiplier, r) {
      var draw: nat :| Move(s, action, rewards, multiplier, draw) == r;
      FoodCanFollow(y, s.grid, cells, draw);
      var mappedDraw: nat :| DrawsMatch(y, s.grid, cells, draw, mappedDraw);
      MoveCommutes(y, s, action, rewards, multiplier, draw, mappedDraw);
    }
    if CanLeadTo(MapState(y, s), MapAction(y, action), rewards, multiplier, MapResult(y, r)) {
      var mappedDraw: nat :|
        Move(MapState(y, s), MapAction(y, action), rewards, multiplier, mappedDraw) == MapResult(y, r);
      FoodCanLead(y, s.grid, cells, mappedDraw);
      var draw: nat :| DrawsMatch(y, s.grid, cells, draw, mappedDraw);
      MoveCommutes(y, s, action, rewards, multiplier, draw, mappedDraw);
      MapStateIsInjective(y, Move(s, action, rewards, multiplier, draw).newState, r.newState);
    }
  }
}
