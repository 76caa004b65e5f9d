/** Positions, directions, game states and the egocentric observation. */
module Board {
  import opened Wrappers

  /** The view has radius 3: 7 rows of 7 cells, followed by two food signs. */
  const OBSERVATION_SIZE := 51

  datatype Position = Position(x: int, y: int)

  /** A heading: one of the four cardinal unit vectors. The y axis points down. */
  datatype Direction = Leftward | Rightward | Upward | Downward {
    function dx(): int {
      match this
      case Leftward => -1
      case Rightward => 1
      case Upward => 0
      case Downward => 0
    }

    function dy(): int {
      match this
      case Leftward => 0
      case Rightward => 0
      case Upward => -1
      case Downward => 1
    }
  }

  function TurnLeft(d: Direction): (r: Direction)
    ensures r.dx() == d.dy() && r.dy() == -d.dx()
  {
    match d
    case Leftward => Downward
    case Rightward => Upward
    case Upward => Leftward
    case Downward => Rightward
  }

  function TurnRight(d: Direction): (r: Direction)
    ensures r.dx() == -d.dy() && r.dy() == d.dx()
  {
    match d
    case Leftward => Upward
    case Rightward => Downward
    case Upward => Rightward
    case Downward => Leftward
  }

  function Advance(p: Position, d: Direction): Position {
    Position(p.x + d.dx(), p.y + d.dy())
  }

  /** `n` steps from `p` in direction `d`. */
  function Shifted(p: Position, n: int, d: Direction): Position {
    match d
    case Leftward => Position(p.x - n, p.y)
    case Rightward => Position(p.x + n, p.y)
    case Upward => Position(p.x, p.y - n)
    case Downward => Position(p.x, p.y + n)
  }

  /** How far the offset (x, y) reaches in direction `d`. */
  function Reach(x: int, y: int, d: Direction): int {
    match d
    case Leftward => -x
    case Rightward => x
    case Upward => -y
    case Downward => y
  }

  lemma ReachIsProduct(x: int, y: int, d: Direction)
    ensures Reach(x, y, d) == x * d.dx() + y * d.dy()
  {
  }

  datatype Grid = Grid(width: int, height: int) {
    predicate Contains(p: Position) {
      0 <= p.x < width && 0 <= p.y < height
    }
  }

  /** One immutable board of an episode. The body runs from the neck to the tail. */
  datatype GameState = GameState(
    head: Position,
    body: seq<Position>,
    direction: Direction,
    food: Option<Position>,
    score: int,
    moveCount: int,
    grid: Grid,
    seed: int,
    episodeId: int)
  {
    function Length(): nat {
      |body| + 1
    }

    /** The whole snake, head first. */
    function Cells(): seq<Position> {
      [head] + body
    }
  }

  function Sign(n: int): real {
    if n < 0 then -1.0 else if n > 0 then 1.0 else 0.0
  }

  /** The board cell that lies `localX` to the right of and `-localY` ahead of the head. */
  function ViewPosition(s: GameState, localX: int, localY: int): Position {
    Shifted(Shifted(s.head, localX, TurnRight(s.direction)), -localY, s.direction)
  }

  /** In coordinates: the two unit vectors, scaled and added to the head. */
  lemma ViewPositionInCoordinates(s: GameState, localX: int, localY: int)
    ensures
      var forward, right := s.direction, TurnRight(s.direction);
      ViewPosition(s, localX, localY)
      == Position(
           s.head.x + localX * right.dx() - localY * forward.dx(),
           s.head.y + localX * right.dy() - localY * forward.dy())
  {
  }

  /** What the network sees of one position. */
  function CellValue(s: GameState, p: Position): real {
    if !s.grid.Contains(p) then -0.5
    else if p in s.body then 0.5
    else if Some(p) == s.food then 1.0
    else 0.0
  }

  /** What the network sees at one local offset. */
  function ViewCell(s: GameState, localX: int, localY: int): real {
    if localX == 0 && localY == 0 then 0.0 else CellValue(s, ViewPosition(s, localX, localY))
  }

  /** How far the food lies to the right of the head, in the snake's own frame. */
  function FoodRight(s: GameState): int
    requires s.food.Some?
  {
    Reach(s.food.value.x - s.head.x, s.food.value.y - s.head.y, TurnRight(s.direction))
  }

  /** How far the food lies behind the head, in the snake's own frame. */
  function FoodBehind(s: GameState): int
    requires s.food.Some?
  {
    -Reach(s.food.value.x - s.head.x, s.food.value.y - s.head.y, s.direction)
  }

  function FoodSigns(s: GameState): seq<real> {
    if s.food.None? then [0.0, 0.0] else [Sign(FoodRight(s)), Sign(FoodBehind(s))]
  }

  function ViewRow(s: GameState, localY: int): (row: seq<real>)
    ensures |row| == 7
  {
    seq(7, i => ViewCell(s, i - 3, localY))
  }

  /** The first `rows` rows of the view, top row first. */
  function ViewRows(s: GameState, rows: nat): (view: seq<real>)
    ensures |view| == 7 * rows
  {
    if rows == 0 then [] else ViewRows(s, rows - 1) + ViewRow(s, rows - 4)
  }

  function Observation(s: GameState): (values: seq<real>)
    ensures |values| == OBSERVATION_SIZE
  {
    ViewRows(s, 7) + FoodSigns(s)
  }

  /** The nested loops that build the observation; the result always has the declared size. */
  method Observe(s: GameState) returns (values: seq<real>)
    ensures values == Observation(s) && |values| == OBSERVATION_SIZE
  {
    values := [];
    for localY := -3 to 4
      invariant values == ViewRows(s, localY + 3)
    {
      ghost var above, row := values, ViewRow(s, localY);
      for localX := -3 to 4
        invariant values == above + row[..localX + 3]
      {
        assert row[..localX + 3] + [row[localX + 3]] == row[..localX + 4];
        values := values + [ViewCell(s, localX, localY)];
      }
    }
    values := values + FoodSigns(s);
  }

  /** Where the view keeps a cell: row by row, each row from left to right. */
  lemma {:induction false} ViewIndex(s: GameState, rows: nat, localX: int, localY: int)
    requires -3 <= localX <= 3 && -3 <= localY < rows - 3
    ensures 0 <= 7 * (localY + 3) + localX + 3 < |ViewRows(s, rows)|
    ensures ViewRows(s, rows)[7 * (localY + 3) + localX + 3] == ViewCell(s, localX, localY)
    decreases rows
  {
    if localY < rows - 4 {
      ViewIndex(s, rows - 1, localX, localY);
    } else {
      assert ViewRow(s, localY)[localX + 3] == ViewCell(s, localX, localY);
    }
  }

  // ---- Free cells ----

  /** How many cells `columns` columns have, as a sum over the columns so that proofs meet no product. */
  function CellsIn(columns: int, height: int): int
    decreases columns
  {
    if columns <= 0 then 0 else height + CellsIn(columns - 1, height)
  }

  function Area(grid: Grid): int {
    CellsIn(grid.width, grid.height)
  }

  lemma {:induction false} CellsInIsProduct(columns: nat, height: int)
    ensures CellsIn(columns, height) == columns * height
  {
    if columns > 0 {
      CellsInIsProduct(columns - 1, height);
    }
  }

  function Occupied(cells: seq<Position>): set<Position> {
    set p | p in cells
  }

  function FreeInColumn(x: int, y: int, height: int, occupied: set<Position>): seq<Position>
    decreases height - y
  {
    if height <= y then []
    else (if Position(x, y) in occupied then [] else [Position(x, y)]) + FreeInColumn(x, y + 1, height, occupied)
  }

  function FreeFromColumn(x: int, grid: Grid, occupied: set<Position>): seq<Position>
    decreases grid.width - x
  {
    if grid.width <= x then []
    else FreeInColumn(x, 0, grid.height, occupied) + FreeFromColumn(x + 1, grid, occupied)
  }

  /** The free cells, column by column. */
  function FreeCells(grid: Grid, occupied: set<Position>): seq<Position> {
    FreeFromColumn(0, grid, occupied)
  }

  lemma {:induction false} FreeInColumnMember(x: int, y: int, height: int, occupied: set<Position>, p: Position)
    ensures p in FreeInColumn(x, y, height, occupied) <==> p.x == x && y <= p.y < height && p !in occupied
    decreases height - y
  {
    if y < height {
      FreeInColumnMember(x, y + 1, height, occupied, p);
      var rest := FreeInColumn(x, y + 1, height, occupied);
      if Position(x, y) in occupied {
        assert FreeInColumn(x, y, height, occupied) == rest;
      } else {
        assert FreeInColumn(x, y, height, occupied) == [Position(x, y)] + rest;
      }
    }
  }

  lemma {:induction false} FreeFromColumnMember(x: int, grid: Grid, occupied: set<Position>, p: Position)
    ensures p in FreeFromColumn(x, grid, occupied)
       <==> x <= p.x < grid.width && 0 <= p.y < grid.height && p !in occupied
    decreases grid.width - x
  {
    if x < grid.width {
      FreeInColumnMember(x, 0, grid.height, occupied, p);
      FreeFromColumnMember(x + 1, grid, occupied, p);
      assert FreeFromColumn(x, grid, occupied)
          == FreeInColumn(x, 0, grid.height, occupied) + FreeFromColumn(x + 1, grid, occupied);
    }
  }

  /** The list holds exactly the board cells that are not occupied. */
  lemma FreeCellsMember(grid: Grid, occupied: set<Position>, p: Position)
    ensures p in FreeCells(grid, occupied) <==> grid.Contains(p) && p !in occupied
  {
    FreeFromColumnMember(0, grid, occupied, p);
  }

  /** The random generator is an arbitrary index `draw` into the free cells; an index past the end means the first. */
  function RandomFreePosition(draw: nat, grid: Grid, occupied: set<Position>): Option<Position> {
    var free := FreeCells(grid, occupied);
    if free == [] then None else Some(if draw < |free| then free[draw] else free[0])
  }

  /** A position is drawn whenever there is a free cell, and it is one. */
  lemma DrawnPositionIsFree(draw: nat, grid: Grid, occupied: set<Position>)
    ensures
      match RandomFreePosition(draw, grid, occupied)
      case Some(p) => grid.Contains(p) && p !in occupied
      case None => forall p | grid.Contains(p) :: p in occupied
  {
    var free := FreeCells(grid, occupied);
    if free == [] {
      forall p | grid.Contains(p) ensures p in occupied {
        FreeCellsMember(grid, occupied, p);
      }
    } else {
      FreeCellsMember(grid, occupied, if draw < |free| then free[draw] else free[0]);
    }
  }

  /** Every free cell is some draw's food. */
  lemma EveryFreeCellCanBeDrawn(grid: Grid, occupied: set<Position>, p: Position)
    requires grid.Contains(p) && p !in occupied
    ensures exists draw: nat :: RandomFreePosition(draw, grid, occupied) == Some(p)
  {
    var free := FreeCells(grid, occupied);
    FreeCellsMember(grid, occupied, p);
    var draw :| 0 <= draw < |free| && free[draw] == p;
    assert RandomFreePosition(draw, grid, occupied) == Some(p);
  }

  /** The occupied cells of column `x` from row `y` down. */
  ghost function OccupiedBelow(x: int, y: int, height: int, occupied: set<Position>): set<Position> {
    set p | p in occupied && p.x == x && y <= p.y < height
  }

  lemma OccupiedBelowSplits(x: int, y: int, height: int, occupied: set<Position>)
    requires y < height
    ensures |OccupiedBelow(x, y, height, occupied)|
         == (if Position(x, y) in occupied then 1 else 0) + |OccupiedBelow(x, y + 1, height, occupied)|
  {
    var below := OccupiedBelow(x, y + 1, height, occupied);
    if Position(x, y) in occupied {
      assert OccupiedBelow(x, y, height, occupied) == {Position(x, y)} + below;
    } else {
      assert OccupiedBelow(x, y, height, occupied) == below;
    }
  }

  lemma {:induction false} FreeInColumnCount(x: int, y: int, height: int, occupied: set<Position>)
    requires 0 <= y <= height
    ensures |FreeInColumn(x, y, height, occupied)| == height - y - |OccupiedBelow(x, y, height, occupied)|
    decreases height - y
  {
    if y == height {
      assert OccupiedBelow(x, y, height, occupied) == {};
    } else {
      OccupiedBelowSplits(x, y, height, occupied);
      FreeInColumnCount(x, y + 1, height, occupied);
    }
  }

  /** The occupied board cells from column `x` on. */
  ghost function OccupiedFrom(x: int, grid: Grid, occupied: set<Position>): set<Position> {
    set p | p in occupied && x <= p.x && grid.Contains(p)
  }

  lemma OccupiedFromSplits(x: int, grid: Grid, occupied: set<Position>)
    requires 0 <= x < grid.width
    ensures |OccupiedFrom(x, grid, occupied)|
         == |OccupiedBelow(x, 0, grid.height, occupied)| + |OccupiedFrom(x + 1, grid, occupied)|
  {
    assert OccupiedFrom(x, grid, occupied)
        == OccupiedBelow(x, 0, grid.height, occupied) + OccupiedFrom(x + 1, grid, occupied);
  }

  lemma {:induction false} FreeFromColumnCount(x: int, grid: Grid, occupied: set<Position>)
    requires 0 <= x <= grid.width && 0 <= grid.height
    ensures |FreeFromColumn(x, grid, occupied)|
         == CellsIn(grid.width - x, grid.height) - |OccupiedFrom(x, grid, occupied)|
    decreases grid.width - x
  {
    if x == grid.width {
      assert OccupiedFrom(x, grid, occupied) == {};
    } else {
      FreeInColumnCount(x, 0, grid.height, occupied);
      FreeFromColumnCount(x + 1, grid, occupied);
      OccupiedFromSplits(x, grid, occupied);
    }
  }

  /** Pigeonhole: cells that all lie on the board leave exactly the rest of the board free. */
  lemma FreeCellCount(grid: Grid, occupied: set<Position>)
    requires 0 <= grid.width && 0 <= grid.height
    requires forall p | p in occupied :: grid.Contains(p)
    ensures |FreeCells(grid, occupied)| == Area(grid) - |occupied|
  {
    FreeFromColumnCount(0, grid, occupied);
    assert occupied == OccupiedFrom(0, grid, occupied);
  }
}
