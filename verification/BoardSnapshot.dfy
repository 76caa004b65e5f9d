/** JSON documents as values. */
module JsonValues {
  datatype Json =
    | JNull
    | JBool(truth: bool)
    | JInt(n: int)
    | JReal(r: real)
    | JString(text: string)
    | JArray(items: seq<Json>)
    | JObject(fields: map<string, Json>)
}

/** Boards as JSON documents and back. */
module BoardSnapshots {
  import opened Wrappers
  import opened Board
  import opened JsonValues

  datatype BoardSnapshot = BoardSnapshot(
    grid: Grid,
    head: Position,
    body: seq<Position>,
    food: Option<Position>,
    direction: (int, int),
    score: int)

  datatype BoardError =
    | NotAnObject
    | WrongFields
    | BadCoordinate(name: string)
    | GridNotPositive
    | BodyNotAnArray
    | BadScore

  const BOARD_FIELDS: set<string> := {"grid_size", "snake_head", "snake_body", "food", "direction", "score"}

  function FromGameState(s: GameState): BoardSnapshot {
    BoardSnapshot(s.grid, s.head, s.body, s.food, (s.direction.dx(), s.direction.dy()), s.score)
  }

  /** The snapshot has the board's grid, snake, food, heading and score, each in its own field. */
  lemma SnapshotKeepsBoard(s: GameState)
    ensures
      var b := FromGameState(s);
      && b.grid.width == s.grid.width && b.grid.height == s.grid.height
      && [b.head] + b.body == s.Cells() && b.food == s.food && b.score == s.score
      && Advance(s.head, s.direction) == Position(s.head.x + b.direction.0, s.head.y + b.direction.1)
  {
  }

  function Pair(x: int, y: int): Json {
    JArray([JInt(x), JInt(y)])
  }

  function PositionDict(p: Position): Json {
    Pair(p.x, p.y)
  }

  function ToDict(b: BoardSnapshot): Json {
    JObject(map[
      "grid_size" := Pair(b.grid.width, b.grid.height),
      "snake_head" := PositionDict(b.head),
      "snake_body" := JArray(Map(PositionDict, b.body)),
      "food" := if b.food.Some? then PositionDict(b.food.value) else JNull,
      "direction" := Pair(b.direction.0, b.direction.1),
      "score" := JInt(b.score)])
  }

  /** The document has six fields; positions, the size and the heading are lists of two integers. */
  lemma DocumentSpelledOut(b: BoardSnapshot, i: nat)
    ensures
      var fields := ToDict(b).fields;
      && fields.Keys == {"grid_size", "snake_head", "snake_body", "food", "direction", "score"}
      && fields["grid_size"] == JArray([JInt(b.grid.width), JInt(b.grid.height)])
      && fields["snake_head"] == JArray([JInt(b.head.x), JInt(b.head.y)])
      && fields["snake_body"].JArray? && |fields["snake_body"].items| == |b.body|
      && (i < |b.body| ==> fields["snake_body"].items[i] == JArray([JInt(b.body[i].x), JInt(b.body[i].y)]))
      && fields["food"] == (if b.food.None? then JNull else JArray([JInt(b.food.value.x), JInt(b.food.value.y)]))
      && fields["direction"] == JArray([JInt(b.direction.0), JInt(b.direction.1)])
      && fields["score"] == JInt(b.score)
  {
  }

  /** A list of exactly two integers. */
  function Coordinate(value: Json, name: string): Result<Position, BoardError> {
    if value.JArray? && |value.items| == 2 && value.items[0].JInt? && value.items[1].JInt?
    then Ok(Position(value.items[0].n, value.items[1].n))
    else Err(BadCoordinate(name))
  }

  /** The body positions, or the first error among them. */
  function Coordinates(items: seq<Json>, name: string): Result<seq<Position>, BoardError> {
    if items == [] then Ok([])
    else
      match Coordinate(items[0], name)
      case Err(e) => Err(e)
      case Ok(p) =>
        match Coordinates(items[1..], name)
        case Err(e) => Err(e)
        case Ok(rest) => Ok([p] + rest)
  }

  function FoodOf(value: Json): Result<Option<Position>, BoardError> {
    if value.JNull? then Ok(None)
    else
      match Coordinate(value, "food")
      case Err(e) => Err(e)
      case Ok(p) => Ok(Some(p))
  }

  /** Decode a document, with the checks in the order they are made. */
  function FromDict(data: Json): Result<BoardSnapshot, BoardError> {
    if !data.JObject? then Err(NotAnObject)
    else if data.fields.Keys != BOARD_FIELDS then Err(WrongFields)
    else
      var size := Coordinate(data.fields["grid_size"], "grid_size");
      if size.Err? then Err(size.error)
      else if size.value.x <= 0 || size.value.y <= 0 then Err(GridNotPositive)
      else if !data.fields["snake_body"].JArray? then Err(BodyNotAnArray)
      else
        var body := Coordinates(data.fields["snake_body"].items, "snake_body position");
        var food := FoodOf(data.fields["food"]);
        var score := data.fields["score"];
        var head := Coordinate(data.fields["snake_head"], "snake_head");
        var direction := Coordinate(data.fields["direction"], "direction");
        if body.Err? then Err(body.error)
        else if food.Err? then Err(food.error)
        else if !score.JInt? || score.n < 0 then Err(BadScore)
        else if head.Err? then Err(head.error)
        else if direction.Err? then Err(direction.error)
        else Ok(BoardSnapshot(
          Grid(size.value.x, size.value.y),
          head.value,
          body.value,
          food.value,
          (direction.value.x, direction.value.y),
          score.n))
  }

  lemma {:induction false} CoordinatesOfDicts(ps: seq<Position>, name: string)
    ensures Coordinates(Map(PositionDict, ps), name) == Ok(ps)
  {
    if ps != [] {
      CoordinatesOfDicts(ps[1..], name);
      assert Map(PositionDict, ps)[1..] == Map(PositionDict, ps[1..]);
      assert ps == [ps[0]] + ps[1..];
    }
  }

  lemma CoordinateIsPair(value: Json, name: string)
    requires Coordinate(value, name).Ok?
    ensures PositionDict(Coordinate(value, name).value) == value
  {
    assert value.items == [value.items[0], value.items[1]];
  }

  lemma {:induction false} DictsOfCoordinates(items: seq<Json>, name: string)
    requires Coordinates(items, name).Ok?
    ensures Map(PositionDict, Coordinates(items, name).value) == items
  {
    if items != [] {
      DictsOfCoordinates(items[1..], name);
      var p, rest := Coordinate(items[0], name).value, Coordinates(items[1..], name).value;
      CoordinateIsPair(items[0], name);
      assert Map(PositionDict, [p] + rest) == [PositionDict(p)] + Map(PositionDict, rest);
    }
  }

  // ---- Which documents are refused ----

  ghost predicate IsPair(value: Json) {
    exists x, y :: value == Pair(x, y)
  }

  lemma PairsAreCoordinates(value: Json, name: string)
    ensures Coordinate(value, name).Ok? <==> IsPair(value)
    ensures Coordinate(value, name).Err? ==> Coordinate(value, name).error == BadCoordinate(name)
  {
    if Coordinate(value, name).Ok? {
      CoordinateIsPair(value, name);
      var p := Coordinate(value, name).value;
      assert value == Pair(p.x, p.y);
    }
  }

  lemma {:induction false} ListsOfPairs(items: seq<Json>, name: string)
    ensures Coordinates(items, name).Ok? <==> forall item | item in items :: IsPair(item)
    ensures Coordinates(items, name).Err? ==> Coordinates(items, name).error == BadCoordinate(name)
  {
    if items != [] {
      PairsAreCoordinates(items[0], name);
      ListsOfPairs(items[1..], name);
      assert items == [items[0]] + items[1..];
    }
  }

  /** A document that is no object with the six fields, or fails one of eight checks, is refused by the first one. */
  lemma DocumentIsRefusedExactly(data: Json)
    ensures
      (if FromDict(data).Err? then Some(FromDict(data).error) else None)
      == if !data.JObject? then Some(NotAnObject)
         else if data.fields.Keys != BOARD_FIELDS then Some(WrongFields)
         else
           var f := data.fields;
           if !IsPair(f["grid_size"]) then Some(BadCoordinate("grid_size"))
           else if !exists x, y :: 0 < x && 0 < y && f["grid_size"] == Pair(x, y) then Some(GridNotPositive)
           else if !f["snake_body"].JArray? then Some(BodyNotAnArray)
           else if exists item | item in f["snake_body"].items :: !IsPair(item) then
             Some(BadCoordinate("snake_body position"))
           else if f["food"] != JNull && !IsPair(f["food"]) then Some(BadCoordinate("food"))
           else if !exists n: nat :: f["score"] == JInt(n) then Some(BadScore)
           else if !IsPair(f["snake_head"]) then Some(BadCoordinate("snake_head"))
           else if !IsPair(f["direction"]) then Some(BadCoordinate("direction"))
           else None
  {
    if data.JObject? && data.fields.Keys == BOARD_FIELDS {
      var f := data.fields;
      PairsAreCoordinates(f["grid_size"], "grid_size");
      PairsAreCoordinates(f["food"], "food");
      PairsAreCoordinates(f["snake_head"], "snake_head");
      PairsAreCoordinates(f["direction"], "direction");
      if f["snake_body"].JArray? {
        ListsOfPairs(f["snake_body"].items, "snake_body position");
      }
      if IsPair(f["grid_size"]) {
        var x, y :| f["grid_size"] == Pair(x, y);
        assert Coordinate(f["grid_size"], "grid_size") == Ok(Position(x, y));
      }
    }
  }

  /** Encoding and decoding returns the same board, exactly when its size is positive and its score not negative. */
  lemma DecodeOfEncode(b: BoardSnapshot)
    ensures FromDict(ToDict(b)) == Ok(b) <==> 0 < b.grid.width && 0 < b.grid.height && 0 <= b.score
  {
    CoordinatesOfDicts(b.body, "snake_body position");
    assert ToDict(b).fields.Keys == BOARD_FIELDS;
  }

  /** Nothing but an encoding is accepted: what decodes is the encoding of the result. */
  lemma EncodeOfDecode(data: Json)
    requires FromDict(data).Ok?
    ensures ToDict(FromDict(data).value) == data
  {
    var b := FromDict(data).value;
    DictsOfCoordinates(data.fields["snake_body"].items, "snake_body position");
    CoordinateIsPair(data.fields["grid_size"], "grid_size");
    CoordinateIsPair(data.fields["snake_head"], "snake_head");
    CoordinateIsPair(data.fields["direction"], "direction");
    if b.food.Some? {
      CoordinateIsPair(data.fields["food"], "food");
    }
    assert ToDict(b).fields.Keys == data.fields.Keys;
    assert forall f | f in BOARD_FIELDS :: ToDict(b).fields[f] == data.fields[f];
    assert ToDict(b).fields == data.fields;
  }
}
