/** When a snake is always as long as it started plus what it has eaten. */
module GameLength {
  import opened Wrappers
  import opened Board
  import opened GameRules
  import opened GameInvariants
  import opened GameRuns

  predicate Law(g: Game) {
    g.state.Length() == g.config.initialLength + g.state.score
  }

  /** The law holds of a configuration if it holds in every state that its games can reach. */
  ghost predicate AlwaysLaw(c: GameConfig)
    requires Accepted(c)
  {
    forall draw: nat, calls: seq<Call> :: Law(Play(NewGame(c, draw), calls))
  }

  // ---- A board of two cells ----

  /** On two cells a snake cannot glide: the one other cell has the food. */
  lemma NoGlideOnTwoCells(s: GameState, action: Action, rewards: Rewards)
    requires Sound(s) && s.food.Some? && Area(s.grid) == 2
    ensures WouldCollide(s, action) || Some(NewHead(s, action)) == s.food
  {
    if !WouldCollide(s, action) && Some(NewHead(s, action)) != s.food {
      GlideKeepsSound(s, action, rewards);
      FoodNeedsRoom(s);
      FoodNeedsRoom(Glide(s, action, rewards).newState);
      assert false;
    }
  }

  lemma TwoCellStepKeepsLaw(g: Game, index: int, draw: nat)
    requires SoundGame(g) && Area(g.config.grid) == 2 && Law(g)
    ensures Law(StepGame(g, index, draw))
  {
    if StepReply(g, index, draw).Ok? {
      var action := NormalizeAction(index).value;
      MoveCases(g.state, action, g.config.rewards, g.config.multiplier, draw);
      NoGlideOnTwoCells(g.state, action, g.config.rewards);
    }
  }

  lemma {:induction false} TwoCellPlaysKeepLaw(g: Game, calls: seq<Call>)
    requires SoundGame(g) && Area(g.config.grid) == 2 && Law(g)
    ensures Law(Play(g, calls))
    decreases |calls|
  {
    if calls != [] {
      ApplyKeepsSoundGame(g, calls[0]);
      if calls[0].DoStep? {
        TwoCellStepKeepsLaw(g, calls[0].index, calls[0].draw);
      }
      TwoCellPlaysKeepLaw(Apply(g, calls[0]), calls[1..]);
    }
  }

  // ---- Any larger board ----

  /** A first action of a one-cell snake that keeps it on a board of three cells or more. */
  function FirstAction(c: GameConfig): Action {
    if 2 <= c.grid.height then Left else Straight
  }

  function FirstCell(c: GameConfig): Position {
    if 2 <= c.grid.height then Position(StartHead(c).x, StartHead(c).y - 1)
    else Position(StartHead(c).x + 1, StartHead(c).y)
  }

  /** A third cell, for the food. */
  function ThirdCell(c: GameConfig): Position {
    if 3 <= c.grid.height then Position(StartHead(c).x, StartHead(c).y + 1)
    else Position(StartHead(c).x - 1, StartHead(c).y)
  }

  lemma RoomForThree(c: GameConfig)
    requires Accepted(c) && c.initialLength == 1 && Area(c.grid) != 2
    ensures c.grid.Contains(FirstCell(c)) && c.grid.Contains(ThirdCell(c))
    ensures FirstCell(c) != StartHead(c) && ThirdCell(c) != StartHead(c) && FirstCell(c) != ThirdCell(c)
  {
    CellsInIsProduct(c.grid.width, c.grid.height);
    assert c.grid.height == 1 ==> c.grid.width * c.grid.height == c.grid.width;
    assert c.grid.width == 1 ==> c.grid.width * c.grid.height == c.grid.height;
  }

  lemma FirstActionGlides(c: GameConfig, draw: nat)
    requires Accepted(c) && c.initialLength == 1 && Area(c.grid) != 2
    requires StartFood(c, draw) == Some(ThirdCell(c))
    ensures
      var s := NewState(c, c.episodeId, draw);
      && s.body == [] && s.score == 0
      && Move(s, FirstAction(c), c.rewards, c.multiplier, 0) == Glide(s, FirstAction(c), c.rewards)
  {
    var s := NewState(c, c.episodeId, draw);
    RoomForThree(c);
    assert s.body == [];
    assert Budget(c.multiplier, 1) == c.multiplier + Budget(c.multiplier, 0);
    assert NewHead(s, FirstAction(c)) == FirstCell(c);
  }

  /** With its food elsewhere, a one-cell snake that glides once is one cell too long. */
  lemma OneGlideBreaksLaw(c: GameConfig, draw: nat, calls: seq<Call>)
    requires Accepted(c) && c.initialLength == 1 && Area(c.grid) != 2
    requires StartFood(c, draw) == Some(ThirdCell(c))
    requires calls == [DoStep(if 2 <= c.grid.height then 0 else 1, 0)]
    ensures !Law(Play(NewGame(c, draw), calls))
  {
    var g := NewGame(c, draw);
    FirstActionGlides(c, draw);
    GlideGrowsOnlyASingleCell(g.state, FirstAction(c), c.rewards);
    assert calls[1..] == [];
    assert Play(Apply(g, calls[0]), []) == Apply(g, calls[0]);
  }

  lemma LawCanBreak(c: GameConfig)
    requires Accepted(c) && c.initialLength == 1 && Area(c.grid) != 2
    ensures !AlwaysLaw(c)
  {
    var occupied := Occupied([StartHead(c)] + StartBody(c));
    RoomForThree(c);
    EveryFreeCellCanBeDrawn(c.grid, occupied, ThirdCell(c));
    var draw: nat :| RandomFreePosition(draw, c.grid, occupied) == Some(ThirdCell(c));
    OneGlideBreaksLaw(c, draw, [DoStep(if 2 <= c.grid.height then 0 else 1, 0)]);
  }

  /**
   * In every reachable state the snake is as long as it started plus its score, exactly if it starts with two
   * cells or more, or the board has only two.
   */
  lemma LengthLawHoldsExactly(c: GameConfig)
    requires Accepted(c)
    ensures AlwaysLaw(c) <==> c.initialLength != 1 || Area(c.grid) == 2
  {
    if c.initialLength == 1 && Area(c.grid) != 2 {
      LawCanBreak(c);
    } else {
      forall draw: nat, calls: seq<Call> ensures Law(Play(NewGame(c, draw), calls)) {
        EveryPlayIsSound(c, draw, calls);
        if c.initialLength == 1 {
          NewStateIsSoundGame(c, c.episodeId, draw);
          TwoCellPlaysKeepLaw(NewGame(c, draw), calls);
        }
      }
    }
  }
}
