/** Which configurations are accepted, and which of them the components can be built from. */
module Configurations {
  import opened Wrappers
  import opened Board
  import opened GameRules
  import opened GameRuns
  import opened ReplayBuffer
  import opened EpsilonSchedule
  import opened Simulation

  /** A JSON number, as the program holds it: an integer or a float. */
  datatype Number = Whole(n: int) | Float(r: real) {
    function Value(): real {
      match this
      case Whole(n) => n as real
      case Float(r) => r
    }
  }

  /** The numbers of a resolved configuration that the rules and the constructors look at. */
  datatype Resolved = Resolved(
    epochs: Number,
    width: Number,
    height: Number,
    initialLength: Number,
    multiplier: Number,
    sequenceLength: Number,
    batchSize: Number,
    replayMaxFrames: Number,
    hiddenSize: Number,
    layers: Number,
    initial: Number,
    minimum: Number,
    decay: Number)

  datatype RuleError = MinimumAboveInitial | LongerThanBoard | NoRoomForFood | ReplayTooSmall

  /** The rules across fields. They compare integers only when the values are held as integers. */
  function CrossRules(c: Resolved): Option<RuleError> {
    if c.minimum.Value() > c.initial.Value() then Some(RuleError.MinimumAboveInitial)
    else if c.initialLength.Whole? && c.width.Whole? && c.initialLength.n > c.width.n then Some(LongerThanBoard)
    else if c.initialLength.Whole? && c.width.Whole? && c.height.Whole? && c.initialLength.n >= c.width.n * c.height.n
    then Some(RuleError.NoRoomForFood)
    else if c.sequenceLength.Whole? && c.batchSize.Whole? && c.replayMaxFrames.Whole?
      && c.replayMaxFrames.n < c.sequenceLength.n * c.batchSize.n
    then Some(ReplayTooSmall)
    else None
  }

  /** The first rule that is broken is the one reported. A rule about sizes that are not held as integers is not. */
  lemma RulesRejectExactly(c: Resolved)
    ensures
      var r := CrossRules(c);
      var exceeds := c.initial.Value() < c.minimum.Value();
      var long := c.initialLength.Whole? && c.width.Whole? && c.width.n < c.initialLength.n;
      var full :=
        c.initialLength.Whole? && c.width.Whole? && c.height.Whole? && c.width.n * c.height.n <= c.initialLength.n;
      var small :=
        c.sequenceLength.Whole? && c.batchSize.Whole? && c.replayMaxFrames.Whole?
        && c.replayMaxFrames.n < c.sequenceLength.n * c.batchSize.n;
      && (r == Some(RuleError.MinimumAboveInitial) <==> exceeds)
      && (r == Some(LongerThanBoard) <==> !exceeds && long)
      && (r == Some(RuleError.NoRoomForFood) <==> !exceeds && !long && full)
      && (r == Some(ReplayTooSmall) <==> !exceeds && !long && !full && small)
      && (r == None <==> !exceeds && !long && !full && !small)
  {
  }

  /** What JSON Schema calls an integer: any number without a fraction. */
  predicate SchemaInteger(x: Number) {
    x.Whole? || x.r == x.r.Floor as real
  }

  /** An integer with the given value, however it is held. */
  predicate Constant(x: Number, value: int) {
    SchemaInteger(x) && x.Value() == value as real
  }

  predicate MultipleBetween(x: Number, step: int, least: int, most: int)
    requires 0 < step
  {
    SchemaInteger(x) && least as real <= x.Value() <= most as real && x.Value().Floor % step == 0
  }

  /** The numeric constraints of the version 2 schema. */
  predicate SchemaAccepts(c: Resolved) {
    && SchemaInteger(c.epochs)
    && Constant(c.width, 20)
    && Constant(c.height, 20)
    && Constant(c.initialLength, 3)
    && Constant(c.multiplier, 100)
    && MultipleBetween(c.sequenceLength, 4, 4, 48)
    && MultipleBetween(c.batchSize, 2, 8, 64)
    && Constant(c.replayMaxFrames, 100000)
    && MultipleBetween(c.hiddenSize, 16, 64, 384)
    && Constant(c.layers, 4)
    && 0.85 <= c.initial.Value() <= 0.999
    && c.minimum.Value() == 0.0
    && 0.9 <= c.decay.Value() <= 0.999
  }

  /** Signs and ranges that any sensible schema asks for, whatever its constants. */
  predicate InRange(c: Resolved) {
    && 0.0 < c.width.Value() && 0.0 < c.height.Value() && 0.0 < c.initialLength.Value() && 0.0 < c.multiplier.Value()
    && 0.0 < c.sequenceLength.Value() && 0.0 < c.batchSize.Value() && 0.0 < c.replayMaxFrames.Value()
    && 0.0 < c.hiddenSize.Value() && 0.0 < c.layers.Value()
    && Probability(c.initial.Value()) && Probability(c.minimum.Value())
    && 0.0 < c.decay.Value() <= 1.0
  }

  // ---- What a run builds ----

  /** The numbers that the game wants as integers are held as integers; likewise for the network and the replay. */
  predicate WholeGame(c: Resolved) {
    c.width.Whole? && c.height.Whole? && c.initialLength.Whole? && c.multiplier.Whole?
  }

  predicate WholeNetwork(c: Resolved) {
    c.hiddenSize.Whole? && c.layers.Whole?
  }

  predicate WholeReplay(c: Resolved) {
    c.sequenceLength.Whole? && c.batchSize.Whole? && c.replayMaxFrames.Whole?
  }

  predicate NetworkBuilds(c: Resolved) {
    WholeNetwork(c) && 0 < c.hiddenSize.n && 0 < c.layers.n
  }

  predicate ReplayBuilds(c: Resolved) {
    WholeReplay(c)
    && CheckSizes(OBSERVATION_SIZE, c.sequenceLength.n, c.batchSize.n, c.replayMaxFrames.n).None?
  }

  function EpsilonOf(c: Resolved): EpsilonConfig {
    EpsilonConfig(c.initial.Value(), c.minimum.Value(), c.decay.Value(), CUTOFF, ACTION_COUNT)
  }

  predicate EpsilonBuilds(c: Resolved) {
    CheckEpsilon(EpsilonOf(c)).None?
  }

  predicate GameBuilds(c: Resolved, rewards: Rewards) {
    WholeGame(c)
    && Accepted(GameConfig(0, Grid(c.width.n, c.height.n), c.initialLength.n, c.multiplier.n, rewards, 1))
  }

  /** All four constructors succeed. They refuse a float where they want an integer. */
  predicate Constructible(c: Resolved, rewards: Rewards) {
    NetworkBuilds(c) && ReplayBuilds(c) && EpsilonBuilds(c) && GameBuilds(c, rewards)
  }

  /** A run builds network, replay and epsilon, counts its episodes with `range`, and builds a game for each. */
  predicate Runs(c: Resolved, rewards: Rewards) {
    && NetworkBuilds(c) && ReplayBuilds(c) && EpsilonBuilds(c)
    && c.epochs.Whole?
    && (1 <= c.epochs.n ==> GameBuilds(c, rewards))
  }

  function ConfigOf(c: Resolved, rewards: Rewards): SimulationConfig
    requires c.epochs.Whole? && WholeGame(c) && WholeReplay(c)
  {
    SimulationConfig(
      c.epochs.n, Grid(c.width.n, c.height.n), c.initialLength.n, c.multiplier.n, rewards,
      c.sequenceLength.n, c.batchSize.n, c.replayMaxFrames.n, EpsilonOf(c))
  }

  /** Every number of the configuration arrives in its own place. */
  lemma ConfigIsCarriedOver(c: Resolved, rewards: Rewards)
    requires c.epochs.Whole? && WholeGame(c) && WholeReplay(c)
    ensures
      var s := ConfigOf(c, rewards);
      && Whole(s.epochs) == c.epochs && Whole(s.grid.width) == c.width && Whole(s.grid.height) == c.height
      && Whole(s.initialLength) == c.initialLength && Whole(s.multiplier) == c.multiplier && s.rewards == rewards
      && Whole(s.sequenceLength) == c.sequenceLength && Whole(s.batchSize) == c.batchSize
      && Whole(s.replayMaxFrames) == c.replayMaxFrames
      && s.epsilon.initial == c.initial.Value() && s.epsilon.minimum == c.minimum.Value()
      && s.epsilon.decay == c.decay.Value() && s.epsilon.cutoff == 0.001 && s.epsilon.actionCount == 3
  {
  }

  /** What can be built and counts its episodes in integers is what the simulator of this model takes. */
  lemma ConstructibleIsUsable(c: Resolved, rewards: Rewards)
    requires c.epochs.Whole? && WholeGame(c) && WholeReplay(c)
    ensures Usable(ConfigOf(c, rewards)) <==> ReplayBuilds(c) && EpsilonBuilds(c) && GameBuilds(c, rewards)
  {
  }

  /** For numbers held as integers the rules at submission are exactly the constructors' own conditions. */
  lemma RulesMeetConstructors(c: Resolved, rewards: Rewards)
    requires InRange(c)
    ensures Constructible(c, rewards)
       <==> CrossRules(c).None? && WholeGame(c) && WholeNetwork(c) && WholeReplay(c)
  {
    if WholeGame(c) {
      CellsInIsProduct(c.width.n, c.height.n);
    }
  }

  lemma WindowProduct(length: int, batch: int)
    requires 4 <= length <= 48 && 8 <= batch <= 64
    ensures length * batch <= 48 * 64
  {
    assert length * batch <= length * 64;
  }

  /** What the schema accepts is in range, and its constants leave the rules nothing to reject. */
  lemma SchemaImpliesRules(c: Resolved)
    requires SchemaAccepts(c)
    ensures InRange(c) && CrossRules(c).None?
  {
    if c.sequenceLength.Whole? && c.batchSize.Whole? {
      WindowProduct(c.sequenceLength.n, c.batchSize.n);
    }
  }

  /** An accepted configuration can be built exactly if the numbers that its constructors count with are integers. */
  lemma AcceptedIsConstructibleWhenWhole(c: Resolved, rewards: Rewards)
    requires SchemaAccepts(c) && CrossRules(c).None?
    ensures Constructible(c, rewards) <==> WholeGame(c) && WholeNetwork(c) && WholeReplay(c)
  {
    SchemaImpliesRules(c);
    RulesMeetConstructors(c, rewards);
  }

  /** The constants leave the game's own conditions nothing to refuse but floats. */
  lemma AcceptedGameBuildsWhenWhole(c: Resolved, rewards: Rewards)
    requires SchemaAccepts(c)
    ensures GameBuilds(c, rewards) <==> WholeGame(c)
  {
    if WholeGame(c) {
      CellsInIsProduct(c.width.n, c.height.n);
    }
  }

  lemma AcceptedPartsBuildWhenWhole(c: Resolved)
    requires SchemaAccepts(c)
    ensures NetworkBuilds(c) <==> WholeNetwork(c)
    ensures ReplayBuilds(c) <==> WholeReplay(c)
    ensures EpsilonBuilds(c)
  {
    if WholeReplay(c) {
      WindowProduct(c.sequenceLength.n, c.batchSize.n);
    }
  }

  /**
   * An accepted configuration runs exactly if epochs, network and replay are given in integers and, when there is
   * an episode to play, the board and the snake as well. Rewards and the seed may be floats.
   */
  lemma AcceptedRunsExactlyWhenWhole(c: Resolved, rewards: Rewards)
    requires SchemaAccepts(c) && CrossRules(c).None?
    ensures Runs(c, rewards)
       <==> c.epochs.Whole? && WholeNetwork(c) && WholeReplay(c) && (1 <= c.epochs.n ==> WholeGame(c))
  {
    AcceptedPartsBuildWhenWhole(c);
    AcceptedGameBuildsWhenWhole(c, rewards);
  }

  /** The version 2 defaults. */
  const DEFAULTS :=
    Resolved(
      Whole(500), Whole(20), Whole(20), Whole(3), Whole(100), Whole(8), Whole(24), Whole(100000),
      Whole(224), Whole(4), Float(0.96), Float(0.0), Float(0.97))

  /** Which values the schema takes for each number, the others being the defaults. */
  lemma SchemaBounds(x: Number)
    ensures SchemaAccepts(DEFAULTS)
    ensures SchemaAccepts(DEFAULTS.(epochs := x)) <==> SchemaInteger(x)
    ensures SchemaAccepts(DEFAULTS.(width := x)) <==> x.Value() == 20.0
    ensures SchemaAccepts(DEFAULTS.(height := x)) <==> x.Value() == 20.0
    ensures SchemaAccepts(DEFAULTS.(initialLength := x)) <==> x.Value() == 3.0
    ensures SchemaAccepts(DEFAULTS.(multiplier := x)) <==> x.Value() == 100.0
    ensures SchemaAccepts(DEFAULTS.(replayMaxFrames := x)) <==> x.Value() == 100000.0
    ensures SchemaAccepts(DEFAULTS.(layers := x)) <==> x.Value() == 4.0
    ensures SchemaAccepts(DEFAULTS.(sequenceLength := x)) <==> SchemaInteger(x) && x.Value().Floor in {
              4, 8, 12, 16, 20, 24, 28, 32, 36, 40, 44, 48}
    ensures SchemaAccepts(DEFAULTS.(batchSize := x))
       <==> SchemaInteger(x) && 8 <= x.Value().Floor <= 64 && x.Value().Floor % 2 == 0
    ensures SchemaAccepts(DEFAULTS.(hiddenSize := x))
       <==> SchemaInteger(x) && 64 <= x.Value().Floor <= 384 && x.Value().Floor % 16 == 0
    ensures SchemaAccepts(DEFAULTS.(initial := x)) <==> 0.85 <= x.Value() <= 0.999
    ensures SchemaAccepts(DEFAULTS.(minimum := x)) <==> x.Value() == 0.0
    ensures SchemaAccepts(DEFAULTS.(decay := x)) <==> 0.9 <= x.Value() <= 0.999
  {
  }

  /** Acceptance alone does not promise a run: the defaults do run, but not with any one of these as a float. */
  lemma FloatIsAcceptedButDoesNotRun(c: Resolved, rewards: Rewards)
    requires c in {
      DEFAULTS.(epochs := Float(500.0)), DEFAULTS.(width := Float(20.0)), DEFAULTS.(height := Float(20.0)),
      DEFAULTS.(initialLength := Float(3.0)), DEFAULTS.(multiplier := Float(100.0)),
      DEFAULTS.(sequenceLength := Float(8.0)), DEFAULTS.(batchSize := Float(24.0)),
      DEFAULTS.(replayMaxFrames := Float(100000.0)),
      DEFAULTS.(hiddenSize := Float(224.0)), DEFAULTS.(layers := Float(4.0))}
    ensures SchemaAccepts(c) && CrossRules(c).None? && !Runs(c, rewards)
    ensures SchemaAccepts(DEFAULTS) && CrossRules(DEFAULTS).None? && Runs(DEFAULTS, rewards)
  {
    SchemaImpliesRules(DEFAULTS);
    SchemaImpliesRules(c);
    AcceptedRunsExactlyWhenWhole(DEFAULTS, rewards);
    AcceptedRunsExactlyWhenWhole(c, rewards);
  }
}
