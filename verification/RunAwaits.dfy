/** Where a running simulation is suspended, and what its code does when it goes on. */
module RunAwaits {
  import opened Wrappers
  import opened GameRules
  import opened GameRuns
  import opened EpisodeRecord
  import opened GameEndings
  import opened Simulation
  import opened RunControl
  import Checkpoints

  /** The three checkpoints of a run. After a move the game goes on from the turns made so far. */
  datatype Place = BeforeEpisode(episode: int) | AfterMove(episode: int, log: Log) | BetweenEpisodes(episode: int)

  /** The awaits of a run: two while it starts, its checkpoints, and one when a game is over. */
  datatype Await =
    | Probed
    | Built
    | At(place: Place, point: Checkpoints.Point)
    | GameOver(episode: int, log: Log)

  /** The event loop goes on with the run, or its delay has run out; and the turns once a move has been made. */
  datatype Wake = Wake(timeOut: bool, log: Log)

  datatype Outcome =
    | Suspended(control: Control, at: Await)
    | Raises(control: Control)
    | Returns(control: Control)

  predicate AppliesDelay(place: Place) {
    !place.BeforeEpisode?
  }

  function CheckpointAt(place: Place, point: Checkpoints.Point, control: Control): Checkpoints.Checkpoint {
    Checkpoints.Checkpoint(control, point, AppliesDelay(place))
  }

  /** A checkpoint that has not returned has raised or is suspended. */
  function Settled(place: Place, c: Checkpoints.Checkpoint): Outcome {
    if c.point == Checkpoints.Raised then Raises(c.control) else Suspended(c.control, At(place, c.point))
  }

  function Enter(place: Place, control: Control): Outcome {
    Settled(place, Checkpoints.Proceed(Checkpoints.Entered(control, AppliesDelay(place))))
  }

  /** From a checkpoint that has returned to the next await: a move, or the next episode. */
  function PassOn(place: Place, control: Control, log: Log): Outcome {
    match place
    case BetweenEpisodes(e) => Enter(BeforeEpisode(e + 1), control)
    case _ =>
      if log.game.done then Suspended(control, GameOver(place.episode, log))
      else Enter(AfterMove(place.episode, log), control)
  }

  /** The code of a run from one await to the next, or to its end. */
  function Resumed(at: Await, control: Control, epochs: int, wake: Wake): Outcome {
    match at
    case Probed => Suspended(control, Built)
    case Built => if epochs < 1 then Returns(control) else Enter(BeforeEpisode(1), control)
    case At(place, point) =>
      if wake.timeOut then PassOn(place, control, wake.log)
      else
        var c := Checkpoints.Proceed(CheckpointAt(place, point, control));
        if c.point == Checkpoints.Returned then PassOn(place, c.control, wake.log) else Settled(place, c)
    case GameOver(e, _) => if e < epochs then Enter(BetweenEpisodes(e), control) else Returns(control)
  }

  /** The turns of a game of one episode, each a step by the rules. */
  ghost predicate OfEpisode(log: Log, config: SimulationConfig, e: int) {
    log.Turn? && log.Genuine() && log.game.config == GameOf(config, log.game.config.seed, e)
  }

  /** That is: its game is set up as the run is configured, under the number of the episode. */
  lemma EpisodeIsConfigured(log: Log, config: SimulationConfig, e: int)
    requires OfEpisode(log, config, e)
    ensures
      var setup := log.game.config;
      && setup.grid == config.grid && setup.initialLength == config.initialLength
      && setup.multiplier == config.multiplier && setup.rewards == config.rewards && setup.episodeId == e
  {
  }

  /** What a move adds: the first turn of a new game, or the next turn of the game that is being played. */
  ghost predicate TurnFits(place: Place, config: SimulationConfig, log: Log) {
    match place
    case BeforeEpisode(e) => OfEpisode(log, config, e) && log.before.Opening?
    case AfterMove(_, before) => log.Turn? && log.Genuine() && log.before == before
    case BetweenEpisodes(_) => true
  }

  /** The checkpoint returns, so that the code behind it is run. */
  predicate Leaves(at: Await, control: Control, wake: Wake) {
    && at.At?
    && (wake.timeOut || Checkpoints.Proceed(CheckpointAt(at.place, at.point, control)).point == Checkpoints.Returned)
  }

  /** A delay can run out whenever one is waited for; otherwise a sleeping checkpoint has to be woken. */
  predicate Ready(at: Await, control: Control, timeOut: bool) {
    if timeOut then at.At? && at.point.Delayed? else at.At? ==> !CheckpointAt(at.place, at.point, control).Asleep()
  }

  ghost predicate CanWake(at: Await, control: Control, config: SimulationConfig, wake: Wake) {
    && Ready(at, control, wake.timeOut)
    && (Leaves(at, control, wake) ==> TurnFits(at.place, config, wake.log))
  }

  /** Episodes are within range, their games are real, and no checkpoint has lost a wakeup. */
  ghost predicate WellPlaced(at: Await, control: Control, config: SimulationConfig) {
    match at
    case Probed => true
    case Built => true
    case At(place, point) =>
      && 1 <= place.episode <= config.epochs
      && (place.BetweenEpisodes? ==> place.episode < config.epochs)
      && (place.AfterMove? ==> OfEpisode(place.log, config, place.episode) && !place.log.game.done)
      && (point == Checkpoints.Blocked || point.Delayed? || point == Checkpoints.Yielding)
      && (point.Delayed? ==> AppliesDelay(place))
      && Checkpoints.NoLostWakeup(CheckpointAt(place, point, control))
    case GameOver(e, log) => 1 <= e <= config.epochs && OfEpisode(log, config, e) && log.game.done
  }

  /** How many episodes have been recorded at an await. */
  function Recorded(at: Await): int {
    match at
    case Probed => 0
    case Built => 0
    case At(place, _) => if place.BetweenEpisodes? then place.episode else place.episode - 1
    case GameOver(e, _) => e - 1
  }

  lemma EnterLeavesFlags(place: Place, control: Control)
    ensures
      var after := Enter(place, control).control;
      after == control.(changed := after.changed)
  {
  }

  /** A delay is waited for after moves and between episodes, but not before an episode. */
  lemma DelaysAreWaitedFor(place: Place, control: Control)
    requires !control.paused && !control.cancelRequested
    ensures Enter(place, control).Suspended?
    ensures Enter(place, control).at
         == At(place, if !place.BeforeEpisode? && 0 < control.moveDelay then Checkpoints.Delayed(control.moveDelay)
                      else Checkpoints.Yielding)
  {
  }

  /** Going on only clears the event; the flags and the delay are the operator's. */
  lemma ResumedLeavesFlags(at: Await, control: Control, epochs: int, wake: Wake)
    ensures
      var after := Resumed(at, control, epochs, wake).control;
      after == control.(changed := after.changed)
  {
    match at
    case Probed =>
    case Built => EnterLeavesFlags(BeforeEpisode(1), control);
    case At(place, point) =>
      var c := if wake.timeOut then control else Checkpoints.Proceed(CheckpointAt(place, point, control)).control;
      EnterLeavesFlags(BeforeEpisode(place.episode + 1), c);
      EnterLeavesFlags(AfterMove(place.episode, wake.log), c);
    case GameOver(e, _) => EnterLeavesFlags(BetweenEpisodes(e), control);
  }

  /** The next turn of a game is one of the same episode. */
  lemma NextTurnFits(place: Place, config: SimulationConfig, log: Log)
    requires TurnFits(place, config, log) && !place.BetweenEpisodes?
    requires place.AfterMove? ==> OfEpisode(place.log, config, place.episode)
    ensures OfEpisode(log, config, place.episode)
  {
    if place.AfterMove? {
      GenuineTurnKeeps(log);
    }
  }

  lemma EnterStaysPlaced(place: Place, control: Control, config: SimulationConfig)
    requires 1 <= place.episode <= config.epochs && (place.BetweenEpisodes? ==> place.episode < config.epochs)
    requires place.AfterMove? ==> OfEpisode(place.log, config, place.episode) && !place.log.game.done
    requires ValidDelay(control.moveDelay)
    ensures
      match Enter(place, control)
      case Suspended(after, next) => WellPlaced(next, after, config)
      case Raises(_) => control.cancelRequested
      case Returns(_) => false
  {
  }

  lemma PassOnStaysPlaced(place: Place, control: Control, config: SimulationConfig, log: Log)
    requires 1 <= place.episode <= config.epochs && (place.BetweenEpisodes? ==> place.episode < config.epochs)
    requires place.AfterMove? ==> OfEpisode(place.log, config, place.episode)
    requires TurnFits(place, config, log) && ValidDelay(control.moveDelay)
    ensures
      match PassOn(place, control, log)
      case Suspended(after, next) => WellPlaced(next, after, config)
      case Raises(_) => control.cancelRequested
      case Returns(_) => false
  {
    if place.BetweenEpisodes? {
      EnterStaysPlaced(BeforeEpisode(place.episode + 1), control, config);
    } else {
      NextTurnFits(place, config, log);
      if !log.game.done {
        EnterStaysPlaced(AfterMove(place.episode, log), control, config);
      }
    }
  }

  /** From one await a run comes to another, raises if it is cancelled, or returns behind its last episode. */
  lemma ResumedStaysPlaced(at: Await, control: Control, config: SimulationConfig, wake: Wake)
    requires WellPlaced(at, control, config) && CanWake(at, control, config, wake) && ValidDelay(control.moveDelay)
    ensures
      match Resumed(at, control, config.epochs, wake)
      case Suspended(after, next) => WellPlaced(next, after, config)
      case Raises(_) => control.cancelRequested
      case Returns(_) => if at.GameOver? then at.episode == config.epochs else at == Built && config.epochs < 1
  {
    match at
    case Probed =>
    case Built =>
      if 1 <= config.epochs {
        EnterStaysPlaced(BeforeEpisode(1), control, config);
      }
    case At(place, point) =>
      if Leaves(at, control, wake) {
        var c := if wake.timeOut then control else Checkpoints.Proceed(CheckpointAt(place, point, control)).control;
        PassOnStaysPlaced(place, c, config, wake.log);
      }
    case GameOver(e, _) =>
      if e < config.epochs {
        EnterStaysPlaced(BetweenEpisodes(e), control, config);
      }
  }

  /** Every await is reached with the episodes before it recorded, and a game that is over is recorded next. */
  lemma ResumedRecords(at: Await, control: Control, config: SimulationConfig, wake: Wake)
    requires WellPlaced(at, control, config) && CanWake(at, control, config, wake)
    ensures
      match Resumed(at, control, config.epochs, wake)
      case Suspended(_, next) => Recorded(next) == if at.GameOver? then at.episode else Recorded(at)
      case _ => true
  {
  }

  lemma OperateStaysPlaced(at: Await, control: Control, config: SimulationConfig, op: Operation)
    requires WellPlaced(at, control, config) && ValidDelay(control.moveDelay)
    ensures WellPlaced(at, Operate(control, op), config)
  {
  }

  // ---- Which flags can still be missed ----

  /**
   * The last checkpoint of the run lies behind it; or the run waits for a delay in its last episode on a board
   * where the next move can end the game.
   */
  predicate MayMiss(at: Await, epochs: int) {
    match at
    case Probed => epochs < 1
    case Built => epochs < 1
    case At(place, point) =>
      place.AfterMove? && place.episode == epochs && point.Delayed? && CanEndNext(place.log.game)
    case GameOver(e, _) => e == epochs
  }

  /** A turn that ends the game is one that the board before it allowed to end it. */
  lemma EndWasInSight(log: Log)
    requires log.Turn? && log.Genuine() && log.game.done
    ensures CanEndNext(log.before.game)
  {
    GenuineBefore(log);
    LogIsSound(log.before);
    CanEndNextExactly(log.before.game);
  }

  /** From anywhere else a run that is cancelled or paused does not return, nor come to where it might. */
  lemma FlagsAreSeen(at: Await, control: Control, config: SimulationConfig, wake: Wake)
    requires WellPlaced(at, control, config) && CanWake(at, control, config, wake) && !MayMiss(at, config.epochs)
    requires control.paused || control.cancelRequested
    ensures
      match Resumed(at, control, config.epochs, wake)
      case Suspended(_, next) => !MayMiss(next, config.epochs)
      case Raises(_) => control.cancelRequested
      case Returns(_) => false
  {
    if at.At? && at.place.AfterMove? && wake.timeOut && wake.log.game.done {
      EndWasInSight(wake.log);
    }
  }

  // ---- The coroutine ----

  /** How a stretch of the coroutine ends, apart from what it leaves in the controls. */
  datatype Ending = Waits(at: Await) | HasRaised | HasReturned

  function Left(ending: Ending, control: Control): Outcome {
    match ending
    case Waits(at) => Suspended(control, at)
    case HasRaised => Raises(control)
    case HasReturned => Returns(control)
  }

  /** What chance and the network contribute to one move: seed and first food of a new game, action, next food. */
  datatype Draws = Draws(seed: int, first: nat, action: int, next: nat)

  /** The move behind a checkpoint: in a new game, or in the one that is being played. */
  method MakeMove(place: Place, config: SimulationConfig, draws: Draws) returns (log: Log)
    requires Usable(config) && 1 <= place.episode && !place.BetweenEpisodes? && 0 <= draws.action <= 2
    requires place.AfterMove? ==> OfEpisode(place.log, config, place.episode) && !place.log.game.done
    ensures TurnFits(place, config, log)
    ensures log.game == StepGame(log.before.game, draws.action, draws.next)
  {
    var played;
    if place.BeforeEpisode? {
      GameIsAccepted(config, draws.seed, place.episode);
      played := Opening(NewGame(GameOf(config, draws.seed, place.episode), draws.first), draws.first);
      GenuineOpening(played);
    } else {
      played := place.log;
    }
    NextTurnIsGenuine(played, draws.action, draws.next, config.sequenceLength);
    log := NextTurn(played, draws.action, draws.next, config.sequenceLength);
    GenuineTurnKeeps(log);
  }

  method EnterCheckpoint(control: Checkpoints.SimulationControl, place: Place) returns (ending: Ending)
    modifies control
    ensures Left(ending, control.View()) == Enter(place, old(control.View()))
  {
    var point := control.CheckpointTurn(Checkpoints.Top, AppliesDelay(place));
    ending := if point == Checkpoints.Raised then HasRaised else Waits(At(place, point));
  }

  method LeaveCheckpoint(
    control: Checkpoints.SimulationControl, place: Place, config: SimulationConfig, draws: Draws)
    returns (ending: Ending, ghost log: Log)
    requires Usable(config) && 1 <= place.episode && 0 <= draws.action <= 2
    requires place.AfterMove? ==> OfEpisode(place.log, config, place.episode) && !place.log.game.done
    modifies control
    ensures TurnFits(place, config, log)
    ensures Left(ending, control.View()) == PassOn(place, old(control.View()), log)
  {
    if place.BetweenEpisodes? {
      log := *;
      ending := EnterCheckpoint(control, BeforeEpisode(place.episode + 1));
      return;
    }
    var turns := MakeMove(place, config, draws);
    log := turns;
    if turns.game.done {
      ending := Waits(GameOver(place.episode, turns));
    } else {
      ending := EnterCheckpoint(control, AfterMove(place.episode, turns));
    }
  }

  /** One stretch of a run between two awaits. Whether a move ends the game is the game's reply to it. */
  method Continue(
    control: Checkpoints.SimulationControl, at: Await, config: SimulationConfig, timeOut: bool, draws: Draws)
    returns (ending: Ending, ghost wake: Wake)
    requires Usable(config) && WellPlaced(at, control.View(), config) && 0 <= draws.action <= 2
    modifies control
    ensures wake.timeOut == timeOut
    ensures Leaves(at, old(control.View()), wake) ==> TurnFits(at.place, config, wake.log)
    ensures Left(ending, control.View()) == Resumed(at, old(control.View()), config.epochs, wake)
  {
    ghost var log: Log := *;
    match at {
      case Probed =>
        ending := Waits(Built);
      case Built =>
        if config.epochs < 1 {
          ending := HasReturned;
        } else {
          ending := EnterCheckpoint(control, BeforeEpisode(1));
        }
      case At(place, point) =>
        var next := Checkpoints.Returned;
        if !timeOut {
          next := control.CheckpointTurn(point, AppliesDelay(place));
        }
        if next == Checkpoints.Returned {
          ending, log := LeaveCheckpoint(control, place, config, draws);
        } else {
          ending := if next == Checkpoints.Raised then HasRaised else Waits(At(place, next));
        }
      case GameOver(e, _) =>
        if e >= config.epochs {
          ending := HasReturned;
        } else {
          ending := EnterCheckpoint(control, BetweenEpisodes(e));
        }
    }
    wake := Wake(timeOut, log);
  }
}
