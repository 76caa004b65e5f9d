/** How the run that the worker executes ends, by where it stands when a request reaches it. */
module RunEndings {
  import opened Wrappers
  import opened RunControl
  import opened RunAwaits
  import opened GameRuns
  import opened EpisodeRecord
  import opened GameEndings
  import Simulation
  import Board
  import GameRules
  import GameShaping
  import opened ServerProtocol
  import opened ServerInvariants
  import opened ServerRuns
  import opened ServerTheorems
  import Checkpoints

  // ---- A cancel or a pause that will be seen ----

  predicate Resumes(step: Step, id: RunId) {
    step.DoResume? && step.id == id
  }

  predicate Unresumed(steps: seq<Step>, id: RunId) {
    forall step | step in steps :: !Resumes(step, id)
  }

  /** The run has been cancelled or paused where its code still has to look, or it has ended otherwise. */
  predicate WillSee(s: Server, id: RunId) {
    && id in s.runs
    && (if Terminal(s.runs[id].state) then s.runs[id].state != Completed
        else
          && s.runs[id].state in {Paused, Cancelling}
          && s.worker == Executing(id) && !MayMiss(s.at, s.runs[id].config.epochs))
  }

  /** The executed run before and after a step that does not let it go on: it stays where it is, or is stopped. */
  predicate StaysOrStops(s: Server, t: Server, id: RunId) {
    && id in s.runs && id in t.runs && t.runs[id].config == s.runs[id].config
    && (if Terminal(t.runs[id].state) then t.runs[id].state != Completed
        else
          && t.worker == Executing(id) && t.at == s.at && Active(t.runs[id].state)
          && (s.runs[id].state == Cancelling ==> t.runs[id].state == Cancelling))
  }

  lemma RequestLeavesPlace(s: Server, step: Step, id: RunId)
    requires Enabled(s, step) && s.worker == Executing(id) && id in s.runs && Active(s.runs[id].state)
    requires IsRequest(step)
    ensures StaysOrStops(s, Next(s, step), id) && !Terminal(Next(s, step).runs[id].state)
    ensures s.runs[id].state == Paused && !Resumes(step, id) && step != DoCancel(id, true) && FailureFree(step)
         ==> Next(s, step).runs[id].state == Paused
  {
  }

  lemma OthersLeavePlace(s: Server, step: Step, id: RunId)
    requires Enabled(s, step) && s.worker == Executing(id) && id in s.runs && Active(s.runs[id].state)
    requires !IsRequest(step) && !step.DoGoOn? && Staffed(s)
    ensures StaysOrStops(s, Next(s, step), id)
    ensures Next(s, step).runs[id].state
         == if step.DoRaiseError? then Failed else if step.DoInterrupt? then Cancelled else s.runs[id].state
  {
  }

  lemma SeenWhileStanding(s: Server, step: Step, id: RunId)
    requires Enabled(s, step) && !step.DoGoOn? && Staffed(s) && WillSee(s, id) && !Terminal(s.runs[id].state)
    requires s.runs[id].state == Paused ==> !Resumes(step, id)
    ensures WillSee(Next(s, step), id)
  {
    if IsRequest(step) {
      RequestLeavesPlace(s, step, id);
    } else {
      OthersLeavePlace(s, step, id);
    }
  }

  lemma SeenGoingOn(s: Server, step: Step, id: RunId)
    requires Enabled(s, step) && step.DoGoOn? && Placed(s)
    requires WillSee(s, id) && s.worker == Executing(id) && !Terminal(s.runs[id].state) && Steady(s.runs[id])
    ensures WillSee(Next(s, step), id)
  {
    FlagsAreSeen(s.at, s.runs[id].control, s.runs[id].config, step.wake);
  }

  lemma WillSeeStays(s: Server, step: Step, id: RunId)
    requires Enabled(s, step) && WillSee(s, id)
    requires Waiting(s.line, s.runs) && FlowOk(s.runs, s.worker) && Placed(s) && Staffed(s)
    requires s.runs[id].state == Paused ==> !Resumes(step, id)
    ensures WillSee(Next(s, step), id)
  {
    if Terminal(s.runs[id].state) {
      TerminalStays(s, step, id);
    } else if step.DoGoOn? {
      SeenGoingOn(s, step, id);
    } else {
      SeenWhileStanding(s, step, id);
    }
  }

  /** Such a run never completes, whatever fails and whoever stops the server. */
  lemma {:induction false} SeenRunNeverCompletes(s: Server, steps: seq<Step>, id: RunId)
    requires Reachable(s) && Legal(s, steps) && WillSee(s, id)
    requires s.runs[id].state == Paused ==> Unresumed(steps, id)
    ensures WillSee(After(s, steps), id)
    decreases |steps|
  {
    ReachableIsSafe(s);
    if steps != [] {
      assert steps[0] in steps;
      assert forall step | step in steps[1..] :: step in steps;
      WillSeeStays(s, steps[0], id);
      ReachableGoesOn(s, steps[0]);
      PausedBefore(s, steps[0], id);
      SeenRunNeverCompletes(Next(s, steps[0]), steps[1..], id);
    }
  }

  /** A run that is being cancelled is not paused any more. */
  lemma PausedBefore(s: Server, step: Step, id: RunId)
    requires Enabled(s, step) && WillSee(s, id) && Waiting(s.line, s.runs) && FlowOk(s.runs, s.worker)
    ensures id in Next(s, step).runs && (Next(s, step).runs[id].state == Paused ==> s.runs[id].state == Paused)
  {
    StepsFollowLifecycle(s, step, id);
  }

  // ---- A cancel or a pause that can be missed ----

  lemma OneStep(s: Server, step: Step)
    requires Enabled(s, step)
    ensures Legal(s, [step]) && After(s, [step]) == Next(s, step)
  {
    assert [step][1..] == [];
  }

  lemma TwoSteps(s: Server, first: Step, second: Step)
    requires Enabled(s, first) && Enabled(Next(s, first), second)
    ensures Legal(s, [first, second]) && After(s, [first, second]) == Next(Next(s, first), second)
  {
    assert [first, second][1..] == [second];
    OneStep(Next(s, first), second);
  }

  predicate Ends(s: Server, id: RunId, state: RunState) {
    id in s.runs && s.runs[id].state == state
  }

  function Turn(log: Log): Step {
    DoGoOn(Wake(false, log), true, true)
  }

  lemma EndOfRunCompletes(s: Server, id: RunId, any: Log)
    requires s.phase == Serving && s.worker == Executing(id) && id in s.runs
    requires s.at.GameOver? && s.at.episode == s.runs[id].config.epochs
    ensures Enabled(s, Turn(any)) && Ends(Next(s, Turn(any)), id, Completed)
  {
  }

  lemma NoEpisodesCompletes(s: Server, id: RunId, any: Log) returns (steps: seq<Step>)
    requires s.phase == Serving && s.worker == Executing(id) && id in s.runs
    requires (s.at == Probed || s.at == Built) && s.runs[id].config.epochs < 1
    ensures Legal(s, steps) && Ends(After(s, steps), id, Completed) && Unresumed(steps, id)
  {
    if s.at == Built {
      OneStep(s, Turn(any));
      steps := [Turn(any)];
    } else {
      TwoSteps(s, Turn(any), Turn(any));
      steps := [Turn(any), Turn(any)];
    }
  }

  /** The delay runs out, the move behind it ends the game, and no checkpoint is left. */
  lemma DelayCompletes(s: Server, id: RunId, log: Log)
    requires s.phase == Serving && s.worker == Executing(id) && id in s.runs
    requires s.at.At? && s.at.place.AfterMove? && s.at.point.Delayed?
    requires s.at.place.episode == s.runs[id].config.epochs
    requires TurnFits(s.at.place, s.runs[id].config, log) && log.game.done
    ensures
      var steps := [DoGoOn(Wake(true, log), true, true), Turn(log)];
      Legal(s, steps) && Ends(After(s, steps), id, Completed)
  {
    var over := DoGoOn(Wake(true, log), true, true);
    EndOfRunCompletes(Next(s, over), id, log);
    TwoSteps(s, over, Turn(log));
  }

  /** A board that lets the next move end the game has such a turn. */
  lemma EndingTurn(log: Log, length: nat) returns (longer: Log)
    requires log.Genuine() && !log.game.done && CanEndNext(log.game)
    ensures longer.Turn? && longer.Genuine() && longer.before == log && longer.game.done
  {
    var action, g := EndingAction(log.game), log.game;
    NextTurnIsGenuine(log, action, 0, length);
    LogIsSound(log);
    ActionEndsExactly(
      g.state, GameRules.NormalizeAction(action).value, g.config.rewards, g.config.multiplier, 0);
    longer := NextTurn(log, action, 0, length);
  }

  /** From where a flag can be missed, the run can go past the last checkpoint. */
  lemma WayOutCompletes(s: Server, id: RunId) returns (steps: seq<Step>)
    requires s.phase == Serving && s.worker == Executing(id) && id in s.runs && Placed(s)
    requires MayMiss(s.at, s.runs[id].config.epochs)
    ensures Legal(s, steps) && Ends(After(s, steps), id, Completed) && Unresumed(steps, id)
  {
    var any: Log := *;
    if s.at.GameOver? {
      EndOfRunCompletes(s, id, any);
      OneStep(s, Turn(any));
      steps := [Turn(any)];
    } else if s.at.At? {
      var log := EndingTurn(s.at.place.log, 1);
      DelayCompletes(s, id, log);
      steps := [DoGoOn(Wake(true, log), true, true), Turn(log)];
    } else {
      steps := NoEpisodesCompletes(s, id, any);
    }
  }

  /** Some schedule completes the run, without resuming it if it is paused. */
  ghost predicate CanComplete(s: Server, id: RunId) {
    exists steps ::
      && Legal(s, steps) && Ends(After(s, steps), id, Completed)
      && (id in s.runs && s.runs[id].state == Paused ==> Unresumed(steps, id))
  }

  /** A run that has been cancelled or paused can complete exactly if it stands where its last checkpoint is past. */
  lemma FlaggedRunCompletesExactlyIfMissed(s: Server, id: RunId)
    requires Reachable(s) && s.phase == Serving && s.worker == Executing(id)
    requires id in s.runs && s.runs[id].state in {Paused, Cancelling}
    ensures CanComplete(s, id) <==> MayMiss(s.at, s.runs[id].config.epochs)
  {
    ReachableIsSafe(s);
    if MayMiss(s.at, s.runs[id].config.epochs) {
      var steps := WayOutCompletes(s, id);
    }
    forall steps |
      && Legal(s, steps) && Ends(After(s, steps), id, Completed)
      && (s.runs[id].state == Paused ==> Unresumed(steps, id))
      ensures MayMiss(s.at, s.runs[id].config.epochs)
    {
      if !MayMiss(s.at, s.runs[id].config.epochs) {
        SeenRunNeverCompletes(s, steps, id);
      }
    }
  }

  /**
   * A cancel or pause that reaches a running simulation in any reachable state can be missed exactly if it comes
   * while the last game is being closed, in the last episode during a delay after which the next move can end the
   * game, or before a run of no episodes returns.
   */
  lemma RequestIsMissedExactlyAtTheEnd(s: Server, request: Step, id: RunId)
    requires Reachable(s) && s.phase == Serving && Ends(s, id, Running)
    requires request in {DoPause(id, true), DoCancel(id, true)}
    ensures CanComplete(Next(s, request), id) <==> MayMiss(s.at, s.runs[id].config.epochs)
  {
    ReachableIsSafe(s);
    ReachableGoesOn(s, request);
    FlaggedRunCompletesExactlyIfMissed(Next(s, request), id);
  }

  // ---- Every other ending ----

  /** Nothing raises an error and every store call succeeds. */
  predicate Undisturbed(steps: seq<Step>) {
    forall step | step in steps :: FailureFree(step) && !step.DoRaiseError?
  }

  predicate Cancels(state: RunState) {
    state == Cancelling || state == Cancelled
  }

  lemma {:induction false} CancelledRunsEndCancelled(s: Server, steps: seq<Step>, id: RunId)
    requires Reachable(s) && Legal(s, steps) && Undisturbed(steps)
    requires WillSee(s, id) && Cancels(s.runs[id].state)
    ensures WillSee(After(s, steps), id) && Cancels(After(s, steps).runs[id].state)
    decreases |steps|
  {
    ReachableIsSafe(s);
    if steps != [] {
      assert steps[0] in steps;
      assert forall step | step in steps[1..] :: step in steps;
      WillSeeStays(s, steps[0], id);
      ReachableGoesOn(s, steps[0]);
      CancelStep(s, steps[0], id);
      CancelledRunsEndCancelled(Next(s, steps[0]), steps[1..], id);
    }
  }

  lemma GoingOnFreely(s: Server, step: Step, id: RunId)
    requires Enabled(s, step) && step.DoGoOn? && FailureFree(step) && s.worker == Executing(id)
    ensures
      var t := Next(s, step);
      && id in t.runs
      && t.runs[id].state
         == match Onward(s, step.wake)
            case Suspended(_, _) => s.runs[id].state
            case Raises(_) => Cancelled
            case Returns(_) => Completed
  {
  }

  lemma CancelStep(s: Server, step: Step, id: RunId)
    requires Enabled(s, step) && FailureFree(step) && !step.DoRaiseError?
    requires Waiting(s.line, s.runs) && FlowOk(s.runs, s.worker) && Staffed(s)
    requires WillSee(s, id) && Cancels(s.runs[id].state) && WillSee(Next(s, step), id)
    ensures Cancels(Next(s, step).runs[id].state)
  {
    if Terminal(s.runs[id].state) {
      TerminalStays(s, step, id);
    } else if step.DoGoOn? {
      GoingOnFreely(s, step, id);
    } else if IsRequest(step) {
      RequestLeavesPlace(s, step, id);
    } else {
      OthersLeavePlace(s, step, id);
    }
  }

  /** Nobody resumes or cancels the run, and nobody stops the worker. */
  predicate LeftPaused(steps: seq<Step>, id: RunId) {
    Unresumed(steps, id) && forall step | step in steps :: step != DoCancel(id, true) && !step.DoInterrupt?
  }

  lemma LeftPausedParts(steps: seq<Step>, id: RunId)
    requires steps != [] && Undisturbed(steps) && LeftPaused(steps, id)
    ensures FailureFree(steps[0]) && !steps[0].DoRaiseError? && LeftPaused([steps[0]], id)
    ensures Undisturbed(steps[1..]) && LeftPaused(steps[1..], id)
  {
    assert steps[0] in steps;
    assert forall step | step in steps[1..] :: step in steps;
  }

  /** A paused run that is left alone stays paused, unless it was paused too late. */
  lemma {:induction false} PausedRunsStayPaused(s: Server, steps: seq<Step>, id: RunId)
    requires Reachable(s) && Legal(s, steps) && Undisturbed(steps) && LeftPaused(steps, id)
    requires WillSee(s, id) && s.runs[id].state == Paused
    ensures WillSee(After(s, steps), id) && After(s, steps).runs[id].state == Paused
    decreases |steps|
  {
    ReachableIsSafe(s);
    if steps != [] {
      LeftPausedParts(steps, id);
      WillSeeStays(s, steps[0], id);
      ReachableGoesOn(s, steps[0]);
      PauseStep(s, steps[0], id);
      PausedRunsStayPaused(Next(s, steps[0]), steps[1..], id);
    }
  }

  lemma PauseStep(s: Server, step: Step, id: RunId)
    requires Enabled(s, step) && FailureFree(step) && !step.DoRaiseError? && LeftPaused([step], id)
    requires Waiting(s.line, s.runs) && FlowOk(s.runs, s.worker) && Placed(s) && Staffed(s)
    requires WillSee(s, id) && s.runs[id].state == Paused
    ensures id in Next(s, step).runs && Next(s, step).runs[id].state == Paused
  {
    assert step in [step];
    if step.DoGoOn? {
      GoingOnFreely(s, step, id);
      FlagsAreSeen(s.at, s.runs[id].control, s.runs[id].config, step.wake);
    } else if IsRequest(step) {
      RequestLeavesPlace(s, step, id);
    } else {
      OthersLeavePlace(s, step, id);
    }
  }

  // ---- How soon ----

  /** How often a cancelled run can still go on before it ends. */
  function Patience(at: Await): nat {
    match at
    case Probed => 2
    case At(place, point) => if place.AfterMove? && point.Delayed? then 2 else 1
    case _ => 1
  }

  lemma CancelledRunRunsOut(at: Await, control: Control, config: Config, wake: Wake)
    requires WellPlaced(at, control, config) && CanWake(at, control, config, wake) && control.cancelRequested
    ensures
      match Resumed(at, control, config.epochs, wake)
      case Suspended(_, next) => Patience(next) < Patience(at)
      case _ => true
  {
  }

  function GoesOn(steps: seq<Step>): nat {
    if steps == [] then 0 else (if steps[0].DoGoOn? then 1 else 0) + GoesOn(steps[1..])
  }

  lemma PatienceShrinks(s: Server, step: Step, id: RunId)
    requires Enabled(s, step) && s.worker == Executing(id)
    requires FlowOk(s.runs, s.worker) && Placed(s) && Staffed(s) && s.runs[id].state == Cancelling
    ensures
      var t := Next(s, step);
      && id in t.runs
      && (!Terminal(t.runs[id].state) ==>
            && t.worker == Executing(id) && t.runs[id].state == Cancelling
            && Patience(t.at) + (if step.DoGoOn? then 1 else 0) <= Patience(s.at))
  {
    if step.DoGoOn? {
      CancelledRunRunsOut(s.at, s.runs[id].control, s.runs[id].config, step.wake);
    } else if IsRequest(step) {
      RequestLeavesPlace(s, step, id);
    } else {
      OthersLeavePlace(s, step, id);
    }
  }

  /** A cancelled run has ended after it has gone on twice, and its turn comes as long as the server serves. */
  lemma {:induction false} CancelledRunEndsSoon(s: Server, steps: seq<Step>, id: RunId)
    requires Reachable(s) && Legal(s, steps)
    requires s.worker == Executing(id) && id in s.runs && s.runs[id].state == Cancelling
    requires Patience(s.at) <= GoesOn(steps)
    ensures id in After(s, steps).runs && Terminal(After(s, steps).runs[id].state)
    decreases |steps|
  {
    ReachableIsSafe(s);
    var t := Next(s, steps[0]);
    PatienceShrinks(s, steps[0], id);
    ReachableGoesOn(s, steps[0]);
    if Terminal(t.runs[id].state) {
      EndsStay(t, steps[1..], id);
    } else {
      CancelledRunEndsSoon(t, steps[1..], id);
    }
  }

  lemma {:induction false} EndsStay(s: Server, steps: seq<Step>, id: RunId)
    requires Reachable(s) && Legal(s, steps) && id in s.runs && Terminal(s.runs[id].state)
    ensures Ends(After(s, steps), id, s.runs[id].state)
    decreases |steps|
  {
    ReachableIsSafe(s);
    if steps != [] {
      TerminalStays(s, steps[0], id);
      ReachableGoesOn(s, steps[0]);
      EndsStay(Next(s, steps[0]), steps[1..], id);
    }
  }

  /** It can go on at once, and then runs no move. */
  lemma CancelledRunCanGoOn(s: Server, id: RunId, any: Log)
    requires FlowOk(s.runs, s.worker) && Placed(s)
    requires s.phase == Serving && s.worker == Executing(id) && s.runs[id].state == Cancelling
    ensures Enabled(s, Turn(any))
  {
  }

  // ---- Such awaits are reached ----

  /** The first run is being executed without a pause, a cancel or a delay. */
  predicate Quiet(s: Server, config: Config, games: Games) {
    && s.phase == Serving && s.worker == Executing(0) && 0 in s.runs
    && s.runs[0] == Run(Running, false, NEW_CONTROL, config, games)
  }

  /** A checkpoint that found nothing to do and has let the event loop run. */
  function Passing(place: Place): Await {
    At(place, Checkpoints.Yielding)
  }

  /** The same run elsewhere, with other games on record. */
  function MovedTo(s: Server, config: Config, games: Games, at: Await): Server {
    s.(runs := s.runs[0 := Run(Running, false, NEW_CONTROL, config, games)], at := at)
  }

  /** A turn of a quiet run that is not at its end. */
  lemma QuietTurn(s: Server, config: Config, games: Games, log: Log)
    requires Quiet(s, config, games) && !Onward(s, Wake(false, log)).Returns?
    requires s.at.At? ==> s.at.point == Checkpoints.Yielding && TurnFits(s.at.place, config, log)
    ensures Enabled(s, Turn(log)) && Onward(s, Wake(false, log)).Suspended?
    ensures Next(s, Turn(log))
         == MovedTo(
           s, config, if s.at.GameOver? then games + [s.at.log] else games, Onward(s, Wake(false, log)).at)
  {
  }

  /** The turns of one game. */
  function GameSteps(log: Log): seq<Step> {
    if log.Opening? then [] else GameSteps(log.before) + [Turn(log)]
  }

  /** Where a quiet run stands after some turns of a game. */
  function AfterTurns(log: Log, e: int): Await {
    if log.game.done then GameOver(e, log) else Passing(AfterMove(e, log))
  }

  /** Every real game, finished or not, is played by some schedule. */
  lemma {:induction false} GameIsPlayed(s: Server, config: Config, games: Games, e: int, log: Log)
    requires Quiet(s, config, games) && s.at == Passing(BeforeEpisode(e)) && OfEpisode(log, config, e)
    ensures Legal(s, GameSteps(log)) && After(s, GameSteps(log)) == MovedTo(s, config, games, AfterTurns(log, e))
    decreases log
  {
    var before := log.before;
    assert MovedTo(s, config, games, s.at) == s by {
      assert s.runs[0 := s.runs[0]] == s.runs;
    }
    if before.Opening? {
      QuietTurn(s, config, games, log);
      OneStep(s, Turn(log));
      assert GameSteps(log) == [Turn(log)];
    } else {
      GenuineTurnKeeps(log);
      GameIsPlayed(s, config, games, e, before);
      QuietTurn(After(s, GameSteps(before)), config, games, log);
      LegalAppend(s, GameSteps(before), Turn(log));
    }
  }

  /** A game that is over is recorded, and the next one opened. */
  lemma NextGameOpens(s: Server, config: Config, games: Games, e: int, log: Log, any: Log)
    requires Quiet(s, config, games) && s.at == GameOver(e, log) && e < config.epochs
    ensures Legal(s, [Turn(any), Turn(any)])
    ensures After(s, [Turn(any), Turn(any)]) == MovedTo(s, config, games + [log], Passing(BeforeEpisode(e + 1)))
  {
    QuietTurn(s, config, games, any);
    QuietTurn(MovedTo(s, config, games + [log], Passing(BetweenEpisodes(e))), config, games + [log], any);
    TwoSteps(s, Turn(any), Turn(any));
  }

  /** A game and the opening of the next one. */
  function GameAndNext(log: Log): seq<Step> {
    GameSteps(log) + [Turn(log), Turn(log)]
  }

  lemma GameAndNextArePlayed(s: Server, config: Config, games: Games, e: int, log: Log)
    requires Quiet(s, config, games) && s.at == Passing(BeforeEpisode(e)) && e < config.epochs
    requires OfEpisode(log, config, e) && log.game.done
    ensures Legal(s, GameAndNext(log))
    ensures After(s, GameAndNext(log)) == MovedTo(s, config, games + [log], Passing(BeforeEpisode(e + 1)))
  {
    GameIsPlayed(s, config, games, e, log);
    NextGameOpens(After(s, GameSteps(log)), config, games, e, log, log);
    LegalConcat(s, GameSteps(log), [Turn(log), Turn(log)]);
  }

  /** The turns of the first games, up to the opening of the next one. */
  function GamesSteps(games: Games): seq<Step> {
    if games == [] then [] else GamesSteps(DropLast(games)) + GameAndNext(games[|games| - 1])
  }

  lemma FinishedFront(games: Games, config: Config)
    requires Finished(games, config) && games != []
    ensures Finished(DropLast(games), config)
    ensures OfEpisode(games[|games| - 1], config, |games|) && games[|games| - 1].game.done
  {
    var front := DropLast(games);
    forall k | 0 <= k < |front| ensures OfEpisode(front[k], config, k + 1) && front[k].game.done {
      assert front[k] == games[k];
    }
  }

  /** Whatever real games are played before the last episode, the run comes to its next checkpoint. */
  lemma {:induction false} GamesArePlayed(s: Server, config: Config, games: Games)
    requires Quiet(s, config, []) && s.at == Passing(BeforeEpisode(1))
    requires Finished(games, config) && |games| < config.epochs
    ensures Legal(s, GamesSteps(games))
    ensures After(s, GamesSteps(games)) == MovedTo(s, config, games, Passing(BeforeEpisode(|games| + 1)))
    decreases |games|
  {
    if games == [] {
      assert s.runs[0 := s.runs[0]] == s.runs;
    } else {
      var front, last, n := DropLast(games), games[|games| - 1], |games|;
      FinishedFront(games, config);
      GamesArePlayed(s, config, front);
      GameAndNextArePlayed(After(s, GamesSteps(front)), config, front, n, last);
      LegalConcat(s, GamesSteps(front), GameAndNext(last));
      assert games == front + [last];
    }
  }

  /** One run is submitted, started, and brought to its first checkpoint. */
  function Beginning(config: Config, any: Log): seq<Step> {
    [DoSubmit(0, config, true), DoStartNext(true, true)] + [Turn(any), Turn(any)]
  }

  lemma StartIsPlayed(config: Config)
    ensures
      var steps := [DoSubmit(0, config, true), DoStartNext(true, true)];
      Legal(NEW_SERVER, steps) && Quiet(After(NEW_SERVER, steps), config, []) && After(NEW_SERVER, steps).at == Probed
  {
    var submit, start := DoSubmit(0, config, true), DoStartNext(true, true);
    assert Next(NEW_SERVER, submit).line.queue == [0];
    TwoSteps(NEW_SERVER, submit, start);
  }

  lemma BeginningIsPlayed(config: Config, any: Log)
    requires 0 < config.epochs
    ensures
      var steps := Beginning(config, any);
      && Legal(NEW_SERVER, steps)
      && Quiet(After(NEW_SERVER, steps), config, []) && After(NEW_SERVER, steps).at == Passing(BeforeEpisode(1))
  {
    var first := [DoSubmit(0, config, true), DoStartNext(true, true)];
    StartIsPlayed(config);
    var s := After(NEW_SERVER, first);
    QuietTurn(s, config, [], any);
    QuietTurn(MovedTo(s, config, [], Built), config, [], any);
    TwoSteps(s, Turn(any), Turn(any));
    LegalConcat(NEW_SERVER, first, [Turn(any), Turn(any)]);
  }

  /** From an empty server to the checkpoint before the last episode. */
  function UpToLastGame(config: Config, games: Games, any: Log): seq<Step> {
    Beginning(config, any) + GamesSteps(games)
  }

  lemma LastGameIsReached(config: Config, games: Games, any: Log)
    requires 0 < config.epochs == |games| + 1 && Finished(games, config)
    ensures
      var steps := UpToLastGame(config, games, any);
      && Legal(NEW_SERVER, steps) && Quiet(After(NEW_SERVER, steps), config, games)
      && After(NEW_SERVER, steps).at == Passing(BeforeEpisode(config.epochs))
  {
    BeginningIsPlayed(config, any);
    GamesArePlayed(After(NEW_SERVER, Beginning(config, any)), config, games);
    LegalConcat(NEW_SERVER, Beginning(config, any), GamesSteps(games));
  }

  lemma RequestAtLastAwait(s: Server, config: Config, games: Games, request: Step, any: Log)
    requires Quiet(s, config, games) && s.at.GameOver? && s.at.episode == config.epochs
    requires request in {DoPause(0, true), DoCancel(0, true)}
    ensures Enabled(s, request)
    ensures
      var t := Next(s, request);
      && Ends(t, 0, if request.DoPause? then Paused else Cancelling)
      && Enabled(t, Turn(any)) && Ends(Next(t, Turn(any)), 0, Completed)
  {
  }

  /** A run that plays real games, is paused or cancelled while the last of them is closed, and completes. */
  lemma CancelledRunCanComplete(config: Config, games: Games, last: Log, request: Step)
    requires 0 < config.epochs == |games| + 1 && Finished(games, config)
    requires OfEpisode(last, config, config.epochs) && last.game.done
    requires request in {DoPause(0, true), DoCancel(0, true)}
    ensures
      var steps := UpToLastGame(config, games, last) + GameSteps(last);
      && Legal(NEW_SERVER, steps)
      && Enabled(After(NEW_SERVER, steps), request)
      && var t := Next(After(NEW_SERVER, steps), request);
         && Ends(t, 0, if request.DoPause? then Paused else Cancelling)
         && Enabled(t, Turn(last)) && Ends(Next(t, Turn(last)), 0, Completed)
  {
    var steps := UpToLastGame(config, games, last);
    LastGameIsReached(config, games, last);
    GameIsPlayed(After(NEW_SERVER, steps), config, games, config.epochs, last);
    LegalConcat(NEW_SERVER, steps, GameSteps(last));
    RequestAtLastAwait(After(NEW_SERVER, steps + GameSteps(last)), config, games, request, last);
  }

  /** A delay that is set just before a move is waited for after it. */
  lemma DelayIsReached(s: Server, config: Config, games: Games, log: Log)
    requires Quiet(s, config, games) && s.at.At? && s.at == Passing(s.at.place) && !s.at.place.BetweenEpisodes?
    requires TurnFits(s.at.place, config, log) && !log.game.done
    ensures
      var steps := [DoSetMoveDelay(0, Some(20)), Turn(log)];
      && Legal(s, steps) && Ends(After(s, steps), 0, Running)
      && After(s, steps).at == At(AfterMove(s.at.place.episode, log), Checkpoints.Delayed(20))
      && After(s, steps).phase == Serving && After(s, steps).runs[0].config == config
  {
    TwoSteps(s, DoSetMoveDelay(0, Some(20)), Turn(log));
  }

  /** The other place is reached too: every last game of two moves or more has a delay before its last move. */
  lemma LastDelayIsReached(config: Config, games: Games, last: Log) returns (steps: seq<Step>)
    requires 0 < config.epochs == |games| + 1 && Finished(games, config)
    requires OfEpisode(last, config, config.epochs) && last.game.done && last.before.Turn?
    ensures Legal(NEW_SERVER, steps) && Ends(After(NEW_SERVER, steps), 0, Running)
    ensures After(NEW_SERVER, steps).at == At(AfterMove(config.epochs, last.before), Checkpoints.Delayed(20))
    ensures After(NEW_SERVER, steps).phase == Serving && MayMiss(After(NEW_SERVER, steps).at, config.epochs)
    ensures CanComplete(Next(After(NEW_SERVER, steps), DoCancel(0, true)), 0)
  {
    var log, e := last.before, config.epochs;
    var delay := [DoSetMoveDelay(0, Some(20)), Turn(log)];
    steps := UpToLastGame(config, games, last);
    LastGameIsReached(config, games, last);
    GenuineTurnKeeps(last);
    GenuineTurnKeeps(log);
    EndWasInSight(last);
    if log.before.Turn? {
      GameIsPlayed(After(NEW_SERVER, steps), config, games, e, log.before);
      LegalConcat(NEW_SERVER, steps, GameSteps(log.before));
      steps := steps + GameSteps(log.before);
    }
    DelayIsReached(After(NEW_SERVER, steps), config, games, log);
    LegalConcat(NEW_SERVER, steps, delay);
    steps := steps + delay;
    assert Reachable(After(NEW_SERVER, steps));
    RequestIsMissedExactlyAtTheEnd(After(NEW_SERVER, steps), DoCancel(0, true), 0);
  }

  // ---- Such games exist ----

  /** Every usable configuration has a game of each episode that is played to its end. */
  lemma GameExists(config: Config, e: int) returns (log: Log)
    requires Simulation.Usable(config) && 0 < e
    ensures OfEpisode(log, config, e) && log.game.done
  {
    var c := Simulation.GameOf(config, 0, e);
    Simulation.GameIsAccepted(config, 0, e);
    var opening := Log.Opening(NewGame(c, 0), 0);
    GenuineOpening(opening);
    log := GameCanBeFinished(opening, 1);
  }

  /** Where there is room to the right of the start, one of two moves or more. */
  lemma LongGameExists(config: Config, e: int) returns (log: Log)
    requires Simulation.Usable(config) && 0 < e
    requires StartHead(Simulation.GameOf(config, 0, e)).x + 1 < config.grid.width
    requires config.initialLength + 1 < Board.Area(config.grid)
    ensures OfEpisode(log, config, e) && log.game.done && log.before.Turn?
  {
    var c := Simulation.GameOf(config, 0, e);
    Simulation.GameIsAccepted(config, 0, e);
    var opening := Log.Opening(NewGame(c, 0), 0);
    GenuineOpening(opening);
    NextTurnIsGenuine(opening, 1, 0, 1);
    var first := NextTurn(opening, 1, 0, 1);
    FirstMoveGoesOn(c, 0);
    GenuineTurnKeeps(first);
    log := GameCanBeFinished(first, 1);
  }

  /** So do the board and the snake that the configuration schema fixes. */
  lemma AcceptedBoardHasLongGames(config: Config, e: int) returns (log: Log)
    requires Simulation.Usable(config) && 0 < e
    requires config.grid == Board.Grid(20, 20) && config.initialLength == 3
    ensures OfEpisode(log, config, e) && log.game.done && log.before.Turn?
  {
    Board.CellsInIsProduct(config.grid.width, config.grid.height);
    log := LongGameExists(config, e);
  }

  lemma FirstMoveGoesOn(c: GameConfig, draw: nat)
    requires Accepted(c) && StartHead(c).x + 1 < c.grid.width && c.initialLength + 1 < Board.Area(c.grid)
    ensures StepReply(NewGame(c, draw), 1, 0).Ok? && !StepReply(NewGame(c, draw), 1, 0).value.done
  {
    var s := NewState(c, c.episodeId, draw);
    NewStateIsSound(c, c.episodeId, draw);
    GameShaping.BudgetCoversLength(c.multiplier, s.Length());
    ActionEndsExactly(s, GameRules.Straight, c.rewards, c.multiplier, 0);
  }
}
