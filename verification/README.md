# Snake Lab: a verified model

Snake Lab trains a recurrent network to play Snake. A server accepts simulation
runs, executes them one after the other, persists their progress and results, and
announces how they end. This project models that program in Dafny and proves what
its parts and their interplay guarantee.

| files | what they model |
|---|---|
| `Board.dfy`, `GameRules.dfy`, `GameInvariants.dfy`, `GameRuns.dfy`, `GameLength.dfy`, `GameShaping.dfy`, `GameSymmetry.dfy`, `SnakeGame.dfy` | the snake engine on a board of any size: moves, observation, food placement, and every reachable state |
| `ReplayWindows.dfy`, `ReplayMemory.dfy` | the replay memory: packed episodes, eviction, numbered training windows, reused batch buffers |
| `EpsilonSchedule.dfy` | the exploration schedule |
| `EpisodeRecord.dfy`, `GameEndings.dfy`, `Chance.dfy`, `Simulator.dfy` | the episode loop, the run, and the capture of the best game |
| `SimulationControl.dfy`, `RunAwaits.dfy` | the operator's flags, the checkpoint coroutine, and the awaits of a running simulation |
| `EventsPublisher.dfy`, `ServerProtocol.dfy`, `ServerInvariants.dfy`, `ServerRuns.dfy`, `ServerTheorems.dfy`, `RunEndings.dfy`, `SimulationServer.dfy` | the run lifecycle under any interleaving of requests, worker turns, store failures and shutdown |
| `Tables.dfy`, `DbMgr.dfy`, `StoreCalls.dfy`, `StoreRefinement.dfy`, `ServerStores.dfy`, `SnakeDb.dfy`, `BoardSnapshot.dfy` | transactions over a connection that can fail, the two stores, and persisted boards |
| `TelemetryPublisher.dfy` | the drop-oldest telemetry queue and its subscriptions |
| `JSONValidator.dfy`, `MutableJson.dfy`, `Configuration.dfy` | filling in schema defaults, on values and in place, and which configurations can be run |

How the model is built:

- Expressions and recursive definitions are functions; objects are classes whose
  methods are proved against those functions. A server method, for instance, is proved
  to be exactly one step of the protocol, and the theorems are about all schedules of
  steps.
- Code between two `await`s is one atomic step. Any store call may fail; it then changes
  nothing. Logging and telemetry offers are assumed not to raise.
- Whatever the program leaves to chance is left open: the random generators, the network's
  answer, the operator. `Chance.dfy` and `*` stand for any outcome.
- Python floats are real numbers.
- An episode is remembered as a list of turns (`EpisodeRecord.Log`) and a run as a list of
  episodes (`Simulation.Story`), so that what a loop does can be stated one round at a time
  and lifted to whole sequences by lemmas.

Findings, each with a lemma:

- `pages/control-protocol.md:187-188` says an active run that is cancelled later reaches
  `cancelled`. It can complete instead, and a paused run can too, exactly if the request comes
  while the last game is being closed; or in the last episode during a delay, on a board where
  the next move can end the game; or before a run of no episodes returns (`RunAwaits.MayMiss`,
  `RunEndings.RequestIsMissedExactlyAtTheEnd`). Whether the next move can end the game is seen
  from the board: the move budget is spent, some action collides, or the last free cell has the
  food and is within reach (`GameEndings.CanEndNextExactly`). Anywhere else a cancelled run ends
  as cancelled (`RunEndings.CancelledRunsEndCancelled`), after at most two more turns
  (`RunEndings.CancelledRunEndsSoon`). Both places are reached by plays of any real games:
  `RunEndings.CancelledRunCanComplete`, `RunEndings.LastDelayIsReached`.
- A checkpoint whose delay runs out returns without reading the flags again, so it can miss
  a cancel. A cancel is missed exactly if it arrives during a delay
  (`Checkpoints.CancelIsMissedExactlyInDelay`). A checkpoint can miss one exactly if it is
  entered, not yet cancelled, with a delay to apply, or, if the delay may change meanwhile, if
  it applies delays at all (`Checkpoints.CancelCanBeMissedExactlyWithDelay`,
  `Checkpoints.CancelCanBeMissedExactlyIfDelaysApply`).
- A snake that starts with one cell gains a second one with its first move that does not
  eat. In every reachable state the length is the initial length plus the score exactly if the
  snake starts with two cells or more, or the board has only two:
  `GameLength.LengthLawHoldsExactly`.
- JSON Schema counts 20.0 as an integer, the program does not. Such a configuration is
  accepted and then fails when the run starts:
  `Configurations.FloatIsAcceptedButDoesNotRun`. An accepted configuration runs exactly if
  epochs, network sizes and replay sizes are held as integers and, when there is an episode to
  play, board size, snake length and move limit too: `Configurations.AcceptedRunsExactlyWhenWhole`.
  Rewards and the seed may be floats.
- The snake's four-cell limit for never hitting itself is exact: every longer start that has
  its food out of the way collides after three left turns
  (`GameShaping.ShortSnakesNeverCollide`, `GameShaping.FiveCellsCanCollide`).

## Model

| member | source | states |
|---|---|---|
| Board.TurnLeft | snakelab/game/Direction.py:40-41 | a left turn maps (dx, dy) to (dy, -dx) and stays cardinal |
| Board.TurnRight | snakelab/game/Direction.py:43-44 | a right turn maps (dx, dy) to (-dy, dx) and stays cardinal |
| Board.ViewPositionInCoordinates | snakelab/game/GameState.py:43-56 | each cell of the view is the head plus scaled right and forward vectors |
| Board.ReachIsProduct | snakelab/game/GameState.py:68-74 | the food offset in the snake's frame is the scalar product the code computes |
| Board.Observe | snakelab/game/GameState.py:35-81 | the nested loops build exactly the specified observation, which always has 51 values, so the size error is unreachable |
| Board.ViewIndex | snakelab/game/GameState.py:43-64 | where in the observation each local offset is stored |
| Board.FreeCellsMember | snakelab/game/GameHelper.py:13-19 | the free list holds exactly the board cells that are not occupied |
| Board.DrawnPositionIsFree | snakelab/game/GameHelper.py:8-20 | a drawn position is on the board and free; none is drawn only from a full board |
| Board.EveryFreeCellCanBeDrawn | snakelab/game/GameHelper.py:20 | every free cell is a possible choice |
| Board.FreeCellCount | snakelab/game/GameHelper.py:13-19 | pigeonhole: cells on the board leave exactly area minus their number free |
| GameRules.WouldCollideAgreesWithStep | snakelab/game/GameRules.py:59-83 | the look-ahead agrees with the step exactly when the move budget is not what ends the episode |
| GameRules.BodyBlocksExactly | snakelab/game/GameRules.py:59-83 | the tail cell stops only a snake that eats, any other body cell stops every move onto it, in any state |
| GameRules.StepIsRefusedExactly | snakelab/game/GameRules.py:41-55 | a step is refused exactly for a multiplier that is not positive, a finished board or an unknown action, in this order |
| GameRules.IndicesTurn | snakelab/game/GameRules.py:14-34 | actions 0, 1 and 2 lead to the cell on the left, ahead and on the right |
| GameInvariants.OutcomesExplained | snakelab/game/GameRules.py:57-135 | for every sound state: when each outcome occurs, when the episode ends, when the score rises, and what each outcome pays |
| GameInvariants.MoveSpelledOut | snakelab/game/GameRules.py:57-135 | which cells, food, score and counters each kind of move leaves |
| GameInvariants.HeadMovesToNeighbour | snakelab/game/GameRules.py:65-68 | the head moves to a neighbouring cell and never back onto the neck |
| GameInvariants.EatKeepsSound | snakelab/game/GameRules.py:85-109 | eating grows the snake by the food cell, keeps it a chain of distinct cells, and puts new food off it |
| GameInvariants.GlideKeepsSound | snakelab/game/GameRules.py:111-135 | gliding keeps the snake a chain of distinct board cells heading away from its neck |
| GameInvariants.MoveKeepsSound | snakelab/game/GameRules.py:41-135 | every move of a sound state leads to a sound state |
| GameInvariants.EatingNeverCollides | snakelab/game/GameRules.py:75-83 | a move that reaches the food never ends with SNAKE or WALL |
| GameInvariants.MoveKeepsLengthLaw | snakelab/game/GameRules.py:85-118 | length stays initial length plus score, apart from the one-cell start |
| GameInvariants.MoveCounters | snakelab/game/GameRules.py:57-118 | each move counts once, scores at most once, and keeps board, seed and episode |
| GameInvariants.FreeAroundSnake | snakelab/game/GameHelper.py:13-19 | a sound snake leaves exactly area minus length cells free |
| GameInvariants.FullBoard | snakelab/game/GameRules.py:101-109 | a snake is as long as the board has cells exactly when it covers it |
| GameInvariants.BoardFilledExactlyWhenCovered | snakelab/game/GameRules.py:87-109 | BOARD_FILLED is reported exactly when the snake then covers every cell |
| GameRuns.InitialFoodExists | snakelab/game/SnakeGame.py:112-115 | every accepted configuration has room for food, so "no free position" is unreachable |
| GameRuns.ConfigIsRefusedExactly | snakelab/game/SnakeGame.py:20-60 | which configurations the constructor accepts, and which error comes first |
| GameRuns.StartSpelledOut | snakelab/game/SnakeGame.py:101-126 | the start: middle row, middle column or as far right as the snake needs, heading right, nothing counted, food on a free cell |
| GameRuns.ResetSpelledOut | snakelab/game/SnakeGame.py:76-81 | a reset plays the next episode number on a new board of the same configuration |
| GameRuns.NewStateIsSound | snakelab/game/SnakeGame.py:101-126 | the start position is sound for every accepted configuration |
| GameRuns.EveryPlayIsSound | snakelab/game/SnakeGame.py:83-126 | from the constructor, any steps and resets with any food choices reach only sound states with head minus neck as direction |
| GameRuns.StepsAreCounted | snakelab/game/GameRules.py:57 | while an episode lasts its move count is the number of steps taken |
| GameRuns.EpisodesEnd | snakelab/game/GameRules.py:57-63 | every episode is over after multiplier * (width * height - 1) + 1 steps, whatever the actions and food |
| GameRuns.ScoreBound | snakelab/game/GameRules.py:85-109 | from two cells on the score is at most area minus initial length, with equality exactly on a covered board |
| GameRuns.MaximalScoreIsBoardFilled | snakelab/game/GameRules.py:101-103 | the maximal score is reached exactly by the step with outcome BOARD_FILLED |
| GameRuns.GlideGrowsOnlyASingleCell | snakelab/game/GameRules.py:111 | the only glide that changes the length is that of a one-cell snake, to two |
| GameLength.LengthLawHoldsExactly | snakelab/game/GameRules.py:111 | length equals initial length plus score in all reachable states of a configuration exactly if it starts with two cells or more, or its board has two cells |
| GameLength.OneGlideBreaksLaw | snakelab/game/GameRules.py:111 | on any larger board a one-cell snake whose food is on a third cell is too long after one move |
| GameEndings.ActionEndsExactly | snakelab/game/GameRules.py:65-135 | an action ends the game exactly if the budget is spent, it collides, or it eats on the last free cell |
| GameEndings.CanEndNextExactly | snakelab/game/GameRules.py:65-135 | in every reachable state the board tells whether some next move can end the game |
| GameEndings.TurnPays | snakelab/game/GameRules.py:85-135 | each turn of a game pays what its configuration has for the outcome, and for coming closer or moving away |
| GameShaping.MoveChangesDistanceByOne | snakelab/game/GameRules.py:154-156 | a move changes the distance to any cell by exactly one |
| GameShaping.ObservationShowsCloserMoves | snakelab/game/GameState.py:66-75 | whether an action brings the head closer can be read off the two food signs |
| GameShaping.ViewShowsNextCell | snakelab/game/GameState.py:49-56 | the cells left of, ahead of and right of the head in the view are the cells the three actions lead to |
| GameShaping.ViewIsUnambiguous | snakelab/game/GameState.py:57-64 | on a sound board -0.5, 0.5 and 1.0 mean exactly outside, body and food |
| GameShaping.ObservationSaysWhatIsThere | snakelab/game/GameState.py:43-64 | for all 49 offsets by index: -0.5 exactly outside, 0.5 exactly for body, 1.0 exactly for food, 0.0 exactly for the centre and free cells |
| GameShaping.ObservationPointsToFood | snakelab/game/GameState.py:66-75 | the last two values are the signs of the food's offset to the right and to the back, zero when aligned or without food |
| GameShaping.ViewWarnsOfCollision | snakelab/game/GameRules.py:138-152 | a collision shows in the observation: wall, or body other than the tail, at the action's cell |
| GameShaping.ShapingTelescopes | snakelab/game/GameRules.py:119-135 | closer minus further moves of a stretch without food equals the drop in distance |
| GameShaping.StretchPaysItsFlags | snakelab/game/GameRules.py:125-135 | the rewards of such a stretch are those of its closer and further moves |
| GameShaping.MovesToFood | snakelab/game/GameRules.py:111-135 | food at distance d is eaten only after n >= d moves with n of d's parity |
| GameShaping.ShortSnakesNeverCollide | snakelab/game/GameRules.py:75-83 | a sound snake of at most four cells never ends with SNAKE |
| GameShaping.FiveCellsCanCollide | snakelab/game/GameRules.py:65-83 | from every start with five cells or more, two rows and food out of the way, three left turns end with SNAKE |
| GameShaping.LongStartExists | snakelab/game/SnakeGame.py:101-115 | the constructor makes such a start wherever another cell is free |
| GameSymmetry.ObservationCommutes | snakelab/game/GameState.py:35-81 | turning the board leaves the observation unchanged, mirroring it mirrors the observation |
| GameSymmetry.MoveCommutes | snakelab/game/GameRules.py:41-135 | with matching food draws, moving commutes with turning and with mirroring (left and right swapped) |
| GameSymmetry.MoveOutcomesCommute | snakelab/game/GameRules.py:87-109 | the set of possible results, food placement included, is carried over exactly |
| SnakeEnvironment.SnakeGame.Create | snakelab/game/SnakeGame.py:31-69 | construction with the checks in order, or the first error |
| SnakeEnvironment.SnakeGame.Reset | snakelab/game/SnakeGame.py:77-81 | the next episode, with its first observation |
| SnakeEnvironment.SnakeGame.Step | snakelab/game/SnakeGame.py:83-96 | one step of the specified run; a finished episode and a bad action are refused without change; counters and the move limit |
| ReplayWindows.PackingIsLosslessWhenContiguous | snakelab/nn/ReplayMemory.py:144-167 | keeping N + 1 observations loses nothing exactly when each state is the preceding next state |
| ReplayWindows.WindowIsStretch | snakelab/nn/ReplayMemory.py:205-219 | place by place, a window's states and next states are those of consecutive transitions, with the last one's action, reward and end flag |
| ReplayWindows.EvictKeepsLongestSuffix | snakelab/nn/ReplayMemory.py:172-174 | greedy eviction keeps exactly the longest suffix that fits |
| ReplayWindows.EvictIsIncremental | snakelab/nn/ReplayMemory.py:168-174 | evicting after every episode equals evicting once from the whole history |
| ReplayWindows.BisectRightMeaning | snakelab/nn/ReplayMemory.py:206 | the index found separates the totals at most the id from those above it |
| ReplayWindows.DecodeIsPlainList | snakelab/nn/ReplayMemory.py:206-211 | decoding an id by prefix sums finds the window that the plain list of all windows has there |
| ReplayWindows.EveryWindowHasAnId | snakelab/nn/ReplayMemory.py:176-204 | every (episode, start) with a whole window behind it has an id that decodes back to it |
| ReplayWindows.DecodeIsInjective | snakelab/nn/ReplayMemory.py:196-211 | different ids decode to different windows |
| ReplayWindows.EligibleKeepsWindows | snakelab/nn/ReplayMemory.py:177-185 | leaving out short episodes leaves out no window |
| ReplayWindows.DecodedWindow | snakelab/nn/ReplayMemory.py:205-219 | the slice that an id selects is in bounds and is the listed window of the retained episodes |
| ReplayWindows.DoneMarksLastWindow | snakelab/nn/ReplayMemory.py:213-219 | a sampled window is terminal exactly if it is the last of its episode |
| ReplayBuffer.ReplayMemory.Create | snakelab/nn/ReplayMemory.py:72-82 | construction with its bounds, or the first error |
| ReplayBuffer.SizesAreRefusedExactly | snakelab/nn/ReplayMemory.py:60-82 | which sizes the constructor accepts, and which error comes first |
| ReplayBuffer.TransitionIsRefusedExactly | snakelab/nn/ReplayMemory.py:144-160 | which transitions are refused, and with which error |
| ReplayBuffer.ReplayMemory.Append | snakelab/nn/ReplayMemory.py:121-142 | a bad transition changes nothing; a terminal one closes the open episode; the index is always that of the retained suffix |
| ReplayBuffer.ReplayMemory.FinalizeEpisode | snakelab/nn/ReplayMemory.py:144-189 | packs, evicts and renumbers so that the memory is again the evicted history with its window index |
| ReplayBuffer.ReplayMemory.EvictOldest | snakelab/nn/ReplayMemory.py:172-174 | the loop computes the specified suffix and frame count, and never takes from an empty deque |
| ReplayBuffer.ReplayMemory.Sample | snakelab/nn/ReplayMemory.py:186-219 | fails exactly with too few windows; otherwise row b is the listed window of the b-th drawn id, a stretch of stored transitions in both rows of observations |
| EpsilonSchedule.EpsilonIsClosedForm | snakelab/nn/EpsilonAlgo.py:102-108 | after n episodes epsilon is initial * decay^n, held at the minimum or cut to zero below the cutoff |
| EpsilonSchedule.EpsilonSpelledOut | snakelab/nn/EpsilonAlgo.py:102-108 | the n-th value is the initial one decayed n times, unless that is below the minimum, or the cutoff if that is zero; then it is the minimum |
| EpsilonSchedule.GeometricIsProduct | snakelab/nn/EpsilonAlgo.py:105 | decayed n times means multiplied by the n-th power of the decay |
| EpsilonSchedule.ScheduleIsRefusedExactly | snakelab/nn/EpsilonAlgo.py:20-60 | which schedules the constructor accepts, and which error comes first |
| EpsilonSchedule.EpsilonNeverIncreases | snakelab/nn/EpsilonAlgo.py:105-108 | it never rises and stays between minimum and initial |
| EpsilonSchedule.BernoulliBound | snakelab/nn/EpsilonAlgo.py:105 | after n decays at most start / (1 + n (1 - decay)) is left |
| EpsilonSchedule.FloorIsReached | snakelab/nn/EpsilonAlgo.py:90-92 | with decay below one and a positive floor or cutoff, the floor is reached by an explicit episode and kept |
| EpsilonSchedule.EpsilonAlgo.Create | snakelab/nn/EpsilonAlgo.py:30-59 | construction with its range checks, or the first error |
| EpsilonSchedule.EpsilonAlgo.MaybeRandomAction | snakelab/nn/EpsilonAlgo.py:94-100 | a draw below epsilon injects the random action and counts once in both counters |
| EpsilonSchedule.EpsilonAlgo.EpisodeCompleted | snakelab/nn/EpsilonAlgo.py:102-116 | advances the schedule by one episode, clears the episode's counter, reports the floor at most once |
| EpsilonSchedule.EpsilonAlgo.Reset | snakelab/nn/EpsilonAlgo.py:118-124 | back to the initial value with all counters zero |
| EpisodeRecord.HistoryAppend | snakelab/server/Simulator.py:254-257 | the bounded deque always holds the last observations, padded with the first |
| EpisodeRecord.WindowIsShownHistory | snakelab/server/Simulator.py:261-299 | the window ending at transition t is exactly the history shown to the policy there, with its action, reward, end flag and next observation |
| EpisodeRecord.ListedWindowWasShown | snakelab/nn/ReplayMemory.py:205-219 | every window that sampling can return was shown to the policy when it chose the stored action |
| ReplayBuffer.ListedWindowWasStored | snakelab/nn/ReplayMemory.py:205-219 | and is one stretch of the transitions of one episode |
| EpisodeRecord.FirstBestMeaning | snakelab/server/Simulator.py:265-266 | the kept board is the first with the highest score |
| EpisodeRecord.LastBestMeaning | snakelab/server/Simulator.py:314-319 | the kept game is the last with the highest score |
| EpisodeRecord.FirstBestHasFinalScore | snakelab/server/Simulator.py:265-266 | the best board of a game has its final score |
| EpisodeRecord.LogIsWholeGame | snakelab/server/Simulator.py:252-266 | the boards of an episode have move counts 0, 1, 2, … and are one more than its moves |
| EpisodeRecord.LogFollowsFrames | snakelab/server/Simulator.py:263-297 | each stored transition leads from the observation of one board to that of the next |
| EpisodeRecord.LogIsPlay | snakelab/server/Simulator.py:249-299 | the record of an episode is a play of its game by valid steps, from the constructor on |
| EpisodeRecord.NextTurnIsGenuine | snakelab/server/Simulator.py:262-275 | while a game lasts every action makes a turn by the rules |
| GameEndings.GameCanBeFinished | snakelab/server/Simulator.py:261-299 | every game in progress can be played to its end |
| EpisodeRecord.LogIsRecorded | snakelab/server/Simulator.py:261-299 | the loop establishes the contiguity that append asks for, and each action was chosen on the history before it |
| EpisodeRecord.LogKeepsBest | snakelab/server/Simulator.py:258-276 | the loop's board and reward are the first best board and the sum of all rewards |
| Simulation.CapturedGameIsLastBest | snakelab/server/Simulator.py:314-319 | no game did better than the captured one, and none after it as well |
| Simulation.CollectedFramesHaveNoGap | snakelab/server/Simulator.py:252-264 | a capture has one frame per move from the start to the last, without a gap |
| Simulation.SnapshotIsFirstBestFrame | snakelab/server/Simulator.py:265-266 | the snapshot is a captured frame with the game's final score, and no earlier frame has it |
| Simulation.TallyFollows | snakelab/server/Simulator.py:92-99 | capturing before recording one more episode keeps totals, high score, capture and results in step with the games |
| Simulation.SimulationState.Record | snakelab/server/Simulator.py:92-99 | the new progress in every field |
| Simulation.ResultsAreOfRealGames | snakelab/server/Simulator.py:225-235 | every result is that of a game with the configured grid, length, multiplier and rewards, under its number, played to its end; BOARD_FILLED exactly for the highest possible score |
| Simulation.StoredRewardsAreConfigured | snakelab/server/Simulator.py:267-275 | every stored reward is the one that the run's configuration has for what happened |
| Simulation.Simulator.SelectAction | snakelab/server/Simulator.py:237-247 | a draw below epsilon gives the random action, otherwise the network is asked about exactly this history; the answer goes on record and the counters move together |
| Simulation.Simulator.Train | snakelab/nn/Trainer.py:65-69 | every row of the batch was shown to the policy with that action and is a stretch of stored transitions; no batch exactly when windows are too few |
| Simulation.Simulator.PlayMove | snakelab/server/Simulator.py:262-275 | one turn is a step of the game with the recorded action, reward and outcome; it extends the episode's record, and replay follows it |
| Simulation.Simulator.PlayTurns | snakelab/server/Simulator.py:261-299 | the loop ends, and then the record is a whole game played by the rules, shown to the policy turn by turn, with a checkpoint passed after each move but the last; it is left early only where a checkpoint raises |
| Simulation.Simulator.PlayEpisode | snakelab/server/Simulator.py:249-299 | the loop ends, and then its locals and the replay memory are those of the whole episode |
| Simulation.Simulator.RunEpisode | snakelab/server/Simulator.py:249-320 | the result tells its game in every field, epsilon is the schedule's value for the episode, the capture is updated before recording; a cancelled episode leaves progress alone |
| Simulation.StoryTallies | snakelab/server/Simulator.py:332-346 | after any episodes: totals are the sums over games and stored transitions, the capture is that of the last best game, each result tells its game |
| Simulation.Simulator.RunEpisodes | snakelab/server/Simulator.py:332-346 | however the run ends, the progress tells the story of the games played; it ends early exactly where a checkpoint or the listener raised; a completed run has played every epoch and met every checkpoint |
| Simulation.Simulator.ProgressTallies | snakelab/server/Simulator.py:101-110 | so the summary equals sums over the stored transitions, and its injections are the epsilon component's count |
| Simulation.Simulator.Run | snakelab/server/Simulator.py:322-346 | a simulator runs once, with the same guarantees |
| Checkpoints.NoWakeupIsLost | snakelab/server/SimulationControl.py:64-85 | in every schedule a suspended checkpoint whose event is clear has read the present flags and delay |
| Checkpoints.TurnsEndAsleep | snakelab/server/SimulationControl.py:64-80 | a turn that finds the run paused, or a delay to wait for, leaves the checkpoint asleep |
| RunControl.OperationsTakeEffect | snakelab/server/SimulationControl.py:39-62 | each accepted operation sets its own flag or delay, leaves the others, and sets the event; any other delay changes nothing |
| Checkpoints.OperationsWake | snakelab/server/SimulationControl.py:39-62 | every operation but a refused delay wakes it |
| Checkpoints.CancelRaises | snakelab/server/SimulationControl.py:66-69 | after a cancel the next turn of an unfinished checkpoint raises |
| Checkpoints.EnteredAfterCancelRaises | snakelab/server/SimulationControl.py:64-69 | a checkpoint entered after a cancel raises at its first turn in every schedule and never returns |
| Checkpoints.PausedCheckpointWaits | snakelab/server/SimulationControl.py:70-72 | while nobody resumes or cancels, a checkpoint entered in a paused run never gets past its wait |
| Checkpoints.ReturnReadsClearFlags | snakelab/server/SimulationControl.py:82-85 | a return that is no timeout has both flags clear at that instant |
| Checkpoints.UndelayedNeverTimesOut | snakelab/server/SimulationControl.py:74-82 | without a delay to apply no schedule has a timeout |
| Checkpoints.LateFlagsAreMissedOnlyByTimeouts | snakelab/server/SimulationControl.py:75-80 | returning in spite of a set flag takes a timeout while the event is already set |
| Checkpoints.TimeoutCanMissCancel | snakelab/server/SimulationControl.py:78-79 | with any positive delay there is a schedule in which a cancel during the delay is missed |
| Checkpoints.CancelledNeverReturns | snakelab/server/SimulationControl.py:64-85 | after a cancel a checkpoint that is in no delay never returns, in any schedule |
| Checkpoints.CancelIsMissedExactlyInDelay | snakelab/server/SimulationControl.py:75-80 | some schedule makes an unfinished checkpoint return after a cancel exactly if the cancel arrives during a delay |
| Checkpoints.CancelCanBeMissedExactlyWithDelay | snakelab/server/SimulationControl.py:64-85 | while nobody changes the delay, a cancel on the way can be missed exactly if the checkpoint is entered, not yet cancelled, with a delay to apply |
| Checkpoints.CancelCanBeMissedExactlyIfDelaysApply | snakelab/server/SimulationControl.py:64-85 | if the delay may change, exactly if the checkpoint applies delays and is not yet cancelled |
| Checkpoints.SimulationControl.SetMoveDelay | snakelab/server/SimulationControl.py:51-62 | accepts exactly 0 to 100 ms in steps of 20 and otherwise changes nothing |
| Checkpoints.SimulationControl.CheckpointTurn | snakelab/server/SimulationControl.py:64-85 | the code between two awaits is one step of the specified coroutine |
| RunAwaits.ResumedStaysPlaced | snakelab/server/Simulator.py:322-346 | from one await a run comes to another within its episodes and in a real game, raises only if cancelled, and returns only behind the last episode |
| RunAwaits.DelaysAreWaitedFor | snakelab/server/Simulator.py:299-344 | delays are waited for after moves and between episodes, but not before an episode |
| RunAwaits.EpisodeIsConfigured | snakelab/server/Simulator.py:225-235 | the game of an await is set up as the run is configured, under the number of its episode |
| RunAwaits.ResumedRecords | snakelab/server/Simulator.py:332-337 | every await is reached with exactly the episodes before it recorded |
| RunAwaits.FlagsAreSeen | snakelab/server/Simulator.py:249-346 | a run cancelled or paused at any other await neither returns nor comes to where the flag might be missed |
| RunAwaits.MakeMove | snakelab/server/Simulator.py:249-275 | the move behind a checkpoint is the game's reply to the chosen action, in a new game or the one in progress |
| RunAwaits.Continue | snakelab/server/Simulator.py:249-346 | the coroutine, stretch by stretch on the shared control object, does what is specified; that a game is over is the game's reply to its last move |
| EventQueue.PublishKeepsOrder | snakelab/zmq/EventsPublisher.py:40-46 | an event is queued behind all earlier ones |
| EventQueue.PumpLosesNothing | snakelab/zmq/EventsPublisher.py:48-59 | sending moves the front event over; nothing is lost, repeated or reordered |
| EventQueue.EventsPublisher.PublishLoop | snakelab/zmq/EventsPublisher.py:48-59 | from the sentinel on the loop ends with everything sent in order |
| EventQueue.EventsPublisher.CloseAndWait | snakelab/zmq/EventsPublisher.py:67-75 | when close returns, everything queued before it has been sent |
| ServerInvariants.HeadComesOnce | snakelab/server/SimulationServer.py:407-410 | a queued run is in the queue once |
| ServerInvariants.FinishBooks | snakelab/server/SimulationServer.py:376-395 | the store takes a terminal state and the event follows, or neither happens |
| ServerRuns.TouchEffect | snakelab/server/SimulationServer.py:203-273 | a request or an ending changes at most its own run, and only as the run's state allows |
| ServerRuns.EndBooks | snakelab/server/SimulationServer.py:414-448 | every way a run ends writes at most one terminal state and one event, a retry after a failed write included |
| ServerRuns.TerminalStays | snakelab/server/SimulationServer.py:203-252 | no step takes a run out of a terminal state |
| ServerRuns.InvariantKept | snakelab/server/SimulationServer.py:100-469 | every step keeps queue, store, events, worker and control flags consistent |
| ServerRuns.EveryScheduleIsSafe | snakelab/server/SimulationServer.py:100-469 | so does every schedule from an empty server, store failures and shutdown included |
| ServerTheorems.EventsTellStoredEnds | snakelab/server/SimulationServer.py:376-395 | in every schedule a run has at most one ended event, one exactly if its stored state is terminal, telling that state and the run's error; there is an error exactly for a failure |
| ServerTheorems.StoreFollowsMemory | snakelab/server/SimulationServer.py:203-252 | in every schedule in which no store exception has escaped, and whenever the server serves with its worker there, every run is stored as it is shown |
| ServerTheorems.EscapesLeaveUnsaved | snakelab/server/SimulationServer.py:203-252 | a step leaves something unsaved exactly if a store exception about a known run escapes from it |
| ServerTheorems.UnsavedRunsDiffer | snakelab/server/SimulationServer.py:376-395 | after any failures a run is stored otherwise than it is shown exactly while its latest store call has failed |
| ServerTheorems.StoredEndIsFinal | snakelab/server/SimulationServer.py:376-469 | a stored terminal state is never overwritten |
| ServerTheorems.StartsInSubmissionOrder | snakelab/server/SimulationServer.py:404-412 | runs start in submission order |
| ServerTheorems.NobodyIsForgotten | snakelab/server/SimulationServer.py:404-412 | every run has started, waits once in the queue, or was cancelled before its turn |
| ServerTheorems.ActiveRunMeaning | snakelab/server/SimulationServer.py:176-201 | the active query names the run being executed, or else the first queued one in the queue |
| ServerTheorems.ActiveRunStartsNext | snakelab/server/SimulationServer.py:181-201 | with nothing active it names the run the worker then starts, past any cancelled ones |
| ServerTheorems.RequestsTakeEffect | snakelab/server/SimulationServer.py:203-252 | which state and which flag each request leaves, and that it changes nothing otherwise |
| ServerTheorems.ControlsAreTheOperators | snakelab/server/SimulationServer.py:203-273 | whatever step the server makes, a run's pause flag, cancel flag and delay change exactly as a request about that run asks for in a state that allows it |
| ServerTheorems.SubmittedRunIsFresh | snakelab/server/SimulationServer.py:100-124 | a submitted run is queued last with clear flags, no delay and its configuration; one that cannot be stored leaves nothing behind |
| ServerTheorems.EscapesAreFelt | snakelab/server/SimulationServer.py:404-469 | when the service stops, the worker ends or the drain is aborted: by a stop, the shutdown, or exactly an escaping store exception |
| ServerTheorems.StepsFollowLifecycle | snakelab/server/SimulationServer.py:203-252 | the moves between states that any step can make |
| ServerTheorems.ClosedServerHasEndedAll | snakelab/server/SimulationServer.py:452-469 | after a full drain every run is terminal and has its event exactly if the store call that ended it succeeded |
| ServerTheorems.FailureFreeShutdown | snakelab/server/SimulationServer.py:491-529 | after a shutdown without store failures every submitted run has exactly one event, sent, with its stored terminal state |
| ServerTheorems.EventsOnlyGrow | snakelab/zmq/EventsPublisher.py:40-59 | events are only added at the end and sent from the front |
| ServerTheorems.StateGovernsCheckpoint | snakelab/server/SimulationServer.py:203-252 | an active run's next checkpoint raises, blocks or goes on exactly as its shown state says |
| RunEndings.FlaggedRunCompletesExactlyIfMissed | snakelab/server/SimulationServer.py:404-433 | a cancelled or paused run can still complete, without being resumed, exactly if it stands where the flag may be missed |
| RunEndings.RequestIsMissedExactlyAtTheEnd | snakelab/server/SimulationServer.py:203-252 | the same for a pause or cancel that reaches a running simulation in any reachable state, by its await and board alone |
| RunEndings.SeenRunNeverCompletes | snakelab/server/Simulator.py:322-346 | anywhere else it never completes, whatever fails and whoever stops the server |
| RunEndings.CancelledRunsEndCancelled | snakelab/server/SimulationServer.py:422-433 | without errors and failing store calls such a cancelled run can only end as cancelled |
| RunEndings.PausedRunsStayPaused | snakelab/server/SimulationControl.py:70-72 | such a paused run that is left alone stays paused |
| RunEndings.CancelledRunEndsSoon | snakelab/server/Simulator.py:294-346 | every cancelled run has ended after it has gone on twice |
| RunEndings.CancelledRunCanGoOn | snakelab/server/SimulationControl.py:64-69 | while the server serves a cancelled run can always go on: no cancel leaves it asleep |
| RunEndings.CancelledRunCanComplete | snakelab/server/Simulator.py:294-296 | from an empty server, any real games of all episodes lead to the last await, where a pause or cancel is missed |
| RunEndings.LastDelayIsReached | snakelab/server/Simulator.py:299 | for every last game of two moves or more, a delay before its last move is reached where a cancel is missed |
| RunEndings.GameExists | snakelab/server/Simulator.py:225-235 | every usable configuration has such a game for each episode |
| RunEndings.AcceptedBoardHasLongGames | snakelab/schemas/simulation-config-v2.schema.json:27-52 | the board and snake that the schema fixes have games of two moves or more |
| LabServer.SimulationServer.Change | snakelab/server/SimulationRun.py:10-26 | a control operation and a new state reach one shared record and no other run |
| LabServer.RepliesSpelledOut | snakelab/server/SimulationServer.py:203-252 | the answer to pause, resume and cancel in each state of the run |
| LabServer.SimulationServer.Accept | snakelab/server/SimulationServer.py:107-118 | dictionary and end of the queue share a new record with a control of its own |
| LabServer.SimulationServer.Get | snakelab/server/SimulationServer.py:407 | the first record of the queue, which is the dictionary's record of that run |
| LabServer.SimulationServer.Submit | snakelab/server/SimulationServer.py:100-124 | one submit step; the answer counts the whole queue; a store exception stops the service |
| LabServer.SimulationServer.Pause | snakelab/server/SimulationServer.py:203-216 | one pause step, with its answer or error |
| LabServer.SimulationServer.Resume | snakelab/server/SimulationServer.py:218-231 | one resume step, with its answer or error |
| LabServer.SimulationServer.Cancel | snakelab/server/SimulationServer.py:233-252 | one cancel step, with its answer or error |
| LabServer.SimulationServer.SetMoveDelay | snakelab/server/SimulationServer.py:254-273 | only the control's delay changes, and only for queued, running and paused runs |
| LabServer.SimulationServer.FinishRun | snakelab/server/SimulationServer.py:376-395 | one store call with the terminal state; the event, with the run's error, after a successful one and nothing after a failed one |
| LabServer.SimulationServer.WorkerTurn | snakelab/server/SimulationServer.py:406-414 | one start step: skip a cancelled run, start another, or fail it only where the store has raised |
| LabServer.SimulationServer.GoOn | snakelab/server/SimulationServer.py:413-433 | one turn of the executed simulation, whatever is drawn and chosen in it: to its next await, or to an end that is then saved |
| LabServer.SimulationServer.EndAsCancelled | snakelab/server/SimulationServer.py:422-433 | the end of a cancelled simulation; a failing store call ends the worker |
| LabServer.SimulationServer.Complete | snakelab/server/SimulationServer.py:415-448 | the end of a returned simulation, falling back to failure when the result cannot be saved |
| LabServer.SimulationServer.ActiveRequest | snakelab/server/SimulationServer.py:176-201 | the two searches answer as specified |
| LabServer.SimulationServer.DrainQueue | snakelab/server/SimulationServer.py:460-469 | the drain loop is a legal schedule and ends closed or, after an exception, aborted |
| LabServer.SimulationServer.Shutdown | snakelab/server/SimulationServer.py:452-529 | the whole shutdown is a legal schedule; afterwards all events are sent in order |
| Transactions.DbMgr.BeginTransaction | snakelab/database/DbMgr.py:101-109 | the driver's answers decide: a lost connection is reopened, exactly once, and any other fault is not |
| Transactions.DbMgr.Transaction | snakelab/database/DbMgr.py:91-121 | all or nothing at any failing point; no statement runs twice; it fails exactly where a call of the driver has, and is then rolled back; closed and nested use is refused without effect |
| Transactions.DbMgr.Operation | snakelab/database/DbMgr.py:123-130 | a statement joins the transaction around it or is one of its own |
| Transactions.DbMgr.Close | snakelab/database/DbMgr.py:199-209 | refused inside a transaction, otherwise closed even if the driver fails |
| StoreCalls.SortIncreases | snakelab/database/SnakeDb.py:101 | rows in any order come out in step order |
| StoreCalls.FramesAreShownExactly | snakelab/database/SnakeDb.py:89-102 | whose frames are shown, which ones, and that they come in step order |
| StoreCalls.CallsTakeEffect | snakelab/database/MemorySimulationStore.py:22-79 | what each call leaves in memory, field by field, and that it leaves other runs alone |
| StoreRefinement.InsertedFrames | snakelab/database/SnakeDb.py:77-81 | the insert loop succeeds and leaves exactly the given frames |
| StoreRefinement.FinishReplacesFrames | snakelab/database/SnakeDb.py:75-81 | whatever frames a run has, a completed one that brings a list has exactly that list afterwards |
| StoreRefinement.CallsTouchTheirTables | snakelab/database/SnakeDb.py:39-87 | configurations come from creation only, episodes from recording only, frames from a completed run that brings some |
| StoreRefinement.CallAgrees | snakelab/database/SnakeDb.py:39-87 | a call the server makes is refused by no constraint and keeps tables and memory in agreement |
| StoreRefinement.LookupsAgree | snakelab/database/MemorySimulationStore.py:81-98 | after every history of proper calls, failed ones included, both stores answer both lookups alike; frames are equal exactly unless memory holds an empty list |
| ServerStores.WritesAreProper | snakelab/server/SimulationServer.py:100-124 | whatever calls a schedule of the server makes, and whichever fail, they are proper, and the store follows the server |
| ServerStores.StepTally | snakelab/server/SimulationServer.py:404-469 | the calls of each step in turn are allowed by what is stored, episodes come as 1, 2, and so on, and the stored status follows the step |
| ServerStores.ServerLookupsAgree | snakelab/database/MemorySimulationStore.py:81-98 | after every schedule of the server both stores answer both lookups alike |
| ServerStores.TablesFollowServer | snakelab/database/SnakeDb.py:51-87 | after every schedule the tables have exactly the server's runs with the status it has written |
| ServerStores.CompletedRunHasAllEpisodes | snakelab/server/SimulationServer.py:338-350 | whatever failed on the way, a run stored as completed has exactly the rows of episodes 1 to its number of epochs |
| ServerStores.CompletedRunShowsItsBestGame | snakelab/server/SimulationServer.py:371-390 | lookups of a run stored as completed give the snapshot and all frames of the last best of its games, each played to its end by the rules |
| StoreRefinement.RecoveryFailsExactlyUnfinished | snakelab/database/SnakeDb.py:32-37 | start-up recovery fails exactly the unfinished runs |
| Persistence.SelectFrames | snakelab/database/SnakeDb.py:98-99 | the rows of one run, each once, in any order |
| Persistence.SnakeDb.CreateRun | snakelab/database/SnakeDb.py:39-49 | run and configuration are committed together or not at all |
| Persistence.SnakeDb.RecordEpisode | snakelab/database/SnakeDb.py:59-68 | episode and progress are committed together or not at all |
| Persistence.SnakeDb.FinishRun | snakelab/database/SnakeDb.py:70-87 | frames and result are committed together or not at all |
| Persistence.SnakeDb.GetHighScoreFrames | snakelab/database/SnakeDb.py:89-102 | the committed answer in step order |
| Persistence.SnakeDb.GetHighScoreSnapshot | snakelab/database/SnakeDb.py:104-109 | the committed snapshot, none for an unknown run |
| Persistence.SnakeDb.SetStatus | snakelab/database/SnakeDb.py:51-57 | one status update, committed or not; `mark_started` is the one with running |
| Persistence.MemorySimulationStore.CreateRun | snakelab/database/MemorySimulationStore.py:22-42 | the specified new contents, or an error and no change |
| Persistence.MemorySimulationStore.FinishRun | snakelab/database/MemorySimulationStore.py:61-79 | the specified new contents, or an error and no change |
| StoredCaptures.CapturedFramesIncrease | snakelab/server/SimulationServer.py:374 | captured frames arrive in step order, as the stores' agreement needs |
| StoredCaptures.StoredFramesIncrease | snakelab/server/SimulationServer.py:374 | so do the frames that a completed run hands to the store |
| StoredCaptures.SnapshotTellsBestGame | snakelab/server/Simulator.py:68-74 | the snapshot's document has the number of the last best game, the move and the board of its first best position |
| StoredCaptures.FramesShowBestGame | snakelab/server/SimulationServer.py:374 | frame i of a completed run shows board i of that game, as move i |
| StoredCaptures.CapturedBoardsDecode | snakelab/server/Simulator.py:68-74 | every persisted board decodes to the board that was captured |
| BoardSnapshots.DecodeOfEncode | snakelab/game/BoardSnapshot.py:58-120 | decoding an encoding returns the board, exactly if its size is positive and its score not negative |
| BoardSnapshots.DocumentSpelledOut | snakelab/game/BoardSnapshot.py:112-120 | the document field by field |
| BoardSnapshots.SnapshotKeepsBoard | snakelab/game/BoardSnapshot.py:40-55 | a snapshot keeps size, snake, food, score and heading of the board |
| BoardSnapshots.EncodeOfDecode | snakelab/game/BoardSnapshot.py:58-120 | only encodings decode: what is accepted is the encoding of the result |
| BoardSnapshots.DocumentIsRefusedExactly | snakelab/game/BoardSnapshot.py:58-110 | which documents are refused, and with which error when several checks fail |
| Subscriptions.ChangesKeepTracking | snakelab/zmq/TelemetryPublisher.py:67-83 | kept filters plus notifications under way always give the live matching filters |
| Subscriptions.FlagFollowsClients | snakelab/zmq/TelemetryPublisher.py:67-83 | once notifications are in, a filter is kept exactly if some client's filter is a prefix of the topic |
| Telemetry.TelemetryPublisher.OfferEvent | snakelab/zmq/TelemetryPublisher.py:108-117 | the queue is a suffix of everything offered and never exceeds its capacity |
| Telemetry.TelemetryPublisher.OfferFrame | snakelab/zmq/TelemetryPublisher.py:92-100 | frames are queued exactly while somebody watches |
| Telemetry.TelemetryPublisher.Send | snakelab/zmq/TelemetryPublisher.py:119-130 | a message carries the number of earlier messages of its topic; an unwatched frame is dropped without a number |
| Telemetry.TelemetryPublisher.SendNext | snakelab/zmq/TelemetryPublisher.py:132-138 | what is sent is an in-order selection of what was offered |
| Telemetry.TelemetryPublisher.ReceiveSubscription | snakelab/zmq/TelemetryPublisher.py:72-83 | one notification updates filters and flag |
| Telemetry.NumbersCountUp | snakelab/zmq/TelemetryPublisher.py:124-126 | successive messages of a topic have successive numbers, drops or not |
| MutableJson.FillDefaults | snakelab/server/JSONValidator.py:21-31 | the loop builds new dictionaries that hold exactly the specified defaults |
| MutableJson.Dict.Copy | snakelab/server/JSONValidator.py:39 | a deep copy holds the same document in new dictionaries only |
| MutableJson.Dict.Merge | snakelab/server/JSONValidator.py:33-39 | the recursive in-place update, in any key order, gives the specified merge; the target gains only new dictionaries and the overrides stay as they are |
| MutableJson.ResolveDocument | snakelab/server/JSONValidator.py:51-67 | the resolved document consists of new dictionaries only, so nothing mutable is shared with schema or submission |
| DefaultMerge.MergeIsIdempotent | snakelab/server/JSONValidator.py:33-39 | merging defaults under a resolved document of any depth changes nothing |
| DefaultMerge.LeavesOfMerge | snakelab/server/JSONValidator.py:33-39 | a leaf of the result is a submitted leaf or a default that the submission leaves alone, and conversely |
| DefaultMerge.DefaultsComeFromSchema | snakelab/server/JSONValidator.py:21-31 | the defaults have a leaf at a path exactly if the first property with a default of its own on the way down has it |
| DefaultMerge.EmptyObjectsAreLeftOut | snakelab/server/JSONValidator.py:28-30 | a nested object without any default does not appear |
| DefaultMerge.ResolveIsIdempotent | snakelab/server/JSONValidator.py:51-67 | a resolved document resolves to itself |
| DefaultMerge.ResolveAcceptsExactly | snakelab/server/JSONValidator.py:51-67 | what is accepted is an object that passed validation with its defaults filled in; anything else gets its error |
| DefaultMerge.SubmittedLeavesSurvive | snakelab/server/JSONValidator.py:51-67 | every submitted leaf is still there |
| Configurations.RulesMeetConstructors | snakelab/server/Configuration.py:36-82 | for values in range all four constructors succeed exactly if the rules pass and the sizes they count with are held as integers |
| Configurations.SchemaImpliesRules | snakelab/schemas/simulation-config-v2.schema.json:27-211 | the schema's constants and ranges leave the cross-field rules nothing to reject |
| Configurations.RulesRejectExactly | snakelab/server/Configuration.py:37-82 | which rule rejects a configuration, and the first one when several are broken |
| Configurations.AcceptedIsConstructibleWhenWhole | snakelab/server/Configuration.py:36-82 | network, replay, epsilon and game can be built from an accepted configuration exactly if the sizes they count with are held as integers |
| Configurations.AcceptedRunsExactlyWhenWhole | snakelab/server/Simulator.py:322-346 | an accepted configuration runs exactly if epochs, network and replay sizes are integers and, with an episode to play, the game's too |
| Configurations.ConstructibleIsUsable | snakelab/server/Simulator.py:184-235 | the conditions of replay, epsilon and game together are exactly those under which the simulator is built here |
| Configurations.ConfigIsCarriedOver | snakelab/server/Simulator.py:184-235 | every number of the configuration reaches the component that wants it, in its own place |
| Configurations.SchemaBounds | snakelab/schemas/simulation-config-v2.schema.json:8-211 | which values the schema takes for each number |
| Configurations.FloatIsAcceptedButDoesNotRun | snakelab/server/Simulator.py:332 | each of ten sizes of the defaults, written as a float, is accepted and does not run; the defaults do |

## Left out

- PyTorch, numpy and float rounding: the model's answer is any action, a loss any number, floats are reals; float32 buffers hold the values unchanged.
- ZeroMQ sockets, JSON text and frame telemetry payloads: messages are values on abstract channels; delivery to subscribers is not modelled.
- MariaDB and its driver: committed and working tables; a commit whose failure report is ambiguous, SQL text, column widths and timestamps are not modelled. A failing rollback is taken to have lost its connection.
- Failing sends: the publishers' sockets are taken to accept what is sent; a publisher that stops ends the service like any other stop.
- Random generators and seed derivation: draws are arbitrary choices, so reproducibility from a seed is not stated.
- jsonschema validation in general: an arbitrary predicate in `DefaultMerge.Resolve`; the numeric part of the version 2 schema is written out in `Configurations.SchemaAccepts`.
- Type checks of Python arguments: Dafny's types stand for them, except for action indices, move delays and JSON values, where they decide behaviour.
- The worker's run is named by its identifier and looked up in the dictionary, whose record is the one the queue held.
- Lists inside JSON documents are values: the model's dictionaries share none, but does not treat them as objects of their own.
- LabServer.SimulationServer.Submit: does not model how a submitted document becomes a configuration; whether it is accepted is a parameter, and the resolved configuration is the one the run then executes.
- Persistence.MemorySimulationStore.RecordEpisode: its two dictionaries are required to know the same runs, as every other method keeps them.
- The text of an error: a run record and its event have an error or none.
- Progress counters of a run record (epochs, steps, rewards) and status payloads: copies of the simulator's state, which is proved there.
- Threads: the database lock is reentrant and serializes callers; the model has one caller.
- `Simulation.Simulator` leaves open whether a checkpoint raises, and says which checkpoints it meets; where a run is suspended, and which checkpoints see a flag, is in `RunAwaits` and `RunEndings`.
- A run's record keeps the turns of its recorded games in place of the simulator's own objects; what the simulator keeps of them is in `Simulation`.
- Starting the server, its socket loop, logging, the client, plots and deployment: plumbing that adds no further state.
- `measure_and_delete_benchmark` and `get_configuration` of the database layer: single reads and a delete beside the run lifecycle.
- `Trainer`'s optimizer and target network: only what it samples is stated.
