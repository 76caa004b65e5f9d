/** The episode loop and the run: play, record, train, and capture the best game. */
module Simulation {
  import opened Wrappers
  import opened Board
  import opened GameRules
  import opened GameInvariants
  import opened GameRuns
  import opened SnakeEnvironment
  import opened ReplayWindows
  import opened ReplayBuffer
  import opened EpsilonSchedule
  import opened EpisodeRecord
  import opened GameEndings
  import Chance

  datatype SimulationConfig = SimulationConfig(
    epochs: int,
    grid: Grid,
    initialLength: int,
    multiplier: int,
    rewards: Rewards,
    sequenceLength: int,
    batchSize: int,
    replayMaxFrames: int,
    epsilon: EpsilonConfig)

  function GameOf(c: SimulationConfig, seed: int, episode: int): GameConfig {
    GameConfig(seed, c.grid, c.initialLength, c.multiplier, c.rewards, episode)
  }

  datatype EpisodeResult = EpisodeResult(
    episode: int,
    seed: int,
    score: int,
    reward: real,
    steps: int,
    outcome: Outcome,
    epsilon: real,
    injections: int,
    loss: Option<real>)

  /** A board at one move of an episode. */
  datatype Capture = Capture(episode: int, board: GameState)

  /** The captures an episode has collected, turn by turn. */
  function Collected(episode: int, log: Log): (captures: seq<Capture>)
    ensures captures != []
  {
    (if log.Opening? then [] else Collected(episode, log.before)) + [Capture(episode, log.board)]
  }

  lemma {:induction false} CollectedBoards(episode: int, log: Log, i: nat)
    requires i < |log.Boards()|
    ensures |Collected(episode, log)| == |log.Boards()|
    ensures Collected(episode, log)[i] == Capture(episode, log.Boards()[i])
  {
    if log.Turn? {
      CollectedBoards(episode, log.before, if i < |log.before.Boards()| then i else 0);
    }
  }

  // ---- What the totals and the capture of a run stand for ----

  function StepTotal(history: seq<seq<Transition>>): nat {
    if history == [] then 0 else StepTotal(DropLast(history)) + |history[|history| - 1]|
  }

  function RewardTotal(history: seq<seq<Transition>>): real {
    if history == [] then 0.0 else RewardTotal(DropLast(history)) + RewardSum(history[|history| - 1])
  }

  /** The final scores of the played games. */
  function Scores(logs: seq<Log>): (scores: seq<int>)
    ensures |scores| == |logs|
  {
    seq(|logs|, k requires 0 <= k < |logs| => logs[k].board.score)
  }

  /** The last game with the highest score. */
  function BestGame(logs: seq<Log>): (k: nat)
    requires logs != []
    ensures k < |logs|
  {
    LastBest(Scores(logs))
  }

  /** The highest final score, or zero before any game. */
  function HighScore(logs: seq<Log>): int {
    if logs == [] then 0 else logs[BestGame(logs)].board.score
  }

  /** The board to capture: the best one of that game. */
  function BestSnapshot(logs: seq<Log>): Option<Capture> {
    if logs == [] then None else Some(Capture(BestGame(logs) + 1, logs[BestGame(logs)].Best()))
  }

  /** The frames to capture: all of that game. */
  function BestFrames(logs: seq<Log>): seq<Capture> {
    if logs == [] then [] else Collected(BestGame(logs) + 1, logs[BestGame(logs)])
  }

  /** A result tells the story of its game. */
  ghost predicate ResultOf(result: EpisodeResult, k: nat, log: Log, c: EpsilonConfig) {
    && log.Turn?
    && result.episode == k + 1
    && result.seed == log.board.seed
    && result.score == log.board.score
    && result.outcome == log.outcome
    && result.steps == |log.Moves()|
    && result.reward == RewardSum(log.Moves())
    && result.epsilon == EpsilonAfter(c, k)
  }

  /** Progress and results of one run, as a value. */
  datatype Progress = Progress(
    completedEpochs: int,
    totalSteps: int,
    highScore: int,
    totalReward: real,
    totalInjections: int,
    lastLoss: Option<real>,
    episodes: seq<EpisodeResult>,
    snapshot: Option<Capture>,
    frames: seq<Capture>)

  const NO_PROGRESS := Progress(0, 0, 0, 0.0, 0, None, [], None, [])

  function AfterRecord(p: Progress, result: EpisodeResult): Progress {
    p.(
      completedEpochs := p.completedEpochs + 1,
      totalSteps := p.totalSteps + result.steps,
      highScore := Max(p.highScore, result.score),
      totalReward := p.totalReward + result.reward,
      totalInjections := p.totalInjections + result.injections,
      lastLoss := result.loss,
      episodes := p.episodes + [result])
  }

  /** The first or an equally good episode replaces the capture; the high score is still the one before it. */
  function AfterCapture(p: Progress, result: EpisodeResult, best: GameState, frames: seq<Capture>): Progress {
    if p.snapshot == None || result.score >= p.highScore
    then p.(snapshot := Some(Capture(result.episode, best)), frames := frames)
    else p
  }

  ghost predicate ResultsOf(results: seq<EpisodeResult>, logs: seq<Log>, c: EpsilonConfig)
    requires |results| == |logs|
  {
    forall k | 0 <= k < |results| :: ResultOf(results[k], k, logs[k], c)
  }

  ghost predicate TotalsFit(p: Progress, history: seq<seq<Transition>>, injections: int) {
    && p.completedEpochs == |history|
    && p.totalSteps == StepTotal(history)
    && p.totalReward == RewardTotal(history)
    && p.totalInjections == injections
  }

  ghost predicate BestFits(p: Progress, logs: seq<Log>) {
    && p.highScore == HighScore(logs)
    && p.snapshot == BestSnapshot(logs)
    && p.frames == BestFrames(logs)
  }

  /** The last loss is that of the last episode. */
  predicate LossFits(p: Progress) {
    p.lastLoss == if p.episodes == [] then None else p.episodes[|p.episodes| - 1].loss
  }

  /** The progress agrees with the games played, the transitions stored and the actions injected. */
  ghost predicate Tally(
    p: Progress, logs: seq<Log>, history: seq<seq<Transition>>, injections: int, c: EpsilonConfig)
  {
    && |p.episodes| == |logs|
    && TotalsFit(p, history, injections)
    && BestFits(p, logs)
    && LossFits(p)
    && ResultsOf(p.episodes, logs, c)
  }

  class SimulationState {
    const totalEpochs: int
    var completedEpochs: int
    var totalSteps: int
    var highScore: int
    var totalReward: real
    var totalInjections: int
    var lastLoss: Option<real>
    var episodes: seq<EpisodeResult>
    var highScoreSnapshot: Option<Capture>
    var highScoreFrames: seq<Capture>

    ghost function View(): Progress
      reads this
    {
      Progress(
        completedEpochs, totalSteps, highScore, totalReward, totalInjections, lastLoss, episodes,
        highScoreSnapshot, highScoreFrames)
    }

    constructor (epochs: int)
      ensures totalEpochs == epochs && View() == NO_PROGRESS
    {
      totalEpochs := epochs;
      completedEpochs, totalSteps, highScore, totalInjections := 0, 0, 0, 0;
      totalReward, lastLoss, episodes := 0.0, None, [];
      highScoreSnapshot, highScoreFrames := None, [];
    }

    method Record(result: EpisodeResult)
      modifies this
      ensures View() == AfterRecord(old(View()), result)
    {
      episodes := episodes + [result];
      completedEpochs := completedEpochs + 1;
      totalSteps := totalSteps + result.steps;
      highScore := Max(highScore, result.score);
      totalReward := totalReward + result.reward;
      totalInjections := totalInjections + result.injections;
      lastLoss := result.loss;
    }
  }

  // ---- One more game ----

  lemma ScoresAppend(logs: seq<Log>, log: Log)
    ensures Scores(logs + [log]) == Scores(logs) + [log.board.score]
  {
  }

  lemma {:induction false} NoScoreIsNegative(log: Log, length: nat)
    requires log.Consistent(length)
    ensures 0 <= log.board.score
  {
    if log.Turn? {
      NoScoreIsNegative(log.before, length);
    }
  }

  lemma LastBestAppend(scores: seq<int>, score: int)
    ensures
      LastBest(scores + [score])
      == if scores == [] || score >= scores[LastBest(scores)] then |scores| else LastBest(scores)
  {
    assert DropLast(scores + [score]) == scores;
  }

  /** An equally good game takes over. */
  lemma BestGameFollows(logs: seq<Log>, log: Log)
    ensures
      BestGame(logs + [log]) == if logs == [] || log.board.score >= HighScore(logs) then |logs| else BestGame(logs)
  {
    ScoresAppend(logs, log);
    LastBestAppend(Scores(logs), log.board.score);
  }

  lemma HighScoreFollows(logs: seq<Log>, log: Log, length: nat)
    requires log.Consistent(length)
    ensures HighScore(logs + [log]) == Max(HighScore(logs), log.board.score)
  {
    NoScoreIsNegative(log, length);
    BestGameFollows(logs, log);
  }

  lemma TotalsFollow(history: seq<seq<Transition>>, ts: seq<Transition>)
    ensures StepTotal(history + [ts]) == StepTotal(history) + |ts|
    ensures RewardTotal(history + [ts]) == RewardTotal(history) + RewardSum(ts)
  {
    assert DropLast(history + [ts]) == history;
  }

  lemma ResultsFollow(
    results: seq<EpisodeResult>, logs: seq<Log>, result: EpisodeResult, log: Log, c: EpsilonConfig)
    requires |results| == |logs| && ResultsOf(results, logs, c) && ResultOf(result, |logs|, log, c)
    ensures ResultsOf(results + [result], logs + [log], c)
  {
  }

  lemma TotalsFitFollows(
    p: Progress, history: seq<seq<Transition>>, injections: int, result: EpisodeResult, ts: seq<Transition>)
    requires TotalsFit(p, history, injections) && result.steps == |ts| && result.reward == RewardSum(ts)
    ensures TotalsFit(AfterRecord(p, result), history + [ts], injections + result.injections)
  {
    TotalsFollow(history, ts);
  }

  /** Comparing with the high score before recording keeps the capture on the last best game. */
  lemma BestFitsFollows(p: Progress, logs: seq<Log>, result: EpisodeResult, log: Log, length: nat)
    requires BestFits(p, logs) && log.Consistent(length)
    requires result.episode == |logs| + 1 && result.score == log.board.score
    ensures
      var captured := AfterCapture(p, result, log.Best(), Collected(result.episode, log));
      BestFits(AfterRecord(captured, result), logs + [log])
  {
    HighScoreFollows(logs, log, length);
    BestGameFollows(logs, log);
    var k := BestGame(logs + [log]);
    assert (logs + [log])[k] == if k == |logs| then log else logs[k];
  }

  /** Capturing and then recording an episode keeps the tally. */
  lemma TallyFollows(
    p: Progress, captured: Progress, logs: seq<Log>, history: seq<seq<Transition>>, injections: int,
    c: EpsilonConfig, result: EpisodeResult, log: Log, length: nat)
    requires Tally(p, logs, history, injections, c)
    requires log.Consistent(length) && ResultOf(result, |logs|, log, c)
    requires captured == AfterCapture(p, result, log.Best(), Collected(result.episode, log))
    ensures
      Tally(
        AfterRecord(captured, result), logs + [log], history + [log.Moves()], injections + result.injections, c)
  {
    TotalsFitFollows(captured, history, injections, result, log.Moves());
    BestFitsFollows(p, logs, result, log, length);
    ResultsFollow(p.episodes, logs, result, log, c);
  }

  // ---- The run as a list of games ----

  /** The episodes of a run so far, each with the result that was recorded for it. */
  datatype Story = NoGames | OneMore(before: Story, result: EpisodeResult, log: Log) {
    function Count(): nat {
      if NoGames? then 0 else before.Count() + 1
    }

    function Logs(): (logs: seq<Log>)
      ensures |logs| == Count()
    {
      if NoGames? then [] else before.Logs() + [log]
    }

    function Moves(): (history: seq<seq<Transition>>)
      ensures |history| == Count()
    {
      if NoGames? then [] else before.Moves() + [log.Moves()]
    }

    function Injections(): int {
      if NoGames? then 0 else before.Injections() + result.injections
    }

    /** Each episode is captured before it is recorded. */
    function Told(): Progress {
      if NoGames? then NO_PROGRESS
      else
        AfterRecord(AfterCapture(before.Told(), result, log.Best(), Collected(result.episode, log)), result)
    }

    /** Every game is one of the configured kind, played to its end, and has its result. */
    ghost predicate Faithful(length: nat, c: SimulationConfig) {
      NoGames? ||
      (&& before.Faithful(length, c) && log.Faithful(length) && log.game.done
       && log.game.config == GameOf(c, log.game.config.seed, before.Count() + 1)
       && ResultOf(result, before.Count(), log, c.epsilon))
    }
  }

  /** A game that has been played, with a result that fits it whatever its loss. */
  lemma StoryGrows(
    story: Story, played: EpisodeResult, result: EpisodeResult, log: Log, length: nat, c: SimulationConfig, e: int)
    requires story.Faithful(length, c) && log.Faithful(length) && log.game.done
    requires e == story.Count() + 1 && log.game.config == GameOf(c, log.game.config.seed, e)
    requires ResultOf(played, e - 1, log, c.epsilon) && result == played.(loss := result.loss)
    ensures
      var longer := OneMore(story, result, log);
      && longer.Faithful(length, c) && longer.Count() == story.Count() + 1
      && longer.Moves() == story.Moves() + [log.Moves()] && longer.Logs() == story.Logs() + [log]
  {
  }

  /** The progress of a run agrees with the games it has played. */
  lemma {:induction false} StoryTallies(story: Story, length: nat, c: SimulationConfig)
    requires story.Faithful(length, c)
    ensures Tally(story.Told(), story.Logs(), story.Moves(), story.Injections(), c.epsilon)
  {
    if story.OneMore? {
      var p := story.before.Told();
      StoryTallies(story.before, length, c);
      TallyFollows(
        p, AfterCapture(p, story.result, story.log.Best(), Collected(story.result.episode, story.log)),
        story.before.Logs(), story.before.Moves(), story.before.Injections(), c.epsilon, story.result, story.log,
        length);
    }
  }

  /** The outcome on record says exactly whether the game reached the highest score there is. */
  lemma OutcomeTellsFullBoard(log: Log)
    requires log.Turn? && log.Genuine() && 2 <= log.game.config.initialLength
    ensures
      var c := log.game.config;
      && log.board.score <= c.grid.width * c.grid.height - c.initialLength
      && (log.board.score == c.grid.width * c.grid.height - c.initialLength <==> log.outcome == BoardFilled)
  {
    GenuineBefore(log);
    LogIsSound(log.before);
    LogIsSound(log);
    ScoreBound(log.game);
    MaximalScoreIsBoardFilled(log.before.game, log.move.action, log.draw);
  }

  /** Every result of a run is that of a play of the configured game to its end. */
  lemma {:induction false} ResultsAreOfRealGames(story: Story, length: nat, c: SimulationConfig, k: nat)
    requires story.Faithful(length, c) && k < story.Count()
    ensures
      var log := story.Logs()[k];
      var setup := log.game.config;
      && log.Turn? && log.game.done && log.Genuine()
      && setup.grid == c.grid && setup.initialLength == c.initialLength && setup.multiplier == c.multiplier
      && setup.rewards == c.rewards && setup.episodeId == k + 1 && Accepted(setup)
      && Play(GameRuns.NewGame(setup, log.FirstDraw()), log.Calls()) == log.game
      && (2 <= c.initialLength ==>
            (log.outcome == BoardFilled <==> log.board.score == c.grid.width * c.grid.height - c.initialLength))
  {
    if k == story.Count() - 1 {
      LogIsPlay(story.log);
      if 2 <= c.initialLength {
        OutcomeTellsFullBoard(story.log);
      }
    } else {
      ResultsAreOfRealGames(story.before, length, c, k);
    }
  }

  /** Every stored reward is the one that the configuration of the run has for what happened. */
  lemma StoredRewardsAreConfigured(story: Story, length: nat, c: SimulationConfig, k: nat, turn: Log)
    requires story.Faithful(length, c) && k < story.Count()
    requires turn.Turn? && turn.StartOf(story.Logs()[k])
    ensures turn.before.board.food.Some?
    ensures Pays(
              turn.move.reward, turn.outcome, c.rewards,
              turn.before.board.head, turn.board.head, turn.before.board.food.value)
  {
    ResultsAreOfRealGames(story, length, c, k);
    StartsAreGenuine(turn, story.Logs()[k]);
    TurnPays(turn);
  }

  lemma {:induction false} StoryIsStored(story: Story, length: nat, c: SimulationConfig)
    requires story.Faithful(length, c)
    ensures Stored(story.Logs(), story.Moves(), length)
    decreases story, 0
  {
    if story.OneMore? {
      EpisodeIsStored(story.before, story.log, length, c);
    }
  }

  lemma {:induction false} EpisodeIsStored(story: Story, log: Log, length: nat, c: SimulationConfig)
    requires story.Faithful(length, c) && log.Faithful(length)
    ensures Stored(story.Logs() + [log], story.Moves() + [log.Moves()], length)
    decreases story, 1
  {
    StoryIsStored(story, length, c);
  }

  /** No game did better than the captured one, and none after it as well. */
  lemma CapturedGameIsLastBest(logs: seq<Log>, e: nat)
    requires e < |logs|
    ensures BestSnapshot(logs).Some? && 1 <= BestSnapshot(logs).value.episode <= |logs|
    ensures
      var k := BestSnapshot(logs).value.episode - 1;
      && BestFrames(logs) == Collected(k + 1, logs[k])
      && logs[e].board.score <= logs[k].board.score
      && (k < e ==> logs[e].board.score < logs[k].board.score)
  {
    LastBestMeaning(Scores(logs), e);
  }

  /** A capture has one frame per move, from the start to the last one, without a gap. */
  lemma CollectedFramesHaveNoGap(episode: int, log: Log, length: nat, i: nat)
    requires log.Consistent(length) && i < |Collected(episode, log)|
    ensures |Collected(episode, log)| == |log.Moves()| + 1
    ensures Collected(episode, log)[i].episode == episode && Collected(episode, log)[i].board.moveCount == i
  {
    LogIsWholeGame(log, length);
    CollectedBoards(episode, log, 0);
    CollectedBoards(episode, log, i);
  }

  /** The snapshot is the first frame that has the game's final score, which no frame exceeds. */
  lemma SnapshotIsFirstBestFrame(episode: int, log: Log, length: nat, i: nat)
    requires log.Consistent(length) && i < |Collected(episode, log)|
    ensures Capture(episode, log.Best()) in Collected(episode, log)
    ensures Collected(episode, log)[i].board.score <= log.Best().score == log.board.score
    ensures i < log.Best().moveCount ==> Collected(episode, log)[i].board.score < log.board.score
  {
    var boards := log.Boards();
    LogIsWholeGame(log, length);
    CollectedBoards(episode, log, 0);
    CollectedBoards(episode, log, i);
    LogKeepsBest(log);
    FirstBestMeaning(boards, i);
    FirstBestHasFinalScore(boards);
    CollectedBoards(episode, log, FirstBest(boards));
  }

  // ---- The simulator ----

  /** The constructors of all components accept the configuration. */
  predicate Usable(c: SimulationConfig) {
    && Accepted(GameOf(c, 0, 1))
    && CheckSizes(OBSERVATION_SIZE, c.sequenceLength, c.batchSize, c.replayMaxFrames).None?
    && CheckEpsilon(c.epsilon).None?
    && c.epsilon.actionCount == ACTION_COUNT
  }

  /** What exploration draws from are the action indices of the game. */
  lemma ExplorationCoversActions(index: int)
    ensures 0 <= index < ACTION_COUNT <==> NormalizeAction(index).Ok?
  {
  }

  lemma GameIsAccepted(c: SimulationConfig, seed: int, episode: int)
    requires Usable(c) && 0 < episode
    ensures Accepted(GameOf(c, seed, episode))
  {
  }

  /** The finalized transitions are exactly the moves of the games played so far. */
  ghost predicate Stored(logs: seq<Log>, history: seq<seq<Transition>>, length: nat) {
    && |logs| == |history|
    && forall k | 0 <= k < |logs| :: logs[k].Consistent(length) && history[k] == logs[k].Moves()
  }

  function ChoicesOf(logs: seq<Log>): (choices: seq<seq<Choice>>)
    ensures |choices| == |logs|
  {
    seq(|logs|, k requires 0 <= k < |logs| => logs[k].Choices())
  }

  lemma StoredIsRecorded(logs: seq<Log>, history: seq<seq<Transition>>, length: nat)
    requires Stored(logs, history, length)
    ensures AllRecorded(history, ChoicesOf(logs), length)
  {
    forall k | 0 <= k < |logs| ensures Recorded(history[k], ChoicesOf(logs)[k], length) {
      LogIsRecorded(logs[k], length);
    }
  }

  datatype RunEnd = Completed | Cancelled | Failed | AlreadyStarted

  /** The operator's checkpoints and the listener to results, as the simulation meets them. */
  class Runtime {
    /** Checkpoints passed without and with a delay, results reported, and whether one of these has raised. */
    ghost var starts: nat
    ghost var passes: nat
    ghost var reports: nat
    ghost var cancelled: bool
    ghost var failed: bool

    constructor ()
      ensures starts == passes == reports == 0 && !cancelled && !failed
    {
      starts, passes, reports, cancelled, failed := 0, 0, 0, false, false;
    }

    /** The checkpoint before an episode. */
    method StartCheckpoint() returns (raised: bool)
      modifies this`starts, this`cancelled
      ensures cancelled == (old(cancelled) || raised) && starts == old(starts) + (if raised then 0 else 1)
    {
      raised := *;
      cancelled := cancelled || raised;
      starts := starts + (if raised then 0 else 1);
    }

    /** The checkpoints after a move and between episodes, which apply the delay. */
    method Checkpoint() returns (raised: bool)
      modifies this`passes, this`cancelled
      ensures cancelled == (old(cancelled) || raised) && passes == old(passes) + (if raised then 0 else 1)
    {
      raised := *;
      cancelled := cancelled || raised;
      passes := passes + (if raised then 0 else 1);
    }

    method OnEpisode() returns (raised: bool)
      modifies this`reports, this`failed
      ensures failed == (old(failed) || raised) && reports == old(reports) + (if raised then 0 else 1)
    {
      raised := *;
      failed := failed || raised;
      reports := reports + (if raised then 0 else 1);
    }
  }

  class Simulator {
    const config: SimulationConfig
    const seeds: int -> int
    const replay: ReplayMemory
    const epsilon: EpsilonAlgo
    const state: SimulationState
    const runtime: Runtime
    var started: bool

    /** Every completed episode with its result. */
    ghost var story: Story

    /** What the policy was shown in the open episode. */
    ghost var asked: seq<Choice>

    /** The components were built from one usable configuration. Nothing of this ever changes. */
    ghost predicate Wired() {
      && Usable(config)
      && replay.stateSize == OBSERVATION_SIZE && replay.sequenceLength == config.sequenceLength
      && replay.batchSize == config.batchSize && replay.maxFrames == config.replayMaxFrames
      && epsilon.config == config.epsilon
    }

    /** The components are sound. */
    ghost predicate Ready()
      reads replay, epsilon
    {
      replay.Valid() && epsilon.Valid()
    }

    /** What the components hold comes from the games played so far. */
    ghost predicate Valid()
      reads this, replay, epsilon
    {
      && Ready()
      && epsilon.episodes == story.Count()
      && story.Faithful(replay.sequenceLength, config)
      && replay.history == story.Moves()
    }

    /** The run-level state tells the story of the games played so far. */
    ghost predicate Tallied()
      reads this, epsilon, state
    {
      && state.View() == story.Told()
      && story.Injections() + epsilon.episodeInjections == epsilon.totalInjections
    }

    /** Components, record and run-level state agree. */
    ghost predicate Sound()
      reads this, replay, epsilon, state
    {
      Valid() && Tallied()
    }

    /** No checkpoint and no report yet. */
    ghost predicate Untouched()
      reads runtime
    {
      && runtime.starts == runtime.passes == runtime.reports == 0
      && !runtime.cancelled && !runtime.failed
    }

    constructor (c: SimulationConfig, seeds: int -> int)
      requires Usable(c)
      ensures Wired() && Sound() && !started && story == NoGames && replay.current == []
      ensures config == c && state.totalEpochs == c.epochs && epsilon.episodeInjections == 0
      ensures fresh(replay) && fresh(epsilon) && fresh(state) && fresh(runtime)
      ensures Untouched()
    {
      config := c;
      this.seeds := seeds;
      replay := new ReplayMemory.Start(OBSERVATION_SIZE, c.sequenceLength, c.batchSize, c.replayMaxFrames);
      epsilon := new EpsilonAlgo.Start(c.epsilon);
      state := new SimulationState(c.epochs);
      runtime := new Runtime();
      started, story, asked := false, NoGames, [];
    }

    /**
     * Exploration first, then the network, asked about exactly this history; the answer goes on record. A draw `u`
     * below epsilon injects the random action `pick`.
     */
    method SelectAction(history: seq<Obs>, u: real, pick: nat, policy: seq<Obs> -> nat) returns (action: nat)
      requires Wired() && Ready() && 0.0 <= u < 1.0 && pick < ACTION_COUNT && policy(history) < ACTION_COUNT
      modifies this`asked, epsilon`episodeInjections, epsilon`totalInjections
      ensures Ready() && action < ACTION_COUNT
      ensures action == if u < epsilon.epsilon then pick else policy(history)
      ensures asked == old(asked) + [Choice(history, action)]
      ensures epsilon.episodeInjections == old(epsilon.episodeInjections) + (if u < epsilon.epsilon then 1 else 0)
      ensures epsilon.totalInjections - epsilon.episodeInjections
           == old(epsilon.totalInjections) - old(epsilon.episodeInjections)
    {
      var injected := epsilon.MaybeRandomAction(u, pick);
      if injected.Some? {
        action := injected.value;
      } else {
        action := policy(history);
      }
      asked := asked + [Choice(history, action)];
    }

    /** Every row of a drawn batch is a window that the policy was shown, and a stretch of stored transitions. */
    lemma RowsWereShown(logs: seq<Log>, ids: seq<nat>)
      requires replay.Valid() && AllShaped(replay.episodes)
      requires Stored(logs, replay.history, replay.sequenceLength) && |ids| == replay.batchSize
      requires forall b | 0 <= b < replay.batchSize ::
                 ids[b] < |WindowList(replay.episodes, replay.sequenceLength)|
                 && replay.Row(b) == WindowList(replay.episodes, replay.sequenceLength)[ids[b]]
      ensures AllContiguous(replay.history) && BatchWasShown(logs)
    {
      StoredIsRecorded(logs, replay.history, replay.sequenceLength);
      forall b | 0 <= b < replay.batchSize
        ensures WasShown(ChoicesOf(logs), Choice(replay.Row(b).states, replay.Row(b).action))
      {
        ListedWindowWasShown(replay, ChoicesOf(logs), ids[b]);
      }
    }

    /** Train on one batch if replay holds enough windows. */
    method Train(ghost logs: seq<Log>) returns (loss: Option<real>)
      requires Wired() && Ready() && Stored(logs, replay.history, replay.sequenceLength)
      modifies replay.batchStates, replay.batchNextStates
      modifies replay.batchActions, replay.batchRewards, replay.batchDones
      ensures loss.Some? == (replay.batchSize <= replay.totalWindows)
      ensures loss.Some? ==> BatchWasShown(logs)
      ensures loss.Some? ==> forall b | 0 <= b < replay.batchSize ::
                WasStored(replay.history, replay.Row(b), replay.sequenceLength)
    {
      var ids: seq<nat> := [];
      if replay.batchSize <= replay.totalWindows {
        ids := Chance.SampleIds(replay.totalWindows, replay.batchSize);
      }
      var filled := replay.Sample(ids);
      if !filled {
        return None;
      }
      RowsWereShown(logs, ids);
      var value := Chance.Loss();
      loss := Some(value);
    }

    ghost predicate BatchWasShown(logs: seq<Log>)
      requires replay.Buffers()
      reads replay, replay.batchStates, replay.batchNextStates
      reads replay.batchActions, replay.batchRewards, replay.batchDones
    {
      forall b | 0 <= b < replay.batchSize ::
        WasShown(ChoicesOf(logs), Choice(replay.Row(b).states, replay.Row(b).action))
    }

    /** Step the game and store the transition. */
    method StepAndStore(
      game: SnakeGame, action: nat, observation: Obs, ghost history: seq<Obs>, ghost log: Log)
      returns (step: StepResult, ghost longer: Log)
      requires Wired() && replay.Valid() && game.Valid() && !game.done && action < ACTION_COUNT
      requires log.Faithful(config.sequenceLength) && log.game == game.View() && replay.current == log.Moves()
      requires observation == Observation(game.state) && history == HistoryAt(log.Seen(), config.sequenceLength)
      modifies game, replay
      ensures replay.Valid() && game.Valid() && game.state == step.newState && game.done == step.done
      ensures step.newState.moveCount == old(game.state.moveCount) + 1
      ensures !step.done ==> step.newState.moveCount <= MoveLimit(game.config)
      ensures longer.Turn? && longer.before == log && longer.game == game.View()
      ensures longer.Faithful(config.sequenceLength) && longer.choice == Choice(history, action)
      ensures longer.move.reward == step.reward && longer.outcome == step.outcome
      ensures step.done ==> replay.history == old(replay.history) + [longer.Moves()] && replay.current == []
      ensures !step.done ==> replay.history == old(replay.history) && replay.current == longer.Moves()
    {
      var draw := Chance.Index();
      var reply := game.Step(action, draw);
      step := reply.value;
      var t := Transition(observation, action, step.reward, step.Observed(), step.done);
      var problem := replay.Append(t);
      longer := Turn(log, game.View(), draw, t, Choice(history, action), step.outcome);
      GenuineTurn(longer);
    }

    /** One turn of the episode loop: choose, step, and store the transition. */
    method PlayMove(game: SnakeGame, history: seq<Obs>, observation: Obs, ghost log: Log)
      returns (step: StepResult, ghost longer: Log)
      requires Wired() && Ready() && game.Valid() && !game.done
      requires log.Faithful(config.sequenceLength) && log.game == game.View() && replay.current == log.Moves()
      requires observation == Observation(game.state) && history == HistoryAt(log.Seen(), config.sequenceLength)
      requires asked == log.Choices()
      modifies this`asked, game, replay, epsilon`episodeInjections, epsilon`totalInjections
      ensures Ready() && game.Valid() && game.state == step.newState && game.done == step.done
      ensures step.newState.moveCount == old(game.state.moveCount) + 1
      ensures !step.done ==> step.newState.moveCount <= MoveLimit(game.config)
      ensures longer.Turn? && longer.before == log && longer.game == game.View()
      ensures longer.Faithful(config.sequenceLength) && asked == longer.Choices()
      ensures longer.move.reward == step.reward && longer.outcome == step.outcome
      ensures step.done ==> replay.history == old(replay.history) + [longer.Moves()] && replay.current == []
      ensures !step.done ==> replay.history == old(replay.history) && replay.current == longer.Moves()
      ensures epsilon.totalInjections - epsilon.episodeInjections
           == old(epsilon.totalInjections) - old(epsilon.episodeInjections)
    {
      var u := Chance.Uniform();
      var pick := Chance.IndexBelow(ACTION_COUNT);
      var policy := Chance.Network(ACTION_COUNT);
      var action := SelectAction(history, u, pick, policy);
      step, longer := StepAndStore(game, action, observation, history, log);
    }

    /** The bounded history takes the next observation and drops its oldest; then comes the checkpoint. */
    method RememberAndCheck(history: seq<Obs>, observation: Obs, ghost seen: seq<Obs>)
      returns (next: seq<Obs>, raised: bool)
      requires Wired() && seen != [] && history == HistoryAt(seen, config.sequenceLength)
      modifies runtime`passes, runtime`cancelled
      ensures next == HistoryAt(seen + [observation], config.sequenceLength)
      ensures runtime.cancelled == (old(runtime.cancelled) || raised)
      ensures runtime.passes == old(runtime.passes) + (if raised then 0 else 1)
    {
      HistoryAppend(seen, observation, config.sequenceLength);
      next := (history + [observation])[1..];
      raised := runtime.Checkpoint();
    }

    /** The start of an episode: its first board, observation and history. */
    method PlayEpisode(game: SnakeGame, episode: int, ghost draw: nat)
      returns (
        cancelled: bool, best: GameState, frames: seq<Capture>, reward: real, outcome: Outcome, ghost log: Log)
      requires Wired() && Ready() && replay.current == []
      requires game.Valid() && game.View() == GameRuns.NewGame(game.config, draw)
      modifies this`asked, game, replay, epsilon`episodeInjections, epsilon`totalInjections
      modifies runtime`passes, runtime`cancelled
      ensures Ready()
      ensures runtime.cancelled == (old(runtime.cancelled) || cancelled)
      ensures runtime.passes == old(runtime.passes) + log.board.moveCount - 1
      ensures epsilon.totalInjections - epsilon.episodeInjections
           == old(epsilon.totalInjections) - old(epsilon.episodeInjections)
      ensures cancelled ==> replay.history == old(replay.history)
      ensures !cancelled ==> replay.history == old(replay.history) + [log.Moves()] && replay.current == []
      ensures !cancelled ==> asked == log.Choices() && log.Turn? && outcome == log.outcome
      ensures !cancelled ==> log.Faithful(config.sequenceLength) && log.game == game.View() && game.done
      ensures !cancelled ==> best == log.Best() && reward == log.Reward() && frames == Collected(episode, log)
    {
      var observation := Observe(game.state);
      var history := seq(config.sequenceLength, _ => observation);
      asked, log := [], Opening(game.View(), draw);
      GenuineOpening(log);
      HistoryStart(observation, config.sequenceLength);
      cancelled, best, frames, reward, outcome, log := PlayTurns(game, episode, observation, history, log);
    }

    /** The episode loop. It ends with the game, or at a checkpoint that finds a cancellation. */
    method PlayTurns(game: SnakeGame, episode: int, first: Obs, padded: seq<Obs>, ghost begun: Log)
      returns (
        cancelled: bool, best: GameState, frames: seq<Capture>, reward: real, outcome: Outcome, ghost log: Log)
      requires Wired() && Ready() && game.Valid() && !game.done && game.state.moveCount <= MoveLimit(game.config)
      requires begun.Opening? && begun.Faithful(config.sequenceLength) && begun.game == game.View()
      requires first == Observation(game.state) && padded == HistoryAt(begun.Seen(), config.sequenceLength)
      requires replay.current == [] && asked == []
      modifies this`asked, game, replay, epsilon`episodeInjections, epsilon`totalInjections
      modifies runtime`passes, runtime`cancelled
      ensures Ready()
      ensures runtime.cancelled == (old(runtime.cancelled) || cancelled)
      ensures runtime.passes == old(runtime.passes) + log.board.moveCount - 1
      ensures epsilon.totalInjections - epsilon.episodeInjections
           == old(epsilon.totalInjections) - old(epsilon.episodeInjections)
      ensures cancelled ==> replay.history == old(replay.history)
      ensures !cancelled ==> replay.history == old(replay.history) + [log.Moves()] && replay.current == []
      ensures !cancelled ==> asked == log.Choices() && log.Turn? && outcome == log.outcome
      ensures !cancelled ==> log.Faithful(config.sequenceLength) && log.game == game.View() && game.done
      ensures !cancelled ==> best == log.Best() && reward == log.Reward() && frames == Collected(episode, log)
    {
      best := game.state;
      frames := [Capture(episode, best)];
      reward := 0.0;
      log := begun;
      var observation, history := first, padded;
      while true
        invariant Ready() && game.Valid() && !game.done && game.state.moveCount <= MoveLimit(game.config)
        invariant log.Faithful(config.sequenceLength) && log.game == game.View()
        invariant observation == Observation(game.state) && history == HistoryAt(log.Seen(), config.sequenceLength)
        invariant replay.history == old(replay.history) && replay.current == log.Moves() && asked == log.Choices()
        invariant best == log.Best() && reward == log.Reward() && frames == Collected(episode, log)
        invariant runtime.passes == old(runtime.passes) + log.board.moveCount
        invariant runtime.cancelled == old(runtime.cancelled)
        invariant epsilon.totalInjections - epsilon.episodeInjections
               == old(epsilon.totalInjections) - old(epsilon.episodeInjections)
        decreases MoveLimit(game.config) - game.state.moveCount
      {
        ghost var shorter := log;
        var step;
        step, log := PlayMove(game, history, observation, shorter);
        frames := frames + [Capture(episode, step.newState)];
        if step.newState.score > best.score {
          best := step.newState;
        }
        reward := reward + step.reward;
        outcome := step.outcome;
        cancelled := false;
        if step.done {
          break;
        }
        observation := step.Observed();
        history, cancelled := RememberAndCheck(history, observation, shorter.Seen());
        if cancelled {
          break;
        }
      }
    }

    /** Play one episode to its end, unless a checkpoint finds a cancellation; then train and capture. */
    method RunEpisode(episode: int) returns (r: Option<EpisodeResult>)
      requires Wired() && Valid() && replay.current == [] && epsilon.episodeInjections == 0
      requires episode == story.Count() + 1
      modifies this`asked, this`story, replay, epsilon, state
      modifies replay.batchStates, replay.batchNextStates
      modifies replay.batchActions, replay.batchRewards, replay.batchDones
      modifies runtime`passes, runtime`cancelled
      ensures runtime.cancelled == (old(runtime.cancelled) || r.None?)
      ensures r.Some? ==> runtime.passes == old(runtime.passes) + r.value.steps - 1
      ensures Valid()
      ensures r.None? ==> story == old(story) && state.View() == old(state.View())
      ensures r.None? ==> epsilon.totalInjections - epsilon.episodeInjections == old(epsilon.totalInjections)
      ensures r.Some? ==> replay.current == [] && epsilon.episodeInjections == 0
      ensures r.Some? ==> epsilon.totalInjections == old(epsilon.totalInjections) + r.value.injections
      ensures r.Some? ==> story.OneMore? && story.before == old(story) && story.result == r.value
      ensures r.Some? ==>
                state.View()
                == AfterCapture(old(state.View()), r.value, story.log.Best(), Collected(r.value.episode, story.log))
      ensures r.Some? && r.value.loss.Some? ==> BatchWasShown(story.Logs())
    {
      ghost var draw;
      var game;
      game, draw := NewGame(episode);
      var startEpsilon := epsilon.epsilon;
      var cancelled, best, frames, reward, outcome;
      ghost var log;
      cancelled, best, frames, reward, outcome, log := PlayEpisode(game, episode, draw);
      r := None;
      if !cancelled {
        var played := Summary(game, episode, reward, outcome, startEpsilon, log);
        var result := FinishEpisode(played, best, frames, episode, log);
        r := Some(result);
      }
    }

    /** Close an episode that has been played, and add it to the story. */
    method FinishEpisode(
      played: EpisodeResult, best: GameState, frames: seq<Capture>, ghost episode: int, ghost log: Log)
      returns (result: EpisodeResult)
      requires Wired() && Ready() && epsilon.episodes == story.Count() && episode == story.Count() + 1
      requires story.Faithful(replay.sequenceLength, config) && replay.history == story.Moves() + [log.Moves()]
      requires log.Faithful(replay.sequenceLength) && log.game.done
      requires log.game.config == GameOf(config, log.game.config.seed, episode)
      requires ResultOf(played, episode - 1, log, config.epsilon)
      modifies this`story, epsilon, state
      modifies replay.batchStates, replay.batchNextStates
      modifies replay.batchActions, replay.batchRewards, replay.batchDones
      ensures Valid() && epsilon.episodeInjections == 0 && epsilon.totalInjections == old(epsilon.totalInjections)
      ensures result == played.(loss := result.loss) && story == OneMore(old(story), result, log)
      ensures state.View() == AfterCapture(old(state.View()), result, best, frames)
      ensures result.loss.Some? ==> BatchWasShown(story.Logs())
    {
      ghost var told := story;
      result := CloseStored(played, best, frames, log);
      StoryGrows(told, played, result, log, replay.sequenceLength, config, episode);
      story := OneMore(told, result, log);
    }

    method CloseStored(played: EpisodeResult, best: GameState, frames: seq<Capture>, ghost log: Log)
      returns (result: EpisodeResult)
      requires Wired() && Ready() && replay.history == story.Moves() + [log.Moves()]
      requires story.Faithful(replay.sequenceLength, config) && log.Faithful(replay.sequenceLength)
      modifies epsilon, state
      modifies replay.batchStates, replay.batchNextStates
      modifies replay.batchActions, replay.batchRewards, replay.batchDones
      ensures Ready() && epsilon.episodes == old(epsilon.episodes) + 1
      ensures epsilon.episodeInjections == 0 && epsilon.totalInjections == old(epsilon.totalInjections)
      ensures result == played.(loss := result.loss)
      ensures result.loss.Some? ==> BatchWasShown(story.Logs() + [log])
      ensures state.View() == AfterCapture(old(state.View()), result, best, frames)
    {
      EpisodeIsStored(story, log, replay.sequenceLength, config);
      result := CloseEpisode(played, best, frames, story.Logs() + [log]);
    }

    /** The result of a game that is over, before training. */
    method Summary(
      game: SnakeGame, episode: int, reward: real, outcome: Outcome, startEpsilon: real, ghost log: Log)
      returns (played: EpisodeResult)
      requires Wired() && log.Faithful(config.sequenceLength) && log.Turn? && log.game == game.View() && 0 < episode
      requires reward == log.Reward() && outcome == log.outcome
      requires startEpsilon == EpsilonAfter(config.epsilon, episode - 1)
      ensures ResultOf(played, episode - 1, log, config.epsilon)
      ensures played.injections == epsilon.episodeInjections && played.steps == log.board.moveCount
    {
      LogCounts(log, config.sequenceLength);
      LogKeepsBest(log);
      played := EpisodeResult(
        episode, game.state.seed, game.state.score, reward, game.state.moveCount, outcome,
        startEpsilon, epsilon.episodeInjections, None);
    }

    method NewGame(episode: int) returns (game: SnakeGame, ghost drawn: nat)
      requires Usable(config) && 0 < episode
      ensures fresh(game) && game.Valid() && game.config == GameOf(config, seeds(episode), episode)
      ensures game.View() == GameRuns.NewGame(game.config, drawn)
    {
      GameIsAccepted(config, seeds(episode), episode);
      var draw := Chance.Index();
      game := new SnakeGame.Start(GameOf(config, seeds(episode), episode), draw);
      drawn := draw;
    }

    /** The first or an equally good game replaces the capture. */
    method KeepBetter(result: EpisodeResult, best: GameState, frames: seq<Capture>)
      modifies state
      ensures state.View() == AfterCapture(old(state.View()), result, best, frames)
    {
      if state.highScoreSnapshot == None || result.score >= state.highScore {
        state.highScoreSnapshot := Some(Capture(result.episode, best));
        state.highScoreFrames := frames;
      }
    }

    /** The end of an episode: train, advance the schedule, and keep the better capture. */
    method CloseEpisode(played: EpisodeResult, best: GameState, frames: seq<Capture>, ghost logs: seq<Log>)
      returns (result: EpisodeResult)
      requires Wired() && Ready() && Stored(logs, replay.history, replay.sequenceLength)
      modifies epsilon, state
      modifies replay.batchStates, replay.batchNextStates
      modifies replay.batchActions, replay.batchRewards, replay.batchDones
      ensures Ready() && epsilon.episodes == old(epsilon.episodes) + 1
      ensures epsilon.episodeInjections == 0 && epsilon.totalInjections == old(epsilon.totalInjections)
      ensures result == played.(loss := result.loss)
      ensures result.loss.Some? == (replay.batchSize <= replay.totalWindows)
      ensures result.loss.Some? ==> BatchWasShown(logs)
      ensures state.View() == AfterCapture(old(state.View()), result, best, frames)
    {
      var loss := Train(logs);
      result := played.(loss := loss);
      var _, _ := epsilon.EpisodeCompleted();
      KeepBetter(result, best, frames);
    }

    /** One episode and its record. */
    method RunAndRecord(episode: int) returns (cancelled: bool)
      requires Wired() && Sound() && replay.current == [] && epsilon.episodeInjections == 0
      requires episode == story.Count() + 1
      modifies this`asked, this`story, replay, epsilon, state
      modifies replay.batchStates, replay.batchNextStates
      modifies replay.batchActions, replay.batchRewards, replay.batchDones
      modifies runtime`passes, runtime`cancelled
      ensures Sound()
      ensures runtime.cancelled == (old(runtime.cancelled) || cancelled)
      ensures !cancelled ==> story.Count() == episode && replay.current == [] && epsilon.episodeInjections == 0
      ensures !cancelled ==>
                runtime.passes - old(runtime.passes) == state.totalSteps - old(state.totalSteps) - 1
    {
      var result := RunEpisode(episode);
      cancelled := result.None?;
      if !cancelled {
        state.Record(result.value);
      }
    }

    /** An episode behind its checkpoint. */
    method CheckAndRun(episode: int) returns (cancelled: bool)
      requires Wired() && Sound() && replay.current == [] && epsilon.episodeInjections == 0
      requires episode == story.Count() + 1
      modifies this`asked, this`story, replay, epsilon, state
      modifies replay.batchStates, replay.batchNextStates
      modifies replay.batchActions, replay.batchRewards, replay.batchDones
      modifies runtime`starts, runtime`passes, runtime`cancelled
      ensures Sound()
      ensures runtime.cancelled == (old(runtime.cancelled) || cancelled)
      ensures !cancelled ==> story.Count() == episode && replay.current == [] && epsilon.episodeInjections == 0
      ensures !cancelled ==>
                && runtime.starts == old(runtime.starts) + 1
                && runtime.passes - old(runtime.passes) == state.totalSteps - old(state.totalSteps) - 1
    {
      cancelled := runtime.StartCheckpoint();
      if !cancelled {
        cancelled := RunAndRecord(episode);
      }
    }

    /** What surrounds one episode: a checkpoint before it, the report of its result, a checkpoint if one follows. */
    method RunOne(episode: int) returns (end: RunEnd)
      requires Wired() && Sound() && replay.current == [] && epsilon.episodeInjections == 0
      requires episode == story.Count() + 1 && episode <= config.epochs
      modifies this`asked, this`story, replay, epsilon, state, runtime
      modifies replay.batchStates, replay.batchNextStates
      modifies replay.batchActions, replay.batchRewards, replay.batchDones
      ensures Sound() == old(Sound()) && end != AlreadyStarted
      ensures end == Completed ==> story.Count() == episode && replay.current == [] && epsilon.episodeInjections == 0
      ensures runtime.cancelled == (old(runtime.cancelled) || end == Cancelled)
      ensures runtime.failed == (old(runtime.failed) || end == Failed)
      ensures end == Completed ==>
                && runtime.starts == old(runtime.starts) + 1 && runtime.reports == old(runtime.reports) + 1
                && runtime.passes - old(runtime.passes)
                   == state.totalSteps - old(state.totalSteps) - (if episode < config.epochs then 0 else 1)
    {
      var raised := CheckAndRun(episode);
      end := Cancelled;
      if !raised {
        end := Report(episode);
      }
    }

    /** The result is reported, and a checkpoint follows if another episode does. */
    method Report(episode: int) returns (end: RunEnd)
      requires Wired()
      modifies runtime
      ensures end != AlreadyStarted && runtime.starts == old(runtime.starts)
      ensures runtime.cancelled == (old(runtime.cancelled) || end == Cancelled)
      ensures runtime.failed == (old(runtime.failed) || end == Failed)
      ensures end == Completed ==>
                && runtime.reports == old(runtime.reports) + 1
                && runtime.passes == old(runtime.passes) + (if episode < config.epochs then 1 else 0)
    {
      end := Completed;
      var failed := runtime.OnEpisode();
      if failed {
        end := Failed;
      } else if episode < config.epochs {
        var cancelled := runtime.Checkpoint();
        end := if cancelled then Cancelled else Completed;
      }
    }

    /**
     * Every configured episode. Whatever ends the run, its totals and its capture fit the games played. It ends early
     * only where a checkpoint or the listener has raised, and passes a checkpoint before each episode and after each
     * move but the last.
     */
    method RunEpisodes() returns (end: RunEnd)
      requires Wired() && Sound() && Untouched()
      requires story == NoGames && replay.current == [] && epsilon.episodeInjections == 0
      modifies this`asked, this`story, replay, epsilon, state, runtime
      modifies replay.batchStates, replay.batchNextStates
      modifies replay.batchActions, replay.batchRewards, replay.batchDones
      ensures Sound() && end != AlreadyStarted
      ensures end == Completed ==> story.Count() == Max(0, config.epochs) && epsilon.episodeInjections == 0
      ensures (end == Cancelled <==> runtime.cancelled) && (end == Failed <==> runtime.failed)
      ensures end == Completed ==>
                && runtime.starts == runtime.reports == story.Count()
                && runtime.passes == if story == NoGames then 0 else state.totalSteps - 1
    {
      end := Completed;
      var episode := 1;
      while episode <= config.epochs && end == Completed
        invariant Sound() && end != AlreadyStarted
        invariant (end == Cancelled <==> runtime.cancelled) && (end == Failed <==> runtime.failed)
        invariant end == Completed ==> replay.current == [] && epsilon.episodeInjections == 0
        invariant end == Completed ==> episode == story.Count() + 1 && story.Count() <= Max(0, config.epochs)
        invariant end == Completed ==>
                    && runtime.starts == runtime.reports == story.Count()
                    && runtime.passes
                       == state.totalSteps - (if story == NoGames || story.Count() < config.epochs then 0 else 1)
        decreases config.epochs - episode, end == Completed
      {
        end := RunOne(episode);
        episode := episode + 1;
      }
    }

    /** A simulator runs once. */
    method Run() returns (end: RunEnd)
      requires Wired() && Sound()
      requires !started ==> story == NoGames && replay.current == [] && epsilon.episodeInjections == 0 && Untouched()
      modifies this, replay, epsilon, state, runtime
      modifies replay.batchStates, replay.batchNextStates
      modifies replay.batchActions, replay.batchRewards, replay.batchDones
      ensures Sound() && started
      ensures end == AlreadyStarted <==> old(started)
      ensures old(started) ==> story == old(story)
      ensures end == Completed ==> story.Count() == Max(0, config.epochs) && epsilon.episodeInjections == 0
      ensures !old(started) ==> (end == Cancelled <==> runtime.cancelled) && (end == Failed <==> runtime.failed)
    {
      end := AlreadyStarted;
      if !started {
        started := true;
        end := RunEpisodes();
      }
    }

    /** What `Tallied` means in terms of the games played, the transitions stored and the actions injected. */
    lemma ProgressTallies()
      requires Sound()
      ensures Tally(
                state.View(), story.Logs(), replay.history,
                epsilon.totalInjections - epsilon.episodeInjections, config.epsilon)
    {
      StoryTallies(story, replay.sequenceLength, config);
    }
  }
}
