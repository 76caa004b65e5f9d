/** What an episode leaves behind: the histories the policy saw, the frames, and the best board. */
module EpisodeRecord {
  import opened Wrappers
  import opened Board
  import opened GameRules
  import opened GameInvariants
  import opened GameRuns
  import opened ReplayWindows
  import opened ReplayBuffer

  /** One decision: the observation history shown to the policy and the action taken. */
  datatype Choice = Choice(history: seq<Obs>, action: int)

  /** The bounded history after observing `observations`: the last `length` of them, padded with the first. */
  function HistoryAt(observations: seq<Obs>, length: nat): (history: seq<Obs>)
    requires observations != []
    ensures |history| == length
  {
    seq(length, j requires 0 <= j < length =>
      var i := |observations| - length + j;
      if i < 0 then observations[0] else observations[i])
  }

  /** The deque with maximal length: appending drops the oldest entry. */
  lemma HistoryAppend(observations: seq<Obs>, next: Obs, length: nat)
    requires observations != [] && 0 < length
    ensures (HistoryAt(observations, length) + [next])[1..] == HistoryAt(observations + [next], length)
  {
  }

  lemma HistoryStart(first: Obs, length: nat)
    ensures seq(length, _ => first) == HistoryAt([first], length)
  {
  }

  /** The observations of an episode up to and including the one seen before transition `t`. */
  function SeenBy(ts: seq<Transition>, t: nat): (seen: seq<Obs>)
    requires t < |ts|
    ensures |seen| == t + 1
  {
    seq(t + 1, i requires 0 <= i <= t => ts[i].state)
  }

  /** Every stored transition was chosen on the history of the observations before it. */
  ghost predicate Recorded(ts: seq<Transition>, choices: seq<Choice>, length: nat) {
    && |choices| == |ts|
    && Contiguous(ts)
    && forall t | 0 <= t < |ts| :: choices[t] == Choice(HistoryAt(SeenBy(ts, t), length), ts[t].action)
  }

  lemma RecordedAppend(ts: seq<Transition>, choices: seq<Choice>, length: nat, t: Transition, history: seq<Obs>)
    requires Recorded(ts, choices, length)
    requires ts != [] ==> ts[|ts| - 1].nextState == t.state
    requires history == HistoryAt(SeenBy(ts + [t], |ts|), length)
    ensures Recorded(ts + [t], choices + [Choice(history, t.action)], length)
  {
    var longer := ts + [t];
    forall i | 0 <= i < |ts| ensures SeenBy(longer, i) == SeenBy(ts, i) {
    }
    forall i, j | 0 <= i && j == i + 1 < |longer| ensures longer[i].nextState == longer[j].state {
      assert i < |ts| && longer[i] == ts[i];
    }
  }

  /** The window that ends at transition `t` holds exactly the history the policy was shown there. */
  lemma WindowIsShownHistory(ts: seq<Transition>, choices: seq<Choice>, length: nat, start: nat)
    requires Recorded(ts, choices, length) && 0 < length && start + length <= |ts|
    ensures
      var window, t := WindowAt(Pack(ts), start, length), start + length - 1;
      && Choice(window.states, window.action) == choices[t]
      && window.reward == ts[t].reward
      && window.done == ts[t].done
      && window.nextStates[length - 1] == ts[t].nextState
  {
    var window, t := WindowAt(Pack(ts), start, length), start + length - 1;
    assert window.states == HistoryAt(SeenBy(ts, t), length);
    PackedAt(ts, t);
    if t + 1 < |ts| {
      assert ts[t].nextState == ts[t + 1].state;
    }
  }

  // ---- Sampled windows come from recorded episodes ----

  ghost predicate AllRecorded(history: seq<seq<Transition>>, choices: seq<seq<Choice>>, length: nat) {
    && |choices| == |history|
    && forall e | 0 <= e < |history| :: Recorded(history[e], choices[e], length)
  }

  /** Somewhere in the record the policy was shown exactly this history and took this action. */
  ghost predicate WasShown(choices: seq<seq<Choice>>, choice: Choice) {
    exists e, t :: 0 <= e < |choices| && 0 <= t < |choices[e]| && choices[e][t] == choice
  }

  lemma ListedWindowWasShown(memory: ReplayMemory, choices: seq<seq<Choice>>, id: nat)
    requires memory.Valid() && AllShaped(memory.episodes)
    requires AllRecorded(memory.history, choices, memory.sequenceLength)
    requires id < |WindowList(memory.episodes, memory.sequenceLength)|
    ensures
      var window := WindowList(memory.episodes, memory.sequenceLength)[id];
      WasShown(choices, Choice(window.states, window.action))
  {
    var es, length := memory.episodes, memory.sequenceLength;
    WindowListLength(es, length);
    WindowListAt(es, length, id);
    var (k, start) := AllWindows(es, length)[id];
    RetainedIsPacked(memory, k);
    var e :| 0 <= e < |memory.history| && memory.history[e] != [] && es[k] == Pack(memory.history[e]);
    WindowIsShownHistory(memory.history[e], choices[e], length, start);
    var window := WindowAt(es[k], start, length);
    assert choices[e][start + length - 1] == Choice(window.states, window.action);
  }

  // ---- Best boards ----

  /** The first frame with the highest score: replaced only by a strictly better one. */
  function FirstBest(frames: seq<GameState>): (k: nat)
    requires frames != []
    ensures k < |frames|
  {
    if |frames| == 1 then 0
    else
      var k := FirstBest(DropLast(frames));
      if frames[|frames| - 1].score > frames[k].score then |frames| - 1 else k
  }

  lemma {:induction false} FirstBestMeaning(frames: seq<GameState>, i: nat)
    requires i < |frames|
    ensures frames[i].score <= frames[FirstBest(frames)].score
    ensures i < FirstBest(frames) ==> frames[i].score < frames[FirstBest(frames)].score
  {
    if 1 < |frames| {
      if i < |frames| - 1 {
        FirstBestMeaning(DropLast(frames), i);
      } else {
        FirstBestMeaning(DropLast(frames), 0);
      }
    }
  }

  /** The last episode with the highest score: replaced by an equal or better one. */
  function LastBest(scores: seq<int>): (k: nat)
    requires scores != []
    ensures k < |scores|
  {
    if |scores| == 1 then 0
    else
      var k := LastBest(DropLast(scores));
      if scores[|scores| - 1] >= scores[k] then |scores| - 1 else k
  }

  lemma {:induction false} LastBestMeaning(scores: seq<int>, i: nat)
    requires i < |scores|
    ensures scores[i] <= scores[LastBest(scores)]
    ensures LastBest(scores) < i ==> scores[i] < scores[LastBest(scores)]
  {
    if 1 < |scores| {
      if i < |scores| - 1 {
        LastBestMeaning(DropLast(scores), i);
      } else {
        LastBestMeaning(DropLast(scores), 0);
      }
    }
  }

  /** Frame i shows the board after i moves, and scores only grow. */
  ghost predicate WholeGame(frames: seq<GameState>) {
    && frames != []
    && frames[0].score == 0
    && (forall i | 0 <= i < |frames| :: frames[i].moveCount == i)
    && forall i, j | 0 <= i && j == i + 1 < |frames| :: frames[i].score <= frames[j].score <= frames[i].score + 1
  }

  /** The best frame of a whole game has the game's final score. */
  lemma {:induction false} FirstBestHasFinalScore(frames: seq<GameState>)
    requires WholeGame(frames)
    ensures frames[FirstBest(frames)].score == frames[|frames| - 1].score
  {
    if 1 < |frames| {
      FirstBestHasFinalScore(DropLast(frames));
    }
  }

  // ---- One episode while it runs ----

  function RewardSum(ts: seq<Transition>): real {
    if ts == [] then 0.0 else RewardSum(DropLast(ts)) + ts[|ts| - 1].reward
  }

  lemma RewardSumAppends(ts: seq<Transition>, t: Transition)
    ensures RewardSum([]) == 0.0 && RewardSum(ts + [t]) == RewardSum(ts) + t.reward
  {
    assert DropLast(ts + [t]) == ts;
  }

  function AllSeen(ts: seq<Transition>, observation: Obs): (seen: seq<Obs>)
    ensures seen != []
  {
    seq(|ts|, i requires 0 <= i < |ts| => ts[i].state) + [observation]
  }

  /** Transition i leads from frame i to frame i + 1, as the policy observes them. */
  ghost predicate LeadsOn(frames: seq<GameState>, ts: seq<Transition>, i: nat)
    requires i < |ts| && |frames| == |ts| + 1
  {
    ts[i].state == Observation(frames[i]) && ts[i].nextState == Observation(frames[i + 1])
  }

  ghost predicate FollowsFrames(frames: seq<GameState>, ts: seq<Transition>) {
    && |frames| == |ts| + 1
    && forall i | 0 <= i < |ts| :: LeadsOn(frames, ts, i)
  }

  lemma WholeGameAppend(frames: seq<GameState>, next: GameState)
    requires WholeGame(frames) && next.moveCount == |frames|
    requires frames[|frames| - 1].score <= next.score <= frames[|frames| - 1].score + 1
    ensures WholeGame(frames + [next])
  {
    var longer := frames + [next];
    assert longer[0] == frames[0];
    forall i | 0 <= i < |longer| ensures longer[i].moveCount == i {
      assert i < |frames| ==> longer[i] == frames[i];
    }
    forall i, j | 0 <= i && j == i + 1 < |longer| ensures longer[i].score <= longer[j].score <= longer[i].score + 1 {
      assert longer[i] == frames[i];
      if j < |frames| {
        assert longer[j] == frames[j];
      }
    }
  }

  lemma FollowsAppend(frames: seq<GameState>, ts: seq<Transition>, t: Transition, next: GameState)
    requires FollowsFrames(frames, ts)
    requires t.state == Observation(frames[|frames| - 1]) && t.nextState == Observation(next)
    ensures FollowsFrames(frames + [next], ts + [t])
  {
    var fs, us := frames + [next], ts + [t];
    forall i | 0 <= i < |us| ensures LeadsOn(fs, us, i) {
      assert i < |ts| ==> LeadsOn(frames, ts, i);
    }
  }

  // ---- The episode as a list of turns ----

  /** What an episode has done so far. Its loop adds one turn at a time; `draw` is what the game drew there. */
  datatype Log =
    | Opening(game: Game, draw: nat)
    | Turn(before: Log, game: Game, draw: nat, move: Transition, choice: Choice, outcome: Outcome)
  {
    const board: GameState := game.state

    function Boards(): (boards: seq<GameState>)
      ensures boards != [] && boards[|boards| - 1] == board
    {
      if Opening? then [board] else before.Boards() + [board]
    }

    function Moves(): seq<Transition> {
      if Opening? then [] else before.Moves() + [move]
    }

    function Choices(): seq<Choice> {
      if Opening? then [] else before.Choices() + [choice]
    }

    function Seen(): (seen: seq<Obs>)
      ensures seen != []
    {
      (if Opening? then [] else before.Seen()) + [Observation(board)]
    }

    /** The board with the best score, kept until a strictly better one appears. */
    function Best(): GameState {
      if Opening? then board
      else if board.score > before.Best().score then board
      else before.Best()
    }

    function Reward(): real {
      if Opening? then 0.0 else before.Reward() + move.reward
    }

    /** Every turn leads from one board to the next, chosen on the history of the boards before it. */
    ghost predicate Consistent(length: nat) {
      match this
      case Opening(_, _) => board.score == 0 && board.moveCount == 0 && 0 < board.grid.width && 0 < board.grid.height
      case Turn(before, _, _, move, choice, _) =>
        && before.Consistent(length)
        && board.grid == before.board.grid
        && board.moveCount == before.board.moveCount + 1
        && before.board.score <= board.score <= before.board.score + 1
        && move.state == Observation(before.board)
        && move.nextState == Observation(board)
        && choice == Choice(HistoryAt(before.Seen(), length), move.action)
    }

    /** The last turn is a step of the game, with the outcome and the reward that the game replies. */
    ghost predicate IsStep() {
      match this
      case Opening(first, draw) => Accepted(first.config) && first == NewGame(first.config, draw)
      case Turn(before, next, draw, move, _, outcome) =>
        && StepReply(before.game, move.action, draw) == Ok(StepResult(next.state, move.reward, outcome, move.done))
        && next == StepGame(before.game, move.action, draw)
    }

    predicate StartOf(log: Log) {
      this == log || (log.Turn? && StartOf(log.before))
    }

    /** Every turn is a step of the game. */
    ghost predicate Genuine() {
      forall start: Log {:trigger start.StartOf(this)} :: start.StartOf(this) ==> start.IsStep()
    }

    ghost predicate Faithful(length: nat) {
      Consistent(length) && Genuine()
    }

    /** The calls that the episode has made on its game. */
    function Calls(): seq<Call> {
      if Opening? then [] else before.Calls() + [DoStep(move.action, draw)]
    }

    function FirstDraw(): nat {
      if Opening? then draw else before.FirstDraw()
    }
  }

  lemma GenuineOpening(log: Log)
    requires log.Opening? && log.IsStep()
    ensures log.Genuine()
  {
  }

  lemma GenuineTurn(log: Log)
    requires log.Turn? && log.before.Genuine() && log.IsStep()
    ensures log.Genuine()
  {
    forall start: Log | start.StartOf(log) ensures start.IsStep() {
      assert start == log || start.StartOf(log.before);
    }
  }

  lemma GenuineBefore(log: Log)
    requires log.Genuine()
    ensures log.IsStep() && (log.Turn? ==> log.before.Genuine())
  {
    assert log.StartOf(log);
    if log.Turn? {
      forall start: Log | start.StartOf(log.before) ensures start.IsStep() {
        assert start.StartOf(log);
      }
    }
  }

  lemma {:induction false} PlayAppend(g: Game, calls: seq<Call>, call: Call)
    requires Accepted(g.config)
    ensures Play(g, calls + [call]) == Apply(Play(g, calls), call)
    decreases |calls|
  {
    if calls == [] {
      assert [call][1..] == [];
      assert Play(Apply(g, call), []) == Apply(g, call);
    } else {
      assert (calls + [call])[0] == calls[0] && (calls + [call])[1..] == calls[1..] + [call];
      PlayAppend(Apply(g, calls[0]), calls[1..], call);
    }
  }

  lemma GenuineStep(log: Log)
    requires log.Turn? && log.IsStep() && Accepted(log.before.game.config)
    ensures log.game == Apply(log.before.game, DoStep(log.move.action, log.draw))
    ensures log.game.config == log.before.game.config && 0 <= log.move.action <= 2
  {
  }

  /** A turn keeps the configuration, and is made only while the game lasts. */
  lemma GenuineTurnKeeps(log: Log)
    requires log.Turn? && log.Genuine()
    ensures log.before.Genuine() && log.game.config == log.before.game.config
    ensures !log.before.game.done && log.game.done == log.move.done
  {
    GenuineBefore(log);
  }

  /** The turn that an action makes, shown to the policy with its history. */
  function NextTurn(log: Log, action: int, draw: nat, length: nat): Log
    requires StepReply(log.game, action, draw).Ok?
  {
    var step := StepReply(log.game, action, draw).value;
    Turn(
      log, StepGame(log.game, action, draw), draw,
      Transition(Observation(log.board), action, step.reward, step.Observed(), step.done),
      Choice(HistoryAt(log.Seen(), length), action), step.outcome)
  }

  /** While a game lasts every valid action makes a turn. */
  lemma NextTurnIsGenuine(log: Log, action: int, draw: nat, length: nat)
    requires log.Genuine() && !log.game.done && 0 <= action <= 2
    ensures StepReply(log.game, action, draw).Ok? && NextTurn(log, action, draw, length).Genuine()
    ensures log.Consistent(length) ==> NextTurn(log, action, draw, length).Consistent(length)
  {
    LogIsSound(log);
    GenuineTurn(NextTurn(log, action, draw, length));
  }

  /** An episode is a play of its game by valid steps, so whatever holds of reachable games holds of its boards. */
  lemma {:induction false} LogIsPlay(log: Log)
    requires log.Genuine()
    ensures Accepted(log.game.config)
    ensures Play(NewGame(log.game.config, log.FirstDraw()), log.Calls()) == log.game
    ensures |log.Calls()| == |log.Moves()| && OnlyValidSteps(log.Calls())
    decreases log
  {
    GenuineBefore(log);
    if log.Turn? {
      LogIsPlay(log.before);
      GenuineStep(log);
      PlayAppend(NewGame(log.game.config, log.FirstDraw()), log.before.Calls(), DoStep(log.move.action, log.draw));
    }
  }

  /** So every board of an episode is sound, and its score is within what the board has room for. */
  lemma LogIsSound(log: Log)
    requires log.Genuine()
    ensures SoundGame(log.game)
  {
    LogIsPlay(log);
    EveryPlayIsSound(log.game.config, log.FirstDraw(), log.Calls());
  }

  /** The boards of an episode are a whole game, one board more than moves. */
  lemma {:induction false} LogIsWholeGame(log: Log, length: nat)
    requires log.Consistent(length)
    ensures WholeGame(log.Boards()) && |log.Boards()| == |log.Moves()| + 1
  {
    if log.Turn? {
      LogIsWholeGame(log.before, length);
      LogCounts(log.before, length);
      WholeGameAppend(log.before.Boards(), log.board);
    }
  }

  lemma {:induction false} LogCounts(log: Log, length: nat)
    requires log.Consistent(length)
    ensures log.board.moveCount == |log.Moves()|
  {
    if log.Turn? {
      LogCounts(log.before, length);
    }
  }

  lemma {:induction false} LogFollowsFrames(log: Log, length: nat)
    requires log.Consistent(length)
    ensures FollowsFrames(log.Boards(), log.Moves())
  {
    if log.Turn? {
      LogFollowsFrames(log.before, length);
      FollowsAppend(log.before.Boards(), log.before.Moves(), log.move, log.board);
    }
  }

  lemma {:induction false} LogSeen(log: Log, length: nat)
    requires log.Consistent(length)
    ensures log.Seen() == AllSeen(log.Moves(), Observation(log.board))
    ensures log.Turn? ==> log.Moves() != [] && log.Moves()[|log.Moves()| - 1].nextState == Observation(log.board)
  {
    if log.Turn? {
      LogSeen(log.before, length);
    }
  }

  /** Every move of an episode was chosen on the history of observations before it. */
  lemma {:induction false} LogIsRecorded(log: Log, length: nat)
    requires log.Consistent(length)
    ensures Recorded(log.Moves(), log.Choices(), length)
  {
    if log.Turn? {
      LogIsRecorded(log.before, length);
      LogSeen(log.before, length);
      var ts, t := log.before.Moves(), log.move;
      assert SeenBy(ts + [t], |ts|) == AllSeen(ts, t.state);
      RecordedAppend(ts, log.before.Choices(), length, t, log.choice.history);
    }
  }

  /** The board that the loop keeps is the first with the best score, its sum the sum of all rewards. */
  lemma {:induction false} LogKeepsBest(log: Log)
    ensures log.Best() == log.Boards()[FirstBest(log.Boards())]
    ensures log.Reward() == RewardSum(log.Moves())
  {
    if log.Turn? {
      LogKeepsBest(log.before);
      assert DropLast(log.Boards()) == log.before.Boards();
      assert DropLast(log.Moves()) == log.before.Moves();
    }
  }
}
