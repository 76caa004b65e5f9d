/** The mutable environment, each method tied to the runs of `GameRuns`. */
module SnakeEnvironment {
  import opened Wrappers
  import opened Board
  import opened GameRules
  import opened GameInvariants
  import opened GameRuns

  class SnakeGame {
    const config: GameConfig
    var state: GameState
    var done: bool
    var episodeId: int

    ghost function View(): Game
      reads this
    {
      Game(config, state, done, episodeId)
    }

    /** The state is one a sequence of calls can reach. */
    ghost predicate Valid()
      reads this
    {
      SoundGame(View())
    }

    constructor Start(c: GameConfig, draw: nat)
      requires Accepted(c)
      ensures Valid() && View() == NewGame(c, draw)
    {
      config := c;
      episodeId := c.episodeId;
      state := NewState(c, c.episodeId, draw);
      done := false;
      new;
      NewStateIsSoundGame(c, c.episodeId, draw);
    }

    /** Construction with the checks and their errors. */
    static method Create(c: GameConfig, draw: nat) returns (r: Result<SnakeGame, ConfigError>)
      ensures r.Err? ==> CheckConfig(c) == Some(r.error)
      ensures r.Ok? ==> CheckConfig(c).None? && fresh(r.value) && r.value.Valid() && r.value.View() == NewGame(c, draw)
    {
      var problem := CheckConfig(c);
      if problem.Some? {
        return Err(problem.value);
      }
      var game := new SnakeGame.Start(c, draw);
      r := Ok(game);
    }

    /** Start the next episode and return its first observation. */
    method Reset(draw: nat) returns (observation: seq<real>)
      requires Valid()
      modifies this
      ensures Valid() && View() == ResetGame(old(View()), draw)
      ensures observation == Observation(state)
    {
      episodeId := episodeId + 1;
      state := NewState(config, episodeId, draw);
      done := false;
      NewStateIsSoundGame(config, episodeId, draw);
      observation := Observe(state);
    }

    /** One action; a finished episode and a bad action index are refused without any change. */
    method Step(index: int, draw: nat) returns (r: Result<StepResult, GameError>)
      requires Valid()
      modifies this
      ensures Valid() && View() == StepGame(old(View()), index, draw)
      ensures r == StepReply(old(View()), index, draw)
      ensures r.Ok? == (!old(done) && 0 <= index <= 2)
      ensures r.Ok? ==> state == r.value.newState && done == r.value.done
      ensures r.Ok? ==> state.moveCount == old(state.moveCount) + 1
      ensures r.Ok? ==> state.moveCount <= MoveLimit(config) + (if done then 1 else 0)
      ensures r.Ok? ==> old(state.score) <= state.score <= old(state.score) + 1
    {
      ghost var before := View();
      StepKeepsSoundGame(before, index, draw);
      if done {
        return Err(EpisodeDone);
      }
      r := GameRules.Step(state, index, config.rewards, config.multiplier, draw);
      if r.Ok? {
        MoveKeepsLimit(before, NormalizeAction(index).value, draw);
        MoveCounters(state, NormalizeAction(index).value, config.rewards, config.multiplier, draw);
        state, done := r.value.newState, r.value.done;
      }
    }
  }
}
