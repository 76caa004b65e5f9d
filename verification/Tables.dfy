/** The database tables and the statements the application runs on them. */
module LabTables {
  import opened Wrappers
  import opened JsonValues
  import opened ServerProtocol

  /** A row of `simulation_runs`, without its timestamps. */
  datatype RunRow = RunRow(
    config: Json,
    status: RunState,
    episodeCount: Option<int>,
    highScore: Option<int>,
    snapshot: Option<Json>,
    error: Option<string>)

  datatype EpisodeRow = EpisodeRow(score: int, steps: int, epsilon: real, loss: Option<real>)

  /** A captured frame: episode, step and board. */
  datatype Frame = Frame(episode: int, step: int, board: Json)

  /** Rows by primary key. */
  datatype Tables = Tables(
    runs: map<RunId, RunRow>,
    configs: map<RunId, Json>,
    episodes: map<(RunId, int), EpisodeRow>,
    frames: map<(RunId, int), Frame>)

  const NO_TABLES := Tables(map[], map[], map[], map[])

  datatype Statement =
    | InsertRun(id: RunId, config: Json)
    | InsertConfig(id: RunId, config: Json)
    | UpdateStatus(id: RunId, status: RunState)
    | UpdateProgress(id: RunId, episodeCount: int, highScore: int)
    | InsertEpisode(id: RunId, episode: int, row: EpisodeRow)
    | DeleteFrames(id: RunId)
    | InsertFrame(id: RunId, frame: Frame)
    | UpdateResult(
        id: RunId, status: RunState, episodeCount: int, highScore: int,
        snapshot: Option<Json>, error: Option<string>)
    | FailUnfinished(message: string)

  /** Keys are unique, and rows of a run need the run. */
  predicate Admissible(t: Tables, st: Statement) {
    match st
    case InsertRun(id, _) => id !in t.runs
    case InsertConfig(id, _) => id in t.runs && id !in t.configs
    case InsertEpisode(id, episode, _) => id in t.runs && (id, episode) !in t.episodes
    case InsertFrame(id, frame) => id in t.runs && (id, frame.step) !in t.frames
    case _ => true
  }

  predicate Unfinished(status: RunState) {
    status == Queued || status == Running || status == Paused || status == Cancelling
  }

  function FramesWithout(frames: map<(RunId, int), Frame>, id: RunId): map<(RunId, int), Frame> {
    map k | k in frames && k.0 != id :: frames[k]
  }

  /** Keys are not inserted twice, rows of a run need the run, and updates are never refused. */
  lemma InsertsAreRefusedExactly(t: Tables, id: RunId, config: Json, episode: int, row: EpisodeRow, frame: Frame)
    ensures Admissible(t, InsertRun(id, config)) <==> id !in t.runs
    ensures Admissible(t, InsertConfig(id, config)) <==> id in t.runs && id !in t.configs
    ensures Admissible(t, InsertEpisode(id, episode, row)) <==> id in t.runs && (id, episode) !in t.episodes
    ensures Admissible(t, InsertFrame(id, frame)) <==> id in t.runs && (id, frame.step) !in t.frames
  {
  }

  /** One statement. An update of a missing run matches no row and changes nothing. */
  function Execute(t: Tables, st: Statement): Tables {
    match st
    case InsertRun(id, config) => t.(runs := t.runs[id := RunRow(config, Queued, None, None, None, None)])
    case InsertConfig(id, config) => t.(configs := t.configs[id := config])
    case UpdateStatus(id, status) =>
      if id in t.runs then t.(runs := t.runs[id := t.runs[id].(status := status)]) else t
    case UpdateProgress(id, count, score) =>
      if id in t.runs
      then t.(runs := t.runs[id := t.runs[id].(episodeCount := Some(count), highScore := Some(score))])
      else t
    case InsertEpisode(id, episode, row) => t.(episodes := t.episodes[(id, episode) := row])
    case DeleteFrames(id) => t.(frames := FramesWithout(t.frames, id))
    case InsertFrame(id, frame) => t.(frames := t.frames[(id, frame.step) := frame])
    case UpdateResult(id, status, count, score, snapshot, error) =>
      if id in t.runs
      then t.(runs := t.runs[id := t.runs[id].(
        status := status, episodeCount := Some(count), highScore := Some(score),
        snapshot := snapshot, error := error)])
      else t
    case FailUnfinished(message) =>
      t.(runs := map id | id in t.runs ::
        if Unfinished(t.runs[id].status) then t.runs[id].(status := Failed, error := Some(message)) else t.runs[id])
  }

  predicate AllAdmissible(t: Tables, work: seq<Statement>)
    decreases |work|
  {
    work == [] || (Admissible(t, work[0]) && AllAdmissible(Execute(t, work[0]), work[1..]))
  }

  function ExecuteAll(t: Tables, work: seq<Statement>): Tables
    decreases |work|
  {
    if work == [] then t else ExecuteAll(Execute(t, work[0]), work[1..])
  }

  lemma {:induction false} ExecuteAllAppend(t: Tables, work: seq<Statement>, st: Statement)
    ensures ExecuteAll(t, work + [st]) == Execute(ExecuteAll(t, work), st)
    ensures AllAdmissible(t, work + [st]) <==> AllAdmissible(t, work) && Admissible(ExecuteAll(t, work), st)
    decreases |work|
  {
    if work == [] {
      assert work + [st] == [st] && [st][1..] == [];
    } else {
      assert (work + [st])[1..] == work[1..] + [st];
      ExecuteAllAppend(Execute(t, work[0]), work[1..], st);
    }
  }

  lemma {:induction false} ExecuteAllConcat(t: Tables, first: seq<Statement>, second: seq<Statement>)
    ensures ExecuteAll(t, first + second) == ExecuteAll(ExecuteAll(t, first), second)
    ensures AllAdmissible(t, first + second)
       <==> AllAdmissible(t, first) && AllAdmissible(ExecuteAll(t, first), second)
    decreases |first|
  {
    if first == [] {
      assert first + second == second;
    } else {
      assert (first + second)[1..] == first[1..] + second;
      ExecuteAllConcat(Execute(t, first[0]), first[1..], second);
    }
  }
}
