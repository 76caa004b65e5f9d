/** The two stores as objects. */
module Persistence {
  import opened Wrappers
  import opened JsonValues
  import opened ServerProtocol
  import opened LabTables
  import opened Transactions
  import opened StoreCalls

  /** Frame rows are stored under their own step. */
  ghost predicate FramesKeyed(t: Tables) {
    forall k | k in t.frames :: t.frames[k].step == k.1
  }

  lemma {:induction false} WorkKeepsKeys(t: Tables, work: seq<Statement>)
    requires FramesKeyed(t)
    ensures FramesKeyed(ExecuteAll(t, work))
    decreases |work|
  {
    if work != [] {
      WorkKeepsKeys(Execute(t, work[0]), work[1..]);
    }
  }

  /** The frame rows of a run, in no particular order. */
  method SelectFrames(t: Tables, id: RunId) returns (rows: seq<Frame>)
    requires FramesKeyed(t)
    ensures Enumerates(rows, t, id)
  {
    rows := [];
    var keys := set k | k in t.frames && k.0 == id;
    ghost var done: set<(RunId, int)> := {};
    while keys != {}
      invariant forall k :: k in keys || k in done <==> k in t.frames && k.0 == id
      invariant keys !! done
      invariant forall f :: f in rows <==> (id, f.step) in done && t.frames[(id, f.step)] == f
      invariant Distinct(rows)
      decreases |keys|
    {
      var key :| key in keys;
      var row := t.frames[key];
      assert key == (id, row.step);
      assert row !in rows;
      rows := rows + [row];
      keys := keys - {key};
      done := done + {key};
    }
  }

  class SnakeDb {
    const dbmgr: DbMgr

    ghost predicate Valid()
      reads this, dbmgr, dbmgr.connection
    {
      dbmgr.Valid() && !dbmgr.inTransaction && FramesKeyed(dbmgr.connection.committed)
    }

    constructor (dbmgr: DbMgr)
      requires dbmgr.Valid() && !dbmgr.inTransaction && FramesKeyed(dbmgr.connection.committed)
      ensures Valid() && this.dbmgr == dbmgr
    {
      this.dbmgr := dbmgr;
    }

    /** Since then the driver has been asked for one transaction of this work, with this success. */
    ghost predicate Asked(before: seq<DriverCall>, work: seq<Statement>, ok: bool)
      reads dbmgr, dbmgr.connection
    {
      !dbmgr.closed ==>
        exists calls :: dbmgr.connection.log == before + calls && TransactionCalls(calls, work, ok)
    }

    /** One call is one transaction: it happens as a whole or not at all. */
    method Perform(ghost call: StoreCall, work: seq<Statement>) returns (r: Option<DbError>)
      requires Valid() && work == Work(call)
      modifies dbmgr`inTransaction, dbmgr.connection
      ensures Valid()
      ensures dbmgr.connection.committed
           == if r.None? then ExecuteAll(old(dbmgr.connection.committed), Work(call))
              else old(dbmgr.connection.committed)
      ensures Asked(old(dbmgr.connection.log), Work(call), r.None?)
      ensures r.None? ==> AllAdmissible(old(dbmgr.connection.committed), Work(call))
    {
      WorkKeepsKeys(dbmgr.connection.committed, work);
      ghost var calls;
      r, calls := dbmgr.Transaction(work);
    }

    method CreateRun(id: RunId, config: Json) returns (r: Option<DbError>)
      requires Valid()
      modifies dbmgr`inTransaction, dbmgr.connection
      ensures Valid()
      ensures
        var before, call := old(dbmgr.connection.committed), StoreCall.CreateRun(id, config);
        && dbmgr.connection.committed == (if r.None? then ExecuteAll(before, Work(call)) else before)
        && Asked(old(dbmgr.connection.log), Work(call), r.None?)
    {
      r := Perform(StoreCall.CreateRun(id, config), [InsertRun(id, config), InsertConfig(id, config)]);
    }

    method SetStatus(id: RunId, status: RunState) returns (r: Option<DbError>)
      requires Valid()
      modifies dbmgr`inTransaction, dbmgr.connection
      ensures Valid()
      ensures
        var before, call := old(dbmgr.connection.committed), StoreCall.SetStatus(id, status);
        && dbmgr.connection.committed == (if r.None? then ExecuteAll(before, Work(call)) else before)
        && Asked(old(dbmgr.connection.log), Work(call), r.None?)
    {
      r := Perform(StoreCall.SetStatus(id, status), [UpdateStatus(id, status)]);
    }

    method RecordEpisode(id: RunId, episode: int, row: EpisodeRow, episodeCount: int, highScore: int)
      returns (r: Option<DbError>)
      requires Valid()
      modifies dbmgr`inTransaction, dbmgr.connection
      ensures Valid()
      ensures
        var before := old(dbmgr.connection.committed);
        var call := StoreCall.RecordEpisode(id, episode, row, episodeCount, highScore);
        && dbmgr.connection.committed == (if r.None? then ExecuteAll(before, Work(call)) else before)
        && Asked(old(dbmgr.connection.log), Work(call), r.None?)
    {
      r := Perform(
        StoreCall.RecordEpisode(id, episode, row, episodeCount, highScore),
        [InsertEpisode(id, episode, row), UpdateProgress(id, episodeCount, highScore)]);
    }

    /** Frames are replaced only when a completed run brings a list. */
    method FinishRun(
      id: RunId, status: RunState, episodeCount: int, highScore: int,
      error: Option<string>, snapshot: Option<Json>, frames: Option<seq<Frame>>)
      returns (r: Option<DbError>)
      requires Valid()
      modifies dbmgr`inTransaction, dbmgr.connection
      ensures Valid()
      ensures
        var before := old(dbmgr.connection.committed);
        var call := StoreCall.FinishRun(id, status, episodeCount, highScore, error, snapshot, frames);
        && dbmgr.connection.committed == (if r.None? then ExecuteAll(before, Work(call)) else before)
        && Asked(old(dbmgr.connection.log), Work(call), r.None?)
    {
      var work: seq<Statement> := [];
      if status == Completed && frames.Some? {
        work := [DeleteFrames(id)];
        for i := 0 to |frames.value|
          invariant work == [DeleteFrames(id)] + InsertFrames(id, frames.value)[..i]
        {
          work := work + [InsertFrame(id, frames.value[i])];
        }
      }
      work := work + [UpdateResult(id, status, episodeCount, highScore, snapshot, error)];
      r := Perform(StoreCall.FinishRun(id, status, episodeCount, highScore, error, snapshot, frames), work);
    }

    /** The committed answer, its rows sorted by step. */
    method GetHighScoreFrames(id: RunId) returns (r: Result<Option<Option<seq<Frame>>>, DbError>)
      requires Valid()
      modifies dbmgr`inTransaction, dbmgr.connection
      ensures Valid() && dbmgr.connection.committed == old(dbmgr.connection.committed)
      ensures r.Ok? ==> exists rows: seq<Frame> ::
                Enumerates(rows, dbmgr.connection.committed, id)
                && r.value == TableFrames(dbmgr.connection.committed, id, rows)
      ensures Asked(old(dbmgr.connection.log), [], r.Ok?)
    {
      var seen;
      ghost var calls;
      seen, calls := dbmgr.ReadTransaction();
      if seen.Err? {
        return Err(seen.error);
      }
      var rows := SelectFrames(seen.value, id);
      r := Ok(TableFrames(seen.value, id, rows));
    }

    method GetHighScoreSnapshot(id: RunId) returns (r: Result<Option<Option<Json>>, DbError>)
      requires Valid()
      modifies dbmgr`inTransaction, dbmgr.connection
      ensures Valid() && dbmgr.connection.committed == old(dbmgr.connection.committed)
      ensures r.Ok? ==> r.value == TableSnapshot(dbmgr.connection.committed, id)
      ensures Asked(old(dbmgr.connection.log), [], r.Ok?)
    {
      var seen;
      ghost var calls;
      seen, calls := dbmgr.ReadTransaction();
      r := if seen.Ok? then Ok(TableSnapshot(seen.value, id)) else Err(seen.error);
    }
  }

  class MemorySimulationStore {
    var runs: map<RunId, MemoryRun>
    var episodes: map<RunId, seq<(int, EpisodeRow)>>

    ghost function View(): Memory
      reads this
    {
      Memory(runs, episodes)
    }

    /** What a call leaves behind: the new contents, or the old ones and an error. */
    ghost predicate Follows(before: Memory, call: StoreCall, error: Option<MemoryError>)
      reads this
    {
      Remember(before, call) == if error.None? then Ok(View()) else Err(error.value)
    }

    constructor ()
      ensures View() == Memory(map[], map[])
    {
      runs, episodes := map[], map[];
    }

    method CreateRun(id: RunId, config: Json) returns (error: Option<MemoryError>)
      modifies this
      ensures Follows(old(View()), StoreCall.CreateRun(id, config), error)
      ensures error.Some? ==> View() == old(View())
    {
      if id in runs {
        return Some(RunExists);
      }
      runs := runs[id := MemoryRun(config, Queued, None, None, None, None, None)];
      episodes := episodes[id := []];
      return None;
    }

    method SetStatus(id: RunId, status: RunState) returns (error: Option<MemoryError>)
      modifies this
      ensures Follows(old(View()), StoreCall.SetStatus(id, status), error)
      ensures error.Some? ==> View() == old(View())
    {
      if id !in runs {
        return Some(RunUnknown);
      }
      runs := runs[id := runs[id].(status := status)];
      return None;
    }

    /** The episode is stored before the progress; both dictionaries know the same runs. */
    method RecordEpisode(id: RunId, episode: int, row: EpisodeRow, episodeCount: int, highScore: int)
      returns (error: Option<MemoryError>)
      requires runs.Keys == episodes.Keys
      modifies this
      ensures Follows(old(View()), StoreCall.RecordEpisode(id, episode, row, episodeCount, highScore), error)
      ensures error.Some? ==> View() == old(View())
    {
      if id !in episodes {
        return Some(RunUnknown);
      }
      episodes := episodes[id := episodes[id] + [(episode, row)]];
      runs := runs[id := runs[id].(episodeCount := Some(episodeCount), highScore := Some(highScore))];
      return None;
    }

    method FinishRun(
      id: RunId, status: RunState, episodeCount: int, highScore: int,
      error: Option<string>, snapshot: Option<Json>, frames: Option<seq<Frame>>)
      returns (problem: Option<MemoryError>)
      modifies this
      ensures
        var call := StoreCall.FinishRun(id, status, episodeCount, highScore, error, snapshot, frames);
        Follows(old(View()), call, problem)
      ensures problem.Some? ==> View() == old(View())
    {
      if id !in runs {
        return Some(RunUnknown);
      }
      var run := runs[id].(
        status := status, episodeCount := Some(episodeCount), highScore := Some(highScore),
        error := error, snapshot := snapshot);
      run := run.(frames := if status == Completed then frames else None);
      runs := runs[id := run];
      return None;
    }
  }
}

/** What the simulator captures is what the stores keep and readers decode. */
module StoredCaptures {
  import opened Wrappers
  import opened Board
  import opened EpisodeRecord
  import opened GameEndings
  import opened JsonValues
  import opened Simulation
  import opened BoardSnapshots
  import opened LabTables
  import opened StoreCalls

  /** A captured board as it is persisted. */
  function FrameOf(c: Capture): Frame {
    Frame(c.episode, c.board.moveCount, ToDict(FromGameState(c.board)))
  }

  /** The document of a high-score snapshot. */
  function SnapshotDict(c: Capture): Json {
    JObject(map[
      "version" := JInt(1),
      "episode" := JInt(c.episode),
      "step" := JInt(c.board.moveCount),
      "board" := ToDict(FromGameState(c.board))])
  }

  /** What a completed run of these games hands to the store. */
  function StoredFrames(games: seq<Log>): seq<Frame> {
    Map(FrameOf, BestFrames(games))
  }

  function StoredSnapshot(games: seq<Log>): Option<Json> {
    var best := BestSnapshot(games);
    if best.None? then None else Some(SnapshotDict(best.value))
  }

  lemma {:induction false} CapturedBoardsAreValid(episode: int, log: Log, c: Capture)
    requires log.Genuine() && c in Collected(episode, log)
    ensures 0 < c.board.grid.width && 0 < c.board.grid.height && 0 <= c.board.score
    decreases log
  {
    LogIsSound(log);
    if log.Turn? && c in Collected(episode, log.before) {
      GenuineTurnKeeps(log);
      CapturedBoardsAreValid(episode, log.before, c);
    }
  }

  /** The frames of a capture arrive in step order, as the stores' agreement asks for. */
  lemma CapturedFramesIncrease(episode: int, log: Log)
    requires log.Genuine()
    ensures StepsIncrease(Map(FrameOf, Collected(episode, log)))
  {
    var frames := Collected(episode, log);
    GenuineIsWholeGame(log);
    CollectedBoards(episode, log, 0);
    forall i, j | 0 <= i < j < |frames| ensures FrameOf(frames[i]).step < FrameOf(frames[j]).step {
      CollectedBoards(episode, log, i);
      CollectedBoards(episode, log, j);
    }
  }

  /** Every persisted board decodes back to the board that was captured. */
  lemma CapturedBoardsDecode(episode: int, log: Log, c: Capture)
    requires log.Genuine() && c in Collected(episode, log)
    ensures FromDict(FrameOf(c).board) == Ok(FromGameState(c.board))
  {
    CapturedBoardsAreValid(episode, log, c);
    DecodeOfEncode(FromGameState(c.board));
  }

  /** No game did better, and none after it as well. */
  ghost predicate IsLastBest(games: seq<Log>, k: nat) {
    && k < |games|
    && (forall i | 0 <= i < |games| :: games[i].board.score <= games[k].board.score)
    && (forall i | k < i < |games| :: games[i].board.score < games[k].board.score)
  }

  lemma BestGameIsLastBest(games: seq<Log>)
    requires games != []
    ensures IsLastBest(games, BestGame(games))
  {
    var k := BestGame(games);
    forall i | 0 <= i < |games|
      ensures games[i].board.score <= games[k].board.score
      ensures k < i ==> games[i].board.score < games[k].board.score
    {
      CapturedGameIsLastBest(games, i);
    }
  }

  lemma BoardDecodes(episode: int, log: Log, i: nat)
    requires log.Genuine() && i < |log.Boards()|
    ensures FromDict(FrameOf(Capture(episode, log.Boards()[i])).board) == Ok(FromGameState(log.Boards()[i]))
  {
    CollectedBoards(episode, log, i);
    CapturedBoardsDecode(episode, log, Capture(episode, log.Boards()[i]));
  }

  /** The snapshot's document: its version, the number of the last best game, the move, and the board. */
  predicate SnapshotSays(snapshot: Json, episode: int, step: int, board: BoardSnapshot) {
    && snapshot.JObject?
    && snapshot.fields.Keys == {"version", "episode", "step", "board"}
    && snapshot.fields["version"] == JInt(1)
    && snapshot.fields["episode"] == JInt(episode)
    && snapshot.fields["step"] == JInt(step)
    && FromDict(snapshot.fields["board"]) == Ok(board)
  }

  /** A completed run's snapshot shows the first board with the final score of the last best game. */
  lemma SnapshotTellsBestGame(games: seq<Log>) returns (k: nat, i: nat)
    requires games != [] && AllGenuine(games)
    ensures IsLastBest(games, k) && i < |games[k].Boards()|
    ensures games[k].Boards()[i].score == games[k].board.score
    ensures StoredSnapshot(games).Some?
    ensures SnapshotSays(StoredSnapshot(games).value, k + 1, i, FromGameState(games[k].Boards()[i]))
  {
    k := BestGame(games);
    var log := games[k];
    assert log in games;
    BestGameIsLastBest(games);
    GenuineIsWholeGame(log);
    LogKeepsBest(log);
    i := FirstBest(log.Boards());
    FirstBestHasFinalScore(log.Boards());
    BoardDecodes(k + 1, log, i);
    assert StoredSnapshot(games) == Some(SnapshotDict(Capture(k + 1, log.Boards()[i])));
  }

  /** Frame i of a completed run shows board i of that game, as move i. */
  lemma FramesShowBestGame(games: seq<Log>, i: nat) returns (k: nat)
    requires games != [] && AllGenuine(games) && i < |StoredFrames(games)|
    ensures IsLastBest(games, k) && |StoredFrames(games)| == |games[k].Boards()|
    ensures StoredFrames(games)[i].episode == k + 1 && StoredFrames(games)[i].step == i
    ensures FromDict(StoredFrames(games)[i].board) == Ok(FromGameState(games[k].Boards()[i]))
  {
    k := BestGame(games);
    var log := games[k];
    assert log in games;
    BestGameIsLastBest(games);
    GenuineIsWholeGame(log);
    CollectedBoards(k + 1, log, 0);
    CollectedBoards(k + 1, log, i);
    BoardDecodes(k + 1, log, i);
    assert StoredFrames(games)[i] == FrameOf(Capture(k + 1, log.Boards()[i]));
  }

  ghost predicate AllGenuine(games: seq<Log>) {
    forall game | game in games :: game.Genuine()
  }

  lemma StoredFramesIncrease(games: seq<Log>)
    requires AllGenuine(games)
    ensures StepsIncrease(StoredFrames(games))
  {
    if games != [] {
      var k := BestGame(games);
      assert games[k] in games;
      CapturedFramesIncrease(k + 1, games[k]);
    }
  }
}
