/** The persistence operations on values: as work on the tables, and on the in-memory store. */
module StoreCalls {
  import opened Wrappers
  import opened JsonValues
  import opened ServerProtocol
  import opened LabTables

  datatype StoreCall =
    | CreateRun(id: RunId, config: Json)
    | SetStatus(id: RunId, status: RunState)
    | RecordEpisode(id: RunId, episode: int, row: EpisodeRow, episodeCount: int, highScore: int)
    | FinishRun(
        id: RunId, status: RunState, episodeCount: int, highScore: int,
        error: Option<string>, snapshot: Option<Json>, frames: Option<seq<Frame>>)

  // ---- On the tables ----

  function InsertFrames(id: RunId, frames: seq<Frame>): (work: seq<Statement>)
    ensures |work| == |frames|
  {
    seq(|frames|, i requires 0 <= i < |frames| => InsertFrame(id, frames[i]))
  }

  /** The statements of one call, in order. All of them belong to one transaction. */
  function Work(call: StoreCall): seq<Statement> {
    match call
    case CreateRun(id, config) => [InsertRun(id, config), InsertConfig(id, config)]
    case SetStatus(id, status) => [UpdateStatus(id, status)]
    case RecordEpisode(id, episode, row, count, score) =>
      [InsertEpisode(id, episode, row), UpdateProgress(id, count, score)]
    case FinishRun(id, status, count, score, error, snapshot, frames) =>
      (if status == Completed && frames.Some? then [DeleteFrames(id)] + InsertFrames(id, frames.value) else [])
      + [UpdateResult(id, status, count, score, snapshot, error)]
  }

  ghost predicate StepsIncrease(frames: seq<Frame>) {
    forall i, j | 0 <= i < j < |frames| :: frames[i].step < frames[j].step
  }

  function InsertByStep(frame: Frame, sorted: seq<Frame>): seq<Frame> {
    if sorted == [] || frame.step <= sorted[0].step then [frame] + sorted
    else [sorted[0]] + InsertByStep(frame, sorted[1..])
  }

  /** The rows in step order, whatever order the database delivered them in. */
  function SortByStep(rows: seq<Frame>): seq<Frame> {
    if rows == [] then [] else InsertByStep(rows[0], SortByStep(rows[1..]))
  }

  // ---- In memory ----

  datatype MemoryRun = MemoryRun(
    config: Json,
    status: RunState,
    episodeCount: Option<int>,
    highScore: Option<int>,
    snapshot: Option<Json>,
    frames: Option<seq<Frame>>,
    error: Option<string>)

  datatype Memory = Memory(runs: map<RunId, MemoryRun>, episodes: map<RunId, seq<(int, EpisodeRow)>>)

  datatype MemoryError = RunExists | RunUnknown

  /** The simple store: dictionaries, updated directly. */
  function Remember(m: Memory, call: StoreCall): Result<Memory, MemoryError> {
    match call
    case CreateRun(id, config) =>
      if id in m.runs then Err(RunExists)
      else Ok(Memory(
        m.runs[id := MemoryRun(config, Queued, None, None, None, None, None)],
        m.episodes[id := []]))
    case SetStatus(id, status) =>
      if id !in m.runs then Err(RunUnknown)
      else Ok(m.(runs := m.runs[id := m.runs[id].(status := status)]))
    case RecordEpisode(id, episode, row, count, score) =>
      if id !in m.episodes || id !in m.runs then Err(RunUnknown)
      else Ok(Memory(
        m.runs[id := m.runs[id].(episodeCount := Some(count), highScore := Some(score))],
        m.episodes[id := m.episodes[id] + [(episode, row)]]))
    case FinishRun(id, status, count, score, error, snapshot, frames) =>
      if id !in m.runs then Err(RunUnknown)
      else Ok(m.(runs := m.runs[id := m.runs[id].(
        status := status, episodeCount := Some(count), highScore := Some(score), error := error,
        snapshot := snapshot, frames := if status == Completed then frames else None)]))
  }

  /** What each call leaves in memory: its own fields of its own run, everything else as it was. */
  lemma CallsTakeEffect(m: Memory, call: StoreCall, id: RunId)
    requires Remember(m, call).Ok?
    ensures
      var n := Remember(m, call).value;
      && (id != call.id ==>
            && (id in n.runs <==> id in m.runs) && (id in m.runs ==> n.runs[id] == m.runs[id])
            && (id in n.episodes <==> id in m.episodes) && (id in m.episodes ==> n.episodes[id] == m.episodes[id]))
      && call.id in n.runs
      && var run := n.runs[call.id];
         match call
         case CreateRun(id, config) =>
           && id !in m.runs && id in n.episodes && n.episodes[id] == []
           && run == MemoryRun(config, Queued, None, None, None, None, None)
         case SetStatus(id, status) =>
           && id in m.runs && n.episodes == m.episodes && run.status == status
           && run.config == m.runs[id].config && run.episodeCount == m.runs[id].episodeCount
           && run.highScore == m.runs[id].highScore && run.error == m.runs[id].error
           && run.snapshot == m.runs[id].snapshot && run.frames == m.runs[id].frames
         case RecordEpisode(id, episode, row, count, score) =>
           && id in m.runs && id in m.episodes && id in n.episodes
           && n.episodes[id] == m.episodes[id] + [(episode, row)]
           && run.episodeCount == Some(count) && run.highScore == Some(score)
           && run.config == m.runs[id].config && run.status == m.runs[id].status && run.error == m.runs[id].error
           && run.snapshot == m.runs[id].snapshot && run.frames == m.runs[id].frames
         case FinishRun(id, status, count, score, error, snapshot, frames) =>
           && id in m.runs && n.episodes == m.episodes && run.config == m.runs[id].config
           && run.status == status && run.episodeCount == Some(count) && run.highScore == Some(score)
           && run.error == error && run.snapshot == snapshot
           && run.frames == if status == Completed then frames else None
  {
  }

  // ---- Lookups ----

  /** `None` for an unknown run, otherwise its frames if it has any to show. */
  function MemoryFrames(m: Memory, id: RunId): Option<Option<seq<Frame>>> {
    if id !in m.runs then None
    else Some(if m.runs[id].status == Completed then m.runs[id].frames else None)
  }

  function MemorySnapshot(m: Memory, id: RunId): Option<Option<Json>> {
    if id !in m.runs then None else Some(m.runs[id].snapshot)
  }

  /** The rows of one run, each once, in any order. */
  ghost predicate Enumerates(rows: seq<Frame>, t: Tables, id: RunId) {
    && Distinct(rows)
    && forall f :: f in rows <==> (id, f.step) in t.frames && t.frames[(id, f.step)] == f
  }

  /** What the database answers once its rows have arrived. */
  function TableFrames(t: Tables, id: RunId, rows: seq<Frame>): Option<Option<seq<Frame>>> {
    if id !in t.runs then None
    else Some(if t.runs[id].status == Completed && rows != [] then Some(SortByStep(rows)) else None)
  }

  function TableSnapshot(t: Tables, id: RunId): Option<Option<Json>> {
    if id !in t.runs then None else Some(t.runs[id].snapshot)
  }

  // ---- Sorting ----

  lemma {:induction false} InsertMember(frame: Frame, sorted: seq<Frame>, f: Frame)
    ensures f in InsertByStep(frame, sorted) <==> f == frame || f in sorted
  {
    if sorted != [] && sorted[0].step < frame.step {
      InsertMember(frame, sorted[1..], f);
      assert sorted == [sorted[0]] + sorted[1..];
    }
  }

  lemma {:induction false} SortMember(rows: seq<Frame>, f: Frame)
    ensures f in SortByStep(rows) <==> f in rows
  {
    if rows != [] {
      SortMember(rows[1..], f);
      InsertMember(rows[0], SortByStep(rows[1..]), f);
      assert rows == [rows[0]] + rows[1..];
    }
  }

  lemma {:induction false} InsertKeepsIncrease(frame: Frame, sorted: seq<Frame>)
    requires StepsIncrease(sorted) && forall f | f in sorted :: f.step != frame.step
    ensures StepsIncrease(InsertByStep(frame, sorted))
  {
    if sorted != [] && sorted[0].step < frame.step {
      var rest := sorted[1..];
      InsertKeepsIncrease(frame, rest);
      var tail := InsertByStep(frame, rest);
      forall i | 0 <= i < |tail| ensures sorted[0].step < tail[i].step {
        InsertMember(frame, rest, tail[i]);
      }
    } else if sorted != [] {
      assert sorted[0].step != frame.step;
    }
  }

  /** Rows with different steps come out in step order. */
  lemma {:induction false} SortIncreases(rows: seq<Frame>)
    requires forall i, j | 0 <= i < j < |rows| :: rows[i].step != rows[j].step
    ensures StepsIncrease(SortByStep(rows))
  {
    if rows != [] {
      var rest := rows[1..];
      SortIncreases(rest);
      forall f | f in SortByStep(rest) ensures f.step != rows[0].step {
        SortMember(rest, f);
      }
      InsertKeepsIncrease(rows[0], SortByStep(rest));
    }
  }

  /** The frames of a completed run are shown in step order; a run that is not completed, or has none, shows none. */
  lemma FramesAreShownExactly(t: Tables, id: RunId, rows: seq<Frame>)
    requires Enumerates(rows, t, id)
    ensures
      var answer := TableFrames(t, id, rows);
      && (answer == None <==> id !in t.runs)
      && (answer.Some? && answer.value.Some? <==>
            && id in t.runs && t.runs[id].status == Completed
            && exists f: Frame :: (id, f.step) in t.frames && t.frames[(id, f.step)] == f)
      && (answer.Some? && answer.value.Some? ==>
            && StepsIncrease(answer.value.value)
            && forall f :: f in answer.value.value <==> (id, f.step) in t.frames && t.frames[(id, f.step)] == f)
  {
    if rows != [] {
      assert rows[0] in rows;
    }
    forall i, j | 0 <= i < j < |rows| ensures rows[i].step != rows[j].step {
      assert rows[i] in rows && rows[j] in rows;
    }
    SortIncreases(rows);
    forall f ensures f in SortByStep(rows) <==> f in rows {
      SortMember(rows, f);
    }
  }

  /** There is only one way to write the same frames in step order. */
  lemma {:induction false} IncreasingIsUnique(a: seq<Frame>, b: seq<Frame>)
    requires StepsIncrease(a) && StepsIncrease(b) && forall f :: f in a <==> f in b
    ensures a == b
  {
    assert b != [] ==> b[0] in b;
    if a != [] {
      assert a[0] in b;
      assert b[0] in a;
      assert a[0] == b[0];
      forall f ensures f in a[1..] <==> f in b[1..] {
        assert f in a[1..] <==> f in a && f != a[0];
        assert f in b[1..] <==> f in b && f != b[0];
      }
      IncreasingIsUnique(a[1..], b[1..]);
    }
  }
}
