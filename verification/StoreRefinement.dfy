/** The tables answer like the in-memory store, for every sequence of calls the server makes. */
module StoreRefinement {
  import opened Wrappers
  import opened JsonValues
  import opened ServerProtocol
  import opened LabTables
  import opened StoreCalls

  // ---- When tables and memory agree ----

  /** The frames a run has in memory, none if it has no list. */
  function ListOf(frames: Option<seq<Frame>>): seq<Frame> {
    if frames.Some? then frames.value else []
  }

  /** One run, row against record. */
  predicate SameRun(row: RunRow, run: MemoryRun) {
    && row.config == run.config
    && row.status == run.status
    && row.episodeCount == run.episodeCount
    && row.highScore == run.highScore
    && row.snapshot == run.snapshot
    && row.error == run.error
  }

  /** The frame rows of a run are its list in memory, which is in step order. */
  ghost predicate SameFrames(t: Tables, id: RunId, frames: seq<Frame>) {
    && StepsIncrease(frames)
    && (forall f | f in frames :: (id, f.step) in t.frames && t.frames[(id, f.step)] == f)
    && (forall step | (id, step) in t.frames :: t.frames[(id, step)] in frames && t.frames[(id, step)].step == step)
  }

  ghost predicate SameEpisodes(t: Tables, id: RunId, episodes: seq<(int, EpisodeRow)>) {
    && (forall e | e in episodes :: (id, e.0) in t.episodes && t.episodes[(id, e.0)] == e.1)
    && (forall n | (id, n) in t.episodes :: (n, t.episodes[(id, n)]) in episodes)
  }

  /** A run nobody has created has no rows anywhere. */
  ghost predicate NoRows(t: Tables, id: RunId) {
    && id !in t.runs && id !in t.configs
    && (forall n :: (id, n) !in t.episodes)
    && (forall n :: (id, n) !in t.frames)
  }

  ghost predicate RunAgrees(t: Tables, m: Memory, id: RunId) {
    if id !in m.runs then NoRows(t, id) && id !in m.episodes
    else
      && id in t.runs && id in m.episodes
      && SameRun(t.runs[id], m.runs[id])
      && id in t.configs && t.configs[id] == m.runs[id].config
      && SameEpisodes(t, id, m.episodes[id])
      && SameFrames(t, id, ListOf(m.runs[id].frames))
      && (m.runs[id].status != Completed ==> m.runs[id].frames == None)
  }

  ghost predicate Agree(t: Tables, m: Memory) {
    forall id :: RunAgrees(t, m, id)
  }

  // ---- The calls the server makes ----

  /**
   * A run is created once, moved between unfinished states, given each episode once, and finished once;
   * only a completed run brings frames, and the simulator numbers them upwards.
   */
  ghost predicate Proper(m: Memory, call: StoreCall) {
    match call
    case CreateRun(id, _) => id !in m.runs
    case SetStatus(id, status) => id in m.runs && Unfinished(m.runs[id].status) && Unfinished(status)
    case RecordEpisode(id, episode, _, _, _) =>
      && id in m.runs && id in m.episodes && Unfinished(m.runs[id].status)
      && forall e | e in m.episodes[id] :: e.0 != episode
    case FinishRun(id, status, _, _, _, _, frames) =>
      && id in m.runs && Unfinished(m.runs[id].status) && !Unfinished(status)
      && (frames.Some? ==> status == Completed && StepsIncrease(frames.value))
  }

  // ---- Other runs ----

  /** The rows of one run are the same before and after. */
  ghost predicate SameRows(t: Tables, u: Tables, id: RunId) {
    && (id in t.runs <==> id in u.runs) && (id in t.runs ==> t.runs[id] == u.runs[id])
    && (id in t.configs <==> id in u.configs) && (id in t.configs ==> t.configs[id] == u.configs[id])
    && (forall n :: (id, n) in t.episodes <==> (id, n) in u.episodes)
    && (forall n | (id, n) in t.episodes :: t.episodes[(id, n)] == u.episodes[(id, n)])
    && (forall n :: (id, n) in t.frames <==> (id, n) in u.frames)
    && (forall n | (id, n) in t.frames :: t.frames[(id, n)] == u.frames[(id, n)])
  }

  predicate About(st: Statement, id: RunId) {
    !st.FailUnfinished? && st.id == id
  }

  lemma StatementLeavesOthers(t: Tables, st: Statement, about: RunId, id: RunId)
    requires About(st, about) && id != about
    ensures SameRows(t, Execute(t, st), id)
  {
  }

  lemma {:induction false} WorkLeavesOthers(t: Tables, work: seq<Statement>, about: RunId, id: RunId)
    requires id != about && forall st | st in work :: About(st, about)
    ensures SameRows(t, ExecuteAll(t, work), id)
    decreases |work|
  {
    if work != [] {
      assert work[0] in work;
      var u := Execute(t, work[0]);
      StatementLeavesOthers(t, work[0], about, id);
      WorkLeavesOthers(u, work[1..], about, id);
    }
  }

  lemma CallIsAboutOneRun(call: StoreCall)
    ensures forall st | st in Work(call) :: About(st, call.id)
  {
    if call.FinishRun? && call.frames.Some? {
      forall st | st in InsertFrames(call.id, call.frames.value) ensures About(st, call.id) {
      }
    }
  }

  lemma RememberLeavesOthers(m: Memory, call: StoreCall, id: RunId)
    requires Remember(m, call).Ok? && id != call.id
    ensures
      var n := Remember(m, call).value;
      && (id in n.runs <==> id in m.runs) && (id in m.runs ==> n.runs[id] == m.runs[id])
      && (id in n.episodes <==> id in m.episodes) && (id in m.episodes ==> n.episodes[id] == m.episodes[id])
  {
  }

  lemma RowsCarryEpisodes(t: Tables, u: Tables, id: RunId, episodes: seq<(int, EpisodeRow)>)
    requires SameRows(t, u, id) && SameEpisodes(t, id, episodes)
    ensures SameEpisodes(u, id, episodes)
  {
    forall e | e in episodes ensures (id, e.0) in u.episodes && u.episodes[(id, e.0)] == e.1 {
      var n := e.0;
      assert (id, n) in t.episodes && (id, n) in u.episodes;
    }
  }

  lemma OthersAgree(t: Tables, m: Memory, call: StoreCall, id: RunId)
    requires RunAgrees(t, m, id) && Remember(m, call).Ok? && id != call.id
    ensures RunAgrees(ExecuteAll(t, Work(call)), Remember(m, call).value, id)
  {
    CallIsAboutOneRun(call);
    WorkLeavesOthers(t, Work(call), call.id, id);
    RememberLeavesOthers(m, call, id);
    if id in m.runs {
      RowsCarryEpisodes(t, ExecuteAll(t, Work(call)), id, m.episodes[id]);
    }
  }

  // ---- The run of the call ----

  lemma OneStatement(t: Tables, st: Statement)
    ensures ExecuteAll(t, [st]) == Execute(t, st)
    ensures AllAdmissible(t, [st]) <==> Admissible(t, st)
  {
    assert [st][1..] == [];
  }

  lemma TwoStatements(t: Tables, first: Statement, second: Statement)
    ensures ExecuteAll(t, [first, second]) == Execute(Execute(t, first), second)
    ensures AllAdmissible(t, [first, second]) <==> Admissible(t, first) && Admissible(Execute(t, first), second)
  {
    assert [first, second][1..] == [second];
    OneStatement(Execute(t, first), second);
  }

  lemma CreateAgrees(t: Tables, m: Memory, call: StoreCall)
    requires RunAgrees(t, m, call.id) && call.CreateRun? && Proper(m, call)
    ensures AllAdmissible(t, Work(call)) && Remember(m, call).Ok?
    ensures RunAgrees(ExecuteAll(t, Work(call)), Remember(m, call).value, call.id)
  {
    TwoStatements(t, Work(call)[0], Work(call)[1]);
  }

  lemma StatusAgrees(t: Tables, m: Memory, call: StoreCall)
    requires RunAgrees(t, m, call.id) && call.SetStatus? && Proper(m, call)
    ensures AllAdmissible(t, Work(call)) && Remember(m, call).Ok?
    ensures RunAgrees(ExecuteAll(t, Work(call)), Remember(m, call).value, call.id)
  {
    OneStatement(t, Work(call)[0]);
  }

  lemma EpisodeAgrees(t: Tables, m: Memory, call: StoreCall)
    requires RunAgrees(t, m, call.id) && call.RecordEpisode? && Proper(m, call)
    ensures AllAdmissible(t, Work(call)) && Remember(m, call).Ok?
    ensures RunAgrees(ExecuteAll(t, Work(call)), Remember(m, call).value, call.id)
  {
    TwoStatements(t, Work(call)[0], Work(call)[1]);
    var episodes := Remember(m, call).value.episodes[call.id];
    assert episodes[|episodes| - 1] == (call.episode, call.row);
    assert forall e | e in m.episodes[call.id] :: e in episodes;
  }

  /** Inserting a list in step order succeeds and leaves exactly its rows. */
  lemma {:induction false} InsertedFrames(t: Tables, id: RunId, frames: seq<Frame>)
    requires id in t.runs && StepsIncrease(frames) && forall n :: (id, n) !in t.frames
    ensures AllAdmissible(t, InsertFrames(id, frames))
    ensures
      var u := ExecuteAll(t, InsertFrames(id, frames));
      u == t.(frames := u.frames) && SameFrames(u, id, frames)
  {
    if frames != [] {
      var front, last := DropLast(frames), frames[|frames| - 1];
      InsertedFrames(t, id, front);
      assert InsertFrames(id, frames) == InsertFrames(id, front) + [InsertFrame(id, last)];
      ExecuteAllAppend(t, InsertFrames(id, front), InsertFrame(id, last));
      assert frames == front + [last];
    }
  }

  lemma FinishAgrees(t: Tables, m: Memory, call: StoreCall)
    requires RunAgrees(t, m, call.id) && call.FinishRun? && Proper(m, call)
    ensures AllAdmissible(t, Work(call)) && Remember(m, call).Ok?
    ensures RunAgrees(ExecuteAll(t, Work(call)), Remember(m, call).value, call.id)
  {
    var id := call.id;
    var update :=
      UpdateResult(id, call.status, call.episodeCount, call.highScore, call.snapshot, call.error);
    if call.frames.Some? {
      var fill := InsertFrames(id, call.frames.value);
      var emptied := Execute(t, DeleteFrames(id));
      InsertedFrames(emptied, id, call.frames.value);
      OneStatement(t, DeleteFrames(id));
      ExecuteAllConcat(t, [DeleteFrames(id)], fill);
      ExecuteAllAppend(t, [DeleteFrames(id)] + fill, update);
    } else {
      assert Work(call) == [update];
      OneStatement(t, update);
    }
  }

  /** Whatever frames a run has, a completed one that brings a list has exactly that list afterwards. */
  lemma FinishReplacesFrames(t: Tables, call: StoreCall, frames: seq<Frame>)
    requires call.FinishRun? && call.status == Completed && call.frames == Some(frames)
    requires call.id in t.runs && StepsIncrease(frames)
    ensures AllAdmissible(t, Work(call)) && SameFrames(ExecuteAll(t, Work(call)), call.id, frames)
  {
    var id := call.id;
    var update :=
      UpdateResult(id, call.status, call.episodeCount, call.highScore, call.snapshot, call.error);
    var fill := InsertFrames(id, frames);
    InsertedFrames(Execute(t, DeleteFrames(id)), id, frames);
    OneStatement(t, DeleteFrames(id));
    ExecuteAllConcat(t, [DeleteFrames(id)], fill);
    ExecuteAllAppend(t, [DeleteFrames(id)] + fill, update);
  }

  // ---- Which tables a call leaves alone ----

  lemma {:induction false} InsertsTouchFramesOnly(t: Tables, id: RunId, frames: seq<Frame>)
    ensures
      var u := ExecuteAll(t, InsertFrames(id, frames));
      u == t.(frames := u.frames)
    decreases |frames|
  {
    if frames != [] {
      var work := InsertFrames(id, frames);
      assert work[1..] == InsertFrames(id, frames[1..]);
      InsertsTouchFramesOnly(Execute(t, work[0]), id, frames[1..]);
    }
  }

  /** A completed run that brings frames changes its row and the frames, nothing else. */
  lemma FinishTouchesFrames(t: Tables, call: StoreCall)
    requires call.FinishRun? && call.status == Completed && call.frames.Some?
    ensures
      var u := ExecuteAll(t, Work(call));
      u == t.(runs := u.runs, frames := u.frames) && u.runs.Keys == t.runs.Keys
  {
    var fill, update := InsertFrames(call.id, call.frames.value), Work(call)[|call.frames.value| + 1];
    assert Work(call) == [DeleteFrames(call.id)] + fill + [update];
    OneStatement(t, DeleteFrames(call.id));
    ExecuteAllConcat(t, [DeleteFrames(call.id)], fill);
    InsertsTouchFramesOnly(Execute(t, DeleteFrames(call.id)), call.id, call.frames.value);
    ExecuteAllAppend(t, [DeleteFrames(call.id)] + fill, update);
  }

  /** Configurations come from creation, episodes from recording, frames from a completed run that brings some. */
  lemma CallsTouchTheirTables(t: Tables, call: StoreCall)
    ensures
      var u := ExecuteAll(t, Work(call));
      && (!call.CreateRun? ==> u.configs == t.configs && u.runs.Keys == t.runs.Keys)
      && (!call.RecordEpisode? ==> u.episodes == t.episodes)
      && (!call.FinishRun? || call.status != Completed || call.frames.None? ==> u.frames == t.frames)
  {
    if call.FinishRun? && call.status == Completed && call.frames.Some? {
      FinishTouchesFrames(t, call);
    } else if call.SetStatus? || call.FinishRun? {
      assert |Work(call)| == 1;
      OneStatement(t, Work(call)[0]);
    } else {
      TwoStatements(t, Work(call)[0], Work(call)[1]);
    }
  }

  /** A proper call is refused by no constraint, and tables and memory agree again afterwards. */
  lemma CallAgrees(t: Tables, m: Memory, call: StoreCall)
    requires Agree(t, m) && Proper(m, call)
    ensures AllAdmissible(t, Work(call)) && Remember(m, call).Ok?
    ensures Agree(ExecuteAll(t, Work(call)), Remember(m, call).value)
  {
    var u := ExecuteAll(t, Work(call));
    assert RunAgrees(t, m, call.id);
    match call {
      case CreateRun(_, _) => CreateAgrees(t, m, call);
      case SetStatus(_, _) => StatusAgrees(t, m, call);
      case RecordEpisode(_, _, _, _, _) => EpisodeAgrees(t, m, call);
      case FinishRun(_, _, _, _, _, _, _) => FinishAgrees(t, m, call);
    }
    forall id ensures RunAgrees(u, Remember(m, call).value, id) {
      if id != call.id {
        assert RunAgrees(t, m, id);
        OthersAgree(t, m, call, id);
      }
    }
  }

  // ---- Whole histories ----

  /** A call and whether it went through. One that failed has changed nothing, so memory does not learn of it. */
  datatype Attempt = Attempt(call: StoreCall, ok: bool)

  function TablesAfter(t: Tables, history: seq<Attempt>): Tables
    decreases |history|
  {
    if history == [] then t
    else TablesAfter(if history[0].ok then ExecuteAll(t, Work(history[0].call)) else t, history[1..])
  }

  function Remembered(m: Memory, attempt: Attempt): Memory {
    if attempt.ok && Remember(m, attempt.call).Ok? then Remember(m, attempt.call).value else m
  }

  function MemoryAfter(m: Memory, history: seq<Attempt>): Memory
    decreases |history|
  {
    if history == [] then m else MemoryAfter(Remembered(m, history[0]), history[1..])
  }

  ghost predicate AllProper(m: Memory, history: seq<Attempt>)
    decreases |history|
  {
    history == [] || (Proper(m, history[0].call) && AllProper(Remembered(m, history[0]), history[1..]))
  }

  lemma {:induction false} HistoriesAgree(t: Tables, m: Memory, history: seq<Attempt>)
    requires Agree(t, m) && AllProper(m, history)
    ensures Agree(TablesAfter(t, history), MemoryAfter(m, history))
    decreases |history|
  {
    if history != [] {
      CallAgrees(t, m, history[0].call);
      var u := if history[0].ok then ExecuteAll(t, Work(history[0].call)) else t;
      HistoriesAgree(u, Remembered(m, history[0]), history[1..]);
    }
  }

  lemma StartAgrees()
    ensures Agree(NO_TABLES, Memory(map[], map[]))
  {
  }

  // ---- What readers see ----

  /** Sorting the rows of a run, in whatever order they come, gives its list in memory. */
  lemma RowsSortToList(t: Tables, id: RunId, frames: seq<Frame>, rows: seq<Frame>)
    requires SameFrames(t, id, frames) && Enumerates(rows, t, id)
    ensures SortByStep(rows) == frames
  {
    forall f ensures f in SortByStep(rows) <==> f in frames {
      SortMember(rows, f);
    }
    forall i, j | 0 <= i < j < |rows| ensures rows[i].step != rows[j].step {
      assert rows[i] in rows && rows[j] in rows;
    }
    SortIncreases(rows);
    IncreasingIsUnique(SortByStep(rows), frames);
  }

  /** An empty list and no list look the same to a reader. */
  function Shown(frames: Option<Option<seq<Frame>>>): Option<seq<Frame>> {
    if frames.None? then None else Some(ListOf(frames.value))
  }

  /** After every history of proper calls, some of them failing, both stores answer both lookups alike. */
  lemma LookupsAgree(history: seq<Attempt>, id: RunId, rows: seq<Frame>)
    requires AllProper(Memory(map[], map[]), history)
    requires Enumerates(rows, TablesAfter(NO_TABLES, history), id)
    ensures
      var t, m := TablesAfter(NO_TABLES, history), MemoryAfter(Memory(map[], map[]), history);
      && Shown(TableFrames(t, id, rows)) == Shown(MemoryFrames(m, id))
      && TableSnapshot(t, id) == MemorySnapshot(m, id)
      && (TableFrames(t, id, rows) == MemoryFrames(m, id) <==> MemoryFrames(m, id) != Some(Some([])))
  {
    var t, m := TablesAfter(NO_TABLES, history), MemoryAfter(Memory(map[], map[]), history);
    StartAgrees();
    HistoriesAgree(NO_TABLES, Memory(map[], map[]), history);
    assert RunAgrees(t, m, id);
    if id in m.runs {
      RowsSortToList(t, id, ListOf(m.runs[id].frames), rows);
      assert rows != [] <==> SortByStep(rows) != [] by {
        if rows != [] {
          SortMember(rows, rows[0]);
        }
      }
    }
  }

  // ---- Recovery ----

  /** At start-up exactly the unfinished runs become failed; every other row and every lookup of frames stays. */
  lemma RecoveryFailsExactlyUnfinished(t: Tables, message: string, id: RunId)
    requires id in t.runs
    ensures
      var u := Execute(t, FailUnfinished(message));
      && id in u.runs && !Unfinished(u.runs[id].status)
      && (Unfinished(t.runs[id].status) ==> u.runs[id] == t.runs[id].(status := Failed, error := Some(message)))
      && (!Unfinished(t.runs[id].status) ==> u.runs[id] == t.runs[id])
      && u.runs.Keys == t.runs.Keys && u.frames == t.frames && u.episodes == t.episodes
  {
  }
}
