/** The store calls that a schedule of the server makes, and what the stores then hold. */
module ServerStores {
  import opened Wrappers
  import opened RunAwaits
  import opened RunControl
  import opened JsonValues
  import opened ServerProtocol
  import opened ServerInvariants
  import opened ServerRuns
  import opened ServerTheorems
  import opened LabTables
  import opened StoreCalls
  import opened StoreRefinement
  import opened StoredCaptures

  // ---- The calls of one step ----

  /** What one call is about, and whether it succeeds. */
  datatype Effect =
    | Creates(id: RunId, ok: bool)
    | Sets(id: RunId, status: RunState, ok: bool)
    | Records(id: RunId, episode: int, ok: bool)
    | Finishes(id: RunId, status: RunState, games: Games, ok: bool)

  /** A change that cannot be saved is followed by an attempt to save a failure. */
  function Saves(change: Effect, finishOk: bool): seq<Effect> {
    [change] + (if change.ok then [] else [Finishes(change.id, Failed, [], finishOk)])
  }

  /** A game that is over is recorded when its run goes on. */
  function RecordsGame(s: Server, ok: bool): seq<Effect>
    requires s.worker.Executing?
  {
    if s.at.GameOver? then [Records(s.worker.run, s.at.episode, ok)] else []
  }

  /** A completed run brings what its games leave to capture. */
  function Completes(s: Server, wake: Wake, ok: bool): Effect
    requires s.worker.Executing? && s.worker.run in s.runs
  {
    var id := s.worker.run;
    Finishes(id, Completed, Carried(s.runs[id], s.at, Onward(s, wake).control).games, ok)
  }

  /** A run can also fail while it records a game, or after that. */
  function EffectsOf(s: Server, step: Step, recorded: Option<bool>): seq<Effect>
    requires Enabled(s, step)
  {
    match step
    case DoSubmit(id, _, ok) => [Creates(id, ok)]
    case DoPause(id, ok) => if id in s.runs && s.State(id) == Running then [Sets(id, Paused, ok)] else []
    case DoResume(id, ok) => if id in s.runs && s.State(id) == Paused then [Sets(id, Running, ok)] else []
    case DoCancel(id, ok) =>
      if id !in s.runs then []
      else if s.State(id) == Queued then [Finishes(id, Cancelled, [], ok)]
      else if s.State(id) in {Running, Paused} then [Sets(id, Cancelling, ok)]
      else []
    case DoStartNext(ok, finishOk) =>
      var id := s.line.queue[0];
      if s.State(id) == Cancelled then [] else Saves(Sets(id, Running, ok), finishOk)
    case DoGoOn(wake, ok, finishOk) =>
      var id := s.worker.run;
      RecordsGame(s, true)
      + (match Onward(s, wake)
         case Suspended(_, _) => []
         case Raises(_) => [Finishes(id, Cancelled, [], ok)]
         case Returns(_) => Saves(Completes(s, wake, ok), finishOk))
    case DoRaiseError(ok) =>
      (if recorded.Some? then RecordsGame(s, recorded.value) else []) + [Finishes(s.worker.run, Failed, [], ok)]
    case DoInterrupt(ok) => if s.worker.Executing? then [Finishes(s.worker.run, Cancelled, [], ok)] else []
    case DoDrainNext(ok) =>
      var id := s.line.queue[0];
      if s.State(id) == Cancelled then [] else [Finishes(id, Cancelled, [], ok)]
    case _ => []
  }

  /** A call with such an effect. A completed run brings snapshot and frames of its best game, any other none. */
  ghost predicate Fits(e: Effect, attempt: Attempt) {
    var call := attempt.call;
    && attempt.ok == e.ok && call.id == e.id
    && match e
       case Creates(_, _) => call.CreateRun?
       case Sets(_, status, _) => call.SetStatus? && call.status == status
       case Records(_, episode, _) => call.RecordEpisode? && call.episode == episode
       case Finishes(_, status, games, _) =>
         && call.FinishRun? && call.status == status
         && call.frames == (if status == Completed then Some(StoredFrames(games)) else None)
         && call.snapshot == (if status == Completed then StoredSnapshot(games) else None)
  }

  ghost predicate AllFit(effects: seq<Effect>, attempts: seq<Attempt>)
    decreases |effects|
  {
    && |attempts| == |effects|
    && (effects == [] || (Fits(effects[0], attempts[0]) && AllFit(effects[1..], attempts[1..])))
  }

  /** The attempts that each step of a schedule makes, whatever they carry. */
  ghost predicate Makes(s: Server, steps: seq<Step>, made: seq<seq<Attempt>>)
    requires Legal(s, steps)
    decreases |steps|
  {
    && |made| == |steps|
    && (steps != [] ==>
          && (exists recorded :: AllFit(EffectsOf(s, steps[0], recorded), made[0]))
          && Makes(Next(s, steps[0]), steps[1..], made[1..]))
  }

  function Flat(made: seq<seq<Attempt>>): seq<Attempt> {
    if made == [] then [] else made[0] + Flat(made[1..])
  }

  // ---- What the store holds of each run ----

  /** The status of each run, the number of its recorded episodes, and the games it has completed with. */
  datatype Ledger = Ledger(status: map<RunId, RunState>, counts: map<RunId, int>, games: map<RunId, Games>)

  predicate CountsUp(episodes: seq<(int, EpisodeRow)>) {
    forall i | 0 <= i < |episodes| :: episodes[i].0 == i + 1
  }

  /** What a run of the in-memory store holds: its status, the episodes 1, 2, and so on, and its capture. */
  ghost predicate HoldsRun(m: Memory, l: Ledger, id: RunId)
    requires id in m.runs && id in l.status
  {
    && m.runs[id].status == l.status[id]
    && id in m.episodes && id in l.counts
    && CountsUp(m.episodes[id]) && |m.episodes[id]| == l.counts[id]
    && (l.status[id] == Completed ==>
          && id in l.games
          && m.runs[id].frames == Some(StoredFrames(l.games[id]))
          && m.runs[id].snapshot == StoredSnapshot(l.games[id]))
  }

  /** The in-memory store has exactly these runs. */
  ghost predicate Holds(m: Memory, l: Ledger) {
    && (forall id :: id in m.runs <==> id in l.status)
    && (forall id | id in l.status :: HoldsRun(m, l, id))
  }

  ghost predicate Allowed(l: Ledger, e: Effect) {
    match e
    case Creates(id, _) => id !in l.status
    case Sets(id, status, _) => id in l.status && Unfinished(l.status[id]) && Unfinished(status)
    case Records(id, episode, _) =>
      && id in l.status && Unfinished(l.status[id])
      && id in l.counts && episode == l.counts[id] + 1
    case Finishes(id, status, games, _) =>
      && id in l.status && Unfinished(l.status[id]) && !Unfinished(status)
      && (status == Completed ==> AllGenuine(games))
  }

  function Apply(l: Ledger, e: Effect): Ledger {
    if !e.ok then l
    else
      match e
      case Creates(id, _) => l.(status := l.status[id := Queued], counts := l.counts[id := 0])
      case Sets(id, status, _) => l.(status := l.status[id := status])
      case Records(id, episode, _) => l.(counts := l.counts[id := episode])
      case Finishes(id, status, games, _) =>
        l.(
          status := l.status[id := status],
          games := if status == Completed then l.games[id := games] else l.games)
  }

  ghost predicate AllAllowed(l: Ledger, effects: seq<Effect>)
    decreases |effects|
  {
    effects == [] || (Allowed(l, effects[0]) && AllAllowed(Apply(l, effects[0]), effects[1..]))
  }

  function ApplyAll(l: Ledger, effects: seq<Effect>): Ledger
    decreases |effects|
  {
    if effects == [] then l else ApplyAll(Apply(l, effects[0]), effects[1..])
  }

  /** An allowed effect is a proper call, and the store moves with the ledger. */
  lemma AllowedIsProper(m: Memory, l: Ledger, e: Effect, attempt: Attempt)
    requires Holds(m, l) && Allowed(l, e) && Fits(e, attempt)
    ensures Proper(m, attempt.call) && Holds(Remembered(m, attempt), Apply(l, e))
  {
    if e.Finishes? && e.status == Completed {
      StoredFramesIncrease(e.games);
    }
    var n, k := Remembered(m, attempt), Apply(l, e);
    forall id | id in k.status ensures id in n.runs && HoldsRun(n, k, id) {
      assert id != e.id ==> HoldsRun(m, l, id);
      assert e.id in l.status ==> HoldsRun(m, l, e.id);
    }
  }

  lemma {:induction false} AllAllowedAreProper(m: Memory, l: Ledger, effects: seq<Effect>, attempts: seq<Attempt>)
    requires Holds(m, l) && AllAllowed(l, effects) && AllFit(effects, attempts)
    ensures AllProper(m, attempts) && Holds(MemoryAfter(m, attempts), ApplyAll(l, effects))
    decreases |effects|
  {
    if effects != [] {
      AllowedIsProper(m, l, effects[0], attempts[0]);
      AllAllowedAreProper(Remembered(m, attempts[0]), Apply(l, effects[0]), effects[1..], attempts[1..]);
    }
  }

  // ---- The ledger of a schedule ----

  /** How many recorded episodes a run must have, by what the server shows of it. */
  predicate CountFits(s: Server, id: RunId, count: int)
    requires id in s.runs
  {
    if s.worker == Executing(id) then count == Recorded(s.at)
    else
      && (s.State(id) == Queued ==> count == 0)
      && (s.State(id) == Completed ==> count == Max(0, s.runs[id].config.epochs))
  }

  /** A completed run has been saved with all its games. */
  predicate GamesFit(s: Server, id: RunId, games: map<RunId, Games>)
    requires id in s.runs
  {
    s.State(id) == Completed ==> id in games && games[id] == s.runs[id].games
  }

  ghost predicate Tally(s: Server, l: Ledger) {
    && l.status == s.books.store
    && forall id | id in s.runs :: id in l.counts && CountFits(s, id, l.counts[id]) && GamesFit(s, id, l.games)
  }

  lemma OneEffect(l: Ledger, e: Effect)
    requires Allowed(l, e)
    ensures AllAllowed(l, [e]) && ApplyAll(l, [e]) == Apply(l, e)
  {
    assert [e][1..] == [];
  }

  lemma {:induction false} EffectsConcat(l: Ledger, first: seq<Effect>, second: seq<Effect>)
    requires AllAllowed(l, first) && AllAllowed(ApplyAll(l, first), second)
    ensures AllAllowed(l, first + second) && ApplyAll(l, first + second) == ApplyAll(ApplyAll(l, first), second)
    decreases |first|
  {
    if first == [] {
      assert first + second == second;
    } else {
      assert (first + second)[0] == first[0] && (first + second)[1..] == first[1..] + second;
      EffectsConcat(Apply(l, first[0]), first[1..], second);
    }
  }

  /** A change that is saved, or else a failure. */
  lemma SavesEffect(l: Ledger, change: Effect, finishOk: bool)
    requires Allowed(l, change) && change.id in l.status && Unfinished(l.status[change.id])
    ensures AllAllowed(l, Saves(change, finishOk))
    ensures ApplyAll(l, Saves(change, finishOk))
         == if change.ok then Apply(l, change)
            else if finishOk then l.(status := l.status[change.id := Failed])
            else l
  {
    OneEffect(l, change);
    if !change.ok {
      OneEffect(l, Finishes(change.id, Failed, [], finishOk));
      EffectsConcat(l, [change], [Finishes(change.id, Failed, [], finishOk)]);
    } else {
      assert Saves(change, finishOk) == [change];
    }
  }

  lemma RecordEffect(s: Server, l: Ledger, ok: bool)
    requires Booked(s.runs, s.books) && OneActive(s.runs, s.worker) && l.status == s.books.store
    requires s.worker.Executing? && s.worker.run in l.counts && CountFits(s, s.worker.run, l.counts[s.worker.run])
    ensures AllAllowed(l, RecordsGame(s, ok))
    ensures ApplyAll(l, RecordsGame(s, ok))
         == if ok && s.at.GameOver? then l.(counts := l.counts[s.worker.run := s.at.episode]) else l
  {
    if s.at.GameOver? {
      OneEffect(l, RecordsGame(s, ok)[0]);
    }
  }

  predicate AtMost(worker: Worker, id: RunId) {
    worker.Executing? ==> worker.run == id
  }

  /** Only one run's record and count have changed, and the worker has not turned to another run. */
  lemma TallyFollows(s: Server, t: Server, l: Ledger, k: Ledger, id: RunId)
    requires Tally(s, l) && id in t.runs && t.runs == s.runs[id := t.runs[id]]
    requires k.status == t.books.store
    requires id in k.counts && k.counts == l.counts[id := k.counts[id]] && CountFits(t, id, k.counts[id])
    requires k.games == l.games || (id in k.games && k.games == l.games[id := k.games[id]])
    requires GamesFit(t, id, k.games)
    requires (t.worker == s.worker && t.at == s.at) || (AtMost(s.worker, id) && AtMost(t.worker, id))
    ensures Tally(t, k)
  {
  }

  lemma RequestEffect(s: Server, step: Step, l: Ledger)
    requires Enabled(s, step) && l.status == s.books.store && IsRequest(step)
    requires Booked(s.runs, s.books) && OneActive(s.runs, s.worker)
    ensures AllAllowed(l, EffectsOf(s, step, None))
    ensures ApplyAll(l, EffectsOf(s, step, None)) == l.(status := Next(s, step).books.store)
  {
    var effects := EffectsOf(s, step, None);
    if effects != [] {
      OneEffect(l, effects[0]);
      assert effects == [effects[0]];
    }
  }

  lemma RequestCount(s: Server, step: Step, count: int, games: map<RunId, Games>)
    requires Enabled(s, step) && IsRequest(step) && step.id in s.runs && CountFits(s, step.id, count)
    ensures
      var t := Next(s, step);
      && t.worker == s.worker && t.at == s.at && step.id in t.runs && CountFits(t, step.id, count)
      && (GamesFit(s, step.id, games) ==> GamesFit(t, step.id, games))
  {
  }

  lemma RequestTally(s: Server, step: Step, l: Ledger)
    requires Enabled(s, step) && Tally(s, l) && IsRequest(step)
    requires Booked(s.runs, s.books) && OneActive(s.runs, s.worker)
    ensures AllAllowed(l, EffectsOf(s, step, None)) && Tally(Next(s, step), ApplyAll(l, EffectsOf(s, step, None)))
  {
    RequestEffect(s, step, l);
    TouchEffect(s, step);
    if step.id in s.runs {
      RequestCount(s, step, l.counts[step.id], l.games);
      TallyFollows(s, Next(s, step), l, ApplyAll(l, EffectsOf(s, step, None)), step.id);
    }
  }

  lemma SubmitTally(s: Server, step: Step, l: Ledger)
    requires Enabled(s, step) && Tally(s, l) && step.DoSubmit?
    requires Booked(s.runs, s.books) && Waiting(s.line, s.runs) && OneActive(s.runs, s.worker)
    ensures AllAllowed(l, EffectsOf(s, step, None)) && Tally(Next(s, step), ApplyAll(l, EffectsOf(s, step, None)))
  {
    OneEffect(l, Creates(step.id, step.ok));
  }

  lemma StartSaves(s: Server, step: Step, l: Ledger)
    requires Enabled(s, step) && l.status == s.books.store && step.DoStartNext?
    requires Waiting(s.line, s.runs) && Booked(s.runs, s.books)
    ensures AllAllowed(l, EffectsOf(s, step, None))
    ensures ApplyAll(l, EffectsOf(s, step, None)) == l.(status := Next(s, step).books.store)
  {
    var id := s.line.queue[0];
    assert id in s.line.queue;
    if s.State(id) != Cancelled {
      SavesEffect(l, Sets(id, Running, step.ok), step.finishOk);
    }
  }

  lemma StartCount(s: Server, step: Step, count: int, games: map<RunId, Games>)
    requires Enabled(s, step) && step.DoStartNext? && Waiting(s.line, s.runs) && OneActive(s.runs, s.worker)
    requires CountFits(s, s.line.queue[0], count)
    ensures
      var t, id := Next(s, step), s.line.queue[0];
      && AtMost(s.worker, id) && AtMost(t.worker, id)
      && id in t.runs && t.runs == s.runs[id := t.runs[id]] && CountFits(t, id, count)
      && (GamesFit(s, id, games) ==> GamesFit(t, id, games))
  {
    assert s.line.queue[0] in s.line.queue;
    StartEffect(s, step);
  }

  lemma StartTally(s: Server, step: Step, l: Ledger)
    requires Enabled(s, step) && Tally(s, l) && step.DoStartNext?
    requires Booked(s.runs, s.books) && OneActive(s.runs, s.worker) && Waiting(s.line, s.runs)
    ensures AllAllowed(l, EffectsOf(s, step, None)) && Tally(Next(s, step), ApplyAll(l, EffectsOf(s, step, None)))
  {
    var id := s.line.queue[0];
    StartSaves(s, step, l);
    StartCount(s, step, l.counts[id], l.games);
    TallyFollows(s, Next(s, step), l, ApplyAll(l, EffectsOf(s, step, None)), id);
  }

  lemma DrainSaves(s: Server, step: Step, l: Ledger)
    requires Enabled(s, step) && l.status == s.books.store && step.DoDrainNext?
    requires Waiting(s.line, s.runs) && Booked(s.runs, s.books)
    ensures AllAllowed(l, EffectsOf(s, step, None))
    ensures ApplyAll(l, EffectsOf(s, step, None)) == l.(status := Next(s, step).books.store)
  {
    var id := s.line.queue[0];
    assert id in s.line.queue;
    if s.State(id) != Cancelled {
      OneEffect(l, Finishes(id, Cancelled, [], step.ok));
    }
  }

  lemma DrainCount(s: Server, step: Step, count: int, games: map<RunId, Games>)
    requires Enabled(s, step) && step.DoDrainNext? && Waiting(s.line, s.runs) && Staffed(s)
    ensures
      var t, id := Next(s, step), s.line.queue[0];
      && t.worker == s.worker == Gone && t.at == s.at
      && id in t.runs && t.runs == s.runs[id := t.runs[id]] && CountFits(t, id, count)
      && (GamesFit(s, id, games) ==> GamesFit(t, id, games))
  {
    DrainEffect(s, step);
  }

  lemma DrainTally(s: Server, step: Step, l: Ledger)
    requires Enabled(s, step) && Tally(s, l) && step.DoDrainNext?
    requires Booked(s.runs, s.books) && OneActive(s.runs, s.worker) && Waiting(s.line, s.runs) && Staffed(s)
    ensures AllAllowed(l, EffectsOf(s, step, None)) && Tally(Next(s, step), ApplyAll(l, EffectsOf(s, step, None)))
  {
    var id := s.line.queue[0];
    DrainSaves(s, step, l);
    DrainCount(s, step, l.counts[id], l.games);
    TallyFollows(s, Next(s, step), l, ApplyAll(l, EffectsOf(s, step, None)), id);
  }

  /** A run that fails or is stopped has whatever episodes it had. */
  lemma StopCount(s: Server, step: Step, count: int, games: map<RunId, Games>)
    requires Enabled(s, step) && (step.DoRaiseError? || step.DoInterrupt?) && s.worker.Executing?
    ensures
      var t, id := Next(s, step), s.worker.run;
      && AtMost(t.worker, id) && id in t.runs && t.runs == s.runs[id := t.runs[id]] && CountFits(t, id, count)
      && (GamesFit(s, id, games) ==> GamesFit(t, id, games))
  {
  }

  lemma StopSaves(s: Server, step: Step, l: Ledger)
    requires Enabled(s, step) && l.status == s.books.store && step.DoInterrupt? && s.worker.Executing?
    requires Booked(s.runs, s.books) && OneActive(s.runs, s.worker)
    ensures AllAllowed(l, EffectsOf(s, step, None))
    ensures ApplyAll(l, EffectsOf(s, step, None)) == l.(status := Next(s, step).books.store)
  {
    OneEffect(l, Finishes(s.worker.run, Cancelled, [], step.ok));
  }

  lemma StopTally(s: Server, step: Step, l: Ledger)
    requires Enabled(s, step) && Tally(s, l) && step.DoInterrupt?
    requires Booked(s.runs, s.books) && OneActive(s.runs, s.worker)
    ensures AllAllowed(l, EffectsOf(s, step, None)) && Tally(Next(s, step), ApplyAll(l, EffectsOf(s, step, None)))
  {
    if s.worker.Executing? {
      var id := s.worker.run;
      StopSaves(s, step, l);
      StopCount(s, step, l.counts[id], l.games);
      TallyFollows(s, Next(s, step), l, ApplyAll(l, EffectsOf(s, step, None)), id);
    }
  }

  lemma FailSaves(s: Server, step: Step, l: Ledger)
    requires Enabled(s, step) && l.status == s.books.store && step.DoRaiseError?
    requires Booked(s.runs, s.books) && OneActive(s.runs, s.worker)
    ensures
      var end := Finishes(s.worker.run, Failed, [], step.ok);
      AllAllowed(l, [end]) && ApplyAll(l, [end]) == l.(status := Next(s, step).books.store)
  {
    OneEffect(l, Finishes(s.worker.run, Failed, [], step.ok));
  }

  lemma FailEffect(s: Server, step: Step, recorded: Option<bool>, l: Ledger)
    requires Enabled(s, step) && l.status == s.books.store && step.DoRaiseError?
    requires Booked(s.runs, s.books) && OneActive(s.runs, s.worker)
    requires s.worker.run in l.counts && CountFits(s, s.worker.run, l.counts[s.worker.run])
    ensures
      var id, k := s.worker.run, ApplyAll(l, EffectsOf(s, step, recorded));
      && AllAllowed(l, EffectsOf(s, step, recorded))
      && k.status == Next(s, step).books.store
      && id in k.counts && k.counts == l.counts[id := k.counts[id]] && k.games == l.games
  {
    var end := [Finishes(s.worker.run, Failed, [], step.ok)];
    if recorded.Some? {
      var records := RecordsGame(s, recorded.value);
      RecordEffect(s, l, recorded.value);
      FailSaves(s, step, ApplyAll(l, records));
      EffectsConcat(l, records, end);
    } else {
      assert EffectsOf(s, step, recorded) == end;
      FailSaves(s, step, l);
    }
  }

  lemma FailTally(s: Server, step: Step, recorded: Option<bool>, l: Ledger)
    requires Enabled(s, step) && Tally(s, l) && step.DoRaiseError?
    requires Booked(s.runs, s.books) && OneActive(s.runs, s.worker)
    ensures
      var effects := EffectsOf(s, step, recorded);
      AllAllowed(l, effects) && Tally(Next(s, step), ApplyAll(l, effects))
  {
    var id, k := s.worker.run, ApplyAll(l, EffectsOf(s, step, recorded));
    FailEffect(s, step, recorded, l);
    StopCount(s, step, k.counts[id], l.games);
    TallyFollows(s, Next(s, step), l, k, id);
  }

  /** What the worker saves once the simulation has gone on. */
  function EndEffects(s: Server, step: Step): seq<Effect>
    requires Enabled(s, step) && step.DoGoOn?
  {
    match Onward(s, step.wake)
    case Suspended(_, _) => []
    case Raises(_) => [Finishes(s.worker.run, Cancelled, [], step.ok)]
    case Returns(_) => Saves(Completes(s, step.wake, step.ok), step.finishOk)
  }

  /** The games a run has completed with, if it has just been saved. */
  function GamesAfter(s: Server, step: Step, games: map<RunId, Games>): map<RunId, Games>
    requires Enabled(s, step) && step.DoGoOn?
  {
    if Onward(s, step.wake).Returns? && step.ok then
      games[s.worker.run := Completes(s, step.wake, step.ok).games]
    else games
  }

  lemma CarriedGenuine(run: Run, at: Await, control: Control)
    requires Finished(run.games, run.config) && WellPlaced(at, run.control, run.config)
    ensures AllGenuine(Carried(run, at, control).games)
  {
    var games := Carried(run, at, control).games;
    forall game | game in games ensures game.Genuine() {
      assert game in run.games || (at.GameOver? && game == at.log);
    }
  }

  lemma EndEffect(s: Server, step: Step, l: Ledger)
    requires Enabled(s, step) && l.status == s.books.store && step.DoGoOn?
    requires Booked(s.runs, s.books) && OneActive(s.runs, s.worker) && Placed(s) && Told(s.runs[s.worker.run])
    ensures AllAllowed(l, EndEffects(s, step))
    ensures ApplyAll(l, EndEffects(s, step))
         == l.(status := Next(s, step).books.store, games := GamesAfter(s, step, l.games))
  {
    if Onward(s, step.wake).Returns? {
      CarriedGenuine(s.runs[s.worker.run], s.at, Onward(s, step.wake).control);
      SavesEffect(l, Completes(s, step.wake, step.ok), step.finishOk);
    } else if Onward(s, step.wake).Raises? {
      OneEffect(l, EndEffects(s, step)[0]);
    }
  }

  /** A game that is over has been recorded by the next await, and by the time its run completes. */
  lemma CountGoesOn(s: Server, step: Step, count: int, games: map<RunId, Games>)
    requires Enabled(s, step) && step.DoGoOn? && CountFits(s, s.worker.run, count)
    requires OneActive(s.runs, s.worker) && Placed(s) && Steady(s.runs[s.worker.run])
    ensures
      var t, id := Next(s, step), s.worker.run;
      && AtMost(t.worker, id) && id in t.runs && t.runs == s.runs[id := t.runs[id]]
      && CountFits(t, id, if s.at.GameOver? then s.at.episode else count)
      && GamesFit(t, id, GamesAfter(s, step, games))
  {
    var run := s.runs[s.worker.run];
    ResumedRecords(s.at, run.control, run.config, step.wake);
    ResumedStaysPlaced(s.at, run.control, run.config, step.wake);
    TouchEffect(s, step);
  }

  lemma GoOnEffect(s: Server, step: Step, l: Ledger)
    requires Enabled(s, step) && l.status == s.books.store && step.DoGoOn?
    requires Booked(s.runs, s.books) && OneActive(s.runs, s.worker) && Placed(s) && Told(s.runs[s.worker.run])
    requires s.worker.run in l.counts && CountFits(s, s.worker.run, l.counts[s.worker.run])
    ensures AllAllowed(l, EffectsOf(s, step, None))
    ensures
      var id := s.worker.run;
      ApplyAll(l, EffectsOf(s, step, None))
      == Ledger(
        Next(s, step).books.store, l.counts[id := if s.at.GameOver? then s.at.episode else l.counts[id]],
        GamesAfter(s, step, l.games))
  {
    var id, records := s.worker.run, RecordsGame(s, true);
    RecordEffect(s, l, true);
    EndEffect(s, step, ApplyAll(l, records));
    EffectsConcat(l, records, EndEffects(s, step));
    assert l.counts[id := l.counts[id]] == l.counts;
  }

  lemma GoOnTally(s: Server, step: Step, l: Ledger)
    requires Enabled(s, step) && Tally(s, l) && step.DoGoOn?
    requires Booked(s.runs, s.books) && OneActive(s.runs, s.worker)
    requires Placed(s) && AllSteady(s.runs) && AllTold(s.runs)
    ensures AllAllowed(l, EffectsOf(s, step, None)) && Tally(Next(s, step), ApplyAll(l, EffectsOf(s, step, None)))
  {
    var id := s.worker.run;
    GoOnEffect(s, step, l);
    CountGoesOn(s, step, l.counts[id], l.games);
    TallyFollows(s, Next(s, step), l, ApplyAll(l, EffectsOf(s, step, None)), id);
  }

  lemma OtherTally(s: Server, step: Step, l: Ledger)
    requires Enabled(s, step) && Tally(s, l) && (step.DoStop? || step.DoDrained? || step.DoPublish?)
    ensures EffectsOf(s, step, None) == [] && Tally(Next(s, step), l)
  {
  }

  lemma OnlyFailuresChoose(s: Server, step: Step, recorded: Option<bool>)
    requires Enabled(s, step) && !step.DoRaiseError?
    ensures EffectsOf(s, step, recorded) == EffectsOf(s, step, None)
  {
  }

  /** Every step writes what the ledger allows, and the ledger follows it. */
  lemma StepTally(s: Server, step: Step, recorded: Option<bool>, l: Ledger)
    requires Reachable(s) && Enabled(s, step) && Tally(s, l)
    ensures
      var effects := EffectsOf(s, step, recorded);
      AllAllowed(l, effects) && Tally(Next(s, step), ApplyAll(l, effects))
  {
    ReachableIsSafe(s);
    if step.DoRaiseError? {
      FailTally(s, step, recorded, l);
    } else {
      OnlyFailuresChoose(s, step, recorded);
      if IsRequest(step) {
        RequestTally(s, step, l);
      } else {
        match step {
          case DoSubmit(_, _, _) => SubmitTally(s, step, l);
          case DoStartNext(_, _) => StartTally(s, step, l);
          case DoGoOn(_, _, _) => GoOnTally(s, step, l);
          case DoInterrupt(_) => StopTally(s, step, l);
          case DoDrainNext(_) => DrainTally(s, step, l);
          case _ => OtherTally(s, step, l);
        }
      }
    }
  }

  // ---- Whole schedules ----

  /** The in-memory store has what the server has written. */
  ghost predicate Tracks(s: Server, m: Memory) {
    exists l :: Holds(m, l) && Tally(s, l)
  }

  lemma {:induction false} ProperConcat(m: Memory, first: seq<Attempt>, second: seq<Attempt>)
    requires AllProper(m, first) && AllProper(MemoryAfter(m, first), second)
    ensures AllProper(m, first + second)
    ensures MemoryAfter(m, first + second) == MemoryAfter(MemoryAfter(m, first), second)
    decreases |first|
  {
    if first == [] {
      assert first + second == second;
    } else {
      assert (first + second)[0] == first[0] && (first + second)[1..] == first[1..] + second;
      ProperConcat(Remembered(m, first[0]), first[1..], second);
    }
  }

  /** The attempts of one step are proper calls, and the store still has what the server has written. */
  lemma StepIsProper(s: Server, step: Step, m: Memory, recorded: Option<bool>, attempts: seq<Attempt>)
    requires Reachable(s) && Enabled(s, step) && Tracks(s, m)
    requires AllFit(EffectsOf(s, step, recorded), attempts)
    ensures AllProper(m, attempts) && Tracks(Next(s, step), MemoryAfter(m, attempts))
  {
    var l :| Holds(m, l) && Tally(s, l);
    StepTally(s, step, recorded, l);
    AllAllowedAreProper(m, l, EffectsOf(s, step, recorded), attempts);
  }

  lemma {:induction false} SchedulesAreProper(s: Server, steps: seq<Step>, made: seq<seq<Attempt>>, m: Memory)
    requires Reachable(s) && Legal(s, steps) && Makes(s, steps, made) && Tracks(s, m)
    ensures AllProper(m, Flat(made)) && Tracks(After(s, steps), MemoryAfter(m, Flat(made)))
    decreases |steps|
  {
    if steps != [] {
      var recorded :| AllFit(EffectsOf(s, steps[0], recorded), made[0]);
      var n := MemoryAfter(m, made[0]);
      StepIsProper(s, steps[0], m, recorded, made[0]);
      ReachableGoesOn(s, steps[0]);
      SchedulesAreProper(Next(s, steps[0]), steps[1..], made[1..], n);
      ProperConcat(m, made[0], Flat(made[1..]));
    }
  }

  const NOTHING := Memory(map[], map[])

  lemma NothingTracks()
    ensures Tracks(NEW_SERVER, NOTHING)
  {
    var l := Ledger(map[], map[], map[]);
    assert Holds(NOTHING, l) && Tally(NEW_SERVER, l);
  }

  /**
   * Whatever calls a schedule of the server makes, and whichever of them fail, they are the proper calls that the
   * stores agree on, and the store has the status that the server believes to have written.
   */
  lemma WritesAreProper(steps: seq<Step>, made: seq<seq<Attempt>>)
    requires Legal(NEW_SERVER, steps) && Makes(NEW_SERVER, steps, made)
    ensures AllProper(NOTHING, Flat(made)) && Tracks(After(NEW_SERVER, steps), MemoryAfter(NOTHING, Flat(made)))
  {
    NothingTracks();
    NewIsReachable();
    SchedulesAreProper(NEW_SERVER, steps, made, NOTHING);
  }

  /** After every schedule of the server both stores answer both lookups alike. */
  lemma ServerLookupsAgree(steps: seq<Step>, made: seq<seq<Attempt>>, id: RunId, rows: seq<Frame>)
    requires Legal(NEW_SERVER, steps) && Makes(NEW_SERVER, steps, made)
    requires Enumerates(rows, TablesAfter(NO_TABLES, Flat(made)), id)
    ensures
      var t, m := TablesAfter(NO_TABLES, Flat(made)), MemoryAfter(NOTHING, Flat(made));
      && Shown(TableFrames(t, id, rows)) == Shown(MemoryFrames(m, id))
      && TableSnapshot(t, id) == MemorySnapshot(m, id)
      && (TableFrames(t, id, rows) == MemoryFrames(m, id) <==> MemoryFrames(m, id) != Some(Some([])))
  {
    WritesAreProper(steps, made);
    LookupsAgree(Flat(made), id, rows);
  }

  lemma StoresFollowServer(steps: seq<Step>, made: seq<seq<Attempt>>, id: RunId)
    requires Legal(NEW_SERVER, steps) && Makes(NEW_SERVER, steps, made)
    ensures
      var m := MemoryAfter(NOTHING, Flat(made));
      && Invariant(After(NEW_SERVER, steps)) && Tracks(After(NEW_SERVER, steps), m)
      && RunAgrees(TablesAfter(NO_TABLES, Flat(made)), m, id)
  {
    WritesAreProper(steps, made);
    EveryScheduleIsSafe(steps);
    StartAgrees();
    HistoriesAgree(NO_TABLES, NOTHING, Flat(made));
  }

  /** After every schedule the tables have the runs and the status that the server has written. */
  lemma TablesFollowServer(steps: seq<Step>, made: seq<seq<Attempt>>, id: RunId)
    requires Legal(NEW_SERVER, steps) && Makes(NEW_SERVER, steps, made)
    ensures
      var s, t := After(NEW_SERVER, steps), TablesAfter(NO_TABLES, Flat(made));
      && (id in t.runs <==> id in s.runs)
      && (id in s.runs ==> id in s.books.store && t.runs[id].status == s.books.store[id])
  {
    StoresFollowServer(steps, made, id);
  }

  lemma EpisodeRows(t: Tables, m: Memory, id: RunId, n: int)
    requires RunAgrees(t, m, id) && id in m.runs && CountsUp(m.episodes[id])
    ensures (id, n) in t.episodes <==> 1 <= n <= |m.episodes[id]|
  {
    var episodes := m.episodes[id];
    if 1 <= n <= |episodes| {
      assert episodes[n - 1] in episodes && episodes[n - 1].0 == n;
    }
  }

  lemma CompletedCount(s: Server, m: Memory, id: RunId)
    requires Booked(s.runs, s.books) && OneActive(s.runs, s.worker) && Tracks(s, m)
    requires id in m.runs && m.runs[id].status == Completed
    ensures id in s.runs && id in m.episodes
    ensures CountsUp(m.episodes[id]) && |m.episodes[id]| == Max(0, s.runs[id].config.epochs)
    ensures m.runs[id].frames == Some(StoredFrames(s.runs[id].games))
    ensures m.runs[id].snapshot == StoredSnapshot(s.runs[id].games)
  {
    var l :| Holds(m, l) && Tally(s, l);
    assert HoldsRun(m, l, id);
    assert Terminal(s.books.store[id]);
  }

  /** Whatever failed on the way, a run that is stored as completed has exactly the episodes it was configured for. */
  lemma CompletedRunHasAllEpisodes(steps: seq<Step>, made: seq<seq<Attempt>>, id: RunId, n: int)
    requires Legal(NEW_SERVER, steps) && Makes(NEW_SERVER, steps, made)
    requires
      var t := TablesAfter(NO_TABLES, Flat(made));
      id in t.runs && t.runs[id].status == Completed
    ensures id in After(NEW_SERVER, steps).runs
    ensures
      var run := After(NEW_SERVER, steps).runs[id];
      (id, n) in TablesAfter(NO_TABLES, Flat(made)).episodes <==> 1 <= n <= run.config.epochs
  {
    var t, m := TablesAfter(NO_TABLES, Flat(made)), MemoryAfter(NOTHING, Flat(made));
    StoresFollowServer(steps, made, id);
    CompletedCount(After(NEW_SERVER, steps), m, id);
    EpisodeRows(t, m, id, n);
  }

  /**
   * What clients look up of a run that is stored as completed: the snapshot and all frames of the last best of its
   * games, which are as many as it was configured for, each played to its end by the rules.
   */
  lemma CompletedRunShowsItsBestGame(steps: seq<Step>, made: seq<seq<Attempt>>, id: RunId, rows: seq<Frame>)
    requires Legal(NEW_SERVER, steps) && Makes(NEW_SERVER, steps, made)
    requires
      var t := TablesAfter(NO_TABLES, Flat(made));
      id in t.runs && t.runs[id].status == Completed && Enumerates(rows, t, id)
    ensures id in After(NEW_SERVER, steps).runs
    ensures
      var t, run := TablesAfter(NO_TABLES, Flat(made)), After(NEW_SERVER, steps).runs[id];
      && Finished(run.games, run.config) && |run.games| == Max(0, run.config.epochs)
      && TableSnapshot(t, id) == Some(StoredSnapshot(run.games))
      && TableFrames(t, id, rows)
         == Some(if run.games == [] then None else Some(StoredFrames(run.games)))
  {
    var s, m := After(NEW_SERVER, steps), MemoryAfter(NOTHING, Flat(made));
    StoresFollowServer(steps, made, id);
    CompletedCount(s, m, id);
    ServerLookupsAgree(steps, made, id, rows);
    FramesOfGames(s.runs[id].games);
    assert s.books.store[id] == Completed && s.runs[id].state == Completed;
  }

  lemma FramesOfGames(games: Games)
    ensures StoredFrames(games) == [] <==> games == []
  {
  }
}
