/** What every step of the server keeps. */
module ServerInvariants {
  import opened Wrappers
  import opened RunControl
  import opened RunAwaits
  import opened EventQueue
  import opened ServerProtocol

  // ---- The queue and the order of starts ----

  /** Every run is submitted once, and is either taken already or still in the queue, in submission order. */
  ghost predicate Lined(line: Line, runs: map<RunId, Run>) {
    && Distinct(line.order)
    && line.order == line.taken + line.queue
    && forall id :: id in runs <==> id in line.order
  }

  /** Queued runs wait in the queue, and nothing else does but runs cancelled there. */
  ghost predicate Waiting(line: Line, runs: map<RunId, Run>) {
    && (forall id | id in runs :: runs[id].state == Queued ==> id in line.queue)
    && (forall id | id in line.queue :: id in runs && (runs[id].state == Queued || runs[id].state == Cancelled))
  }

  /** Members of `ids` that are in `keep`, in order. */
  function Kept(ids: seq<RunId>, keep: seq<RunId>): seq<RunId> {
    if ids == [] then []
    else Kept(DropLast(ids), keep) + (if ids[|ids| - 1] in keep then [ids[|ids| - 1]] else [])
  }

  /** Runs start in the order they are taken, leaving out runs that were cancelled before their turn. */
  ghost predicate InTurn(line: Line, runs: map<RunId, Run>) {
    && line.started == Kept(line.taken, line.started)
    && (forall id | id in line.taken :: id in runs && (id in line.started || runs[id].state == Cancelled))
  }

  ghost predicate LineOk(line: Line, runs: map<RunId, Run>) {
    Lined(line, runs) && Waiting(line, runs) && InTurn(line, runs)
  }

  /** A run is queued once: the head comes neither before nor after. */
  lemma HeadComesOnce(line: Line, runs: map<RunId, Run>)
    requires Lined(line, runs) && line.queue != []
    ensures line.queue[0] !in line.queue[1..] && line.queue[0] !in line.taken
    ensures forall id | id in line.queue :: id == line.queue[0] || id in line.queue[1..]
    ensures Lined(Take(line), runs)
  {
    var order, taken, queue := line.order, line.taken, line.queue;
    assert queue == [queue[0]] + queue[1..];
    assert order == taken + [queue[0]] + queue[1..];
    assert order[|taken|] == queue[0];
    forall i | 0 <= i < |taken| ensures taken[i] != queue[0] {
      assert order[i] == taken[i];
    }
    forall i | 1 <= i < |queue| ensures queue[i] != queue[0] {
      assert order[|taken| + i] == queue[i];
    }
  }

  lemma SubmitLined(line: Line, runs: map<RunId, Run>, id: RunId, run: Run)
    requires Lined(line, runs) && id !in runs
    ensures Lined(line.(order := line.order + [id], queue := line.queue + [id]), runs[id := run])
  {
    assert line.order + [id] == line.taken + (line.queue + [id]);
  }

  lemma SubmitWaiting(line: Line, runs: map<RunId, Run>, id: RunId, run: Run)
    requires Waiting(line, runs) && id !in runs && run.state == Queued
    ensures Waiting(line.(order := line.order + [id], queue := line.queue + [id]), runs[id := run])
  {
    var queue := line.queue + [id];
    assert queue[|line.queue|] == id;
    assert forall other | other in line.queue :: other in queue;
  }

  lemma SubmitLine(line: Line, runs: map<RunId, Run>, id: RunId, run: Run)
    requires LineOk(line, runs) && id !in runs && run.state == Queued
    ensures LineOk(line.(order := line.order + [id], queue := line.queue + [id]), runs[id := run])
  {
    SubmitLined(line, runs, id, run);
    SubmitWaiting(line, runs, id, run);
  }

  /** What may happen to the state of a run outside the worker's own start. */
  predicate MayBecome(before: RunState, after: RunState) {
    after == before || (before == Queued && after == Cancelled) || (Active(before) && after != Queued)
  }

  lemma TouchLine(line: Line, runs: map<RunId, Run>, id: RunId, run: Run)
    requires LineOk(line, runs) && id in runs && MayBecome(runs[id].state, run.state)
    ensures LineOk(line, runs[id := run])
  {
  }

  lemma {:induction false} KeptIgnores(ids: seq<RunId>, keep: seq<RunId>, x: RunId)
    requires x !in ids
    ensures Kept(ids, keep + [x]) == Kept(ids, keep)
  {
    if ids != [] {
      KeptIgnores(DropLast(ids), keep, x);
      assert ids[|ids| - 1] in ids;
    }
  }

  lemma {:induction false} KeptMember(ids: seq<RunId>, keep: seq<RunId>, x: RunId)
    ensures x in Kept(ids, keep) <==> x in ids && x in keep
  {
    if ids != [] {
      KeptMember(DropLast(ids), keep, x);
      assert ids == DropLast(ids) + [ids[|ids| - 1]];
    }
  }

  lemma KeptTurn(taken: seq<RunId>, started: seq<RunId>, id: RunId)
    requires started == Kept(taken, started) && id !in taken
    ensures id !in started
    ensures started + [id] == Kept(taken + [id], started + [id])
    ensures started == Kept(taken + [id], started)
  {
    KeptIgnores(taken, started, id);
    KeptMember(taken, started, id);
    assert DropLast(taken + [id]) == taken;
  }

  lemma TakeWaiting(line: Line, runs: map<RunId, Run>)
    requires Lined(line, runs) && Waiting(line, runs) && line.queue != []
    requires runs[line.queue[0]].state != Queued
    ensures Waiting(Take(line), runs)
  {
    HeadComesOnce(line, runs);
  }

  /** The head of the queue leaves it and is cancelled, without having started. */
  lemma SkipLine(line: Line, runs: map<RunId, Run>)
    requires LineOk(line, runs) && line.queue != [] && line.queue[0] in runs
    requires runs[line.queue[0]].state == Cancelled
    ensures LineOk(Take(line), runs)
  {
    HeadComesOnce(line, runs);
    TakeWaiting(line, runs);
    KeptTurn(line.taken, line.started, line.queue[0]);
  }

  lemma StartWaiting(line: Line, runs: map<RunId, Run>, run: Run)
    requires Lined(line, runs) && Waiting(line, runs) && line.queue != [] && run.state != Queued
    ensures Waiting(Take(line).(started := line.started + [line.queue[0]]), runs[line.queue[0] := run])
  {
    HeadComesOnce(line, runs);
  }

  lemma StartTurn(line: Line, runs: map<RunId, Run>, run: Run)
    requires Lined(line, runs) && InTurn(line, runs) && line.queue != []
    ensures InTurn(Take(line).(started := line.started + [line.queue[0]]), runs[line.queue[0] := run])
  {
    HeadComesOnce(line, runs);
    KeptTurn(line.taken, line.started, line.queue[0]);
  }

  lemma StartLined(line: Line, runs: map<RunId, Run>, run: Run)
    requires Lined(line, runs) && line.queue != [] && line.queue[0] in runs
    ensures Lined(Take(line).(started := line.started + [line.queue[0]]), runs[line.queue[0] := run])
  {
    HeadComesOnce(line, runs);
  }

  /** The head of the queue leaves it and starts. */
  lemma StartLine(line: Line, runs: map<RunId, Run>, run: Run)
    requires LineOk(line, runs) && line.queue != [] && line.queue[0] in runs && run.state != Queued
    ensures LineOk(Take(line).(started := line.started + [line.queue[0]]), runs[line.queue[0] := run])
  {
    StartLined(line, runs, run);
    StartWaiting(line, runs, run);
    StartTurn(line, runs, run);
  }

  // ---- Store and events ----

  /** The store differs from memory exactly for the runs whose latest store call failed; terminal states agree. */
  ghost predicate Booked(runs: map<RunId, Run>, b: Books) {
    && (forall id :: id in b.store <==> id in runs)
    && (forall id | id in b.unsaved :: id in runs)
    && (forall id | id in runs :: id in b.unsaved <==> b.store[id] != runs[id].state)
    && (forall id | id in runs :: Terminal(b.store[id]) ==> b.store[id] == runs[id].state)
  }

  /** A run carries an error exactly if it has failed. */
  predicate Blamed(run: Run) {
    run.error <==> run.state == Failed
  }

  function CountFor(events: seq<Ended>, id: RunId): nat {
    if events == [] then 0
    else CountFor(DropLast(events), id) + (if events[|events| - 1].run == id then 1 else 0)
  }

  /** One event per stored terminal state, with that state and an error exactly for a failure, and none otherwise. */
  ghost predicate Announced(store: map<RunId, RunState>, events: seq<Ended>) {
    && (forall id | id in store :: CountFor(events, id) == if Terminal(store[id]) then 1 else 0)
    && (forall e | e in events ::
          e.run in store && Terminal(e.state) && e.state == store[e.run] && (e.error <==> e.state == Failed))
  }

  ghost predicate BooksOk(runs: map<RunId, Run>, b: Books) {
    Booked(runs, b) && Announced(b.store, b.events.All())
  }

  lemma CountAppend(events: seq<Ended>, e: Ended, id: RunId)
    ensures CountFor(events + [e], id) == CountFor(events, id) + (if e.run == id then 1 else 0)
  {
    assert DropLast(events + [e]) == events;
  }

  /** The store accepts a terminal state for a run that had none, and the event follows. */
  lemma AnnounceEnd(store: map<RunId, RunState>, events: seq<Ended>, e: Ended)
    requires Announced(store, events)
    requires e.run in store && !Terminal(store[e.run]) && Terminal(e.state) && (e.error <==> e.state == Failed)
    ensures Announced(store[e.run := e.state], events + [e])
  {
    var after, longer := store[e.run := e.state], events + [e];
    forall id | id in after ensures CountFor(longer, id) == if Terminal(after[id]) then 1 else 0 {
      CountAppend(events, e, id);
    }
    forall f | f in longer
      ensures f.run in after && Terminal(f.state) && f.state == after[f.run] && (f.error <==> f.state == Failed)
    {
      assert f in events || f == e;
    }
  }

  lemma {:induction false} NoEventNoCount(events: seq<Ended>, id: RunId)
    requires forall e | e in events :: e.run != id
    ensures CountFor(events, id) == 0
  {
    if events != [] {
      assert forall e | e in DropLast(events) :: e in events;
      NoEventNoCount(DropLast(events), id);
      assert events[|events| - 1] in events;
    }
  }

  lemma StoreKeepsAnnounced(store: map<RunId, RunState>, events: seq<Ended>, id: RunId, state: RunState)
    requires Announced(store, events) && !Terminal(state)
    requires id in store ==> !Terminal(store[id])
    ensures Announced(store[id := state], events)
  {
    var after := store[id := state];
    if id !in store {
      NoEventNoCount(events, id);
    }
    forall e | e in events ensures e.run in after && e.state == after[e.run] {
    }
  }

  lemma SubmitBooks(runs: map<RunId, Run>, b: Books, id: RunId, run: Run)
    requires BooksOk(runs, b) && id !in runs && run.state == Queued
    ensures BooksOk(runs[id := run], b.(store := b.store[id := Queued]))
  {
    StoreKeepsAnnounced(b.store, b.events.All(), id, Queued);
  }

  lemma WriteKeepsBooked(runs: map<RunId, Run>, b: Books, id: RunId, run: Run, ok: bool)
    requires Booked(runs, b) && id in runs && !Terminal(b.store[id])
    requires !ok ==> b.store[id] != run.state
    ensures Booked(runs[id := run], Write(b, id, run.state, ok))
  {
  }

  /** A status call about one run keeps the books, whether it succeeds or not. */
  lemma MarkBooks(runs: map<RunId, Run>, b: Books, id: RunId, run: Run, ok: bool)
    requires BooksOk(runs, b) && id in runs && !Terminal(b.store[id]) && !Terminal(run.state)
    requires !ok ==> b.store[id] != run.state
    ensures BooksOk(runs[id := run], Write(b, id, run.state, ok))
  {
    WriteKeepsBooked(runs, b, id, run, ok);
    StoreKeepsAnnounced(b.store, b.events.All(), id, run.state);
  }

  lemma FinishAnnounced(b: Books, id: RunId, run: Run, ok: bool)
    requires Announced(b.store, b.events.All()) && Open(b.events)
    requires id in b.store && !Terminal(b.store[id]) && Terminal(run.state) && Blamed(run)
    ensures
      var c := WriteEnd(b, id, run, ok);
      Announced(c.store, c.events.All()) && Open(c.events)
  {
    if ok {
      var e := Ended(id, run.state, run.error);
      PublishKeepsOrder(b.events, e);
      AnnounceEnd(b.store, b.events.All(), e);
    }
  }

  /** `_finish_run` keeps books and announcements together: both move on, or neither does. */
  lemma FinishBooks(runs: map<RunId, Run>, b: Books, id: RunId, run: Run, ok: bool)
    requires BooksOk(runs, b) && Open(b.events) && id in runs && !Terminal(b.store[id]) && Terminal(run.state)
    requires Blamed(run)
    ensures BooksOk(runs[id := run], WriteEnd(b, id, run, ok)) && Open(WriteEnd(b, id, run, ok).events)
  {
    WriteKeepsBooked(runs, b, id, run, ok);
    FinishAnnounced(b, id, run, ok);
  }

  /** A change of memory that leaves the state alone. */
  lemma TouchBooks(runs: map<RunId, Run>, b: Books, id: RunId, run: Run)
    requires BooksOk(runs, b) && id in runs && run.state == runs[id].state
    ensures BooksOk(runs[id := run], b)
  {
  }

  // ---- The worker and the controls ----

  /** A run is active exactly while the worker executes it. */
  ghost predicate OneActive(runs: map<RunId, Run>, worker: Worker) {
    && (worker.Executing? ==> worker.run in runs)
    && (forall id | id in runs :: Active(runs[id].state) <==> worker == Executing(id))
  }

  /** The flags that the checkpoint reads, and the error, agree with the state that clients see. */
  predicate Steady(run: Run) {
    && ValidDelay(run.control.moveDelay)
    && Blamed(run)
    && (run.state == Queued || run.state == Running ==> !run.control.paused && !run.control.cancelRequested)
    && (run.state == Paused ==> run.control.paused && !run.control.cancelRequested)
    && (run.state == Cancelling ==> run.control.cancelRequested)
  }

  ghost predicate AllSteady(runs: map<RunId, Run>) {
    forall id | id in runs :: Steady(runs[id])
  }

  ghost predicate FlowOk(runs: map<RunId, Run>, worker: Worker) {
    OneActive(runs, worker) && AllSteady(runs)
  }

  lemma TouchFlow(runs: map<RunId, Run>, worker: Worker, id: RunId, run: Run, after: Worker)
    requires FlowOk(runs, worker) && Steady(run)
    requires if Active(run.state) then after == Executing(id) else after == worker || !after.Executing?
    requires after == worker || worker == Executing(id) || !worker.Executing?
    requires !Active(run.state) ==> after != Executing(id)
    ensures FlowOk(runs[id := run], after)
  {
  }

  // ---- The phases ----

  /** While the server serves, every run that has not ended is saved. */
  ghost predicate Saved(s: Server) {
    s.phase == Serving ==> forall id | id in s.runs :: Terminal(s.runs[id].state) || id !in s.books.unsaved
  }

  /** While the server serves and its worker is there, no store call has gone wrong for good. */
  predicate UpToDate(s: Server) {
    s.phase == Serving && s.worker != Gone ==> s.books.unsaved == {}
  }

  /** The run that the worker executes stands at one of its awaits. */
  ghost predicate Placed(s: Server) {
    s.worker.Executing? && s.worker.run in s.runs ==>
      WellPlaced(s.at, s.runs[s.worker.run].control, s.runs[s.worker.run].config)
  }

  /** It has recorded the games before that await. */
  predicate Counted(s: Server) {
    s.worker.Executing? && s.worker.run in s.runs ==> |s.runs[s.worker.run].games| == Recorded(s.at)
  }

  /** Real games of the first episodes, one each, played to their end. */
  ghost predicate Finished(games: Games, config: Config) {
    forall k | 0 <= k < |games| :: OfEpisode(games[k], config, k + 1) && games[k].game.done
  }

  /** A queued run has no games, and a completed one has them all. */
  ghost predicate Told(run: Run) {
    && Finished(run.games, run.config)
    && (run.state == Queued ==> run.games == [])
    && (run.state == Completed ==> |run.games| == Max(0, run.config.epochs))
  }

  ghost predicate AllTold(runs: map<RunId, Run>) {
    forall id | id in runs :: Told(runs[id])
  }

  /** From the drain on there is no worker; a closed server has an empty queue. */
  predicate Staffed(s: Server) {
    && (s.phase == Draining || s.phase == Closed || s.phase == Aborted ==> s.worker == Gone)
    && (s.phase == Closed ==> s.line.queue == [])
  }

  /** The event publisher is told to close last. */
  ghost predicate Publishing(s: Server) {
    if s.phase == Closed || s.phase == Aborted then Closing(s.books.events) else Open(s.books.events)
  }

  ghost predicate Invariant(s: Server) {
    && LineOk(s.line, s.runs)
    && BooksOk(s.runs, s.books)
    && FlowOk(s.runs, s.worker)
    && Saved(s)
    && UpToDate(s)
    && Placed(s)
    && Counted(s)
    && AllTold(s.runs)
    && Staffed(s)
    && Publishing(s)
  }

  lemma StartsWell()
    ensures Invariant(NEW_SERVER)
  {
  }
}
