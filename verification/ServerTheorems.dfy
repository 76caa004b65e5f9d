/** What clients and operators of the server can rely on. */
module ServerTheorems {
  import opened Wrappers
  import opened RunControl
  import opened RunAwaits
  import opened EventQueue
  import opened ServerProtocol
  import opened ServerInvariants
  import opened ServerRuns
  import Checkpoints

  // ---- Reachable states ----

  /** Some schedule leads here from an empty server. */
  ghost predicate Reachable(s: Server) {
    exists past :: Legal(NEW_SERVER, past) && After(NEW_SERVER, past) == s
  }

  lemma ReachableIsSafe(s: Server)
    requires Reachable(s)
    ensures Invariant(s)
  {
    var past :| Legal(NEW_SERVER, past) && After(NEW_SERVER, past) == s;
    EveryScheduleIsSafe(past);
  }

  lemma NewIsReachable()
    ensures Reachable(NEW_SERVER)
  {
    assert Legal(NEW_SERVER, []) && After(NEW_SERVER, []) == NEW_SERVER;
  }

  lemma ReachableGoesOn(s: Server, step: Step)
    requires Reachable(s) && Enabled(s, step)
    ensures Reachable(Next(s, step))
  {
    var past :| Legal(NEW_SERVER, past) && After(NEW_SERVER, past) == s;
    LegalAppend(NEW_SERVER, past, step);
  }

  // ---- One ended event, after the store, and for good ----

  /** No run has two events; an event tells the state that is stored and shown, and an error exactly for a failure. */
  lemma EventsTellStoredEnds(steps: seq<Step>, id: RunId, e: Ended)
    requires Legal(NEW_SERVER, steps)
    requires id in After(NEW_SERVER, steps).runs
    ensures
      var s := After(NEW_SERVER, steps);
      && id in s.books.store
      && CountFor(s.books.events.All(), id) <= 1
      && (CountFor(s.books.events.All(), id) == 1 <==> Terminal(s.books.store[id]))
      && (e in s.books.events.All() ==>
            && e.run in s.runs && e.run in s.books.store
            && e.state == s.books.store[e.run] == s.runs[e.run].state && Terminal(e.state)
            && e.error == s.runs[e.run].error && (e.error <==> e.state == Failed))
      && (s.runs[id].error <==> s.runs[id].state == Failed)
  {
    EveryScheduleIsSafe(steps);
    var s := After(NEW_SERVER, steps);
    if e in s.books.events.All() {
      assert Steady(s.runs[e.run]);
    }
  }

  /** A run is stored otherwise than it is shown exactly while its latest store call has failed. */
  lemma UnsavedRunsDiffer(steps: seq<Step>, id: RunId)
    requires Legal(NEW_SERVER, steps) && id in After(NEW_SERVER, steps).runs
    ensures
      var s := After(NEW_SERVER, steps);
      id in s.books.store && (s.books.store[id] == s.runs[id].state <==> id !in s.books.unsaved)
  {
    EveryScheduleIsSafe(steps);
  }

  /** A store exception leaves a request, the worker or the shutdown. */
  predicate Escapes(s: Server, step: Step)
    requires Enabled(s, step)
  {
    match step
    case DoSubmit(_, _, ok) => !ok
    case DoPause(id, ok) => id in s.runs && s.State(id) == Running && !ok
    case DoResume(id, ok) => id in s.runs && s.State(id) == Paused && !ok
    case DoCancel(id, ok) => id in s.runs && s.State(id) in {Queued, Running, Paused} && !ok
    case DoStartNext(ok, finishOk) => s.State(s.line.queue[0]) != Cancelled && !ok && !finishOk
    case DoGoOn(wake, ok, finishOk) => !ok && (Onward(s, wake).Raises? || (Onward(s, wake).Returns? && !finishOk))
    case DoRaiseError(ok) => !ok
    case DoInterrupt(ok) => s.worker.Executing? && !ok
    case DoDrainNext(ok) => s.State(s.line.queue[0]) != Cancelled && !ok
    case _ => false
  }

  ghost predicate NoneEscapes(s: Server, steps: seq<Step>)
    requires Legal(s, steps)
    decreases |steps|
  {
    steps == [] || (!Escapes(s, steps[0]) && NoneEscapes(Next(s, steps[0]), steps[1..]))
  }

  /** Exactly an escaping exception about a known run leaves something unsaved. */
  lemma EscapesLeaveUnsaved(s: Server, step: Step)
    requires Enabled(s, step) && s.books.unsaved == {}
    ensures Next(s, step).books.unsaved == {} <==> !Escapes(s, step) || step.DoSubmit?
  {
  }

  lemma {:induction false} NoneUnsaved(s: Server, steps: seq<Step>)
    requires Legal(s, steps) && NoneEscapes(s, steps) && s.books.unsaved == {}
    ensures After(s, steps).books.unsaved == {}
    decreases |steps|
  {
    if steps != [] {
      EscapesLeaveUnsaved(s, steps[0]);
      NoneUnsaved(Next(s, steps[0]), steps[1..]);
    }
  }

  /**
   * As long as no store exception has escaped, every run is stored as it is shown. While the server serves and
   * its worker is there, none has.
   */
  lemma StoreFollowsMemory(steps: seq<Step>, id: RunId)
    requires Legal(NEW_SERVER, steps) && id in After(NEW_SERVER, steps).runs
    requires NoneEscapes(NEW_SERVER, steps)
      || (After(NEW_SERVER, steps).phase == Serving && After(NEW_SERVER, steps).worker != Gone)
    ensures
      var s := After(NEW_SERVER, steps);
      id in s.books.store && s.books.store[id] == s.runs[id].state
  {
    EveryScheduleIsSafe(steps);
    if NoneEscapes(NEW_SERVER, steps) {
      NoneUnsaved(NEW_SERVER, steps);
    }
  }

  /** The books of another run, or of a run that has ended, are left alone. */
  lemma FollowLeavesEnds(s: Server, t: Server, subject: RunId, id: RunId)
    requires subject in s.runs && subject in t.runs && BooksFollow(s, t, subject)
    requires Booked(s.runs, s.books) && id in s.runs && Terminal(s.books.store[id])
    ensures id in t.books.store && t.books.store[id] == s.books.store[id]
  {
  }

  lemma TouchLeavesEnds(s: Server, step: Step, id: RunId)
    requires Enabled(s, step) && Touches(s, step) && OneActive(s.runs, s.worker)
    requires Booked(s.runs, s.books) && id in s.runs && Terminal(s.books.store[id])
    ensures id in Next(s, step).books.store && Next(s, step).books.store[id] == s.books.store[id]
  {
    TouchEffect(s, step);
    if Subject(s, step) in s.runs {
      if IsRequest(step) {
        RequestBooks(s, step);
      } else {
        EndBooks(s, step);
      }
      FollowLeavesEnds(s, Next(s, step), Subject(s, step), id);
    }
  }

  lemma StartLeavesEnds(s: Server, step: Step, id: RunId)
    requires Enabled(s, step) && step.DoStartNext? && Waiting(s.line, s.runs)
    requires Booked(s.runs, s.books) && id in s.runs && Terminal(s.books.store[id])
    ensures id in Next(s, step).books.store && Next(s, step).books.store[id] == s.books.store[id]
  {
    StartEffect(s, step);
    StartBooks(s, step);
    FollowLeavesEnds(s, Next(s, step), s.line.queue[0], id);
  }

  lemma DrainLeavesEnds(s: Server, step: Step, id: RunId)
    requires Enabled(s, step) && step.DoDrainNext? && Waiting(s.line, s.runs)
    requires Booked(s.runs, s.books) && id in s.runs && Terminal(s.books.store[id])
    ensures id in Next(s, step).books.store && Next(s, step).books.store[id] == s.books.store[id]
  {
    assert s.line.queue[0] in s.line.queue;
  }

  lemma StoredEndStays(s: Server, step: Step, id: RunId)
    requires Enabled(s, step) && Waiting(s.line, s.runs) && OneActive(s.runs, s.worker)
    requires Booked(s.runs, s.books) && id in s.runs && Terminal(s.books.store[id])
    ensures id in Next(s, step).books.store && Next(s, step).books.store[id] == s.books.store[id]
  {
    if Touches(s, step) {
      TouchLeavesEnds(s, step, id);
    } else if step.DoStartNext? {
      StartLeavesEnds(s, step, id);
    } else if step.DoDrainNext? {
      DrainLeavesEnds(s, step, id);
    } else if !step.DoSubmit? {
      OtherEffect(s, step);
    }
  }

  /** A stored terminal state is never overwritten, whatever happens afterwards. */
  lemma {:induction false} StoredEndIsFinal(s: Server, steps: seq<Step>, id: RunId)
    requires Reachable(s) && Legal(s, steps)
    requires id in s.runs && id in s.books.store && Terminal(s.books.store[id])
    ensures
      var t := After(s, steps);
      && id in t.runs && id in t.books.store
      && t.books.store[id] == t.runs[id].state == s.books.store[id]
    decreases |steps|
  {
    ReachableIsSafe(s);
    if steps != [] {
      StoredEndStays(s, steps[0], id);
      TerminalStays(s, steps[0], id);
      ReachableGoesOn(s, steps[0]);
      StoredEndIsFinal(Next(s, steps[0]), steps[1..], id);
    }
  }

  // ---- Order ----

  lemma {:induction false} KeptKeepsOrder(ids: seq<RunId>, keep: seq<RunId>, i: nat, j: nat)
    requires i < j < |Kept(ids, keep)|
    ensures exists a, b | 0 <= a < b < |ids| :: ids[a] == Kept(ids, keep)[i] && ids[b] == Kept(ids, keep)[j]
  {
    var shorter := Kept(DropLast(ids), keep);
    var last := ids[|ids| - 1];
    if j < |shorter| {
      KeptKeepsOrder(DropLast(ids), keep, i, j);
      var a, b :| 0 <= a < b < |ids| - 1 && DropLast(ids)[a] == shorter[i] && DropLast(ids)[b] == shorter[j];
      assert ids[a] == Kept(ids, keep)[i] && ids[b] == Kept(ids, keep)[j];
    } else {
      KeptMember(DropLast(ids), keep, shorter[i]);
      var a :| 0 <= a < |ids| - 1 && DropLast(ids)[a] == shorter[i];
      assert ids[a] == Kept(ids, keep)[i] && ids[|ids| - 1] == Kept(ids, keep)[j];
    }
  }

  /** Runs start in the order in which they were submitted. */
  lemma StartsInSubmissionOrder(s: Server, i: nat, j: nat)
    requires LineOk(s.line, s.runs) && i < j < |s.line.started|
    ensures exists a, b | 0 <= a < b < |s.line.order| ::
              s.line.order[a] == s.line.started[i] && s.line.order[b] == s.line.started[j]
  {
    KeptKeepsOrder(s.line.taken, s.line.started, i, j);
    var a, b :| 0 <= a < b < |s.line.taken|
      && s.line.taken[a] == s.line.started[i] && s.line.taken[b] == s.line.started[j];
    assert s.line.order[a] == s.line.started[i] && s.line.order[b] == s.line.started[j];
  }

  /** The only runs left out are those that ended as cancelled; every other one has started or still waits, once. */
  lemma NobodyIsForgotten(s: Server, id: RunId)
    requires LineOk(s.line, s.runs) && id in s.runs
    ensures id in s.line.started || id in s.line.queue || s.runs[id].state == Cancelled
    ensures s.runs[id].state == Queued ==> id in s.line.queue && id !in s.line.taken
    ensures multiset(s.line.queue)[id] <= 1
  {
    var order, taken, queue := s.line.order, s.line.taken, s.line.queue;
    assert id in order;
    if id in queue {
      var k :| 0 <= k < |queue| && queue[k] == id;
      assert order[|taken| + k] == id;
      forall i | 0 <= i < |taken| ensures taken[i] != id {
        assert order[i] == taken[i];
      }
    }
    DistinctPart(order, taken, queue);
    OnceInDistinct(queue, id);
  }

  lemma DistinctPart(order: seq<RunId>, taken: seq<RunId>, queue: seq<RunId>)
    requires Distinct(order) && order == taken + queue
    ensures Distinct(queue)
  {
    forall i, j | 0 <= i < j < |queue| ensures queue[i] != queue[j] {
      assert order[|taken| + i] == queue[i] && order[|taken| + j] == queue[j];
    }
  }

  lemma {:induction false} OnceInDistinct(ids: seq<RunId>, id: RunId)
    requires Distinct(ids)
    ensures multiset(ids)[id] <= 1
  {
    if ids != [] {
      var rest := ids[1..];
      OnceInDistinct(rest, id);
      assert ids == [ids[0]] + rest;
      assert ids[0] !in rest;
    }
  }

  // ---- The active run ----

  /** The first submitted run in one of the given states. */
  function FirstIn(order: seq<RunId>, runs: map<RunId, Run>, states: set<RunState>): Option<RunId> {
    if order == [] then None
    else if order[0] in runs && runs[order[0]].state in states then Some(order[0])
    else FirstIn(order[1..], runs, states)
  }

  /** What `simulation.active` answers: the run in progress, or else the first queued one. */
  function ActiveRun(s: Server): Option<RunId> {
    var active := FirstIn(s.line.order, s.runs, {Running, Paused, Cancelling});
    if active.Some? then active else FirstIn(s.line.order, s.runs, {Queued})
  }

  lemma {:induction false} FirstInMeaning(order: seq<RunId>, runs: map<RunId, Run>, states: set<RunState>)
    ensures
      match FirstIn(order, runs, states)
      case None => forall id | id in order && id in runs :: runs[id].state !in states
      case Some(id) => id in order && id in runs && runs[id].state in states
  {
    if order != [] {
      FirstInMeaning(order[1..], runs, states);
      assert order == [order[0]] + order[1..];
    }
  }

  lemma {:induction false} FirstInSkips(
    front: seq<RunId>, back: seq<RunId>, runs: map<RunId, Run>, states: set<RunState>)
    requires forall id | id in front && id in runs :: runs[id].state !in states
    ensures FirstIn(front + back, runs, states) == FirstIn(back, runs, states)
  {
    if front == [] {
      assert front + back == back;
    } else {
      assert (front + back)[1..] == front[1..] + back;
      assert front[0] in front;
      FirstInSkips(front[1..], back, runs, states);
    }
  }

  lemma TakenAreNotQueued(line: Line, runs: map<RunId, Run>, id: RunId)
    requires Lined(line, runs) && Waiting(line, runs) && id in line.taken
    ensures id in runs && runs[id].state != Queued
  {
    var k :| 0 <= k < |line.taken| && line.taken[k] == id;
    assert line.order[k] == id;
    forall i | 0 <= i < |line.queue| ensures line.queue[i] != id {
      assert line.order[|line.taken| + i] == line.queue[i];
    }
  }

  lemma FirstQueuedInQueue(line: Line, runs: map<RunId, Run>)
    requires Lined(line, runs) && Waiting(line, runs)
    ensures FirstIn(line.order, runs, {Queued}) == FirstIn(line.queue, runs, {Queued})
  {
    forall id | id in line.taken && id in runs ensures runs[id].state !in {Queued} {
      TakenAreNotQueued(line, runs, id);
    }
    FirstInSkips(line.taken, line.queue, runs, {Queued});
  }

  lemma FirstActive(order: seq<RunId>, runs: map<RunId, Run>, worker: Worker)
    requires OneActive(runs, worker) && forall id | id in runs :: id in order
    ensures FirstIn(order, runs, {Running, Paused, Cancelling})
         == if worker.Executing? then Some(worker.run) else None
  {
    FirstInMeaning(order, runs, {Running, Paused, Cancelling});
  }

  /** The answer is the run the worker executes, or the first queued run in the queue. */
  lemma ActiveRunMeaning(s: Server)
    requires Lined(s.line, s.runs) && Waiting(s.line, s.runs) && OneActive(s.runs, s.worker)
    ensures
      ActiveRun(s)
      == if s.worker.Executing? then Some(s.worker.run) else FirstIn(s.line.queue, s.runs, {Queued})
  {
    FirstActive(s.line.order, s.runs, s.worker);
    FirstQueuedInQueue(s.line, s.runs);
  }

  const TURN := DoStartNext(true, true)

  function Turns(n: nat): (steps: seq<Step>)
    ensures |steps| == n
  {
    seq(n, _ => TURN)
  }

  /** How many turns the worker needs to reach the first queued run. */
  function TurnsToStart(queue: seq<RunId>, runs: map<RunId, Run>): nat {
    if queue == [] then 0
    else if queue[0] in runs && runs[queue[0]].state == Cancelled then 1 + TurnsToStart(queue[1..], runs)
    else 1
  }

  lemma TurnEffect(s: Server)
    requires Waiting(s.line, s.runs) && s.phase == Serving && s.worker == Idle && s.line.queue != []
    ensures Enabled(s, TURN)
    ensures
      var id := s.line.queue[0];
      id in s.runs &&
      if s.runs[id].state == Cancelled
      then Next(s, TURN) == s.(line := Take(s.line))
      else s.runs[id].state == Queued && Next(s, TURN).worker == Executing(id)
  {
    assert s.line.queue[0] in s.line.queue;
  }

  lemma {:induction false} TurnsStartFirstQueued(s: Server, id: RunId)
    requires Lined(s.line, s.runs) && Waiting(s.line, s.runs) && s.phase == Serving && s.worker == Idle
    requires FirstIn(s.line.queue, s.runs, {Queued}) == Some(id)
    ensures Legal(s, Turns(TurnsToStart(s.line.queue, s.runs)))
    ensures After(s, Turns(TurnsToStart(s.line.queue, s.runs))).worker == Executing(id)
    decreases |s.line.queue|
  {
    TurnEffect(s);
    var t, steps := Next(s, TURN), Turns(TurnsToStart(s.line.queue, s.runs));
    assert steps[0] == TURN && steps[1..] == Turns(|steps| - 1);
    if s.runs[s.line.queue[0]].state == Cancelled {
      HeadComesOnce(s.line, s.runs);
      TakeWaiting(s.line, s.runs);
      TurnsStartFirstQueued(t, id);
    } else {
      assert steps[1..] == [];
    }
  }

  /** With nothing active, the answer names the run that the worker starts next, behind any cancelled ones. */
  lemma ActiveRunStartsNext(s: Server)
    requires Lined(s.line, s.runs) && Waiting(s.line, s.runs) && OneActive(s.runs, s.worker)
    requires s.phase == Serving && s.worker == Idle && ActiveRun(s).Some?
    ensures Legal(s, Turns(TurnsToStart(s.line.queue, s.runs)))
    ensures After(s, Turns(TurnsToStart(s.line.queue, s.runs))).worker == Executing(ActiveRun(s).value)
  {
    ActiveRunMeaning(s);
    TurnsStartFirstQueued(s, ActiveRun(s).value);
  }

  // ---- What requests do ----

  /** A run and its controls after a request that applies to its state: the flag reaches the control at once. */
  lemma RequestsTakeEffect(s: Server, id: RunId, ok: bool)
    requires id in s.runs
    ensures
      var before, pause, resume := s.runs[id], PauseRequest(s, id, ok), ResumeRequest(s, id, ok);
      var cancel := CancelRequest(s, id, ok);
      && id in pause.runs && id in resume.runs && id in cancel.runs
      && (before.state == Running ==>
            && pause.runs[id].state == Paused && pause.runs[id].control.paused
            && pause.runs[id].control.cancelRequested == before.control.cancelRequested)
      && (before.state == Paused ==>
            && resume.runs[id].state == Running && !resume.runs[id].control.paused
            && resume.runs[id].control.cancelRequested == before.control.cancelRequested)
      && (before.state in {Queued, Running, Paused} ==>
            && cancel.runs[id].state == (if before.state == Queued then Cancelled else Cancelling)
            && cancel.runs[id].control.cancelRequested && cancel.runs[id].control.paused == before.control.paused)
      && (before.state != Running ==> pause == s)
      && (before.state != Paused ==> resume == s)
      && (before.state !in {Queued, Running, Paused} ==> cancel == s)
      && (forall changed <- {pause, resume, cancel} ::
            || changed == s
            || (changed.runs[id].control.changed && changed.runs[id].control.moveDelay == before.control.moveDelay))
  {
  }

  /** The worker and the shutdown never touch flags or delay. */
  lemma OnlyRequestsReachControls(s: Server, step: Step, id: RunId)
    requires Enabled(s, step) && id in s.runs && !IsRequest(step)
    ensures id in Next(s, step).runs
    ensures
      var before, after := s.runs[id].control, Next(s, step).runs[id].control;
      after == before.(changed := after.changed)
  {
    if step.DoGoOn? {
      var run := s.runs[s.worker.run];
      ResumedLeavesFlags(s.at, run.control, run.config.epochs, step.wake);
    }
  }

  /** Flags and delay of a run are what the operator has asked for. */
  lemma ControlsAreTheOperators(s: Server, step: Step, id: RunId)
    requires Enabled(s, step) && id in s.runs
    ensures id in Next(s, step).runs
    ensures
      var state, before, after := s.State(id), s.runs[id].control, Next(s, step).runs[id].control;
      && after.paused
         == (if step.DoPause? && step.id == id && state == Running then true
             else if step.DoResume? && step.id == id && state == Paused then false
             else before.paused)
      && after.cancelRequested
         == (before.cancelRequested || (step.DoCancel? && step.id == id && state in {Queued, Running, Paused}))
      && after.moveDelay
         == (if step.DoSetMoveDelay? && step.id == id && state in {Queued, Running, Paused}
               && step.ms.Some? && step.ms.value in {0, 20, 40, 60, 80, 100}
             then step.ms.value
             else before.moveDelay)
  {
    if !IsRequest(step) {
      OnlyRequestsReachControls(s, step, id);
    }
  }

  /** A submitted run is queued last, with nothing asked of it yet; one that cannot be stored is not there at all. */
  lemma SubmittedRunIsFresh(s: Server, id: RunId, config: Config, ok: bool)
    requires id !in s.runs
    ensures
      var t := Submit(s, id, config, ok);
      if ok then
        && t.runs.Keys == s.runs.Keys + {id} && t.runs[id].state == Queued && !t.runs[id].error
        && t.runs[id].config == config && t.runs[id].games == []
        && t.runs[id].control == Control(false, false, 0, false)
        && t.line.queue == s.line.queue + [id] && id in t.books.store && t.books.store[id] == Queued
      else t.runs == s.runs && t.line == s.line && t.books == s.books
  {
  }

  /** An escaping exception stops the service, ends the worker or aborts the drain; nothing else does by itself. */
  lemma EscapesAreFelt(s: Server, step: Step)
    requires Enabled(s, step)
    ensures
      var t, escapes := Next(s, step), Escapes(s, step);
      match step
      case DoSubmit(_, _, _) => t.phase == (if escapes then Stopping else Serving) && t.worker == s.worker
      case DoPause(_, _) => t.phase == (if escapes then Stopping else Serving) && t.worker == s.worker
      case DoResume(_, _) => t.phase == (if escapes then Stopping else Serving) && t.worker == s.worker
      case DoCancel(_, _) => t.phase == (if escapes then Stopping else Serving) && t.worker == s.worker
      case DoSetMoveDelay(_, _) => t.phase == Serving && t.worker == s.worker
      case DoStartNext(_, _) => t.phase == Serving && (t.worker == Gone <==> escapes)
      case DoGoOn(_, _, _) => t.phase == Serving && (t.worker == Gone <==> escapes)
      case DoRaiseError(_) => t.phase == Serving && (t.worker == Gone <==> escapes)
      case DoStop => t.phase == Stopping && t.worker == s.worker
      case DoInterrupt(_) => t.phase == Draining && t.worker == Gone
      case DoDrainNext(_) => t.phase == (if escapes then Aborted else Draining) && t.worker == s.worker
      case DoDrained => t.phase == Closed && t.worker == s.worker
      case DoPublish => t.phase == s.phase && t.worker == s.worker
  {
  }

  // ---- How runs end ----

  /** The moves between the states of one run that any single step can make. */
  predicate Lifecycle(before: RunState, after: RunState) {
    || after == before
    || (before == Queued && after in {Running, Cancelled, Failed})
    || (before == Running && after in {Paused, Cancelling, Completed, Cancelled, Failed})
    || (before == Paused && after in {Running, Cancelling, Completed, Cancelled, Failed})
    || (before == Cancelling && after in {Completed, Cancelled, Failed})
  }

  lemma StepsFollowLifecycle(s: Server, step: Step, id: RunId)
    requires Enabled(s, step) && id in s.runs && Waiting(s.line, s.runs) && OneActive(s.runs, s.worker)
    requires AllSteady(s.runs)
    ensures id in Next(s, step).runs && Lifecycle(s.runs[id].state, Next(s, step).runs[id].state)
  {
    if step.DoStartNext? || step.DoDrainNext? {
      assert s.line.queue[0] in s.line.queue;
    }
  }

  // ---- Shutdown ----

  /** When the drain is complete, a run has its event exactly if the store call that ended it succeeded. */
  lemma ClosedServerHasEndedAll(s: Server, id: RunId)
    requires Waiting(s.line, s.runs) && OneActive(s.runs, s.worker) && BooksOk(s.runs, s.books)
    requires Staffed(s) && Publishing(s) && s.phase == Closed && id in s.runs
    ensures Terminal(s.runs[id].state)
    ensures id in s.books.store && (CountFor(s.books.events.All(), id) == 1 <==> id !in s.books.unsaved)
    ensures s.books.events.done ==> s.books.events.sent == s.books.events.All()
  {
    assert s.runs[id].state != Queued;
    assert !Active(s.runs[id].state);
  }

  /** Every store call of the step succeeds. */
  predicate FailureFree(step: Step) {
    match step
    case DoSubmit(_, _, ok) => ok
    case DoPause(_, ok) => ok
    case DoResume(_, ok) => ok
    case DoCancel(_, ok) => ok
    case DoSetMoveDelay(_, _) => true
    case DoStartNext(ok, _) => ok
    case DoGoOn(_, ok, _) => ok
    case DoRaiseError(ok) => ok
    case DoStop => true
    case DoInterrupt(ok) => ok
    case DoDrainNext(ok) => ok
    case DoDrained => true
    case DoPublish => true
  }

  lemma FailureFreeStep(s: Server, step: Step)
    requires Enabled(s, step) && FailureFree(step) && s.books.unsaved == {}
    ensures Next(s, step).books.unsaved == {}
  {
  }

  lemma {:induction false} FailureFreeRun(s: Server, steps: seq<Step>)
    requires Legal(s, steps) && s.books.unsaved == {} && forall step | step in steps :: FailureFree(step)
    ensures After(s, steps).books.unsaved == {}
    decreases |steps|
  {
    if steps != [] {
      assert steps[0] in steps;
      FailureFreeStep(s, steps[0]);
      FailureFreeRun(Next(s, steps[0]), steps[1..]);
    }
  }

  /** After a shutdown without store failures every submitted run has been announced once, and all events were sent. */
  lemma FailureFreeShutdown(steps: seq<Step>, id: RunId)
    requires Legal(NEW_SERVER, steps) && forall step | step in steps :: FailureFree(step)
    requires After(NEW_SERVER, steps).phase == Closed && After(NEW_SERVER, steps).books.events.done
    requires id in After(NEW_SERVER, steps).line.order
    ensures
      var s := After(NEW_SERVER, steps);
      && id in s.runs && id in s.books.store && Terminal(s.books.store[id])
      && s.books.store[id] == s.runs[id].state
      && CountFor(s.books.events.sent, id) == 1
  {
    EveryScheduleIsSafe(steps);
    FailureFreeRun(NEW_SERVER, steps);
    ClosedServerHasEndedAll(After(NEW_SERVER, steps), id);
  }

  /** Events are only ever added at the end, and sent from the front. */
  lemma EventsOnlyGrow(s: Server, step: Step)
    requires Enabled(s, step) && Publishing(s) && (s.phase == Draining ==> s.worker == Gone)
    ensures s.books.events.sent <= Next(s, step).books.events.sent
    ensures s.books.events.All() <= Next(s, step).books.events.All()
  {
    var p, q := s.books.events, Next(s, step).books.events;
    if step.DoPublish? {
      PumpLosesNothing(p);
    } else if step.DoDrained? {
      CloseLosesNothing(p);
    } else if step.DoDrainNext? {
      EventsOfDrain(s, step);
    } else {
      EventsOfOthers(s, step);
    }
  }

  lemma EventsOfDrain(s: Server, step: Step)
    requires Enabled(s, step) && step.DoDrainNext? && Open(s.books.events)
    ensures Next(s, step).books.events.sent == s.books.events.sent
    ensures s.books.events.All() <= Next(s, step).books.events.All()
  {
    var p, q := s.books.events, Next(s, step).books.events;
    CloseLosesNothing(p);
    if q != p && q != Close(p) {
      PublishKeepsOrder(p, q.pending[|q.pending| - 1].value);
    }
  }

  lemma EventsOfOthers(s: Server, step: Step)
    requires Enabled(s, step) && !step.DoPublish? && !step.DoDrained? && !step.DoDrainNext? && Publishing(s)
    ensures Next(s, step).books.events.sent == s.books.events.sent
    ensures s.books.events.All() <= Next(s, step).books.events.All()
  {
    var p, q := s.books.events, Next(s, step).books.events;
    if q != p {
      assert Open(p);
      PublishKeepsOrder(p, q.pending[|q.pending| - 1].value);
    }
  }

  // ---- Schedules one after the other ----

  lemma {:induction false} LegalConcat(s: Server, first: seq<Step>, second: seq<Step>)
    requires Legal(s, first) && Legal(After(s, first), second)
    ensures Legal(s, first + second) && After(s, first + second) == After(After(s, first), second)
    decreases |first|
  {
    if first == [] {
      assert first + second == second;
    } else {
      assert (first + second)[0] == first[0] && (first + second)[1..] == first[1..] + second;
      LegalConcat(Next(s, first[0]), first[1..], second);
    }
  }

  lemma LegalAppend(s: Server, steps: seq<Step>, step: Step)
    requires Legal(s, steps) && Enabled(After(s, steps), step)
    ensures Legal(s, steps + [step]) && After(s, steps + [step]) == Next(After(s, steps), step)
  {
    var t := After(s, steps);
    assert [step][1..] == [];
    assert Legal(Next(t, step), []) && After(Next(t, step), []) == Next(t, step);
    LegalConcat(s, steps, [step]);
  }

  function Pumps(n: nat): (steps: seq<Step>)
    ensures |steps| == n
  {
    seq(n, _ => DoPublish)
  }

  /** Sending everything, as turns of the publishing loop. */
  lemma {:induction false} PumpsSendAll(s: Server)
    requires Closing(s.books.events) && !s.books.events.done
    ensures Legal(s, Pumps(|s.books.events.pending|))
    ensures After(s, Pumps(|s.books.events.pending|))
         == s.(books := s.books.(events := Publisher([], s.books.events.All(), true)))
    decreases |s.books.events.pending|
  {
    var p, steps := s.books.events, Pumps(|s.books.events.pending|);
    var t := Next(s, DoPublish);
    PumpLosesNothing(p);
    assert steps[0] == DoPublish && steps[1..] == Pumps(|p.pending| - 1);
    if t.books.events.done {
      StoppedHasSentAll(t.books.events);
      assert steps[1..] == [] && After(t, []) == t;
      assert t.books.events == Publisher([], p.All(), true);
    } else {
      PumpsSendAll(t);
    }
  }

  // ---- The checkpoint of the active run ----

  /** The flags of the active run make its checkpoints do what its state says. */
  lemma StateGovernsCheckpoint(s: Server, id: RunId, applyDelay: bool)
    requires AllSteady(s.runs) && id in s.runs && Active(s.runs[id].state)
    ensures
      var entered := Checkpoints.Entered(s.runs[id].control, applyDelay);
      match Checkpoints.Proceed(entered).point
      case Raised => s.runs[id].state == Cancelling
      case Blocked => s.runs[id].state == Paused
      case _ => s.runs[id].state == Running
  {
  }
}
