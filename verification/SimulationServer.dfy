/** The server object: request handlers, worker turns and shutdown, each one a step of the protocol. */
module LabServer {
  import opened Wrappers
  import opened RunControl
  import opened RunAwaits
  import Checkpoints
  import Simulation
  import opened EventQueue
  import opened ServerProtocol
  import opened ServerInvariants
  import opened ServerRuns
  import opened ServerTheorems

  datatype StatusCall = StatusCall(id: RunId, state: RunState, ok: bool)

  /** The status column of the store. Any call may raise, and then changes nothing. */
  class StatusStore {
    var status: map<RunId, RunState>

    /** Every call so far, with the store's own answer. */
    ghost var log: seq<StatusCall>

    constructor ()
      ensures status == map[] && log == []
    {
      status, log := map[], [];
    }

    method Put(id: RunId, state: RunState) returns (ok: bool)
      modifies this
      ensures status == if ok then old(status)[id := state] else old(status)
      ensures log == old(log) + [StatusCall(id, state, ok)]
    {
      ok := *;
      log := log + [StatusCall(id, state, ok)];
      if ok {
        status := status[id := state];
      }
    }
  }

  /** A change that cannot be saved is followed by one more call, about a failure. */
  function CallsFor(id: RunId, state: RunState, ok: bool, finishOk: bool): seq<StatusCall> {
    [StatusCall(id, state, ok)] + (if ok then [] else [StatusCall(id, Failed, finishOk)])
  }

  /** The calls that a step makes about the status of runs: it fails only where the store has. */
  function StatusCalls(s: Server, step: Step): seq<StatusCall>
    requires Enabled(s, step)
  {
    match step
    case DoSubmit(id, _, ok) => [StatusCall(id, Queued, ok)]
    case DoPause(id, ok) => if id in s.runs && s.State(id) == Running then [StatusCall(id, Paused, ok)] else []
    case DoResume(id, ok) => if id in s.runs && s.State(id) == Paused then [StatusCall(id, Running, ok)] else []
    case DoCancel(id, ok) =>
      if id !in s.runs then []
      else if s.State(id) == Queued then [StatusCall(id, Cancelled, ok)]
      else if s.State(id) in {Running, Paused} then [StatusCall(id, Cancelling, ok)]
      else []
    case DoStartNext(ok, finishOk) =>
      var id := s.line.queue[0];
      if s.State(id) == Cancelled then [] else CallsFor(id, Running, ok, finishOk)
    case DoGoOn(wake, ok, finishOk) =>
      var id := s.worker.run;
      (match Onward(s, wake)
       case Suspended(_, _) => []
       case Raises(_) => [StatusCall(id, Cancelled, ok)]
       case Returns(_) => CallsFor(id, Completed, ok, finishOk))
    case DoRaiseError(ok) => [StatusCall(s.worker.run, Failed, ok)]
    case DoInterrupt(ok) => if s.worker.Executing? then [StatusCall(s.worker.run, Cancelled, ok)] else []
    case DoDrainNext(ok) =>
      var id := s.line.queue[0];
      if s.State(id) == Cancelled then [] else [StatusCall(id, Cancelled, ok)]
    case _ => []
  }

  /** The answer to a request that moves a run from one of some states, or finds it moved already. */
  function Reply(
    s: Server, id: RunId, movable: set<RunState>, moved: set<RunState>, after: RunState, ok: bool)
    : Result<RunState, RequestError>
  {
    if id !in s.runs then Err(RunNotFound)
    else if s.runs[id].state in movable then if ok then Ok(after) else Err(StoreRaised)
    else if s.runs[id].state in moved then Ok(s.runs[id].state)
    else Err(InvalidRunState)
  }

  /** Each request's answer, case by case. A run that has moved already is answered with the state it is in. */
  lemma RepliesSpelledOut(s: Server, id: RunId, ok: bool)
    ensures id !in s.runs ==> Reply(s, id, {Running}, {Paused}, Paused, ok) == Err(RunNotFound)
    ensures id in s.runs ==>
              var paused := Reply(s, id, {Running}, {Paused}, Paused, ok);
              var resumed := Reply(s, id, {Paused}, {Running}, Running, ok);
              var cancelled := Reply(s, id, {Running, Paused}, {Cancelling, Cancelled}, Cancelling, ok);
              match s.State(id)
              case Running =>
                && (paused == if ok then Ok(Paused) else Err(StoreRaised))
                && resumed == Ok(Running) && (cancelled == if ok then Ok(Cancelling) else Err(StoreRaised))
              case Paused =>
                && paused == Ok(Paused) && (resumed == if ok then Ok(Running) else Err(StoreRaised))
                && (cancelled == if ok then Ok(Cancelling) else Err(StoreRaised))
              case Cancelling =>
                && paused == Err(InvalidRunState) && resumed == Err(InvalidRunState) && cancelled == Ok(Cancelling)
              case Cancelled =>
                && paused == Err(InvalidRunState) && resumed == Err(InvalidRunState) && cancelled == Ok(Cancelled)
              case Queued =>
                && paused == Err(InvalidRunState) && resumed == Err(InvalidRunState)
                && (Reply(s, id, {Queued}, {}, Cancelled, ok) == if ok then Ok(Cancelled) else Err(StoreRaised))
              case _ =>
                && paused == Err(InvalidRunState) && resumed == Err(InvalidRunState)
                && cancelled == Err(InvalidRunState)
  {
  }

  /** The record of one run. The dictionary, the queue and the worker share it. */
  class SimulationRun {
    const runId: RunId
    const config: Config
    var state: RunState
    var error: bool
    const control: Checkpoints.SimulationControl

    /** The games that its simulation has recorded. */
    ghost var games: Games

    ghost function View(): Run
      reads this, control
    {
      Run(state, error, control.View(), config, games)
    }

    constructor (runId: RunId, config: Config)
      ensures this.runId == runId && View() == Run(Queued, false, NEW_CONTROL, config, [])
      ensures fresh(control)
    {
      this.runId, this.config, state, error := runId, config, Queued, false;
      games := [];
      control := new Checkpoints.SimulationControl();
    }
  }

  ghost function Ids(records: seq<SimulationRun>): seq<RunId> {
    seq(|records|, i requires 0 <= i < |records| => records[i].runId)
  }

  lemma IdsOfFirst(records: seq<SimulationRun>)
    requires records != []
    ensures Ids(records) != [] && Ids(records)[0] == records[0].runId
    ensures Ids(records[1..]) == Ids(records)[1..]
  {
  }

  lemma IdsOfAppended(records: seq<SimulationRun>, run: SimulationRun)
    ensures Ids(records + [run]) == Ids(records) + [run.runId]
  {
  }

  /** A run after an operation on its controls, if any, in a new state. */
  function Changed(run: Run, op: Option<Operation>, state: RunState, error: bool): Run {
    run.(state := state, error := error, control := if op.Some? then Operate(run.control, op.value) else run.control)
  }

  /** The server when the simulation has come to its next await or to its end. */
  function Proceeded(s: Server, control: Control, ending: Ending): Server
    requires s.worker.Executing? && s.worker.run in s.runs
  {
    var id := s.worker.run;
    s.(runs := s.runs[id := Carried(s.runs[id], s.at, control)], at := if ending.Waits? then ending.at else s.at)
  }

  /** What the worker then does about an end is one step together with what the simulation has done. */
  lemma EndAfterProceeding(s: Server, wake: Wake, control: Control, ending: Ending, ok: bool, finishOk: bool)
    requires Enabled(s, DoGoOn(wake, ok, finishOk)) && Left(ending, control) == Onward(s, wake)
    ensures
      var t, id := Proceeded(s, control, ending), s.worker.run;
      Next(s, DoGoOn(wake, ok, finishOk))
      == match ending
         case Waits(_) => t
         case HasRaised => EndCancelled(t, t.runs[id], ok)
         case HasReturned => EndCompleted(t, t.runs[id], ok, finishOk)
  {
    var id, run := s.worker.run, Carried(s.runs[s.worker.run], s.at, control);
    assert s.runs[id := run][id := run.(state := Completed)] == s.runs[id := run.(state := Completed)];
    assert s.runs[id := run][id := run.(state := Cancelled)] == s.runs[id := run.(state := Cancelled)];
  }

  class SimulationServer {
    var runs: map<RunId, SimulationRun>
    var order: seq<RunId>
    var queue: seq<SimulationRun>
    const store: StatusStore
    const events: EventsPublisher<Ended>
    var worker: Worker
    var at: Await
    var phase: Phase

    /** Runs taken from the queue, runs started, and runs whose latest store call failed. */
    ghost var taken: seq<RunId>
    ghost var started: seq<RunId>
    ghost var unsaved: set<RunId>

    /** The values of the run records, the records, and the run that each control belongs to. */
    ghost var model: map<RunId, Run>
    ghost var records: set<SimulationRun>
    ghost var controls: map<Checkpoints.SimulationControl, RunId>

    /** The dictionary's record of a run, with a control of its own. */
    ghost predicate Keeps(id: RunId)
      reads this`runs, this`records, this`controls, this`model, records, controls.Keys
    {
      && id in runs && runs[id] in records && runs[id].control in controls
      && runs[id].runId == id && controls[runs[id].control] == id
      && id in model && runs[id].View() == model[id]
    }

    /** Every run has such a record, and the queue holds the very records of the dictionary. */
    ghost predicate Owned()
      reads this`runs, this`queue, this`records, this`controls, this`model, records, controls.Keys
    {
      && runs.Keys == model.Keys
      && (forall id {:trigger Keeps(id)} :: id in runs ==> Keeps(id))
      && (forall run {:trigger InRuns(run)} :: run in queue ==> InRuns(run))
    }

    ghost predicate InRuns(run: SimulationRun)
      reads this`runs
    {
      run.runId in runs && runs[run.runId] == run
    }

    ghost function View(): Server
      reads this, store, events
    {
      Server(
        model, Line(order, taken, Ids(queue), started), Books(store.status, unsaved, events.View()), worker, at, phase)
    }

    constructor ()
      ensures Owned() && View() == NEW_SERVER && fresh(store) && fresh(events) && records == {} && controls == map[]
    {
      runs, order, queue, worker, at, phase := map[], [], [], Idle, Probed, Serving;
      taken, started, unsaved, model, records, controls := [], [], {}, map[], {}, map[];
      store := new StatusStore();
      events := new EventsPublisher<Ended>();
    }

    // ---- One record ----

    /** Only one record and its control have changed since, and the model has followed. */
    twostate lemma OneRunMoved(run: SimulationRun)
      requires old(allocated(run)) && old(Owned()) && old(InRuns(run))
      requires runs == old(runs) && queue == old(queue) && records == old(records) && controls == old(controls)
      requires model == old(model)[run.runId := run.View()]
      requires forall other <- records :: other != run ==> unchanged(other)
      requires forall control <- controls.Keys :: control != run.control ==> unchanged(control)
      ensures Owned()
    {
      assert old(Keeps(run.runId));
      forall id | id in runs
        ensures Keeps(id)
      {
        assert old(Keeps(id));
      }
      forall other | other in queue
        ensures InRuns(other)
      {
        assert old(InRuns(other));
      }
    }

    static method Steer(control: Checkpoints.SimulationControl, op: Operation) returns (refused: bool)
      modifies control
      ensures control.View() == Operate(old(control.View()), op) && refused == Refused(op)
    {
      refused := false;
      match op
      case Pause => control.Pause();
      case Resume => control.Resume();
      case Cancel => control.Cancel();
      case SetMoveDelay(ms) => refused := control.SetMoveDelay(ms);
    }

    /** An operation on the controls of a run, if any, and its new state in memory. */
    method Change(run: SimulationRun, op: Option<Operation>, state: RunState, error: bool) returns (refused: bool)
      requires Owned() && InRuns(run)
      modifies this`model, run, run.control
      ensures Owned() && model == old(model)[run.runId := Changed(old(model)[run.runId], op, state, error)]
      ensures refused == (op.Some? && Refused(op.value))
    {
      assert Keeps(run.runId);
      refused := false;
      if op.Some? {
        refused := Steer(run.control, op.value);
      }
      run.state, run.error := state, error;
      model := model[run.runId := run.View()];
      OneRunMoved(run);
    }

    /** A status call about a run that is already in its new state in memory. */
    method Save(run: SimulationRun) returns (ok: bool)
      requires Owned() && InRuns(run)
      modifies this`unsaved, store
      ensures Owned() && View() == old(View()).(books :=
                Write(old(View()).books, run.runId, model[run.runId].state, ok))
      ensures store.log == old(store.log) + [StatusCall(run.runId, model[run.runId].state, ok)]
    {
      assert Keeps(run.runId);
      ok := store.Put(run.runId, run.state);
      unsaved := if ok then unsaved - {run.runId} else unsaved + {run.runId};
    }

    /** A change of state, saved. */
    method Mark(run: SimulationRun, op: Option<Operation>, state: RunState, error: bool) returns (ok: bool)
      requires Owned() && InRuns(run)
      modifies this`model, this`unsaved, run, run.control, store
      ensures Owned() && View() ==
        ServerProtocol.Mark(old(View()), run.runId, Changed(old(model)[run.runId], op, state, error), ok)
      ensures store.log == old(store.log) + [StatusCall(run.runId, state, ok)]
    {
      var _ := Change(run, op, state, error);
      ok := Save(run);
    }

    /** A terminal state: in memory, then in the store, and only then in an ended event. */
    method FinishRun(run: SimulationRun, op: Option<Operation>, state: RunState, error: bool) returns (ok: bool)
      requires Owned() && InRuns(run)
      modifies this`model, this`unsaved, run, run.control, store, events
      ensures Owned() && View() ==
        Finish(old(View()), run.runId, Changed(old(model)[run.runId], op, state, error), ok)
      ensures store.log == old(store.log) + [StatusCall(run.runId, state, ok)]
    {
      ok := Mark(run, op, state, error);
      assert Keeps(run.runId);
      if ok {
        events.PublishEvent(Ended(run.runId, run.state, run.error));
      }
    }

    /** A request that moves a run; an exception stops the service. */
    method MarkAndAnswer(run: SimulationRun, op: Operation, state: RunState)
      returns (r: Result<RunState, RequestError>, ok: bool)
      requires Owned() && InRuns(run)
      modifies this`model, this`unsaved, this`phase, run, run.control, store
      ensures Owned() && View() == Escape(ServerProtocol.Mark(
                old(View()), run.runId,
                Changed(old(model)[run.runId], Some(op), state, old(model)[run.runId].error), ok), ok)
      ensures r == if ok then Ok(state) else Err(StoreRaised)
      ensures store.log == old(store.log) + [StatusCall(run.runId, state, ok)]
    {
      assert Keeps(run.runId);
      ok := Mark(run, Some(op), state, run.error);
      r := Ok(state);
      if !ok {
        phase := Stopping;
        r := Err(StoreRaised);
      }
    }

    // ---- Requests ----

    /** A new record in the dictionary. */
    method Register(run: SimulationRun)
      requires Owned() && run.runId !in runs && run.control !in controls
      modifies this`runs, this`order, this`model, this`records, this`controls
      ensures Owned() && InRuns(run)
      ensures records == old(records) + {run} && controls.Keys == old(controls.Keys) + {run.control}
      ensures model == old(model)[run.runId := run.View()] && order == old(order) + [run.runId]
    {
      runs := runs[run.runId := run];
      model := model[run.runId := run.View()];
      records, controls := records + {run}, controls[run.control := run.runId];
      order := order + [run.runId];
      forall id | id in runs
        ensures Keeps(id)
      {
        assert id != run.runId ==> old(Keeps(id));
      }
      forall other | other in queue
        ensures InRuns(other)
      {
        assert old(InRuns(other));
      }
    }

    /** The run joins the end of the queue. */
    method Enqueue(run: SimulationRun)
      requires Owned() && InRuns(run)
      modifies this`queue
      ensures Owned() && |queue| == old(|queue|) + 1
      ensures View() == old(View()).(line := old(View()).line.(queue := old(View()).line.queue + [run.runId]))
    {
      IdsOfAppended(queue, run);
      queue := queue + [run];
      forall other | other in queue
        ensures InRuns(other)
      {
        assert other != run ==> old(InRuns(other));
      }
    }

    /** A new record, which the dictionary and the queue share from here on. */
    method Accept(id: RunId, config: Config)
      requires Owned() && id !in runs
      modifies this`runs, this`order, this`queue, this`model, this`records, this`controls
      ensures Owned() && fresh(records - old(records)) && fresh(controls.Keys - old(controls.Keys))
      ensures View() == old(View()).(
        runs := old(model)[id := Run(Queued, false, NEW_CONTROL, config, [])],
        line := old(View()).line.(order := old(order) + [id], queue := old(View()).line.queue + [id]))
    {
      var run := new SimulationRun(id, config);
      Register(run);
      Enqueue(run);
    }

    /** A rejected configuration leaves no trace; an accepted one gets the position behind the whole queue. */
    method Submit(id: RunId, config: Config, accepted: bool) returns (r: Result<nat, RequestError>, ghost ok: bool)
      requires Owned() && Enabled(View(), DoSubmit(id, config, true))
      modifies this, store
      ensures Owned() && fresh(records - old(records)) && fresh(controls.Keys - old(controls.Keys))
      ensures !accepted ==> View() == old(View()) && r == Err(InvalidRequest)
      ensures accepted ==> View() == Next(old(View()), DoSubmit(id, config, ok))
      ensures store.log == old(store.log) + if accepted then StatusCalls(old(View()), DoSubmit(id, config, ok)) else []
      ensures accepted ==> r == if ok then Ok(old(|queue|) + 1) else Err(StoreRaised)
    {
      if !accepted {
        return Err(InvalidRequest), false;
      }
      var saved := store.Put(id, Queued);
      ok := saved;
      if saved {
        r := Ok(|queue| + 1);
        Accept(id, config);
      } else {
        phase := Stopping;
        r := Err(StoreRaised);
      }
    }

    method Pause(id: RunId) returns (r: Result<RunState, RequestError>, ghost ok: bool)
      requires Owned() && phase == Serving
      modifies this`model, this`unsaved, this`phase, store, records, controls.Keys
      ensures Owned()
      ensures View() == Next(old(View()), DoPause(id, ok))
      ensures store.log == old(store.log) + StatusCalls(old(View()), DoPause(id, ok))
      ensures r == Reply(old(View()), id, {Running}, {Paused}, Paused, ok)
    {
      ok := true;
      if id !in runs {
        return Err(RunNotFound), true;
      }
      assert Keeps(id);
      var run := runs[id];
      if run.state == Running {
        r, ok := MarkAndAnswer(run, Operation.Pause, Paused);
      } else {
        r := if run.state == Paused then Ok(Paused) else Err(InvalidRunState);
      }
    }

    method Resume(id: RunId) returns (r: Result<RunState, RequestError>, ghost ok: bool)
      requires Owned() && phase == Serving
      modifies this`model, this`unsaved, this`phase, store, records, controls.Keys
      ensures Owned()
      ensures View() == Next(old(View()), DoResume(id, ok))
      ensures store.log == old(store.log) + StatusCalls(old(View()), DoResume(id, ok))
      ensures r == Reply(old(View()), id, {Paused}, {Running}, Running, ok)
    {
      ok := true;
      if id !in runs {
        return Err(RunNotFound), true;
      }
      assert Keeps(id);
      var run := runs[id];
      if run.state == Paused {
        r, ok := MarkAndAnswer(run, Operation.Resume, Running);
      } else {
        r := if run.state == Running then Ok(Running) else Err(InvalidRunState);
      }
    }

    /** A run cancelled while it is queued ends at once. */
    method CancelQueued(run: SimulationRun) returns (r: Result<RunState, RequestError>, ok: bool)
      requires Owned() && InRuns(run)
      modifies this`model, this`unsaved, this`phase, run, run.control, store, events
      ensures Owned() && View() == Escape(Finish(
                old(View()), run.runId,
                Changed(old(model)[run.runId], Some(Operation.Cancel), Cancelled, old(model)[run.runId].error), ok), ok)
      ensures r == if ok then Ok(Cancelled) else Err(StoreRaised)
      ensures store.log == old(store.log) + [StatusCall(run.runId, Cancelled, ok)]
    {
      assert Keeps(run.runId);
      ok := FinishRun(run, Some(Operation.Cancel), Cancelled, run.error);
      r := Ok(Cancelled);
      if !ok {
        phase := Stopping;
        r := Err(StoreRaised);
      }
    }

    method Cancel(id: RunId) returns (r: Result<RunState, RequestError>, ghost ok: bool)
      requires Owned() && phase == Serving
      modifies this`model, this`unsaved, this`phase,
               store, events, records, controls.Keys
      ensures Owned()
      ensures View() == Next(old(View()), DoCancel(id, ok))
      ensures store.log == old(store.log) + StatusCalls(old(View()), DoCancel(id, ok))
      ensures r == (if id in old(model) && old(model)[id].state == Queued
                    then Reply(old(View()), id, {Queued}, {}, Cancelled, ok)
                    else Reply(old(View()), id, {Running, Paused}, {Cancelling, Cancelled}, Cancelling, ok))
    {
      ok := true;
      if id !in runs {
        return Err(RunNotFound), true;
      }
      assert Keeps(id);
      var run := runs[id];
      if run.state == Queued {
        r, ok := CancelQueued(run);
      } else if run.state == Running || run.state == Paused {
        r, ok := MarkAndAnswer(run, Operation.Cancel, Cancelling);
      } else {
        r := if run.state == Cancelling || run.state == Cancelled then Ok(run.state) else Err(InvalidRunState);
      }
    }

    /** Neither the store nor the state is involved. */
    method SetMoveDelay(id: RunId, ms: Option<int>) returns (r: Result<RunState, RequestError>)
      requires Owned() && phase == Serving
      modifies this`model, records, controls.Keys
      ensures Owned()
      ensures View() == Next(old(View()), DoSetMoveDelay(id, ms))
      ensures r == (
                if id !in old(model) then Err(RunNotFound)
                else if old(model)[id].state !in {Queued, Running, Paused} then Err(InvalidRunState)
                else if Refused(RunControl.SetMoveDelay(ms)) then Err(InvalidRequest)
                else Ok(old(model)[id].state))
    {
      if id !in runs {
        return Err(RunNotFound);
      }
      assert Keeps(id);
      var run := runs[id];
      if run.state != Queued && run.state != Running && run.state != Paused {
        return Err(InvalidRunState);
      }
      r := Ok(run.state);
      var refused := Change(run, Some(Operation.SetMoveDelay(ms)), run.state, run.error);
      if refused {
        r := Err(InvalidRequest);
      }
    }

    // ---- The worker ----

    /** The next run of the queue. */
    method Get() returns (run: SimulationRun)
      requires Owned() && queue != []
      modifies this`queue, this`taken
      ensures Owned() && InRuns(run)
      ensures old(View()).line.queue != [] && run.runId == old(View()).line.queue[0]
      ensures View() == old(View()).(line := Take(old(View()).line))
    {
      IdsOfFirst(queue);
      run := queue[0];
      assert InRuns(run);
      queue := queue[1..];
      taken := taken + [run.runId];
    }

    /** The worker is with the run from here on, unless the store has raised. */
    method Begin(id: RunId, ok: bool)
      requires Owned()
      modifies this`started, this`worker, this`at
      ensures Owned()
      ensures
        var t := old(View()).(line := old(View()).line.(started := old(started) + [id]));
        View() == if ok then t.(worker := Executing(id), at := Probed) else t
    {
      started := started + [id];
      if ok {
        worker, at := Executing(id), Probed;
      }
    }

    /** The run is running in memory, and then in the store; if that succeeds the simulation begins. */
    method Start(run: SimulationRun) returns (ok: bool)
      requires Owned() && InRuns(run)
      modifies this`started, this`model, this`unsaved, this`worker, this`at, run, run.control, store
      ensures Owned()
      ensures
        var t := ServerProtocol.Mark(
          old(View()).(line := old(View()).line.(started := old(started) + [run.runId])),
          run.runId, old(model)[run.runId].(state := Running), ok);
        View() == if ok then t.(worker := Executing(run.runId), at := Probed) else t
      ensures store.log == old(store.log) + [StatusCall(run.runId, Running, ok)]
    {
      assert Keeps(run.runId);
      ok := Mark(run, None, Running, run.error);
      Begin(run.runId, ok);
    }

    /** A run starts, or has failed if the store raises. */
    method Launch(run: SimulationRun) returns (ghost ok: bool, ghost finishOk: bool)
      requires Owned() && InRuns(run)
      modifies this`started, this`model, this`unsaved, this`worker, this`at, run, run.control, store, events
      ensures Owned()
      ensures
        var t := ServerProtocol.Mark(
          old(View()).(line := old(View()).line.(started := old(started) + [run.runId])),
          run.runId, old(model)[run.runId].(state := Running), ok);
        View()
        == if ok then t.(worker := Executing(run.runId), at := Probed) else FailRun(t, run.runId, finishOk)
      ensures store.log == old(store.log) + CallsFor(run.runId, Running, ok, finishOk)
    {
      finishOk := true;
      var saved := Start(run);
      ok := saved;
      if !saved {
        finishOk := Fail(run);
      }
    }

    /** Take the head of the queue; a run cancelled there is passed over, any other one starts. */
    method WorkerTurn() returns (ghost ok: bool, ghost finishOk: bool)
      requires Owned() && phase == Serving && worker == Idle && queue != []
      modifies this`queue, this`taken, this`started, this`model, this`unsaved, this`worker, this`at,
               store, events, records, controls.Keys
      ensures Owned() && Enabled(old(View()), DoStartNext(ok, finishOk))
      ensures View() == Next(old(View()), DoStartNext(ok, finishOk))
      ensures store.log == old(store.log) + StatusCalls(old(View()), DoStartNext(ok, finishOk))
    {
      ok, finishOk := true, true;
      var run := Get();
      assert Keeps(run.runId);
      if run.state == Cancelled {
        return;
      }
      ok, finishOk := Launch(run);
    }

    /** The worker's handler for any exception; a second one ends the worker. */
    method Fail(run: SimulationRun) returns (ok: bool)
      requires Owned() && InRuns(run)
      modifies this`model, this`unsaved, this`worker, run, run.control, store, events
      ensures Owned() && View() == FailRun(old(View()), run.runId, ok)
      ensures store.log == old(store.log) + [StatusCall(run.runId, Failed, ok)]
    {
      ok := FinishRun(run, None, Failed, true);
      worker := if ok then Idle else Gone;
    }

    /** The coroutine of a run, and the game it has recorded. */
    method Advance(run: SimulationRun, timeOut: bool, draws: Draws) returns (ending: Ending, ghost wake: Wake)
      requires Owned() && InRuns(run)
      requires WellPlaced(at, model[run.runId].control, model[run.runId].config)
      requires Simulation.Usable(run.config) && 0 <= draws.action <= 2
      modifies this`model, run`games, run.control
      ensures Owned() && wake.timeOut == timeOut
      ensures
        var before := old(model)[run.runId];
        && model == old(model)[run.runId := Carried(before, at, model[run.runId].control)]
        && Left(ending, model[run.runId].control) == Resumed(at, before.control, before.config.epochs, wake)
        && (Leaves(at, before.control, wake) ==> TurnFits(at.place, before.config, wake.log))
    {
      assert Keeps(run.runId);
      ending, wake := Continue(run.control, at, run.config, timeOut, draws);
      run.games := if at.GameOver? then run.games + [at.log] else run.games;
      model := model[run.runId := run.View()];
      OneRunMoved(run);
    }

    /** The simulation runs to its next await or to its end; the worker has yet to hear of an end. */
    method Proceed(run: SimulationRun, timeOut: bool, draws: Draws) returns (ending: Ending, ghost wake: Wake)
      requires Owned() && InRuns(run) && worker == Executing(run.runId) && Placed(View())
      requires Simulation.Usable(run.config) && 0 <= draws.action <= 2
      modifies this`model, this`at, run`games, run.control
      ensures Owned() && wake.timeOut == timeOut
      ensures Leaves(old(at), old(model)[run.runId].control, wake)
          ==> TurnFits(old(at).place, old(model)[run.runId].config, wake.log)
      ensures Left(ending, model[run.runId].control) == Onward(old(View()), wake)
      ensures View() == Proceeded(old(View()), model[run.runId].control, ending)
    {
      ending, wake := Advance(run, timeOut, draws);
      if ending.Waits? {
        at := ending.at;
      }
    }

    /** The simulation has returned. If the result cannot be saved, the run has failed instead. */
    method Complete(run: SimulationRun) returns (ghost ok: bool, ghost finishOk: bool)
      requires Owned() && InRuns(run) && worker == Executing(run.runId)
      modifies this`model, this`unsaved, this`worker, run, run.control, store, events
      ensures Owned()
      ensures View() == EndCompleted(old(View()), old(model)[run.runId], ok, finishOk)
      ensures store.log == old(store.log) + CallsFor(run.runId, Completed, ok, finishOk)
    {
      finishOk := true;
      assert Keeps(run.runId);
      var finished := FinishRun(run, None, Completed, run.error);
      ok := finished;
      if finished {
        worker := Idle;
      } else {
        finishOk := Fail(run);
      }
    }

    /** The worker's turn while a simulation is executed, whatever is drawn and chosen in it. */
    method GoOn(timeOut: bool, draws: Draws) returns (ghost wake: Wake, ghost ok: bool, ghost finishOk: bool)
      requires Owned() && Placed(View()) && phase == Serving && worker.Executing? && worker.run in runs
      requires Ready(at, model[worker.run].control, timeOut)
      requires Simulation.Usable(model[worker.run].config) && 0 <= draws.action <= 2
      modifies this`model, this`unsaved, this`worker, this`at,
               store, events, records, controls.Keys
      ensures Owned() && wake.timeOut == timeOut && Enabled(old(View()), DoGoOn(wake, ok, finishOk))
      ensures View() == Next(old(View()), DoGoOn(wake, ok, finishOk))
      ensures store.log == old(store.log) + StatusCalls(old(View()), DoGoOn(wake, ok, finishOk))
    {
      ok, finishOk := true, true;
      assert Keeps(worker.run);
      var run := runs[worker.run];
      ghost var before := View();
      var ending;
      ending, wake := Proceed(run, timeOut, draws);
      ghost var control := model[run.runId].control;
      if ending.HasRaised? {
        ok := EndAsCancelled();
      } else if ending.HasReturned? {
        ok, finishOk := Complete(run);
      }
      EndAfterProceeding(before, wake, control, ending, ok, finishOk);
    }

    /** A checkpoint has raised, or the worker task is being cancelled. */
    method EndAsCancelled() returns (ok: bool)
      requires Owned() && worker.Executing? && worker.run in runs
      modifies this`model, this`unsaved, this`worker,
               store, events, records, controls.Keys
      ensures Owned()
      ensures View() == EndCancelled(old(View()), old(model)[old(worker).run], ok)
      ensures store.log == old(store.log) + [StatusCall(old(worker).run, Cancelled, ok)]
    {
      assert Keeps(worker.run);
      var run := runs[worker.run];
      ok := FinishRun(run, None, Cancelled, run.error);
      worker := if ok then Idle else Gone;
    }

    // ---- The active query ----

    /** The first run of the dictionary in one of the given states. */
    method FirstRun(states: set<RunState>) returns (r: Option<RunId>)
      requires Owned()
      ensures r == FirstIn(order, model, states)
    {
      var i := 0;
      assert order[0..] == order;
      while i < |order|
        invariant 0 <= i <= |order|
        invariant FirstIn(order, model, states) == FirstIn(order[i..], model, states)
      {
        assert order[i..][1..] == order[i + 1..];
        assert order[i] in runs ==> Keeps(order[i]);
        if order[i] in runs && runs[order[i]].state in states {
          return Some(order[i]);
        }
        i := i + 1;
      }
      return None;
    }

    method ActiveRequest() returns (r: Option<RunId>)
      requires Owned()
      ensures r == ActiveRun(View())
    {
      r := FirstRun({Running, Paused, Cancelling});
      if r.None? {
        r := FirstRun({Queued});
      }
    }

    // ---- Shutdown ----

    /** The end of the drain, one way or the other: the publisher gets its sentinel. */
    method EndDrain(outcome: Phase)
      requires Owned()
      modifies this`phase, events
      ensures Owned() && events.done == old(events.done)
      ensures View() == CloseEvents(old(View())).(phase := outcome)
    {
      phase := outcome;
      events.pending := events.pending + [None];
    }

    /** Cancel the worker task; a run it executes ends as cancelled. */
    method CancelWorker() returns (ok: bool)
      requires Owned() && (worker.Executing? ==> worker.run in runs)
      modifies this`model, this`unsaved, this`worker, store, events, records, controls.Keys
      ensures Owned()
      ensures View() ==
        (if old(worker).Executing? then EndCancelled(old(View()), old(model)[old(worker).run], ok)
         else old(View())).(worker := Gone)
      ensures store.log
           == old(store.log) + if old(worker).Executing? then [StatusCall(old(worker).run, Cancelled, ok)] else []
    {
      ok := true;
      if worker.Executing? {
        ok := EndAsCancelled();
      }
      worker := Gone;
    }

    /** The first part of the shutdown; after it the queue is drained. */
    method StopWorker() returns (ok: bool)
      requires Owned() && phase == Stopping && (worker.Executing? ==> worker.run in runs)
      modifies this`model, this`unsaved, this`worker, this`phase,
               store, events, records, controls.Keys
      ensures Owned() && Enabled(old(View()), DoInterrupt(ok))
      ensures View() == Next(old(View()), DoInterrupt(ok))
      ensures store.log == old(store.log) + StatusCalls(old(View()), DoInterrupt(ok))
    {
      ok := CancelWorker();
      phase := Draining;
      assert View() == Interrupt(old(View()), ok);
    }

    /** A run that was still queued ends as cancelled, or its exception ends the drain. */
    method CancelDrained(run: SimulationRun) returns (ok: bool)
      requires Owned() && InRuns(run)
      modifies this`model, this`unsaved, this`phase, run, run.control, store, events
      ensures Owned()
      ensures
        var t := Finish(old(View()), run.runId, old(model)[run.runId].(state := Cancelled), ok);
        View() == if ok then t else CloseEvents(t).(phase := Aborted)
      ensures store.log == old(store.log) + [StatusCall(run.runId, Cancelled, ok)]
    {
      assert Keeps(run.runId);
      ok := FinishRun(run, None, Cancelled, run.error);
      if !ok {
        EndDrain(Aborted);
      }
    }

    /** Take one run from the queue and cancel it; an exception ends the drain and closes the publisher. */
    method DrainOne() returns (ok: bool)
      requires Owned() && phase == Draining && queue != []
      modifies this`queue, this`taken, this`model, this`unsaved, this`phase,
               store, events, records, controls.Keys
      ensures Owned() && |queue| < old(|queue|) && Enabled(old(View()), DoDrainNext(ok))
      ensures View() == Next(old(View()), DoDrainNext(ok))
      ensures store.log == old(store.log) + StatusCalls(old(View()), DoDrainNext(ok))
    {
      ok := true;
      IdsOfFirst(queue);
      assert InRuns(queue[0]);
      assert Enabled(View(), DoDrainNext(true)) && Enabled(View(), DoDrainNext(false));
      var run := Get();
      assert Keeps(run.runId);
      if run.state != Cancelled {
        ok := CancelDrained(run);
      }
    }

    method DrainStep(ghost past: seq<Step>) returns (ghost steps: seq<Step>)
      requires Owned() && phase == Draining && queue != []
      requires Legal(NEW_SERVER, past) && View() == After(NEW_SERVER, past) && !events.done
      modifies this`queue, this`taken, this`model, this`unsaved, this`phase,
               store, events, records, controls.Keys
      ensures Owned() && |queue| < old(|queue|) && (phase == Draining || phase == Aborted)
      ensures Legal(NEW_SERVER, steps) && View() == After(NEW_SERVER, steps) && !events.done
    {
      var ok := DrainOne();
      LegalAppend(NEW_SERVER, past, DoDrainNext(ok));
      steps := past + [DoDrainNext(ok)];
    }

    /** The drain loop: until the queue is empty or a store call raises. */
    method DrainQueue(ghost past: seq<Step>) returns (ghost steps: seq<Step>)
      requires Owned() && Legal(NEW_SERVER, past) && View() == After(NEW_SERVER, past) && phase == Draining
      requires !events.done
      modifies this`queue, this`taken, this`model, this`unsaved, this`phase,
               store, events, records, controls.Keys
      ensures Owned() && Legal(NEW_SERVER, steps) && View() == After(NEW_SERVER, steps)
      ensures (phase == Closed || phase == Aborted) && !events.done
    {
      steps := past;
      while phase == Draining && queue != []
        invariant Owned() && Legal(NEW_SERVER, steps) && View() == After(NEW_SERVER, steps)
        invariant (phase == Draining || phase == Aborted) && !events.done
        decreases |queue|
      {
        steps := DrainStep(steps);
      }
      if phase == Draining {
        EndDrain(Closed);
        LegalAppend(NEW_SERVER, steps, DoDrained);
        steps := steps + [DoDrained];
      }
    }

    /** Wait for the publisher to send everything it holds. */
    method AwaitEvents(ghost past: seq<Step>) returns (ghost steps: seq<Step>)
      requires Owned() && Legal(NEW_SERVER, past) && View() == After(NEW_SERVER, past)
      requires Closing(events.View()) && !events.done
      modifies events
      ensures Owned() && Legal(NEW_SERVER, steps) && View() == After(NEW_SERVER, steps)
      ensures events.done && events.sent == old(events.View().All())
    {
      ghost var s := View();
      events.PublishLoop();
      PumpsSendAll(s);
      LegalConcat(NEW_SERVER, past, Pumps(|s.books.events.pending|));
      steps := past + Pumps(|s.books.events.pending|);
      assert events.View() == Publisher([], s.books.events.All(), true);
    }

    /** The worker has been stopped, as one more step of the schedule. */
    method StopStep(ghost past: seq<Step>) returns (ghost steps: seq<Step>)
      requires Owned() && Legal(NEW_SERVER, past) && View() == After(NEW_SERVER, past) && phase == Stopping
      modifies this`model, this`unsaved, this`worker, this`phase,
               store, events, records, controls.Keys
      ensures Owned() && Legal(NEW_SERVER, steps) && View() == After(NEW_SERVER, steps)
      ensures phase == Draining && !events.done
    {
      EveryScheduleIsSafe(past);
      var ok := StopWorker();
      LegalAppend(NEW_SERVER, past, DoInterrupt(ok));
      steps := past + [DoInterrupt(ok)];
      EveryScheduleIsSafe(steps);
    }

    /** Everything after the service loop: stop the worker, drain the queue, send all events. */
    method Shutdown(ghost past: seq<Step>) returns (ghost steps: seq<Step>)
      requires Owned() && Legal(NEW_SERVER, past) && View() == After(NEW_SERVER, past) && phase == Stopping
      modifies this`queue, this`taken, this`model, this`unsaved, this`worker, this`phase,
               store, events, records, controls.Keys
      ensures Owned() && Legal(NEW_SERVER, steps) && View() == After(NEW_SERVER, steps)
      ensures (phase == Closed || phase == Aborted) && events.done && events.sent == View().books.events.All()
    {
      steps := StopStep(past);
      steps := DrainQueue(steps);
      ghost var drained := steps;
      assert Closing(events.View()) by {
        EveryScheduleIsSafe(drained);
      }
      steps := AwaitEvents(steps);
      StoppedSent(steps);
    }

    /** Once the publisher has stopped, nothing is left to send. */
    lemma StoppedSent(steps: seq<Step>)
      requires Legal(NEW_SERVER, steps) && View() == After(NEW_SERVER, steps)
      requires (phase == Closed || phase == Aborted) && events.done
      ensures events.sent == View().books.events.All()
    {
      EveryScheduleIsSafe(steps);
      StoppedHasSentAll(View().books.events);
    }
  }
}
