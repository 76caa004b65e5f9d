/** The run lifecycle as an interleaving of requests, worker turns, failing store calls and shutdown. */
module ServerProtocol {
  import opened Wrappers
  import opened RunControl
  import opened RunAwaits
  import EpisodeRecord
  import Simulation
  import opened EventQueue

  /** Run identifiers are unique tokens. */
  type RunId = nat

  datatype RunState = Queued | Running | Paused | Cancelling | Cancelled | Completed | Failed

  predicate Terminal(state: RunState) {
    state == Cancelled || state == Completed || state == Failed
  }

  predicate Active(state: RunState) {
    state == Running || state == Paused || state == Cancelling
  }

  type Config = Simulation.SimulationConfig

  type Games = seq<EpisodeRecord.Log>

  /** One run: what clients see of it, its controls, its configuration, and the games it has recorded. */
  datatype Run = Run(state: RunState, error: bool, control: Control, config: Config, games: Games)

  datatype Ended = Ended(run: RunId, state: RunState, error: bool)

  datatype Worker = Idle | Executing(run: RunId) | Gone

  /** Serving requests; asked to stop; draining the queue; closed after a full or an aborted drain. */
  datatype Phase = Serving | Stopping | Draining | Closed | Aborted

  /** The submission order of the run dictionary, split into the runs taken from the queue and the queue. */
  datatype Line = Line(
    order: seq<RunId>,
    taken: seq<RunId>,
    queue: seq<RunId>,
    started: seq<RunId>) // the runs the worker has started, oldest first

  /** Persisted status, the runs whose latest store call failed, and the event log. */
  datatype Books = Books(store: map<RunId, RunState>, unsaved: set<RunId>, events: Publisher<Ended>)

  /** `at` is where the run that the worker executes is suspended, if there is one. */
  datatype Server = Server(
    runs: map<RunId, Run>, line: Line, books: Books, worker: Worker, at: Await, phase: Phase)
  {
    function State(id: RunId): RunState
      requires id in runs
    {
      runs[id].state
    }
  }

  const NEW_SERVER :=
    Server(map[], Line([], [], [], []), Books(map[], {}, Publisher([], [], false)), Idle, Probed, Serving)

  // ---- What one store call does ----

  /** A status written, or not: the exception leaves the old one in place. */
  function Write(b: Books, id: RunId, state: RunState, ok: bool): Books {
    if ok then b.(store := b.store[id := state], unsaved := b.unsaved - {id})
    else b.(unsaved := b.unsaved + {id})
  }

  /** The ended event is queued only after the store has accepted the terminal state. */
  function WriteEnd(b: Books, id: RunId, run: Run, ok: bool): Books {
    var c := Write(b, id, run.state, ok);
    if ok then c.(events := Publish(c.events, Ended(id, run.state, run.error))) else c
  }

  /** `set_status` and `mark_started`: a run changes in memory, then in the store if the call succeeds. */
  function Mark(s: Server, id: RunId, run: Run, ok: bool): Server {
    s.(runs := s.runs[id := run], books := Write(s.books, id, run.state, ok))
  }

  /** `_finish_run`, after the run has its terminal state in memory. */
  function Finish(s: Server, id: RunId, run: Run, ok: bool): Server {
    s.(runs := s.runs[id := run], books := WriteEnd(s.books, id, run, ok))
  }

  /** A store error leaves the request handler and with it the service loop. */
  function Escape(s: Server, ok: bool): Server {
    if ok then s else s.(phase := Stopping)
  }

  // ---- Requests ----

  function Submit(s: Server, id: RunId, config: Config, ok: bool): Server {
    if ok then s.(
      runs := s.runs[id := Run(Queued, false, NEW_CONTROL, config, [])],
      line := s.line.(order := s.line.order + [id], queue := s.line.queue + [id]),
      books := s.books.(store := s.books.store[id := Queued]))
    else s.(phase := Stopping)
  }

  datatype RequestError = RunNotFound | InvalidRunState | InvalidRequest | StoreRaised

  function PauseRequest(s: Server, id: RunId, ok: bool): Server {
    if id in s.runs && s.State(id) == Running then
      var run := s.runs[id];
      Escape(Mark(s, id, run.(state := Paused, control := Operate(run.control, Pause)), ok), ok)
    else s
  }

  function ResumeRequest(s: Server, id: RunId, ok: bool): Server {
    if id in s.runs && s.State(id) == Paused then
      var run := s.runs[id];
      Escape(Mark(s, id, run.(state := Running, control := Operate(run.control, Resume)), ok), ok)
    else s
  }

  function CancelRequest(s: Server, id: RunId, ok: bool): Server {
    if id !in s.runs then s
    else
      var run := s.runs[id];
      var control := Operate(run.control, Cancel);
      match run.state
      case Queued => Escape(Finish(s, id, run.(state := Cancelled, control := control), ok), ok)
      case Running => Escape(Mark(s, id, run.(state := Cancelling, control := control), ok), ok)
      case Paused => Escape(Mark(s, id, run.(state := Cancelling, control := control), ok), ok)
      case _ => s
  }

  function DelayRequest(s: Server, id: RunId, ms: Option<int>): Server {
    if id in s.runs && s.State(id) in {Queued, Running, Paused} then
      var run := s.runs[id];
      s.(runs := s.runs[id := run.(control := Operate(run.control, SetMoveDelay(ms)))])
    else s
  }

  // ---- The worker ----

  /** The failure path of the worker; if its store call fails too, the worker is gone. */
  function FailRun(s: Server, id: RunId, ok: bool): Server
    requires id in s.runs
  {
    Finish(s, id, s.runs[id].(state := Failed, error := true), ok).(worker := if ok then Idle else Gone)
  }

  function Take(line: Line): Line
    requires line.queue != []
  {
    line.(queue := line.queue[1..], taken := line.taken + [line.queue[0]])
  }

  /** One turn at the head of the queue: skip a cancelled run, or start a queued one. */
  function StartNext(s: Server, ok: bool, finishOk: bool): Server
    requires s.line.queue != [] && s.line.queue[0] in s.runs
  {
    var id := s.line.queue[0];
    var line := Take(s.line);
    if s.State(id) == Cancelled then s.(line := line)
    else
      var t := s.(line := line.(started := line.started + [id]));
      var u := Mark(t, id, s.runs[id].(state := Running), ok);
      if ok then u.(worker := Executing(id), at := Probed) else FailRun(u, id, finishOk)
  }

  /** The simulation has returned. */
  function EndCompleted(s: Server, run: Run, ok: bool, finishOk: bool): Server
    requires s.worker.Executing?
  {
    var id := s.worker.run;
    var t := Finish(s, id, run.(state := Completed), ok);
    if ok then t.(worker := Idle) else FailRun(t, id, finishOk)
  }

  /** A checkpoint has raised, or the worker task is being cancelled. */
  function EndCancelled(s: Server, run: Run, ok: bool): Server
    requires s.worker.Executing?
  {
    Finish(s, s.worker.run, run.(state := Cancelled), ok).(worker := if ok then Idle else Gone)
  }

  /** What the executed simulation does when it goes on. */
  function Onward(s: Server, wake: Wake): Outcome
    requires s.worker.Executing? && s.worker.run in s.runs
  {
    Resumed(s.at, s.runs[s.worker.run].control, s.runs[s.worker.run].config.epochs, wake)
  }

  /** The record of a run that has gone on: a game that was over has been recorded. */
  function Carried(run: Run, at: Await, control: Control): Run {
    run.(control := control, games := if at.GameOver? then run.games + [at.log] else run.games)
  }

  /** The simulation goes on to its next await, or to its end. */
  function GoOn(s: Server, wake: Wake, ok: bool, finishOk: bool): Server
    requires s.worker.Executing? && s.worker.run in s.runs
  {
    var id := s.worker.run;
    var run := Carried(s.runs[id], s.at, Onward(s, wake).control);
    match Onward(s, wake)
    case Suspended(_, at) => s.(runs := s.runs[id := run], at := at)
    case Raises(_) => EndCancelled(s, run, ok)
    case Returns(_) => EndCompleted(s, run, ok, finishOk)
  }

  // ---- Shutdown ----

  /** Cancelling the worker task ends the run it executes, if any. */
  function Interrupt(s: Server, ok: bool): Server
    requires s.worker.Executing? ==> s.worker.run in s.runs
  {
    (if s.worker.Executing? then EndCancelled(s, s.runs[s.worker.run], ok) else s).(worker := Gone, phase := Draining)
  }

  function DrainNext(s: Server, ok: bool): Server
    requires s.line.queue != [] && s.line.queue[0] in s.runs
  {
    var id := s.line.queue[0];
    var t := s.(line := Take(s.line));
    if s.State(id) == Cancelled then t
    else
      var u := Finish(t, id, s.runs[id].(state := Cancelled), ok);
      if ok then u else CloseEvents(u).(phase := Aborted)
  }

  function CloseEvents(s: Server): Server {
    s.(books := s.books.(events := Close(s.books.events)))
  }

  // ---- All steps ----

  datatype Step =
    | DoSubmit(id: RunId, config: Config, ok: bool)
    | DoPause(id: RunId, ok: bool)
    | DoResume(id: RunId, ok: bool)
    | DoCancel(id: RunId, ok: bool)
    | DoSetMoveDelay(id: RunId, ms: Option<int>)
    | DoStartNext(ok: bool, finishOk: bool)
    | DoGoOn(wake: Wake, ok: bool, finishOk: bool)
    | DoRaiseError(ok: bool)
    | DoStop
    | DoInterrupt(ok: bool)
    | DoDrainNext(ok: bool)
    | DoDrained
    | DoPublish

  ghost predicate Enabled(s: Server, step: Step) {
    match step
    case DoSubmit(id, _, _) => s.phase == Serving && id !in s.runs
    case DoPause(_, _) => s.phase == Serving
    case DoResume(_, _) => s.phase == Serving
    case DoCancel(_, _) => s.phase == Serving
    case DoSetMoveDelay(_, _) => s.phase == Serving
    case DoStartNext(_, _) =>
      s.phase == Serving && s.worker == Idle && s.line.queue != [] && s.line.queue[0] in s.runs
    case DoGoOn(wake, _, _) =>
      && s.phase == Serving && s.worker.Executing? && s.worker.run in s.runs
      && CanWake(s.at, s.runs[s.worker.run].control, s.runs[s.worker.run].config, wake)
    case DoRaiseError(_) => s.phase == Serving && s.worker.Executing? && s.worker.run in s.runs
    case DoStop => s.phase == Serving
    case DoInterrupt(_) => s.phase == Stopping && (s.worker.Executing? ==> s.worker.run in s.runs)
    case DoDrainNext(_) => s.phase == Draining && s.line.queue != [] && s.line.queue[0] in s.runs
    case DoDrained => s.phase == Draining && s.line.queue == []
    case DoPublish => !s.books.events.done && s.books.events.pending != []
  }

  function Next(s: Server, step: Step): Server
    requires Enabled(s, step)
  {
    match step
    case DoSubmit(id, config, ok) => Submit(s, id, config, ok)
    case DoPause(id, ok) => PauseRequest(s, id, ok)
    case DoResume(id, ok) => ResumeRequest(s, id, ok)
    case DoCancel(id, ok) => CancelRequest(s, id, ok)
    case DoSetMoveDelay(id, ms) => DelayRequest(s, id, ms)
    case DoStartNext(ok, finishOk) => StartNext(s, ok, finishOk)
    case DoGoOn(wake, ok, finishOk) => GoOn(s, wake, ok, finishOk)
    case DoRaiseError(ok) => FailRun(s, s.worker.run, ok)
    case DoStop => s.(phase := Stopping)
    case DoInterrupt(ok) => Interrupt(s, ok)
    case DoDrainNext(ok) => DrainNext(s, ok)
    case DoDrained => CloseEvents(s).(phase := Closed)
    case DoPublish => s.(books := s.books.(events := Pump(s.books.events)))
  }

  ghost predicate Legal(s: Server, steps: seq<Step>)
    decreases |steps|
  {
    steps == [] || (Enabled(s, steps[0]) && Legal(Next(s, steps[0]), steps[1..]))
  }

  function After(s: Server, steps: seq<Step>): Server
    requires Legal(s, steps)
    decreases |steps|
  {
    if steps == [] then s else After(Next(s, steps[0]), steps[1..])
  }
}
